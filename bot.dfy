/** The bot process of index.js: the session map `parties`, the global
    `devMode` flag, the `joueurs` statistics and the `historique_parties`
    log, with one method per slash command and per button handler. Each
    handler runs to completion before the next one starts. */
module Bot {
  import opened Roster
  import opened Sessions
  import opened Ledger
  import EloRecompute

  /** A text channel identifier; it keys `parties`. */
  type ChannelId = string

  /** One document of `historique_parties` (index.js:157-162); the `date`
      field is left out. */
  datatype GameRecord = GameRecord(blue: Team, red: Team, winner: TeamName)

  /** What the handler tells the clicking user: a refusal with its reason, an
      acknowledgement, or nothing at all. */
  datatype Reply = Refused(error: Error) | Accepted | Silent

  /** The two checks every button click passes first (index.js:298-306): the
      channel has a session, and that session is not finished. */
  function ButtonGuard(parties: map<ChannelId, Session>, c: ChannelId): (g: Option<Error>)
    ensures g == None <==> c in parties && !parties[c].finished
    ensures g == Some(NoActiveSession) <==> c !in parties
    ensures g == Some(SessionFinished) <==> c in parties && parties[c].finished
  {
    if c !in parties then Some(NoActiveSession)
    else if parties[c].finished then Some(SessionFinished)
    else None
  }

  /** Every session that was finished is still there and still finished. */
  ghost predicate FinishedStays(before: map<ChannelId, Session>, after: map<ChannelId, Session>)
  {
    forall c :: c in before && before[c].finished ==> c in after && after[c].finished
  }

  /** No queue holds more than ten players. */
  ghost predicate QueuesBounded(parties: map<ChannelId, Session>)
  {
    forall c :: c in parties && parties[c].queue.Some? ==> |parties[c].queue.value| <= 10
  }

  /** `team` after the first `k` roles of the role order took the mentions
      of the first `k` ids, one role at a time. */
  function SeatPrefix(team: Team, ids: seq<PlayerId>, k: nat): Team
    requires k <= 5 && |ids| == 5
  {
    if k == 0 then team
    else SeatPrefix(team, ids, k - 1)[RoleOrder[k - 1] := Some(Mention(ids[k - 1]))]
  }

  /** Five steps seat all five roles, as `Sessions.SeatFive` does at once. */
  lemma SeatPrefixFive(team: Team, ids: seq<PlayerId>)
    requires |ids| == 5
    ensures SeatPrefix(team, ids, 5) == SeatFive(team, ids)
  {
    assert SeatPrefix(team, ids, 1) == team[TOP := Some(Mention(ids[0]))];
    assert SeatPrefix(team, ids, 3) == SeatPrefix(team, ids, 1)[JGL := Some(Mention(ids[1]))][MID := Some(Mention(ids[2]))];
    assert SeatPrefix(team, ids, 5) == SeatPrefix(team, ids, 3)[ADC := Some(Mention(ids[3]))][SUPP := Some(Mention(ids[4]))];
  }

  class DraftBot {
    var parties: map<ChannelId, Session>
    var devMode: bool
    /** The `joueurs` collection, keyed by the mention string. */
    var ledger: Store
    /** The `historique_parties` collection, oldest first. */
    var history: seq<GameRecord>

    ghost predicate Valid()
      reads this
    {
      QueuesBounded(parties)
    }

    /** The process starts with no session and dev mode off (index.js:8-9);
        the two collections are whatever the store already holds. */
    constructor (stored: Store, past: seq<GameRecord>)
      ensures Valid()
      ensures parties == map[] && !devMode && ledger == stored && history == past
    {
      parties := map[];
      devMode := false;
      ledger := stored;
      history := past;
    }

    /** `/new_game` (index.js:185-192): the channel's session, finished or
        not, is replaced by a fresh manual draft. */
    method NewGame(c: ChannelId)
      requires Valid()
      modifies this
      ensures Valid()
      ensures parties == old(parties)[c := NewManualGame()]
      ensures devMode == old(devMode) && ledger == old(ledger) && history == old(history)
    {
      parties := parties[c := NewManualGame()];
    }

    /** `/random_game` (index.js:204-214): the channel's session is replaced
        by an empty queue. */
    method RandomGame(c: ChannelId)
      requires Valid()
      modifies this
      ensures Valid()
      ensures parties == old(parties)[c := NewRandomGame()]
      ensures devMode == old(devMode) && ledger == old(ledger) && history == old(history)
    {
      parties := parties[c := NewRandomGame()];
    }

    /** `/assign_role` (index.js:244-262): refused without a session or on a
        taken seat; it does not look at `finished`. */
    method AssignRole(c: ChannelId, target: PlayerId, team: TeamName, role: Role) returns (reply: Reply)
      requires Valid()
      modifies this
      ensures Valid() && FinishedStays(old(parties), parties)
      ensures c !in old(parties) ==> reply == Refused(NoActiveSession) && parties == old(parties)
      ensures c in old(parties) && old(parties)[c].Seat(team, role).Some? ==>
                reply == Refused(RoleOccupied) && parties == old(parties)
      ensures c in old(parties) && old(parties)[c].Seat(team, role).None? ==>
                reply == Accepted &&
                parties == old(parties)[c := Sessions.AssignRole(old(parties)[c], target, team, role).value]
      ensures devMode == old(devMode) && ledger == old(ledger) && history == old(history)
    {
      if c !in parties {
        return Refused(NoActiveSession);
      }
      var s := parties[c];
      var own := s.TeamOf(team);
      if role in own && own[role].Some? {
        return Refused(RoleOccupied);
      }
      parties := parties[c := s.WithTeam(team, own[role := Some(Mention(target))])];
      reply := Accepted;
    }

    /** `/dev_on` (index.js:265-273): dev mode is switched on exactly when
        the password equals the configured secret; an unset secret matches
        no password. */
    method DevOn(password: string, secret: Option<string>) returns (reply: Reply)
      requires Valid()
      modifies this
      ensures Valid()
      ensures secret == Some(password) ==> devMode && reply == Accepted
      ensures secret != Some(password) ==> devMode == old(devMode) && reply == Refused(WrongPassword)
      ensures parties == old(parties) && ledger == old(ledger) && history == old(history)
    {
      if secret == Some(password) {
        devMode := true;
        reply := Accepted;
      } else {
        reply := Refused(WrongPassword);
      }
    }

    /** `/dev_off` issued in channel `c` (index.js:276-286). It re-renders
        that channel's session, if any; which WIN buttons that render shows
        is `WinShown`. A session whose team objects have no keys yet shows
        them, although the intended gate `WinIntended` hides them. */
    method DevOff(c: ChannelId)
      requires Valid()
      modifies this
      ensures Valid() && !devMode
      ensures parties == old(parties) && ledger == old(ledger) && history == old(history)
      ensures c in parties && parties[c].blue == map[] && parties[c].red == map[] ==>
                WinShown(c) && !WinIntended(c)
    {
      devMode := false;
      WinGateAsWrittenOnEmptyRandomGame();
    }

    /** Whether a render of channel `c` shows the WIN row, with the check
        index.js:517 makes (index.js:540). */
    predicate WinShown(c: ChannelId)
      reads this
      requires c in parties
    {
      WinButtonsOfferedAsWritten(parties[c].blue, parties[c].red, devMode)
    }

    /** The WIN row as intended: all ten seats filled, or dev mode
        (index.js:539). */
    predicate WinIntended(c: ChannelId)
      reads this
      requires c in parties
    {
      WinButtonsOffered(parties[c].blue, parties[c].red, devMode)
    }

    /** The `join_random` button (index.js:298-322). The handler reads
        `players` of whatever session the channel has, so it is only given
        random games. */
    method JoinRandom(c: ChannelId, user: PlayerId) returns (reply: Reply)
      requires Valid()
      requires ButtonGuard(parties, c) == None ==> parties[c].queue.Some?
      modifies this
      ensures Valid() && FinishedStays(old(parties), parties)
      ensures ButtonGuard(old(parties), c).Some? ==>
                reply == Refused(ButtonGuard(old(parties), c).value) && parties == old(parties)
      ensures ButtonGuard(old(parties), c) == None ==>
                var r := JoinQueue(old(parties)[c], user, devMode);
                (r.Err? ==> reply == Refused(r.error) && parties == old(parties)) &&
                (r.Ok? ==> reply == Accepted && parties == old(parties)[c := r.value])
      ensures devMode == old(devMode) && ledger == old(ledger) && history == old(history)
    {
      var g := ButtonGuard(parties, c);
      if g.Some? {
        return Refused(g.value);
      }
      var s := parties[c];
      var q := s.queue.value;
      if !devMode && user in q {
        return Refused(AlreadyQueued);
      }
      if |q| >= 10 {
        return Refused(QueueFull);
      }
      parties := parties[c := s.(queue := Some(q + [user]))];
      reply := Accepted;
    }

    /** The `leave_queue` button (index.js:392-401), given random games only
        for the same reason as `JoinRandom`. */
    method LeaveQueue(c: ChannelId, user: PlayerId) returns (reply: Reply)
      requires Valid()
      requires ButtonGuard(parties, c) == None ==> parties[c].queue.Some?
      modifies this
      ensures Valid() && FinishedStays(old(parties), parties)
      ensures ButtonGuard(old(parties), c).Some? ==>
                reply == Refused(ButtonGuard(old(parties), c).value) && parties == old(parties)
      ensures ButtonGuard(old(parties), c) == None ==>
                var r := Sessions.LeaveQueue(old(parties)[c], user);
                (r.Err? ==> reply == Refused(r.error) && parties == old(parties)) &&
                (r.Ok? ==> reply == Accepted && parties == old(parties)[c := r.value])
      ensures devMode == old(devMode) && ledger == old(ledger) && history == old(history)
    {
      var g := ButtonGuard(parties, c);
      if g.Some? {
        return Refused(g.value);
      }
      var s := parties[c];
      var q := s.queue.value;
      var i := IndexOf(q, user);
      if i == -1 {
        return Refused(NotQueued);
      }
      parties := parties[c := s.(queue := Some(q[..i] + q[i + 1..]))];
      reply := Accepted;
    }

    /** The `form_teams` button (index.js:360-387). `shuffled` stands for
        the random reordering of the queue the handler draws. */
    method FormTeams(c: ChannelId, shuffled: seq<PlayerId>) returns (reply: Reply)
      requires Valid()
      requires ButtonGuard(parties, c) == None && parties[c].queue.Some? && |parties[c].queue.value| == 10 ==>
                 multiset(shuffled) == multiset(parties[c].queue.value)
      modifies this
      ensures Valid() && FinishedStays(old(parties), parties)
      ensures ButtonGuard(old(parties), c).Some? ==>
                reply == Refused(ButtonGuard(old(parties), c).value) && parties == old(parties)
      ensures ButtonGuard(old(parties), c) == None ==>
                var r := Sessions.FormTeams(old(parties)[c], shuffled);
                (r.Err? ==> reply == Refused(r.error) && parties == old(parties)) &&
                (r.Ok? ==> reply == Accepted && parties == old(parties)[c := r.value] &&
                           WinShown(c) && WinIntended(c))
      ensures devMode == old(devMode) && ledger == old(ledger) && history == old(history)
    {
      var g := ButtonGuard(parties, c);
      if g.Some? {
        return Refused(g.value);
      }
      var s := parties[c];
      if !(s.queue.Some? && |s.queue.value| == 10) {
        return Refused(QueueNotFull);
      }
      assert |multiset(shuffled)| == 10;
      var blue, red := s.blue, s.red;
      for k := 0 to 5
        invariant blue == SeatPrefix(s.blue, shuffled[..5], k)
        invariant red == SeatPrefix(s.red, shuffled[5..], k)
      {
        blue := blue[RoleOrder[k] := Some(Mention(shuffled[k]))];
        red := red[RoleOrder[k] := Some(Mention(shuffled[5 + k]))];
      }
      SeatPrefixFive(s.blue, shuffled[..5]);
      SeatPrefixFive(s.red, shuffled[5..]);
      parties := parties[c := s.(blue := blue, red := red, queue := Some([]))];
      WinGateAfterCreationAndForming(s, shuffled, devMode);
      AllRolesFilledAgreesOnCompleteTeams(parties[c].blue, parties[c].red);
      reply := Accepted;
    }

    /** A role button `team_role` (index.js:467-489): the checks of
        `Sessions.ClaimRole`, then the seat write, all on the live session. */
    method ClaimRole(c: ChannelId, user: PlayerId, team: TeamName, role: Role) returns (reply: Reply)
      requires Valid()
      modifies this
      ensures Valid() && FinishedStays(old(parties), parties)
      ensures ButtonGuard(old(parties), c).Some? ==>
                reply == Refused(ButtonGuard(old(parties), c).value) && parties == old(parties)
      ensures ButtonGuard(old(parties), c) == None ==>
                var r := Sessions.ClaimRole(old(parties)[c], user, team, role, devMode);
                (r.Ignored? ==> reply == Silent && parties == old(parties)) &&
                (r.Rejected? ==> reply == Refused(r.error) && parties == old(parties)) &&
                ((r.Released? || r.Taken?) ==> reply == Accepted && parties == old(parties)[c := r.after])
      ensures ButtonGuard(old(parties), c) == None && !devMode && Exclusive(old(parties)[c]) ==>
                Exclusive(parties[c])
      ensures devMode == old(devMode) && ledger == old(ledger) && history == old(history)
    {
      var g := ButtonGuard(parties, c);
      if g.Some? {
        return Refused(g.value);
      }
      var s := parties[c];
      if !(s.queue.None? || s.queue.value == []) {
        return Silent;
      }
      var m := Mention(user);
      if !devMode && Holds(s.TeamOf(Opposite(team)), m) {
        return Refused(CrossTeamConflict);
      }
      var own := s.TeamOf(team);
      var holder := SlotOf(own, role);
      if holder.Some? && holder != Some(m) {
        return Refused(RoleOccupied);
      }
      if holder == Some(m) {
        parties := parties[c := s.WithTeam(team, own[role := None])];
        reply := Accepted;
      } else if !devMode && Holds(own, m) {
        reply := Refused(AlreadyOnTeam);
      } else {
        parties := parties[c := s.WithTeam(team, own[role := Some(m)])];
        reply := Accepted;
      }
      if !devMode && Exclusive(s) {
        ClaimKeepsExclusive(s, user, team, role);
      }
    }

    /** A WIN button `team_WIN` (index.js:439-444, then `enregistrerPartie`
        at 154-172): the session is marked finished, the game is appended to
        the history, and every filled seat of both teams is credited in the
        statistics. */
    method Win(c: ChannelId, team: TeamName) returns (reply: Reply)
      requires Valid()
      modifies this
      ensures Valid() && FinishedStays(old(parties), parties)
      ensures ButtonGuard(old(parties), c).Some? ==>
                reply == Refused(ButtonGuard(old(parties), c).value) &&
                parties == old(parties) && ledger == old(ledger) && history == old(history)
      ensures ButtonGuard(old(parties), c) == None ==>
                var s := old(parties)[c];
                reply == Accepted &&
                parties == old(parties)[c := s.(finished := true)] &&
                history == old(history) + [GameRecord(s.blue, s.red, team)] &&
                ledger == GameStats(old(ledger), s.TeamOf(team), s.TeamOf(Opposite(team)))
      ensures EloRecompute.Consistent(old(ledger)) ==> EloRecompute.Consistent(ledger)
      ensures devMode == old(devMode)
    {
      var g := ButtonGuard(parties, c);
      if g.Some? {
        return Refused(g.value);
      }
      var s := parties[c];
      parties := parties[c := s.(finished := true)];
      history := history + [GameRecord(s.blue, s.red, team)];
      var before := ledger;
      ledger := RecordStats(ledger, s.TeamOf(team), s.TeamOf(Opposite(team)));
      if EloRecompute.Consistent(before) {
        EloRecompute.GameStatsKeepsConsistent(before, s.TeamOf(team), s.TeamOf(Opposite(team)));
      }
      reply := Accepted;
    }
  }
}
