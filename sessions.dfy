/** One draft session (`parties[channelId]` in index.js) and the transitions
    the command and button handlers apply to it, as functions of the old
    session. */
module Sessions {
  import opened Roster

  /** `{ Blue, Red, players?, messageId, finished }` (index.js:187-192,
      208-214). `queue` is `players`: `None` for a manual draft, whose object
      has no `players` key; `messageId` is display state and is left out. */
  datatype Session = Session(blue: Team, red: Team, queue: Option<seq<PlayerId>>, finished: bool)
  {
    function TeamOf(t: TeamName): Team
    {
      if t == Blue then blue else red
    }

    /** The value of seat `(t, r)`. */
    function Seat(t: TeamName, r: Role): Option<string>
    {
      SlotOf(TeamOf(t), r)
    }

    function WithTeam(t: TeamName, team: Team): (s: Session)
      ensures s.TeamOf(t) == team && s.TeamOf(Opposite(t)) == TeamOf(Opposite(t))
      ensures s.queue == queue && s.finished == finished
    {
      if t == Blue then this.(blue := team) else this.(red := team)
    }
  }

  datatype Error =
    | NoActiveSession | SessionFinished
    | AlreadyQueued | QueueFull | NotQueued | QueueNotFull
    | CrossTeamConflict | RoleOccupied | AlreadyOnTeam
    | WrongPassword

  datatype Result<T> = Ok(value: T) | Err(error: Error)

  /** Writing seat `(t, r)` changes that seat and no other. */
  lemma SeatAfterWrite(s: Session, t: TeamName, r: Role, v: Option<string>, t': TeamName, r': Role)
    ensures s.WithTeam(t, s.TeamOf(t)[r := v]).Seat(t', r') ==
              if t' == t && r' == r then v else s.Seat(t', r')
  {
  }

  /** No player sits in two seats, on the same team or across teams. */
  predicate Exclusive(s: Session)
  {
    forall t1, r1, t2, r2 :: s.Seat(t1, r1).Some? && s.Seat(t1, r1) == s.Seat(t2, r2) ==> t1 == t2 && r1 == r2
  }

  predicate NoDup(q: seq<PlayerId>)
  {
    forall i, j :: 0 <= i < j < |q| ==> q[i] != q[j]
  }

  /** `new_game` (index.js:185-192): ten empty seats, every key present. */
  function NewManualGame(): (s: Session)
    ensures s.queue == None && !s.finished
    ensures Complete(s.blue) && Complete(s.red)
    ensures forall t, r :: s.Seat(t, r) == None
  {
    FiveKeysComplete(EmptyTeam);
    Session(EmptyTeam, EmptyTeam, None, false)
  }

  /** `random_game` (index.js:204-214): an empty queue and two team objects
      without any key. */
  function NewRandomGame(): (s: Session)
    ensures s.queue == Some([]) && !s.finished
    ensures s.blue == map[] && s.red == map[]
    ensures forall t, r :: s.Seat(t, r) == None
  {
    Session(map[], map[], Some([]), false)
  }

  /** `players.indexOf(id)` (index.js:394): the first position holding `id`,
      or -1. */
  function IndexOf(q: seq<PlayerId>, id: PlayerId): (i: int)
    ensures -1 <= i < |q|
    ensures i == -1 <==> id !in q
    ensures 0 <= i ==> i < |q| && q[i] == id && id !in q[..i]
  {
    if q == [] then -1
    else if q[0] == id then 0
    else
      var k := IndexOf(q[1..], id);
      if k == -1 then -1
      else
        assert q[..k + 1] == [q[0]] + q[1..][..k];
        k + 1
  }

  /** Joining the queue (index.js:308-322). Outside dev mode a queued player
      is refused; a queue holding ten is refused; otherwise exactly that id is
      appended at the end, so the queue never holds more than ten. */
  function JoinQueue(s: Session, user: PlayerId, devMode: bool): (r: Result<Session>)
    requires s.queue.Some?
    ensures r.Ok? <==> (devMode || user !in s.queue.value) && |s.queue.value| < 10
    ensures r.Err? ==> r.error == (if !devMode && user in s.queue.value then AlreadyQueued else QueueFull)
    ensures r.Ok? ==> r.value.queue.Some? && |r.value.queue.value| == |s.queue.value| + 1 <= 10
    ensures r.Ok? ==> r.value.queue.value[..|s.queue.value|] == s.queue.value
    ensures r.Ok? ==> r.value.queue.value[|s.queue.value|] == user
    ensures r.Ok? ==> r.value.blue == s.blue && r.value.red == s.red && r.value.finished == s.finished
  {
    var q := s.queue.value;
    if !devMode && user in q then Err(AlreadyQueued)
    else if |q| >= 10 then Err(QueueFull)
    else Ok(s.(queue := Some(q + [user])))
  }

  /** Outside dev mode, joining keeps the queue free of duplicates. */
  lemma JoinKeepsNoDup(s: Session, user: PlayerId)
    requires s.queue.Some? && NoDup(s.queue.value)
    requires JoinQueue(s, user, false).Ok?
    ensures NoDup(JoinQueue(s, user, false).value.queue.value)
  {
    var q := s.queue.value;
    var q' := JoinQueue(s, user, false).value.queue.value;
    assert q' == q + [user];
    forall i, j | 0 <= i < j < |q'| ensures q'[i] != q'[j] {
      if j == |q| { assert q'[i] == q[i]; assert q[i] in q; }
    }
  }

  /** On a full queue every join is refused, whoever asks: the eleventh
      distinct player gets `QueueFull`. */
  lemma EleventhJoinRefused(s: Session, user: PlayerId, devMode: bool)
    requires s.queue.Some? && |s.queue.value| == 10
    ensures JoinQueue(s, user, devMode).Err?
    ensures user !in s.queue.value ==> JoinQueue(s, user, devMode) == Err(QueueFull)
  {
  }

  /** Leaving the queue (index.js:392-401): refused when the player is not
      queued; otherwise the first occurrence of the id is removed and the
      other entries keep their relative order. */
  function LeaveQueue(s: Session, user: PlayerId): (r: Result<Session>)
    requires s.queue.Some?
    ensures r.Err? <==> user !in s.queue.value
    ensures r.Err? ==> r.error == NotQueued
    ensures r.Ok? ==> r.value.queue.Some? &&
                      exists i :: 0 <= i < |s.queue.value| && s.queue.value[i] == user && user !in s.queue.value[..i] &&
                          r.value.queue.value == s.queue.value[..i] + s.queue.value[i + 1..]
    ensures r.Ok? ==> multiset(r.value.queue.value) == multiset(s.queue.value) - multiset{user}
    ensures r.Ok? ==> r.value.blue == s.blue && r.value.red == s.red && r.value.finished == s.finished
  {
    var q := s.queue.value;
    var i := IndexOf(q, user);
    if i == -1 then Err(NotQueued)
    else
      assert q == q[..i] + [q[i]] + q[i + 1..];
      Ok(s.(queue := Some(q[..i] + q[i + 1..])))
  }

  /** Leaving keeps the queue free of duplicates. */
  lemma LeaveKeepsNoDup(s: Session, user: PlayerId)
    requires s.queue.Some? && NoDup(s.queue.value)
    requires LeaveQueue(s, user).Ok?
    ensures NoDup(LeaveQueue(s, user).value.queue.value)
  {
    var q := s.queue.value;
    var i := IndexOf(q, user);
    var q' := q[..i] + q[i + 1..];
    assert LeaveQueue(s, user).value.queue.value == q';
    forall a, b | 0 <= a < b < |q'| ensures q'[a] != q'[b] {
      var a' := if a < i then a else a + 1;
      var b' := if b < i then b else b + 1;
      assert q'[a] == q[a'] && q'[b] == q[b'];
    }
  }

  /** The seat order `form_teams` fills: Blue's five roles take
      `shuffled[0..4]`, Red's take `shuffled[5..9]` (index.js:368-376). */
  function SeatIndex(t: TeamName, r: Role): (i: nat)
    ensures i < 10 && RoleOrder[i % 5] == r
    ensures (t == Blue) == (i < 5)
  {
    (if t == Blue then 0 else 5) +
    match r
    case TOP => 0
    case JGL => 1
    case MID => 2
    case ADC => 3
    case SUPP => 4
  }

  /** Distinct seats read distinct shuffled entries. */
  lemma SeatIndexInjective(t1: TeamName, r1: Role, t2: TeamName, r2: Role)
    ensures SeatIndex(t1, r1) == SeatIndex(t2, r2) <==> t1 == t2 && r1 == r2
  {
  }

  /** Seats the five given players in role order on an existing team object. */
  function SeatFive(team: Team, ids: seq<PlayerId>): Team
    requires |ids| == 5
  {
    team[TOP := Some(Mention(ids[0]))][JGL := Some(Mention(ids[1]))][MID := Some(Mention(ids[2]))]
        [ADC := Some(Mention(ids[3]))][SUPP := Some(Mention(ids[4]))]
  }

  /** Random team forming (index.js:360-387), given the shuffled copy of the
      queue: refused unless the queue holds exactly ten entries; otherwise
      seat `(t, r)` takes the mention of `shuffled[SeatIndex(t, r)]` and the
      queue is emptied. */
  function FormTeams(s: Session, shuffled: seq<PlayerId>): (r: Result<Session>)
    requires s.queue.Some? && |s.queue.value| == 10 ==> multiset(shuffled) == multiset(s.queue.value)
    ensures r.Err? <==> !(s.queue.Some? && |s.queue.value| == 10)
    ensures r.Err? ==> r.error == QueueNotFull
    ensures r.Ok? ==> r.value.queue == Some([]) && r.value.finished == s.finished
    ensures r.Ok? ==> Complete(r.value.blue) && Complete(r.value.red)
    ensures r.Ok? ==> |shuffled| == 10 &&
                      forall t, ro :: r.value.Seat(t, ro) == Some(Mention(shuffled[SeatIndex(t, ro)]))
  {
    if !(s.queue.Some? && |s.queue.value| == 10) then Err(QueueNotFull)
    else
      assert |multiset(shuffled)| == 10;
      FiveKeysComplete(SeatFive(s.blue, shuffled[..5]));
      FiveKeysComplete(SeatFive(s.red, shuffled[5..]));
      Ok(s.(blue := SeatFive(s.blue, shuffled[..5]), red := SeatFive(s.red, shuffled[5..]), queue := Some([])))
  }

  /** The ten seats, Blue's five then Red's five, in role order. */
  function TenSeats(s: Session): (seats: seq<Option<string>>)
    ensures |seats| == 10
    ensures forall t, r :: seats[SeatIndex(t, r)] == s.Seat(t, r)
  {
    [s.Seat(Blue, TOP), s.Seat(Blue, JGL), s.Seat(Blue, MID), s.Seat(Blue, ADC), s.Seat(Blue, SUPP),
     s.Seat(Red, TOP), s.Seat(Red, JGL), s.Seat(Red, MID), s.Seat(Red, ADC), s.Seat(Red, SUPP)]
  }

  /** After forming, the ten seats hold exactly the mentions of the queued
      players: a permutation of the queue. */
  lemma FormTeamsSeatsPermuteQueue(s: Session, shuffled: seq<PlayerId>)
    requires s.queue.Some? && |s.queue.value| == 10 && multiset(shuffled) == multiset(s.queue.value)
    ensures FormTeams(s, shuffled).Ok?
    ensures multiset(TenSeats(FormTeams(s, shuffled).value)) == multiset(Seated(s.queue.value))
  {
    var s' := FormTeams(s, shuffled).value;
    var seats := TenSeats(s');
    forall i | 0 <= i < 10 ensures seats[i] == Seated(shuffled)[i] {
      SeatedAt(shuffled, i);
      var t := if i < 5 then Blue else Red;
      var r := RoleOrder[i % 5];
      assert SeatIndex(t, r) == i;
    }
    assert seats == Seated(shuffled);
    SeatedPermutation(shuffled, s.queue.value);
  }

  /** Two equal entries at distinct positions count twice. */
  lemma DuplicateCountsTwice(q: seq<PlayerId>, i: int, j: int)
    requires 0 <= i < j < |q| && q[i] == q[j]
    ensures multiset(q)[q[i]] >= 2
  {
    assert q == q[..i] + [q[i]] + q[i + 1..j] + [q[j]] + q[j + 1..];
  }

  lemma {:induction false} NoDupCountsOnce(q: seq<PlayerId>, x: PlayerId)
    requires NoDup(q)
    ensures multiset(q)[x] <= 1
  {
    if q != [] {
      assert q == [q[0]] + q[1..];
      NoDupCountsOnce(q[1..], x);
      if q[0] == x {
        assert x !in q[1..] by {
          forall k | 0 <= k < |q[1..]| ensures q[1..][k] != x { assert q[1..][k] == q[k + 1]; }
        }
      }
    }
  }

  /** A manual draft starts with the WIN buttons hidden unless dev mode is
      on; a successful random forming fills all ten seats, so they are
      offered. */
  lemma WinGateAfterCreationAndForming(s: Session, shuffled: seq<PlayerId>, devMode: bool)
    requires s.queue.Some? && |s.queue.value| == 10 ==> multiset(shuffled) == multiset(s.queue.value)
    ensures WinButtonsOffered(NewManualGame().blue, NewManualGame().red, devMode) <==> devMode
    ensures WinButtonsOfferedAsWritten(NewManualGame().blue, NewManualGame().red, devMode) <==> devMode
    ensures FormTeams(s, shuffled).Ok? ==>
              WinButtonsOffered(FormTeams(s, shuffled).value.blue, FormTeams(s, shuffled).value.red, devMode)
  {
    assert NewManualGame().Seat(Blue, TOP) == None;
    assert NewManualGame().blue[TOP] == None;
    if FormTeams(s, shuffled).Ok? {
      var s' := FormTeams(s, shuffled).value;
      forall r ensures SlotOf(s'.blue, r).Some? && SlotOf(s'.red, r).Some? {
        assert s'.Seat(Blue, r).Some? && s'.Seat(Red, r).Some?;
      }
    }
  }

  /** Random forming from a queue of distinct players seats ten distinct
      players, so no player holds two seats. */
  lemma FormTeamsExclusive(s: Session, shuffled: seq<PlayerId>)
    requires s.queue.Some? && |s.queue.value| == 10 && multiset(shuffled) == multiset(s.queue.value)
    requires NoDup(s.queue.value)
    ensures FormTeams(s, shuffled).Ok?
    ensures Exclusive(FormTeams(s, shuffled).value)
  {
    var s' := FormTeams(s, shuffled).value;
    assert NoDup(shuffled) by {
      forall i, j | 0 <= i < j < |shuffled| ensures shuffled[i] != shuffled[j] {
        if shuffled[i] == shuffled[j] {
          DuplicateCountsTwice(shuffled, i, j);
          NoDupCountsOnce(s.queue.value, shuffled[i]);
        }
      }
    }
    forall t1, r1, t2, r2 | s'.Seat(t1, r1).Some? && s'.Seat(t1, r1) == s'.Seat(t2, r2)
      ensures t1 == t2 && r1 == r2
    {
      var i, j := SeatIndex(t1, r1), SeatIndex(t2, r2);
      MentionInjective(shuffled[i], shuffled[j]);
      assert shuffled[i] == shuffled[j];
      assert i == j;
      assert RoleOrder[i % 5] == r1 && RoleOrder[j % 5] == r2;
    }
  }

  /** What a role-button click does (index.js:467-489). */
  datatype ClaimOutcome =
    | Rejected(error: Error)
    | Released(after: Session)
    | Taken(after: Session)
    | Ignored

  /** The claim path is entered for a manual draft, or for a random game
      whose queue is empty (index.js:467). */
  predicate Claimable(s: Session)
  {
    s.queue.None? || s.queue.value == []
  }

  /** A role-button click `team_role` by `user` (index.js:467-489). The checks
      run in order: a seat on the opposite team refuses (outside dev mode);
      a seat held by someone else refuses (even in dev mode); the player's
      own seat is released; another seat on the same team refuses (outside
      dev mode); otherwise the player takes the seat. */
  function ClaimRole(s: Session, user: PlayerId, team: TeamName, role: Role, devMode: bool): (r: ClaimOutcome)
    ensures r.Ignored? <==> !Claimable(s)
    ensures r == Rejected(CrossTeamConflict) <==>
              Claimable(s) && !devMode && Holds(s.TeamOf(Opposite(team)), Mention(user))
    ensures r == Rejected(RoleOccupied) ==>
              s.Seat(team, role).Some? && s.Seat(team, role) != Some(Mention(user))
    ensures r == Rejected(AlreadyOnTeam) ==>
              !devMode && s.Seat(team, role).None? && Holds(s.TeamOf(team), Mention(user))
    ensures r.Rejected? ==> r.error in {CrossTeamConflict, RoleOccupied, AlreadyOnTeam}
    ensures devMode ==> r.Rejected? ==> r.error == RoleOccupied
    ensures r.Released? <==>
              Claimable(s) && !(!devMode && Holds(s.TeamOf(Opposite(team)), Mention(user))) &&
              s.Seat(team, role) == Some(Mention(user))
    ensures r.Released? ==> r.after == s.WithTeam(team, s.TeamOf(team)[role := None])
    ensures r.Taken? ==> s.Seat(team, role).None? &&
                         r.after == s.WithTeam(team, s.TeamOf(team)[role := Some(Mention(user))])
    ensures r.Taken? && !devMode ==>
              !Holds(s.TeamOf(team), Mention(user)) && !Holds(s.TeamOf(Opposite(team)), Mention(user))
  {
    if !Claimable(s) then Ignored
    else
      var m := Mention(user);
      var own := s.TeamOf(team);
      if !devMode && Holds(s.TeamOf(Opposite(team)), m) then Rejected(CrossTeamConflict)
      else if SlotOf(own, role).Some? && SlotOf(own, role) != Some(m) then Rejected(RoleOccupied)
      else if SlotOf(own, role) == Some(m) then Released(s.WithTeam(team, own[role := None]))
      else if !devMode && Holds(own, m) then Rejected(AlreadyOnTeam)
      else Taken(s.WithTeam(team, own[role := Some(m)]))
  }

  /** Outside dev mode, every successful claim or release keeps "each player
      sits in at most one seat across both teams". */
  lemma ClaimKeepsExclusive(s: Session, user: PlayerId, team: TeamName, role: Role)
    requires Exclusive(s)
    ensures var r := ClaimRole(s, user, team, role, false);
            (r.Taken? || r.Released?) ==> Exclusive(r.after)
  {
    var r := ClaimRole(s, user, team, role, false);
    if r.Taken? || r.Released? {
      var v := if r.Taken? then Some(Mention(user)) else None;
      var s' := r.after;
      assert s' == s.WithTeam(team, s.TeamOf(team)[role := v]);
      forall t1, r1, t2, r2 | s'.Seat(t1, r1).Some? && s'.Seat(t1, r1) == s'.Seat(t2, r2)
        ensures t1 == t2 && r1 == r2
      {
        SeatAfterWrite(s, team, role, v, t1, r1);
        SeatAfterWrite(s, team, role, v, t2, r2);
        if (t1, r1) == (team, role) && (t2, r2) != (team, role) {
          HoldsAt(s.TeamOf(t2), r2, Mention(user));
          assert false;
        } else if (t2, r2) == (team, role) && (t1, r1) != (team, role) {
          HoldsAt(s.TeamOf(t1), r1, Mention(user));
          assert false;
        }
      }
    }
  }

  /** Claiming an empty seat and clicking it again restores the exact prior
      roster when the seat's key was present (always so in a manual draft);
      on a missing key the second click leaves the key present with null. */
  lemma ClaimToggle(s: Session, user: PlayerId, team: TeamName, role: Role, devMode: bool)
    requires ClaimRole(s, user, team, role, devMode).Taken?
    ensures var s1 := ClaimRole(s, user, team, role, devMode).after;
            ClaimRole(s1, user, team, role, devMode) == Released(s.WithTeam(team, s.TeamOf(team)[role := None]))
    ensures role in s.TeamOf(team) ==>
              ClaimRole(ClaimRole(s, user, team, role, devMode).after, user, team, role, devMode) == Released(s)
  {
    var m := Mention(user);
    var s1 := ClaimRole(s, user, team, role, devMode).after;
    assert s1.TeamOf(Opposite(team)) == s.TeamOf(Opposite(team));
    assert s1.Seat(team, role) == Some(m);
    assert s1.TeamOf(team)[role := None] == s.TeamOf(team)[role := None];
    if role in s.TeamOf(team) {
      assert s.TeamOf(team)[role := None] == s.TeamOf(team);
      assert s.WithTeam(team, s.TeamOf(team)) == s;
    }
  }

  /** Privileged assignment (`assign_role`, index.js:255-262): refused when the
      seat is taken; otherwise the target's mention is written into that seat
      and nothing else changes. It neither checks the other seats of the
      player nor whether the session is finished. */
  function AssignRole(s: Session, target: PlayerId, team: TeamName, role: Role): (r: Result<Session>)
    ensures r.Err? <==> s.Seat(team, role).Some?
    ensures r.Err? ==> r.error == RoleOccupied
    ensures r.Ok? ==> r.value.Seat(team, role) == Some(Mention(target))
    ensures r.Ok? ==> forall t, ro :: (t, ro) != (team, role) ==> r.value.Seat(t, ro) == s.Seat(t, ro)
    ensures r.Ok? ==> r.value.queue == s.queue && r.value.finished == s.finished
    ensures r.Ok? ==> r.value.TeamOf(team).Keys == s.TeamOf(team).Keys + {role} &&
                      r.value.TeamOf(Opposite(team)) == s.TeamOf(Opposite(team))
  {
    if SlotOf(s.TeamOf(team), role).Some? then Err(RoleOccupied)
    else Ok(s.WithTeam(team, s.TeamOf(team)[role := Some(Mention(target))]))
  }

  /** `assign_role` can seat a player on both teams, breaking exclusivity
      even outside dev mode, and still writes into a finished session. */
  lemma AssignRoleBypassesChecks()
    ensures var s := NewManualGame().(blue := EmptyTeam[TOP := Some(Mention("p"))], finished := true);
            Exclusive(s) && AssignRole(s, "p", Red, TOP).Ok? &&
            !Exclusive(AssignRole(s, "p", Red, TOP).value) &&
            AssignRole(s, "p", Red, TOP).value.finished
  {
    var s := NewManualGame().(blue := EmptyTeam[TOP := Some(Mention("p"))], finished := true);
    forall t1, r1, t2, r2 | s.Seat(t1, r1).Some? && s.Seat(t1, r1) == s.Seat(t2, r2)
      ensures t1 == t2 && r1 == r2
    {
      assert t1 == Blue && r1 == TOP;
    }
    var s' := AssignRole(s, "p", Red, TOP).value;
    assert s'.Seat(Blue, TOP) == s'.Seat(Red, TOP);
  }

}
