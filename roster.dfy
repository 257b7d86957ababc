/** The two five-seat rosters of a draft (index.js): roles, teams, the
    `<@id>` mention a seat holds, and the gate that offers the WIN buttons. */
module Roster {

  datatype Option<T> = None | Some(value: T)

  /** The five positional roles, in the order index.js writes them (index.js:188, 372). */
  datatype Role = TOP | JGL | MID | ADC | SUPP

  datatype TeamName = Blue | Red

  const RoleOrder: seq<Role> := [TOP, JGL, MID, ADC, SUPP]

  /** A chat user identifier, kept abstract. */
  type PlayerId = string

  /** A team is the JS object `{ TOP: .., JGL: .., ... }`: a role key may be
      missing (the `{}` a random game starts with), present with `null`
      (`None`), or hold the mention string of a player. */
  type Team = map<Role, Option<string>>

  /** The mention string `<@id>` that seats hold (index.js:262, 374, 487). */
  function Mention(id: PlayerId): string
  {
    "<@" + id + ">"
  }

  /** Distinct players have distinct mentions, so comparing seats by mention
      compares players. */
  lemma MentionInjective(a: PlayerId, b: PlayerId)
    ensures Mention(a) == Mention(b) <==> a == b
  {
    if Mention(a) == Mention(b) {
      assert a == Mention(a)[2..|Mention(a)| - 1];
      assert b == Mention(b)[2..|Mention(b)| - 1];
    }
  }

  /** The seat value each queued id becomes. */
  function Seated(ids: seq<PlayerId>): (r: seq<Option<string>>)
    ensures |r| == |ids|
  {
    if ids == [] then [] else [Some(Mention(ids[0]))] + Seated(ids[1..])
  }

  lemma {:induction false} SeatedAt(ids: seq<PlayerId>, i: int)
    requires 0 <= i < |ids|
    ensures Seated(ids)[i] == Some(Mention(ids[i]))
  {
    if i > 0 {
      SeatedAt(ids[1..], i - 1);
    }
  }

  /** Each id occurs among the seat values as often as in the ids. */
  lemma {:induction false} SeatedCount(a: seq<PlayerId>, id: PlayerId)
    ensures multiset(Seated(a))[Some(Mention(id))] == multiset(a)[id]
  {
    if a != [] {
      SeatedCount(a[1..], id);
      MentionInjective(a[0], id);
      assert a == [a[0]] + a[1..];
    }
  }

  /** Permuting the ids permutes their seat values. */
  lemma SeatedPermutation(a: seq<PlayerId>, b: seq<PlayerId>)
    requires multiset(a) == multiset(b)
    ensures multiset(Seated(a)) == multiset(Seated(b))
  {
    forall v ensures multiset(Seated(a))[v] == multiset(Seated(b))[v] {
      if v in Seated(a) {
        var i :| 0 <= i < |a| && Seated(a)[i] == v;
        SeatedAt(a, i);
        SeatedCount(a, a[i]);
        SeatedCount(b, a[i]);
      } else if v in Seated(b) {
        var i :| 0 <= i < |b| && Seated(b)[i] == v;
        SeatedAt(b, i);
        SeatedCount(a, b[i]);
        SeatedCount(b, b[i]);
      }
    }
  }

  function Opposite(t: TeamName): (o: TeamName)
    ensures o != t
  {
    if t == Blue then Red else Blue
  }

  /** The value `team[role]` reads: a missing key reads as `undefined`, which
      every check in index.js treats like `null`. */
  function SlotOf(team: Team, r: Role): Option<string>
  {
    if r in team then team[r] else None
  }

  /** `Object.values(team).includes(m)` (index.js:469, 484). */
  predicate Holds(team: Team, m: string)
  {
    exists r :: r in team && team[r] == Some(m)
  }

  lemma HoldsAt(team: Team, r: Role, m: string)
    requires SlotOf(team, r) == Some(m)
    ensures Holds(team, m)
  {
  }

  /** The team `new_game` builds: five keys, every one `null` (index.js:188-189). */
  const EmptyTeam: Team := map[TOP := None, JGL := None, MID := None, ADC := None, SUPP := None]

  /** A team whose object carries all five role keys. */
  predicate Complete(team: Team)
  {
    forall r: Role :: r in team
  }

  lemma FiveKeysComplete(team: Team)
    requires TOP in team && JGL in team && MID in team && ADC in team && SUPP in team
    ensures Complete(team)
  {
    forall r: Role ensures r in team {
      match r
      case TOP =>
      case JGL =>
      case MID =>
      case ADC =>
      case SUPP =>
    }
  }

  /** `Object.values(team).every(position => position)` AS WRITTEN
      (index.js:517): only the keys the object has are inspected, so a team
      object with no keys at all passes. */
  predicate EveryPresentSeatFilled(team: Team)
  {
    forall r :: r in team ==> team[r].Some?
  }

  /** `allRolesFilled` as written (index.js:517). */
  predicate AllRolesFilledAsWritten(blue: Team, red: Team)
  {
    EveryPresentSeatFilled(blue) && EveryPresentSeatFilled(red)
  }

  /** Every one of the five seats of a team holds a player. */
  predicate TeamFilled(team: Team)
  {
    forall r: Role :: SlotOf(team, r).Some?
  }

  /** `allRolesFilled` as the comment at index.js:539 describes it: all five
      seats of both teams hold a player. */
  predicate AllRolesFilled(blue: Team, red: Team)
  {
    TeamFilled(blue) && TeamFilled(red)
  }

  /** The corrected gate rejects the empty random-game teams, and on teams
      that carry all five keys (every manual game, every formed random game)
      it agrees with the check as written. */
  lemma AllRolesFilledAgreesOnCompleteTeams(blue: Team, red: Team)
    ensures !AllRolesFilled(map[], map[])
    ensures Complete(blue) && Complete(red) ==>
              (AllRolesFilled(blue, red) <==> AllRolesFilledAsWritten(blue, red))
  {
    assert SlotOf(map[], TOP) == None;
    if Complete(blue) && Complete(red) {
      if AllRolesFilled(blue, red) {
        forall r | r in blue ensures blue[r].Some? { assert SlotOf(blue, r).Some?; }
        forall r | r in red ensures red[r].Some? { assert SlotOf(red, r).Some?; }
      }
      if AllRolesFilledAsWritten(blue, red) {
        forall r: Role ensures SlotOf(blue, r).Some? && SlotOf(red, r).Some? {
          assert r in blue && r in red;
        }
      }
    }
  }

  /** Whether `generateButtons` adds the WIN row (index.js:540), with the
      corrected `allRolesFilled`. */
  predicate WinButtonsOffered(blue: Team, red: Team, devMode: bool)
  {
    AllRolesFilled(blue, red) || devMode
  }

  /** The gate as written (index.js:517, 540). */
  predicate WinButtonsOfferedAsWritten(blue: Team, red: Team, devMode: bool)
  {
    AllRolesFilledAsWritten(blue, red) || devMode
  }

  /** A fresh random game re-rendered with dev mode off (`dev_off`,
      index.js:281-286, re-renders any live session) is offered the WIN
      buttons as written, and not by the corrected gate. */
  lemma WinGateAsWrittenOnEmptyRandomGame()
    ensures forall r: Role :: SlotOf(map[], r) == None
    ensures WinButtonsOfferedAsWritten(map[], map[], false)
    ensures !WinButtonsOffered(map[], map[], false)
  {
    assert SlotOf(map[], TOP) == None;
  }
}
