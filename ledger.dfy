/** The per-player statistics the bot keeps in its document store, and the
    update `enregistrerStatistiquesJoueurs` applies when a game is won
    (index.js:108-150). The collection `joueurs` is a map from `discordId`
    (the mention string a seat holds) to the record. */
module Ledger {
  import opened Roster

  /** `{ victoires, defaites, elo }` of one player document. */
  datatype PlayerRecord = PlayerRecord(wins: nat, losses: nat, elo: int)

  type Store = map<string, PlayerRecord>

  /** Elo a record is created with before its first result (index.js:139). */
  const StartElo: int := 200
  const WinElo: int := 25
  const LossElo: int := 15

  /** The record a player without a document is treated as. */
  function Base(store: Store, id: string): PlayerRecord
  {
    if id in store then store[id] else PlayerRecord(0, 0, StartElo)
  }

  /** `n` results of one kind added to a record. */
  function Bumped(p: PlayerRecord, n: nat, isWin: bool): PlayerRecord
  {
    if isWin then PlayerRecord(p.wins + n, p.losses, p.elo + WinElo * n)
    else PlayerRecord(p.wins, p.losses + n, p.elo - LossElo * n)
  }

  /** One filled seat's update (index.js:121-143): an existing document gets
      `$inc` of one result; a missing one is inserted with that one result and
      200 plus its elo change. Either way the record becomes the player's
      base record with one more result, and no other document changes. */
  function Credit(store: Store, id: string, isWin: bool): (r: Store)
    ensures r.Keys == store.Keys + {id}
    ensures r[id] == Bumped(Base(store, id), 1, isWin)
    ensures forall k :: k in store && k != id ==> r[k] == store[k]
  {
    if id in store then
      var p := store[id];
      store[id := PlayerRecord(p.wins + (if isWin then 1 else 0),
                               p.losses + (if isWin then 0 else 1),
                               p.elo + (if isWin then WinElo else -LossElo))]
    else
      store[id := PlayerRecord(if isWin then 1 else 0,
                               if isWin then 0 else 1,
                               StartElo + (if isWin then WinElo else -LossElo))]
  }

  /** The seats of `team` among the first roles of `roles` that hold `id`. */
  function SeatCount(team: Team, roles: seq<Role>, id: string): nat
  {
    if roles == [] then 0
    else SeatCount(team, roles[..|roles| - 1], id) + (if SlotOf(team, roles[|roles| - 1]) == Some(id) then 1 else 0)
  }

  /** Crediting every filled seat of `team` among `roles`, in that order
      (empty seats are skipped, index.js:119). */
  function CreditSeats(store: Store, team: Team, roles: seq<Role>, isWin: bool): Store
  {
    if roles == [] then store
    else
      var before := CreditSeats(store, team, roles[..|roles| - 1], isWin);
      var role := roles[|roles| - 1];
      if role in team && team[role].Some? then Credit(before, team[role].value, isWin) else before
  }

  /** The whole update: the winning team's seats, then the losing team's
      (index.js:112-114). */
  function GameStats(store: Store, winners: Team, losers: Team): Store
  {
    CreditSeats(CreditSeats(store, winners, RoleOrder, true), losers, RoleOrder, false)
  }

  /** What crediting a team does to one player: the record exists afterwards
      exactly when it existed before or the player holds a seat, and it is
      the player's base record plus one result per seat held. */
  lemma {:induction false} CreditSeatsEffect(store: Store, team: Team, roles: seq<Role>, isWin: bool, id: string)
    ensures var r := CreditSeats(store, team, roles, isWin);
            var n := SeatCount(team, roles, id);
            (id in r <==> id in store || n > 0) &&
            (id in r ==> r[id] == Bumped(Base(store, id), n, isWin))
  {
    if roles != [] {
      var prefix := roles[..|roles| - 1];
      CreditSeatsEffect(store, team, prefix, isWin, id);
    }
  }

  /** The effect of recording one game on one player: `wins` grows by the
      player's seats on the winning team, `losses` by their seats on the
      losing team, and elo by 25 per win and -15 per loss, starting from 200
      for a player without a document; a player with no seat is untouched. */
  lemma GameStatsEffect(store: Store, winners: Team, losers: Team, id: string)
    ensures var r := GameStats(store, winners, losers);
            var w := SeatCount(winners, RoleOrder, id);
            var l := SeatCount(losers, RoleOrder, id);
            var p := Base(store, id);
            (id in r <==> id in store || w + l > 0) &&
            (id in r ==> r[id] == PlayerRecord(p.wins + w, p.losses + l, p.elo + WinElo * w - LossElo * l))
  {
    var mid := CreditSeats(store, winners, RoleOrder, true);
    CreditSeatsEffect(store, winners, RoleOrder, true, id);
    CreditSeatsEffect(mid, losers, RoleOrder, false, id);
  }

  /** `enregistrerStatistiquesJoueurs` (index.js:108-150): a loop over the
      two teams, winners first, and within each over its roles, applying one
      update per filled seat. */
  method RecordStats(store: Store, winners: Team, losers: Team) returns (r: Store)
    ensures r == GameStats(store, winners, losers)
    ensures r.Keys >= store.Keys
  {
    r := store;
    var teams := [winners, losers];
    for t := 0 to 2
      invariant r == if t == 0 then store
                     else if t == 1 then CreditSeats(store, winners, RoleOrder, true)
                     else GameStats(store, winners, losers)
    {
      var team, isWin := teams[t], t == 0;
      ghost var start := r;
      for i := 0 to 5
        invariant r == CreditSeats(start, team, RoleOrder[..i], isWin)
      {
        var role := RoleOrder[i];
        assert RoleOrder[..i + 1][..i] == RoleOrder[..i];
        if role in team && team[role].Some? {
          r := Credit(r, team[role].value, isWin);
        }
      }
      assert RoleOrder[..5] == RoleOrder;
    }
    forall k | k in store ensures k in r {
      GameStatsEffect(store, winners, losers, k);
    }
  }
}
