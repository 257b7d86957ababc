/** The offline rating recompute (`updateEloForAllPlayers`,
    script_maj_elo.js:6-39) and its agreement with the live update of
    index.js. */
module EloRecompute {
  import opened Roster
  import opened Ledger

  /** The formula of script_maj_elo.js:21, with no lower clamp. */
  function Rated(wins: nat, losses: nat): int
  {
    StartElo + WinElo * wins - LossElo * losses
  }

  /** A record whose elo is the one the formula gives for its counters. */
  predicate Rates(p: PlayerRecord)
  {
    p.elo == Rated(p.wins, p.losses)
  }

  /** Every record of the store is reproducible from its counters. */
  predicate Consistent(store: Store)
  {
    forall id :: id in store ==> Rates(store[id])
  }

  /** The store after the recompute: the same documents, each with only its
      elo replaced by the formula's value. */
  function Recomputed(store: Store): (r: Store)
    ensures r.Keys == store.Keys
    ensures forall id :: id in store ==> r[id].wins == store[id].wins && r[id].losses == store[id].losses
    ensures Consistent(r)
  {
    map id | id in store :: store[id].(elo := Rated(store[id].wins, store[id].losses))
  }

  /** The loop of script_maj_elo.js:17-30: every document read is visited
      once, in the order the store lists them (left open here), and gets a
      `$set` of its elo alone. `visited` is the sequence of ids the loop logs
      (script_maj_elo.js:29). */
  method RecomputeAll(store: Store) returns (r: Store, visited: seq<string>)
    ensures r.Keys == store.Keys
    ensures forall id :: id in store ==>
              r[id] == PlayerRecord(store[id].wins, store[id].losses, Rated(store[id].wins, store[id].losses))
    ensures |visited| == |store.Keys| && (forall id :: id in visited <==> id in store)
    ensures forall i, j :: 0 <= i < j < |visited| ==> visited[i] != visited[j]
  {
    r, visited := store, [];
    var todo := store.Keys;
    while todo != {}
      invariant todo <= store.Keys && r.Keys == store.Keys
      invariant forall id :: id in visited <==> id in store && id !in todo
      invariant |visited| + |todo| == |store.Keys|
      invariant forall i, j :: 0 <= i < j < |visited| ==> visited[i] != visited[j]
      invariant forall id :: id in todo ==> r[id] == store[id]
      invariant forall id :: id in store && id !in todo ==> r[id] == Recomputed(store)[id]
      decreases todo
    {
      var id :| id in todo;
      var p := r[id];
      var elo := StartElo + p.wins * WinElo - p.losses * LossElo;
      r := r[id := p.(elo := elo)];
      visited := visited + [id];
      todo := todo - {id};
    }
  }

  /** The new elo does not depend on the old one, so a second run changes
      nothing. */
  lemma RecomputeIdempotent(store: Store)
    ensures Recomputed(Recomputed(store)) == Recomputed(store)
  {
  }

  /** The recompute leaves a store unchanged exactly when every record
      already satisfies the formula. */
  lemma RecomputeFixesExactlyConsistent(store: Store)
    ensures Recomputed(store) == store <==> Consistent(store)
  {
    if Consistent(store) {
      assert forall id :: id in store ==> Recomputed(store)[id] == store[id];
    }
  }

  /** The live update of index.js keeps every record reproducible from its
      counters. */
  lemma GameStatsKeepsConsistent(store: Store, winners: Team, losers: Team)
    requires Consistent(store)
    ensures Consistent(GameStats(store, winners, losers))
  {
    var r := GameStats(store, winners, losers);
    forall id | id in r ensures Rates(r[id]) {
      GameStatsEffect(store, winners, losers, id);
      var p := Base(store, id);
      assert Rates(p);
      var w := SeatCount(winners, RoleOrder, id);
      var l := SeatCount(losers, RoleOrder, id);
      assert r[id].elo == p.elo + WinElo * w - LossElo * l;
    }
  }

  /** The two update paths agree: on a store maintained by the live update
      from an empty or consistent store, the recompute is a no-op. */
  lemma LiveAndBatchAgree(store: Store, winners: Team, losers: Team)
    requires Consistent(store)
    ensures Recomputed(GameStats(store, winners, losers)) == GameStats(store, winners, losers)
  {
    GameStatsKeepsConsistent(store, winners, losers);
    RecomputeFixesExactlyConsistent(GameStats(store, winners, losers));
  }

  /** Without a clamp the elo goes negative: fourteen losses and no win
      give -10. */
  lemma RecomputedEloCanBeNegative()
    ensures Recomputed(map["p" := PlayerRecord(0, 14, 200)])["p"].elo == -10
  {
  }
}
