/** The leaderboard `getLeaderboard` computes (index.js:23-43): every player
    document with its winrate, ordered by elo from highest to lowest. */
module Leaderboard {
  import opened Ledger

  /** One player document as the store lists it. */
  datatype Doc = Doc(discordId: string, rec: PlayerRecord)

  /** One leaderboard line (index.js:32-38). The winrate is carried as an
      exact percentage; its two-decimal formatting is left out. */
  datatype Entry = Entry(discordId: string, wins: nat, losses: nat, elo: int, winrate: real)

  /** `totalGames > 0 ? victoires / totalGames * 100 : 0` (index.js:30-31). */
  function WinRate(wins: nat, losses: nat): (w: real)
    ensures 0.0 <= w <= 100.0
    ensures wins + losses == 0 ==> w == 0.0
    ensures losses == 0 && wins > 0 ==> w == 100.0
  {
    if wins + losses > 0 then
      var total := (wins + losses) as real;
      assert wins as real <= total;
      assert losses == 0 ==> wins as real / total == 1.0;
      (wins as real / total) * 100.0
    else 0.0
  }

  function ToEntry(d: Doc): Entry
  {
    Entry(d.discordId, d.rec.wins, d.rec.losses, d.rec.elo, WinRate(d.rec.wins, d.rec.losses))
  }

  /** The `map` step (index.js:28-39). */
  function Entries(docs: seq<Doc>): (es: seq<Entry>)
    ensures |es| == |docs| && forall i :: 0 <= i < |docs| ==> es[i] == ToEntry(docs[i])
  {
    seq(|docs|, i requires 0 <= i < |docs| => ToEntry(docs[i]))
  }

  /** Elo never increases along the sequence. */
  predicate ByEloDescending(es: seq<Entry>)
  {
    forall i, j :: 0 <= i < j < |es| ==> es[i].elo >= es[j].elo
  }

  /** Places `e` before the first entry whose elo is not above its own. */
  function Insert(e: Entry, sorted: seq<Entry>): (r: seq<Entry>)
    ensures multiset(r) == multiset(sorted) + multiset{e}
    ensures r != [] && (r[0] == e || (sorted != [] && r[0] == sorted[0]))
  {
    if sorted == [] || e.elo >= sorted[0].elo then [e] + sorted
    else
      assert sorted == [sorted[0]] + sorted[1..];
      [sorted[0]] + Insert(e, sorted[1..])
  }

  /** Inserting into a sorted sequence keeps it sorted. */
  lemma {:induction false} InsertKeepsOrder(e: Entry, sorted: seq<Entry>)
    requires ByEloDescending(sorted)
    ensures ByEloDescending(Insert(e, sorted))
  {
    if sorted != [] && e.elo < sorted[0].elo {
      var rest := Insert(e, sorted[1..]);
      InsertKeepsOrder(e, sorted[1..]);
      assert rest[0].elo <= sorted[0].elo;
      var r := [sorted[0]] + rest;
      forall i, j | 0 <= i < j < |r| ensures r[i].elo >= r[j].elo {
        if i == 0 {
          assert r[j] == rest[j - 1];
        }
      }
    }
  }

  /** The `sort((a, b) => b.elo - a.elo)` step (index.js:40), as an
      insertion sort. */
  function SortByElo(es: seq<Entry>): (r: seq<Entry>)
    ensures multiset(r) == multiset(es)
    ensures ByEloDescending(r)
  {
    if es == [] then []
    else
      assert es == [es[0]] + es[1..];
      InsertKeepsOrder(es[0], SortByElo(es[1..]));
      Insert(es[0], SortByElo(es[1..]))
  }

  /** `find().toArray()` on the `joueurs` collection: every stored player's
      document exactly once, with its record. */
  predicate Lists(docs: seq<Doc>, store: Store)
  {
    (forall i :: 0 <= i < |docs| ==> docs[i].discordId in store && store[docs[i].discordId] == docs[i].rec) &&
    (forall i, j :: 0 <= i < j < |docs| ==> docs[i].discordId != docs[j].discordId) &&
    (forall id :: id in store ==> exists i :: 0 <= i < |docs| && docs[i].discordId == id)
  }

  /** The ids of a listing. */
  function Ids(docs: seq<Doc>): (ids: set<string>)
    ensures forall id :: id in ids <==> exists i :: 0 <= i < |docs| && docs[i].discordId == id
  {
    if docs == [] then {}
    else
      assert forall i :: 0 < i < |docs| ==> docs[i] == docs[1..][i - 1];
      {docs[0].discordId} + Ids(docs[1..])
  }

  /** A listing with distinct ids has as many ids as documents. */
  lemma {:induction false} DistinctIdsCount(docs: seq<Doc>)
    requires forall i, j :: 0 <= i < j < |docs| ==> docs[i].discordId != docs[j].discordId
    ensures |Ids(docs)| == |docs|
  {
    if docs != [] {
      DistinctIdsCount(docs[1..]);
      assert docs[0].discordId !in Ids(docs[1..]);
    }
  }

  /** `getLeaderboard`: a permutation of the documents' entries, ordered by
      elo, non-increasing. */
  function GetLeaderboard(docs: seq<Doc>): (r: seq<Entry>)
    ensures |r| == |docs|
    ensures multiset(r) == multiset(Entries(docs))
    ensures ByEloDescending(r)
  {
    var r := SortByElo(Entries(docs));
    assert |r| == |multiset(r)| == |multiset(Entries(docs))| == |docs|;
    r
  }

  /** Over a listing of the store, the leaderboard has one line per stored
      player. */
  lemma LeaderboardSizeIsStoreSize(docs: seq<Doc>, store: Store)
    requires Lists(docs, store)
    ensures |GetLeaderboard(docs)| == |store.Keys|
  {
    DistinctIdsCount(docs);
    assert Ids(docs) == store.Keys;
  }

  /** Every stored player appears with their stored record. */
  lemma LeaderboardCoversStore(docs: seq<Doc>, store: Store, id: string)
    requires Lists(docs, store) && id in store
    ensures ToEntry(Doc(id, store[id])) in GetLeaderboard(docs)
  {
    var i :| 0 <= i < |docs| && docs[i].discordId == id;
    assert docs[i] == Doc(id, store[id]);
    var e := Entries(docs)[i];
    assert e in multiset(Entries(docs));
    assert e in multiset(GetLeaderboard(docs));
  }

  /** Every line is a stored player's record. */
  lemma LeaderboardLineIsStored(docs: seq<Doc>, store: Store)
    requires Lists(docs, store)
    ensures forall e :: e in GetLeaderboard(docs) ==>
              e.discordId in store && e == ToEntry(Doc(e.discordId, store[e.discordId]))
  {
    forall e | e in GetLeaderboard(docs)
      ensures e.discordId in store && e == ToEntry(Doc(e.discordId, store[e.discordId]))
    {
      assert e in multiset(GetLeaderboard(docs));
      assert e in multiset(Entries(docs));
      var i :| 0 <= i < |docs| && Entries(docs)[i] == e;
      assert docs[i] == Doc(e.discordId, store[e.discordId]);
    }
  }
}
