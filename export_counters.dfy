/** The export's counters: per-key counts (feature types by object class
    id, geometries by GML class) that workers report as increment maps. A
    report adds each of its counts to the key's count, starting a key that
    has none. */
module ExportCounters {

  /** A key's count; a key not in the map has not been counted. */
  function Count<K(!new)>(m: map<K, int>, k: K): int
  {
    if k in m then m[k] else 0
  }

  /** A counter after one report. */
  function Merge<K(!new)>(m: map<K, int>, inc: map<K, int>): (r: map<K, int>)
    ensures r.Keys == m.Keys + inc.Keys
    ensures forall k :: Count(r, k) == Count(m, k) + Count(inc, k)
  {
    map k | k in m.Keys + inc.Keys :: Count(m, k) + Count(inc, k)
  }

  /** An empty report changes nothing, and the first report into an empty
      counter is taken as it is. */
  lemma MergeIdentity<K(!new)>(m: map<K, int>)
    ensures Merge(m, map[]) == m
    ensures Merge(map[], m) == m
  {
    assert forall k :: k in m ==> Merge(m, map[])[k] == Count(Merge(m, map[]), k);
    assert forall k :: k in m ==> Merge(map[], m)[k] == Count(Merge(map[], m), k);
  }

  /** Reports can be combined before they are applied. */
  lemma MergeAssociative<K(!new)>(m: map<K, int>, a: map<K, int>, b: map<K, int>)
    ensures Merge(Merge(m, a), b) == Merge(m, Merge(a, b))
  {
    var x, y := Merge(Merge(m, a), b), Merge(m, Merge(a, b));
    assert forall k :: k in x ==> x[k] == Count(x, k) && y[k] == Count(y, k);
  }

  /** The order in which two reports are applied does not matter. */
  lemma MergeCommutative<K(!new)>(m: map<K, int>, a: map<K, int>, b: map<K, int>)
    ensures Merge(Merge(m, a), b) == Merge(Merge(m, b), a)
  {
    var x, z := Merge(Merge(m, a), b), Merge(Merge(m, b), a);
    assert forall k :: k in x ==> x[k] == Count(x, k) && z[k] == Count(z, k);
  }

  /** A counter after a sequence of reports, applied one after another. */
  function MergeAll<K(!new)>(m: map<K, int>, reports: seq<map<K, int>>): map<K, int>
  {
    if reports == [] then m else Merge(MergeAll(m, reports[..|reports| - 1]), reports[|reports| - 1])
  }

  /** One more report is merged into the counter the earlier ones made. */
  lemma MergeAllSnoc<K(!new)>(m: map<K, int>, reports: seq<map<K, int>>, report: map<K, int>)
    ensures MergeAll(m, reports + [report]) == Merge(MergeAll(m, reports), report)
  {
    assert (reports + [report])[..|reports|] == reports;
  }

  /** The total over all reports of one key. */
  function Sum<K(!new)>(reports: seq<map<K, int>>, k: K): int
  {
    if reports == [] then 0 else Sum(reports[..|reports| - 1], k) + Count(reports[|reports| - 1], k)
  }

  /** After a sequence of reports a key's count is its old count plus the
      sum of its increments. */
  lemma {:induction false} MergeAllCount<K(!new)>(m: map<K, int>, reports: seq<map<K, int>>, k: K)
    ensures Count(MergeAll(m, reports), k) == Count(m, k) + Sum(reports, k)
  {
    if reports != [] {
      MergeAllCount(m, reports[..|reports| - 1], k);
    }
  }

  /** Applying two runs of reports one after the other is applying their
      concatenation. */
  lemma {:induction false} MergeAllAppend<K(!new)>(m: map<K, int>, a: seq<map<K, int>>, b: seq<map<K, int>>)
    ensures MergeAll(m, a + b) == MergeAll(MergeAll(m, a), b)
  {
    if b == [] {
      assert a + b == a;
    } else {
      assert (a + b)[..|a + b| - 1] == a + b[..|b| - 1];
      MergeAllAppend(m, a, b[..|b| - 1]);
    }
  }

  /** Every report of a tile, tile after tile. */
  function Flatten<K(!new)>(tiles: seq<seq<map<K, int>>>): seq<map<K, int>>
  {
    if tiles == [] then [] else Flatten(tiles[..|tiles| - 1]) + tiles[|tiles| - 1]
  }

  /** The sum of the per-tile counts of one key. */
  function SumOverTiles<K(!new)>(tiles: seq<seq<map<K, int>>>, k: K): int
  {
    if tiles == [] then 0 else SumOverTiles(tiles[..|tiles| - 1], k) + Count(MergeAll(map[], tiles[|tiles| - 1]), k)
  }

  lemma {:induction false} SumAppend<K(!new)>(a: seq<map<K, int>>, b: seq<map<K, int>>, k: K)
    ensures Sum(a + b, k) == Sum(a, k) + Sum(b, k)
  {
    if b == [] {
      assert a + b == a;
    } else {
      assert (a + b)[..|a + b| - 1] == a + b[..|b| - 1];
      SumAppend(a, b[..|b| - 1], k);
    }
  }

  /** The session totals, which collect every report of every tile, count
      each key as the sum of the tile counters that are cleared after each
      tile. */
  lemma {:induction false} TotalsAreSumOfTiles<K(!new)>(tiles: seq<seq<map<K, int>>>, k: K)
    ensures Count(MergeAll(map[], Flatten(tiles)), k) == SumOverTiles(tiles, k)
  {
    if tiles != [] {
      var init, last := tiles[..|tiles| - 1], tiles[|tiles| - 1];
      TotalsAreSumOfTiles(init, k);
      MergeAllCount(map[], Flatten(tiles), k);
      MergeAllCount(map[], Flatten(init), k);
      MergeAllCount(map[], last, k);
      SumAppend(Flatten(init), last, k);
    }
  }
}
