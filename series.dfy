/**
 * What `plot` does after each try folder has been aggregated: the nested
 * loops over `data[metric][percentage][platform]` that append one value per
 * try to `metric_results`, and the same walk over `metric_results` in
 * `save_confidence_interval` that builds `json_data[platform][percentage][metric]`.
 * Both walks visit the metrics of the script in order, then the
 * percentage keys, then the platform keys; `Triples` lists what they visit.
 */
module Series {
  import opened Wrappers
  import opened Dicts
  import opened JsonValues
  import opened Tables

  /** Metric, percentage, platform and the value stored there. */
  type Triple<V> = (string, string, string, V)

  // ---------------------------------------------------------------------
  // What the walks visit
  // ---------------------------------------------------------------------

  /** `for platform in list(data[metric][percentage].keys()): value = data[metric][percentage][platform]`. */
  function PlatformTriples<V>(m: string, p: string, level2: Dict<string, V>, keys: seq<string>): (r: seq<Triple<V>>)
    requires forall i :: 0 <= i < |keys| ==> Get(level2, keys[i]).Some?
    ensures |r| == |keys|
    ensures forall i :: 0 <= i < |r| ==> r[i].0 == m && r[i].1 == p && r[i].2 == keys[i]
    decreases |keys|
  {
    if keys == [] then []
    else PlatformTriples(m, p, level2, keys[..|keys| - 1]) + [(m, p, keys[|keys| - 1], Get(level2, keys[|keys| - 1]).value)]
  }

  lemma KeysFound<V>(d: Dict<string, V>)
    ensures forall i :: 0 <= i < |Keys(d)| ==> Get(d, Keys(d)[i]).Some?
  {
  }

  /** `for percentage in list(data[metric].keys()):` the platforms under each (a key never stored adds nothing). */
  function PctTriples<V>(m: string, level1: Dict<string, Dict<string, V>>, keys: seq<string>): (r: seq<Triple<V>>)
    ensures forall i :: 0 <= i < |r| ==> r[i].0 == m && r[i].1 in keys
    decreases |keys|
  {
    if keys == [] then []
    else
      var init := PctTriples(m, level1, keys[..|keys| - 1]);
      match Get(level1, keys[|keys| - 1])
      case None => init
      case Some(level2) =>
        KeysFound(level2);
        init + PlatformTriples(m, keys[|keys| - 1], level2, Keys(level2))
  }

  /** `data[metric]` exists for every metric of the script. */
  predicate HasMetrics<V>(data: Table<V>, metrics: seq<string>) {
    forall i :: 0 <= i < |metrics| ==> Get(data, metrics[i]).Some?
  }

  /** `for metric in metrics:` the percentages under each. */
  function Triples<V>(data: Table<V>, metrics: seq<string>): (r: seq<Triple<V>>)
    requires HasMetrics(data, metrics)
    decreases |metrics|
  {
    if metrics == [] then []
    else
      var level1 := Get(data, metrics[|metrics| - 1]).value;
      KeysFound(level1);
      Triples(data, metrics[..|metrics| - 1]) + PctTriples(metrics[|metrics| - 1], level1, Keys(level1))
  }

  /** Only the listed metrics are visited. */
  lemma {:induction false} TriplesMetrics<V>(data: Table<V>, metrics: seq<string>)
    requires HasMetrics(data, metrics)
    ensures forall i :: 0 <= i < |Triples(data, metrics)| ==> Triples(data, metrics)[i].0 in metrics
    decreases |metrics|
  {
    if metrics != [] {
      var init, last := metrics[..|metrics| - 1], metrics[|metrics| - 1];
      TriplesMetrics(data, init);
      assert forall x :: x in init ==> x in metrics;
    }
  }

  /** The value visited last at a metric, percentage and platform. */
  function Lookup<V>(ts: seq<Triple<V>>, m: string, p: string, c: string): Option<V>
    decreases |ts|
  {
    if ts == [] then None
    else
      var x := ts[|ts| - 1];
      if x.0 == m && x.1 == p && x.2 == c then Some(x.3) else Lookup(ts[..|ts| - 1], m, p, c)
  }

  lemma {:induction false} LookupAppend<V>(a: seq<Triple<V>>, b: seq<Triple<V>>, m: string, p: string, c: string)
    ensures Lookup(a + b, m, p, c) == if Lookup(b, m, p, c).Some? then Lookup(b, m, p, c) else Lookup(a, m, p, c)
    decreases |b|
  {
    if b == [] {
      assert a + b == a;
    } else {
      assert (a + b)[..|a + b| - 1] == a + b[..|b| - 1];
      LookupAppend(a, b[..|b| - 1], m, p, c);
    }
  }

  lemma {:induction false} PlatformLookup<V>(m: string, p: string, level2: Dict<string, V>, keys: seq<string>, m': string, p': string, c: string)
    requires forall i :: 0 <= i < |keys| ==> Get(level2, keys[i]).Some?
    ensures Lookup(PlatformTriples(m, p, level2, keys), m', p', c) == if m' == m && p' == p && c in keys then Get(level2, c) else None
    decreases |keys|
  {
    if keys != [] {
      var init := keys[..|keys| - 1];
      PlatformLookup(m, p, level2, init, m', p', c);
      assert c in keys <==> c in init || c == keys[|keys| - 1] by { assert keys == init + [keys[|keys| - 1]]; }
    }
  }

  lemma PlatformLookupAll<V>(m: string, p: string, level2: Dict<string, V>, m': string, p': string, c: string)
    ensures Lookup(PlatformTriples(m, p, level2, Keys(level2)), m', p', c) == if m' == m && p' == p then Get(level2, c) else None
  {
    PlatformLookup(m, p, level2, Keys(level2), m', p', c);
  }

  /** `data[m][p][c]` below the first level. */
  function Cell2<V>(level1: Dict<string, Dict<string, V>>, p: string, c: string): Option<V> {
    match Get(level1, p)
    case None => None
    case Some(level2) => Get(level2, c)
  }

  lemma {:induction false} PctLookup<V>(m: string, level1: Dict<string, Dict<string, V>>, keys: seq<string>, m': string, p': string, c: string)
    ensures Lookup(PctTriples(m, level1, keys), m', p', c) == if m' == m && p' in keys then Cell2(level1, p', c) else None
    decreases |keys|
  {
    if keys != [] {
      var init, last := keys[..|keys| - 1], keys[|keys| - 1];
      PctLookup(m, level1, init, m', p', c);
      assert p' in keys <==> p' in init || p' == last by { assert keys == init + [last]; }
      match Get(level1, last)
      case None =>
      case Some(level2) =>
        KeysFound(level2);
        var a, b := PctTriples(m, level1, init), PlatformTriples(m, last, level2, Keys(level2));
        PlatformLookupAll(m, last, level2, m', p', c);
        LookupAppend(a, b, m', p', c);
    }
  }

  lemma PctLookupAll<V>(m: string, level1: Dict<string, Dict<string, V>>, m': string, p': string, c: string)
    ensures Lookup(PctTriples(m, level1, Keys(level1)), m', p', c) == if m' == m then Cell2(level1, p', c) else None
  {
    PctLookup(m, level1, Keys(level1), m', p', c);
  }

  /** One more metric adds the walk over its percentages. */
  lemma TriplesStep<V>(data: Table<V>, metrics: seq<string>, i: nat)
    requires i < |metrics| && HasMetrics(data, metrics[..i]) && Get(data, metrics[i]).Some?
    ensures HasMetrics(data, metrics[..i + 1])
    ensures var level1 := Get(data, metrics[i]).value;
            Triples(data, metrics[..i + 1]) == Triples(data, metrics[..i]) + PctTriples(metrics[i], level1, Keys(level1))
  {
    assert metrics[..i + 1][..i] == metrics[..i];
  }

  /** The walk visits exactly the stored values of the listed metrics. */
  lemma {:induction false} TriplesLookup<V>(data: Table<V>, metrics: seq<string>, m: string, p: string, c: string)
    requires HasMetrics(data, metrics)
    ensures Lookup(Triples(data, metrics), m, p, c) == if m in metrics then Cell(data, m, p, c) else None
    decreases |metrics|
  {
    if metrics != [] {
      var init, last := metrics[..|metrics| - 1], metrics[|metrics| - 1];
      var level1 := Get(data, last).value;
      KeysFound(level1);
      var a, b := Triples(data, init), PctTriples(last, level1, Keys(level1));
      TriplesLookup(data, init, m, p, c);
      PctLookupAll(last, level1, m, p, c);
      LookupAppend(a, b, m, p, c);
      assert m in metrics <==> m in init || m == last by { assert metrics == init + [last]; }
    }
  }

  /** No metric, percentage and platform is visited twice. */
  predicate DistinctKeys<V>(ts: seq<Triple<V>>) {
    forall i, j :: 0 <= i < j < |ts| ==> (ts[i].0, ts[i].1, ts[i].2) != (ts[j].0, ts[j].1, ts[j].2)
  }

  predicate Distinct(xs: seq<string>) {
    forall i, j :: 0 <= i < j < |xs| ==> xs[i] != xs[j]
  }

  lemma DistinctKeysOfUnique<V>(d: Dict<string, V>)
    requires Unique(d)
    ensures Distinct(Keys(d))
  {
  }

  lemma PlatformDistinct<V>(m: string, p: string, level2: Dict<string, V>, keys: seq<string>)
    requires forall i :: 0 <= i < |keys| ==> Get(level2, keys[i]).Some?
    requires Distinct(keys)
    ensures DistinctKeys(PlatformTriples(m, p, level2, keys))
  {
  }

  lemma {:induction false} PctDistinct<V>(m: string, level1: Dict<string, Dict<string, V>>, keys: seq<string>)
    requires Distinct(keys) && UniqueNested(level1)
    ensures DistinctKeys(PctTriples(m, level1, keys))
    decreases |keys|
  {
    if keys != [] {
      var init, last := keys[..|keys| - 1], keys[|keys| - 1];
      PctDistinct(m, level1, init);
      match Get(level1, last)
      case None =>
      case Some(level2) =>
        KeysFound(level2);
        GetStored(level1, last, UniqueDict);
        DistinctKeysOfUnique(level2);
        PlatformDistinct(m, last, level2, Keys(level2));
        var a, b := PctTriples(m, level1, init), PlatformTriples(m, last, level2, Keys(level2));
        forall i, j | 0 <= i < |a| && 0 <= j < |b| ensures a[i].1 != b[j].1 {
          assert a[i].1 in init;
          assert last !in init;
        }
    }
  }

  lemma {:induction false} TriplesDistinct<V>(data: Table<V>, metrics: seq<string>)
    requires HasMetrics(data, metrics) && Distinct(metrics) && UniqueLevels(data)
    ensures DistinctKeys(Triples(data, metrics))
    decreases |metrics|
  {
    if metrics != [] {
      var init, last := metrics[..|metrics| - 1], metrics[|metrics| - 1];
      var level1 := Get(data, last).value;
      KeysFound(level1);
      TriplesDistinct(data, init);
      TriplesMetrics(data, init);
      assert forall i :: 0 <= i < |data| ==> UniqueNested(data[i].1);
      GetStored(data, last, UniqueNested);
      DistinctKeysOfUnique(level1);
      PctDistinct(last, level1, Keys(level1));
      var a, b := Triples(data, init), PctTriples(last, level1, Keys(level1));
      forall i, j | 0 <= i < |a| && 0 <= j < |b| ensures a[i].0 != b[j].0 {
        assert a[i].0 in init;
        assert last !in init;
      }
    }
  }

  // ---------------------------------------------------------------------
  // Folding over what is visited
  // ---------------------------------------------------------------------

  function FoldTriples<T, V>(step: (T, Triple<V>) -> T, acc: T, ts: seq<Triple<V>>): T
    decreases |ts|
  {
    if ts == [] then acc else step(FoldTriples(step, acc, ts[..|ts| - 1]), ts[|ts| - 1])
  }

  lemma {:induction false} FoldTriplesAppend<T, V>(step: (T, Triple<V>) -> T, acc: T, a: seq<Triple<V>>, b: seq<Triple<V>>)
    ensures FoldTriples(step, acc, a + b) == FoldTriples(step, FoldTriples(step, acc, a), b)
    decreases |b|
  {
    if b == [] {
      assert a + b == a;
    } else {
      assert (a + b)[..|a + b| - 1] == a + b[..|b| - 1];
      FoldTriplesAppend(step, acc, a, b[..|b| - 1]);
    }
  }

  // ---------------------------------------------------------------------
  // The walking loops
  // ---------------------------------------------------------------------

  /** The innermost loop, over the platform keys. */
  method WalkPlatforms<T, V>(step: (T, Triple<V>) -> T, acc: T, m: string, p: string, level2: Dict<string, V>)
    returns (r: T)
    ensures r == FoldTriples(step, acc, PlatformTriples(m, p, level2, Keys(level2)))
  {
    var keys := Keys(level2);
    KeysFound(level2);
    r := acc;
    var k := 0;
    while k < |keys|
      invariant 0 <= k <= |keys|
      invariant r == FoldTriples(step, acc, PlatformTriples(m, p, level2, keys[..k]))
    {
      assert keys[..k + 1][..k] == keys[..k];
      var value := Get(level2, keys[k]).value;
      r := step(r, (m, p, keys[k], value));
      k := k + 1;
    }
    assert keys[..k] == keys;
  }

  /** The middle loop, over the percentage keys. */
  method WalkPcts<T, V>(step: (T, Triple<V>) -> T, acc: T, m: string, level1: Dict<string, Dict<string, V>>)
    returns (r: T)
    ensures r == FoldTriples(step, acc, PctTriples(m, level1, Keys(level1)))
  {
    var keys := Keys(level1);
    KeysFound(level1);
    r := acc;
    var j := 0;
    while j < |keys|
      invariant 0 <= j <= |keys|
      invariant r == FoldTriples(step, acc, PctTriples(m, level1, keys[..j]))
    {
      assert keys[..j + 1][..j] == keys[..j];
      var level2 := Get(level1, keys[j]).value;
      KeysFound(level2);
      FoldTriplesAppend(step, acc, PctTriples(m, level1, keys[..j]), PlatformTriples(m, keys[j], level2, Keys(level2)));
      r := WalkPlatforms(step, r, m, keys[j], level2);
      j := j + 1;
    }
    assert keys[..j] == keys;
  }

  /** The outer loop, over the metrics of the script; `None` where `data[metric]` raises `KeyError`. */
  method WalkMetrics<T, V>(step: (T, Triple<V>) -> T, acc: T, data: Table<V>, metrics: seq<string>)
    returns (r: Option<T>)
    ensures r.Some? <==> HasMetrics(data, metrics)
    ensures r.Some? ==> r.value == FoldTriples(step, acc, Triples(data, metrics))
  {
    var t := acc;
    var i := 0;
    while i < |metrics|
      invariant 0 <= i <= |metrics|
      invariant HasMetrics(data, metrics[..i])
      invariant t == FoldTriples(step, acc, Triples(data, metrics[..i]))
    {
      var level1 := Get(data, metrics[i]);
      if level1.None? {
        assert !HasMetrics(data, metrics) by { assert Get(data, metrics[i]).None?; }
        return None;
      }
      KeysFound(level1.value);
      TriplesStep(data, metrics, i);
      FoldTriplesAppend(step, acc, Triples(data, metrics[..i]), PctTriples(metrics[i], level1.value, Keys(level1.value)));
      t := WalkPcts(step, t, metrics[i], level1.value);
      i := i + 1;
    }
    assert metrics[..i] == metrics;
    return Some(t);
  }

  // ---------------------------------------------------------------------
  // Lookups by position
  // ---------------------------------------------------------------------

  /** Some visit is at percentage `p` and platform `c`, whatever the metric. */
  predicate Visited<V>(ts: seq<Triple<V>>, p: string, c: string)
    decreases |ts|
  {
    ts != [] && ((ts[|ts| - 1].1 == p && ts[|ts| - 1].2 == c) || Visited(ts[..|ts| - 1], p, c))
  }

  /** A visit with the three keys is found. */
  lemma {:induction false} LookupFinds<V>(ts: seq<Triple<V>>, i: nat, m: string, p: string, c: string)
    requires i < |ts| && ts[i].0 == m && ts[i].1 == p && ts[i].2 == c
    ensures Lookup(ts, m, p, c).Some?
    decreases |ts|
  {
    if i < |ts| - 1 {
      LookupFinds(ts[..|ts| - 1], i, m, p, c);
    }
  }

  /** Without a visit with the three keys nothing is found. */
  lemma {:induction false} LookupMisses<V>(ts: seq<Triple<V>>, m: string, p: string, c: string)
    requires forall i :: 0 <= i < |ts| ==> (ts[i].0, ts[i].1, ts[i].2) != (m, p, c)
    ensures Lookup(ts, m, p, c).None?
    decreases |ts|
  {
    if ts != [] {
      LookupMisses(ts[..|ts| - 1], m, p, c);
    }
  }

  /** What is found was visited at that percentage and platform. */
  lemma {:induction false} LookupVisited<V>(ts: seq<Triple<V>>, m: string, p: string, c: string)
    ensures Lookup(ts, m, p, c).Some? ==> Visited(ts, p, c)
    decreases |ts|
  {
    if ts != [] {
      LookupVisited(ts[..|ts| - 1], m, p, c);
    }
  }

  /** What is found is the value of one visit with the three keys. */
  lemma {:induction false} LookupAt<V>(ts: seq<Triple<V>>, m: string, p: string, c: string) returns (i: nat)
    requires Lookup(ts, m, p, c).Some?
    ensures i < |ts| && ts[i] == (m, p, c, Lookup(ts, m, p, c).value)
    decreases |ts|
  {
    var x := ts[|ts| - 1];
    if x.0 == m && x.1 == p && x.2 == c {
      i := |ts| - 1;
    } else {
      i := LookupAt(ts[..|ts| - 1], m, p, c);
    }
  }

  /** A visited percentage and platform carry the metric of the visit. */
  lemma {:induction false} VisitedAt<V>(ts: seq<Triple<V>>, p: string, c: string) returns (i: nat)
    requires Visited(ts, p, c)
    ensures i < |ts| && ts[i].1 == p && ts[i].2 == c
    decreases |ts|
  {
    if ts[|ts| - 1].1 == p && ts[|ts| - 1].2 == c {
      i := |ts| - 1;
    } else {
      i := VisitedAt(ts[..|ts| - 1], p, c);
    }
  }

  /** The walk reaches a percentage and platform exactly when some listed metric has a value there. */
  lemma TriplesVisited<V>(data: Table<V>, metrics: seq<string>, p: string, c: string)
    requires HasMetrics(data, metrics)
    ensures Visited(Triples(data, metrics), p, c) <==> exists i :: 0 <= i < |metrics| && Cell(data, metrics[i], p, c).Some?
  {
    var ts := Triples(data, metrics);
    if Visited(ts, p, c) {
      var k := VisitedAt(ts, p, c);
      TriplesMetrics(data, metrics);
      var i :| 0 <= i < |metrics| && metrics[i] == ts[k].0;
      LookupFinds(ts, k, metrics[i], p, c);
      TriplesLookup(data, metrics, metrics[i], p, c);
    }
    forall i | 0 <= i < |metrics| && Cell(data, metrics[i], p, c).Some? ensures Visited(ts, p, c) {
      TriplesLookup(data, metrics, metrics[i], p, c);
      LookupVisited(ts, metrics[i], p, c);
    }
  }

  // ---------------------------------------------------------------------
  // `metric_results`: one list of values per try
  // ---------------------------------------------------------------------

  /**
   * The innermost step of `plot`: create `metric_results[metric]`,
   * `[percentage]` and `[platform]` when missing, then append the value.
   */
  function AppendValue(t: Table<seq<Json>>, x: Triple<Json>): Table<seq<Json>> {
    Put(t, x.0, x.1, x.2, Cell(t, x.0, x.1, x.2).GetOr([]) + [x.3])
  }

  /** A list after `value` has possibly been appended to it. */
  function Appended(before: Option<seq<Json>>, value: Option<Json>): Option<seq<Json>> {
    match value
    case None => before
    case Some(v) => Some(before.GetOr([]) + [v])
  }

  /** Appending every visited value once: each list grows by the one value visited there. */
  lemma {:induction false} FoldAppendCell(t: Table<seq<Json>>, ts: seq<Triple<Json>>, m: string, p: string, c: string)
    requires DistinctKeys(ts)
    ensures Cell(FoldTriples(AppendValue, t, ts), m, p, c) == Appended(Cell(t, m, p, c), Lookup(ts, m, p, c))
    decreases |ts|
  {
    if ts != [] {
      var init, x := ts[..|ts| - 1], ts[|ts| - 1];
      assert DistinctKeys(init) by {
        forall i, j | 0 <= i < j < |init| ensures (init[i].0, init[i].1, init[i].2) != (init[j].0, init[j].1, init[j].2) {
          assert init[i] == ts[i] && init[j] == ts[j];
        }
      }
      FoldAppendCell(t, init, m, p, c);
      var r := FoldTriples(AppendValue, t, init);
      CellPut(r, x.0, x.1, x.2, Cell(r, x.0, x.1, x.2).GetOr([]) + [x.3], m, p, c);
      if x.0 == m && x.1 == p && x.2 == c {
        assert forall i :: 0 <= i < |init| ==> (init[i].0, init[i].1, init[i].2) != (m, p, c) by {
          forall i | 0 <= i < |init| ensures (init[i].0, init[i].1, init[i].2) != (m, p, c) {
            assert init[i] == ts[i];
          }
        }
        LookupMisses(init, m, p, c);
      }
    }
  }

  /**
   * `metric_results` after the tries whose tables are `datas`, or `None`
   * where a try's `data[metric]` raises `KeyError`.
   */
  function Collect(datas: seq<Table<Json>>, metrics: seq<string>): Option<Table<seq<Json>>>
    decreases |datas|
  {
    if datas == [] then Some([])
    else
      match Collect(datas[..|datas| - 1], metrics)
      case None => None
      case Some(r) =>
        var d := datas[|datas| - 1];
        if HasMetrics(d, metrics) then Some(FoldTriples(AppendValue, r, Triples(d, metrics))) else None
  }

  /** The values stored at a metric, percentage and platform by the tries, in try order. */
  function SeriesOf(datas: seq<Table<Json>>, m: string, p: string, c: string): (r: seq<Json>)
    ensures |r| <= |datas|
    decreases |datas|
  {
    if datas == [] then []
    else
      var last := match Cell(datas[|datas| - 1], m, p, c) case None => [] case Some(v) => [v];
      SeriesOf(datas[..|datas| - 1], m, p, c) + last
  }

  /** A try's stored value is in the series, in that try's place among the tries that stored one. */
  lemma {:induction false} SeriesOfHas(datas: seq<Table<Json>>, k: nat, m: string, p: string, c: string) returns (j: nat)
    requires k < |datas| && Cell(datas[k], m, p, c).Some?
    ensures j < |SeriesOf(datas, m, p, c)| && SeriesOf(datas, m, p, c)[j] == Cell(datas[k], m, p, c).value
    decreases |datas|
  {
    var init := datas[..|datas| - 1];
    if k == |datas| - 1 {
      j := |SeriesOf(init, m, p, c)|;
    } else {
      assert init[k] == datas[k];
      j := SeriesOfHas(init, k, m, p, c);
    }
  }

  /** One more try succeeds when the ones before did and it has all the metrics. */
  lemma CollectLast(datas: seq<Table<Json>>, metrics: seq<string>)
    requires datas != []
    ensures Collect(datas, metrics).Some?
        <==> Collect(datas[..|datas| - 1], metrics).Some? && HasMetrics(datas[|datas| - 1], metrics)
  {
  }

  /** Every try has all the metrics. */
  predicate AllHaveMetrics(datas: seq<Table<Json>>, metrics: seq<string>) {
    forall i :: 0 <= i < |datas| ==> HasMetrics(datas[i], metrics)
  }

  lemma AllSplit<T>(xs: seq<T>, init: seq<T>, last: T, good: T -> bool)
    requires xs == init + [last]
    ensures (forall i :: 0 <= i < |xs| ==> good(xs[i]))
        <==> (forall i :: 0 <= i < |init| ==> good(init[i])) && good(last)
  {
    assert forall i :: 0 <= i < |init| ==> xs[i] == init[i];
    assert xs[|xs| - 1] == last;
  }

  /** Collecting succeeds exactly when every try has all the metrics. */
  lemma {:induction false} CollectSome(datas: seq<Table<Json>>, metrics: seq<string>)
    ensures Collect(datas, metrics).Some? <==> AllHaveMetrics(datas, metrics)
    decreases |datas|
  {
    if datas != [] {
      var init, d := datas[..|datas| - 1], datas[|datas| - 1];
      CollectSome(init, metrics);
      CollectLast(datas, metrics);
      AllSplit(datas, init, d, (t: Table<Json>) => HasMetrics(t, metrics));
    }
  }

  /**
   * Each list of `metric_results` holds the values of the tries in try order,
   * and a list exists only where some try stored a value of a listed metric.
   */
  lemma {:induction false} CollectCell(datas: seq<Table<Json>>, metrics: seq<string>, m: string, p: string, c: string)
    requires Distinct(metrics)
    requires forall i :: 0 <= i < |datas| ==> UniqueLevels(datas[i])
    requires Collect(datas, metrics).Some?
    ensures Cell(Collect(datas, metrics).value, m, p, c)
         == if m in metrics && SeriesOf(datas, m, p, c) != [] then Some(SeriesOf(datas, m, p, c)) else None
    decreases |datas|
  {
    if datas != [] {
      var init, d := datas[..|datas| - 1], datas[|datas| - 1];
      assert forall i :: 0 <= i < |init| ==> init[i] == datas[i];
      CollectCell(init, metrics, m, p, c);
      var r := Collect(init, metrics).value;
      TriplesDistinct(d, metrics);
      FoldAppendCell(r, Triples(d, metrics), m, p, c);
      TriplesLookup(d, metrics, m, p, c);
      var before := SeriesOf(init, m, p, c);
      if m in metrics && Cell(d, m, p, c).Some? {
        assert SeriesOf(datas, m, p, c) == before + [Cell(d, m, p, c).value];
      } else {
        assert SeriesOf(datas, m, p, c) == before || m !in metrics by {
          if m in metrics { assert SeriesOf(datas, m, p, c) == before + []; }
        }
      }
    }
  }

  // ---------------------------------------------------------------------
  // The confidence-interval report `json_data[platform][percentage][metric]`
  // ---------------------------------------------------------------------

  /** `{"ci_lower": lower, "ci_upper": upper}`. */
  function CiEntry(bounds: (Json, Json)): (r: Json)
    ensures r.JObj? && Keys(r.fields) == ["ci_lower", "ci_upper"]
    ensures Field(r, "ci_lower") == Some(bounds.0) && Field(r, "ci_upper") == Some(bounds.1)
  {
    JObj([("ci_lower", bounds.0), ("ci_upper", bounds.1)])
  }

  /** `{"training_time": {}, ...}`: an empty object per metric of the script. */
  function EmptyMetrics(metrics: seq<string>): (r: Dict<string, Json>)
    ensures Keys(r) == metrics
    ensures forall i :: 0 <= i < |r| ==> r[i].1 == JObj([])
  {
    seq(|metrics|, i requires 0 <= i < |metrics| => (metrics[i], JObj([])))
  }

  lemma GetEmptyMetrics(metrics: seq<string>, m: string)
    ensures Get(EmptyMetrics(metrics), m) == if m in metrics then Some(JObj([])) else None
  {
  }

  /** `if platform not in json_data: ...` and `if percentage not in json_data[platform]: ...`. */
  function StartEntry(t: Table<Json>, c: string, p: string, metrics: seq<string>): Table<Json> {
    var t1 := EnsureFirst(t, c);
    var level1 := Get(t1, c).GetOr([]);
    if Get(level1, p).Some? then t1 else Set(t1, c, Set(level1, p, EmptyMetrics(metrics)))
  }

  /** A new entry holds an empty object for every metric; nothing else changes. */
  lemma CellStartEntry(t: Table<Json>, c: string, p: string, metrics: seq<string>, c': string, p': string, m': string)
    ensures Cell(StartEntry(t, c, p, metrics), c', p', m')
         == if c' == c && p' == p && !HasPath(t, c, p) then Get(EmptyMetrics(metrics), m') else Cell(t, c', p', m')
    ensures HasPath(StartEntry(t, c, p, metrics), c', p') <==> HasPath(t, c', p') || (c' == c && p' == p)
  {
    var t1 := EnsureFirst(t, c);
    GetEnsureFirst(t, c, c);
    GetEnsureFirst(t, c, c');
    var level1 := Get(t1, c).GetOr([]);
    if Get(level1, p).None? {
      GetSet(t1, c, Set(level1, p, EmptyMetrics(metrics)), c');
      GetSet(level1, p, EmptyMetrics(metrics), p');
    }
  }

  /** `t[a][b]` exists after a write exactly when it existed or was the one written. */
  lemma PutPath<V>(t: Table<V>, a: string, b: string, c: string, v: V, a': string, b': string)
    ensures HasPath(Put(t, a, b, c, v), a', b') <==> HasPath(t, a', b') || (a' == a && b' == b)
  {
    var level1 := Get(t, a).GetOr([]);
    var level2 := Get(level1, b).GetOr([]);
    GetSet(t, a, Set(level1, b, Set(level2, c, v)), a');
    if a' == a {
      GetSet(level1, b, Set(level2, c, v), b');
    }
  }

  /** The innermost step of `save_confidence_interval` once the interval is computed: start the entry, write the interval. */
  function CiWrite(metrics: seq<string>, ci: seq<Json> -> (Json, Json), t: Table<Json>, x: Triple<seq<Json>>): Table<Json> {
    Put(StartEntry(t, x.2, x.1, metrics), x.2, x.1, x.0, CiEntry(ci(x.3)))
  }

  /** `CiWrite` for one script and one interval computation, as a step of the walk. */
  function CiWriteOf(metrics: seq<string>, ci: seq<Json> -> (Json, Json)): (Table<Json>, Triple<seq<Json>>) -> Table<Json> {
    (t: Table<Json>, x: Triple<seq<Json>>) => CiWrite(metrics, ci, t, x)
  }

  /**
   * `np.mean(values)`, the first line of `calculate_confidence_interval`,
   * raises `TypeError` when one of the values is `None`, a string or a
   * dictionary.  Numbers and booleans are averaged.
   */
  predicate MeanRaises(values: seq<Json>) {
    exists i :: 0 <= i < |values| && (values[i].JNull? || values[i].JStr? || values[i].JObj?)
  }

  /** Some visited series is one `np.mean` raises on. */
  predicate AnyRaises(ts: seq<Triple<seq<Json>>>) {
    exists i :: 0 <= i < |ts| && MeanRaises(ts[i].3)
  }

  /**
   * The innermost step of `save_confidence_interval`: `None` once
   * `calculate_confidence_interval` has raised, and from the step where it
   * raises on.
   */
  function CiStep(metrics: seq<string>, ci: seq<Json> -> (Json, Json), t: Option<Table<Json>>, x: Triple<seq<Json>>): Option<Table<Json>> {
    match t
    case None => None
    case Some(report) => if MeanRaises(x.3) then None else Some(CiWrite(metrics, ci, report, x))
  }

  /** `CiStep` as a step of the walk. */
  function CiStepOf(metrics: seq<string>, ci: seq<Json> -> (Json, Json)): (Option<Table<Json>>, Triple<seq<Json>>) -> Option<Table<Json>> {
    (t: Option<Table<Json>>, x: Triple<seq<Json>>) => CiStep(metrics, ci, t, x)
  }

  /** The walk raises exactly when some visited series raises, and otherwise writes every interval. */
  lemma {:induction false} CiFold(metrics: seq<string>, ci: seq<Json> -> (Json, Json), t: Table<Json>, ts: seq<Triple<seq<Json>>>)
    ensures FoldTriples(CiStepOf(metrics, ci), Some(t), ts)
         == if AnyRaises(ts) then None else Some(FoldTriples(CiWriteOf(metrics, ci), t, ts))
    decreases |ts|
  {
    if ts != [] {
      var init, x := ts[..|ts| - 1], ts[|ts| - 1];
      CiFold(metrics, ci, t, init);
      assert forall i :: 0 <= i < |init| ==> init[i] == ts[i];
      if AnyRaises(ts) && !MeanRaises(x.3) {
        var i :| 0 <= i < |ts| && MeanRaises(ts[i].3);
        assert i < |init|;
        assert AnyRaises(init) by { assert MeanRaises(init[i].3); }
      }
      if AnyRaises(init) {
        var i :| 0 <= i < |init| && MeanRaises(init[i].3);
        assert AnyRaises(ts) by { assert MeanRaises(ts[i].3); }
      }
      if MeanRaises(x.3) {
        assert AnyRaises(ts) by { assert MeanRaises(ts[|ts| - 1].3); }
      }
    }
  }

  /** What the report holds for a metric: `{}`, or the interval of its values. */
  function CiOf(ci: seq<Json> -> (Json, Json), values: Option<seq<Json>>): Json {
    match values
    case None => JObj([])
    case Some(vs) => CiEntry(ci(vs))
  }

  /** The report has an entry for a platform and percentage exactly when the walk visited them. */
  lemma {:induction false} ReportPath(metrics: seq<string>, ci: seq<Json> -> (Json, Json), t: Table<Json>, ts: seq<Triple<seq<Json>>>, c: string, p: string)
    ensures HasPath(FoldTriples(CiWriteOf(metrics, ci), t, ts), c, p) <==> HasPath(t, c, p) || Visited(ts, p, c)
    decreases |ts|
  {
    if ts != [] {
      var init, x := ts[..|ts| - 1], ts[|ts| - 1];
      ReportPath(metrics, ci, t, init, c, p);
      var r := FoldTriples(CiWriteOf(metrics, ci), t, init);
      CellStartEntry(r, x.2, x.1, metrics, c, p, "");
      PutPath(StartEntry(r, x.2, x.1, metrics), x.2, x.1, x.0, CiEntry(ci(x.3)), c, p);
    }
  }

  /** One step writes the visited metric's interval into a new or existing entry. */
  lemma CiWriteCell(metrics: seq<string>, ci: seq<Json> -> (Json, Json), t: Table<Json>, x: Triple<seq<Json>>, c: string, p: string, m: string)
    ensures Cell(CiWrite(metrics, ci, t, x), c, p, m)
         == if c == x.2 && p == x.1 && m == x.0 then Some(CiEntry(ci(x.3)))
            else if c == x.2 && p == x.1 && !HasPath(t, c, p) then (if m in metrics then Some(JObj([])) else None)
            else Cell(t, c, p, m)
  {
    var t1 := StartEntry(t, x.2, x.1, metrics);
    CellStartEntry(t, x.2, x.1, metrics, c, p, m);
    CellPut(t1, x.2, x.1, x.0, CiEntry(ci(x.3)), c, p, m);
    GetEmptyMetrics(metrics, m);
  }

  /**
   * Starting from an empty report, each entry holds exactly the script's
   * metrics, each with the interval of the values visited there or `{}`.
   */
  lemma {:induction false} ReportCell(metrics: seq<string>, ci: seq<Json> -> (Json, Json), ts: seq<Triple<seq<Json>>>, c: string, p: string, m: string)
    requires forall i :: 0 <= i < |ts| ==> ts[i].0 in metrics
    ensures Cell(FoldTriples(CiWriteOf(metrics, ci), [], ts), c, p, m)
         == if Visited(ts, p, c) && m in metrics then Some(CiOf(ci, Lookup(ts, m, p, c))) else None
    decreases |ts|
  {
    if ts != [] {
      var init, x := ts[..|ts| - 1], ts[|ts| - 1];
      assert forall i :: 0 <= i < |init| ==> init[i] == ts[i];
      ReportCell(metrics, ci, init, c, p, m);
      ReportPath(metrics, ci, [], init, c, p);
      LookupVisited(init, m, p, c);
      var r := FoldTriples(CiWriteOf(metrics, ci), [], init);
      assert FoldTriples(CiWriteOf(metrics, ci), [], ts) == CiWrite(metrics, ci, r, x);
      CiWriteCell(metrics, ci, r, x, c, p, m);
      if x.0 == m && x.1 == p && x.2 == c {
        assert Lookup(ts, m, p, c) == Some(x.3);
      } else {
        assert Lookup(ts, m, p, c) == Lookup(init, m, p, c);
        assert Visited(ts, p, c) <==> Visited(init, p, c) || (x.1 == p && x.2 == c);
      }
    }
  }

  /**
   * `save_confidence_interval`'s report, or `None` where `data[metric]`
   * raises `KeyError` or `np.mean` raises `TypeError`.
   */
  function CiReport(metrics: seq<string>, ci: seq<Json> -> (Json, Json), results: Table<seq<Json>>): Option<Table<Json>> {
    if HasMetrics(results, metrics) then FoldTriples(CiStepOf(metrics, ci), Some([]), Triples(results, metrics)) else None
  }

  /** The report is written exactly when every metric is present and no visited series makes `np.mean` raise. */
  lemma CiReportSome(metrics: seq<string>, ci: seq<Json> -> (Json, Json), results: Table<seq<Json>>)
    ensures CiReport(metrics, ci, results).Some? <==> HasMetrics(results, metrics) && !AnyRaises(Triples(results, metrics))
  {
    if HasMetrics(results, metrics) {
      CiFold(metrics, ci, [], Triples(results, metrics));
    }
  }

  /** A stored series of a listed metric is visited by the walk. */
  lemma CellVisited(metrics: seq<string>, results: Table<seq<Json>>, m: string, p: string, c: string) returns (i: nat)
    requires HasMetrics(results, metrics) && m in metrics && Cell(results, m, p, c).Some?
    ensures i < |Triples(results, metrics)| && Triples(results, metrics)[i].3 == Cell(results, m, p, c).value
  {
    TriplesLookup(results, metrics, m, p, c);
    i := LookupAt(Triples(results, metrics), m, p, c);
  }

  /** One series of a listed metric that `np.mean` raises on makes the whole report raise. */
  lemma CiReportRaises(metrics: seq<string>, ci: seq<Json> -> (Json, Json), results: Table<seq<Json>>, m: string, p: string, c: string)
    requires m in metrics && Cell(results, m, p, c).Some? && MeanRaises(Cell(results, m, p, c).value)
    ensures CiReport(metrics, ci, results).None?
  {
    if HasMetrics(results, metrics) {
      var ts := Triples(results, metrics);
      var i := CellVisited(metrics, results, m, p, c);
      assert MeanRaises(ts[i].3);
      CiFold(metrics, ci, [], ts);
    }
  }

  /**
   * The report has an entry for a platform and percentage exactly when some
   * metric has values there; the entry lists every metric of the script, with
   * the interval of that metric's values, or `{}` when it has none there.
   */
  lemma ReportShape(metrics: seq<string>, ci: seq<Json> -> (Json, Json), results: Table<seq<Json>>, c: string, p: string, m: string)
    requires CiReport(metrics, ci, results).Some?
    ensures HasPath(CiReport(metrics, ci, results).value, c, p)
        <==> exists i :: 0 <= i < |metrics| && Cell(results, metrics[i], p, c).Some?
    ensures Cell(CiReport(metrics, ci, results).value, c, p, m)
         == if HasPath(CiReport(metrics, ci, results).value, c, p) && m in metrics
            then Some(CiOf(ci, Cell(results, m, p, c))) else None
    ensures m in metrics && Cell(results, m, p, c).Some? ==> !MeanRaises(Cell(results, m, p, c).value)
  {
    var ts := Triples(results, metrics);
    CiFold(metrics, ci, [], ts);
    if m in metrics && Cell(results, m, p, c).Some? {
      var i := CellVisited(metrics, results, m, p, c);
      assert !MeanRaises(ts[i].3);
    }
    TriplesMetrics(results, metrics);
    ReportPath(metrics, ci, [], ts, c, p);
    ReportCell(metrics, ci, ts, c, p, m);
    TriplesVisited(results, metrics, p, c);
    TriplesLookup(results, metrics, m, p, c);
  }

  /** With no tries there is nothing under any metric, and the report raises `KeyError`. */
  lemma CiReportNoTries(metrics: seq<string>, ci: seq<Json> -> (Json, Json))
    requires metrics != []
    ensures CiReport(metrics, ci, []) == None
  {
    var empty: Table<seq<Json>> := [];
    assert Get(empty, metrics[0]).None?;
  }

  /** `save_confidence_interval` without the file write: `None` where it raises `KeyError` or `TypeError`. */
  method SaveConfidenceInterval(metrics: seq<string>, ci: seq<Json> -> (Json, Json), results: Table<seq<Json>>)
    returns (r: Option<Table<Json>>)
    ensures r == CiReport(metrics, ci, results)
  {
    var walked := WalkMetrics(CiStepOf(metrics, ci), Some([]), results, metrics);
    r := if walked.None? then None else walked.value;
  }
}
