/**
 * The three-level dictionaries the aggregators fill: `metric_data[metric][percentage][platform]`,
 * `metric_results[metric][percentage][platform]` (a list per entry) and the
 * report `json_data[platform][percentage][metric]`.
 */
module Tables {
  import opened Wrappers
  import opened Dicts

  type Table<V> = Dict<string, Dict<string, Dict<string, V>>>

  /** `t[a][b][c]`, or `None` where any of the three lookups raises `KeyError`. */
  function Cell<V>(t: Table<V>, a: string, b: string, c: string): Option<V> {
    match Get(t, a)
    case None => None
    case Some(level1) =>
      match Get(level1, b)
      case None => None
      case Some(level2) => Get(level2, c)
  }

  /** `t[a][b]` exists. */
  predicate HasPath<V>(t: Table<V>, a: string, b: string) {
    Get(t, a).Some? && Get(Get(t, a).value, b).Some?
  }

  /** The keys at the second level under `a`, or none. */
  function SecondKeys<V>(t: Table<V>, a: string): seq<string> {
    match Get(t, a)
    case None => []
    case Some(level1) => Keys(level1)
  }

  /** `t[a][b][c] = v`, where `t[a]` and `t[a][b]` are created empty when missing. */
  function Put<V>(t: Table<V>, a: string, b: string, c: string, v: V): Table<V> {
    var level1 := Get(t, a).GetOr([]);
    var level2 := Get(level1, b).GetOr([]);
    Set(t, a, Set(level1, b, Set(level2, c, v)))
  }

  /** Only the written cell changes. */
  lemma CellPut<V>(t: Table<V>, a: string, b: string, c: string, v: V, a': string, b': string, c': string)
    ensures Cell(Put(t, a, b, c, v), a', b', c') == if a' == a && b' == b && c' == c then Some(v) else Cell(t, a', b', c')
  {
    var level1 := Get(t, a).GetOr([]);
    var level2 := Get(level1, b).GetOr([]);
    var inner := Set(level2, c, v);
    var middle := Set(level1, b, inner);
    assert Put(t, a, b, c, v) == Set(t, a, middle);
    GetSet(t, a, middle, a');
    if a' == a {
      GetSet(level1, b, inner, b');
      assert Cell(Set(t, a, middle), a', b', c') == Level2Get(Get(middle, b'), c');
      if b' == b {
        GetSet(level2, c, v, c');
        assert Cell(t, a', b', c') == Level2Get(Get(level1, b), c');
      } else {
        assert Cell(t, a', b', c') == Level2Get(Get(level1, b'), c');
      }
    }
  }

  /** The last lookup of `Cell`, on an optional second level. */
  function Level2Get<V>(level2: Option<Dict<string, V>>, c: string): Option<V> {
    match level2
    case None => None
    case Some(d) => Get(d, c)
  }

  /** `t[a][b]` exists afterwards when `t[a][b][c]` has been written. */
  lemma PutHasPath<V>(t: Table<V>, a: string, b: string, c: string, v: V, a': string, b': string)
    requires HasPath(t, a', b')
    ensures HasPath(Put(t, a, b, c, v), a, b) && HasPath(Put(t, a, b, c, v), a', b')
  {
    var level1 := Get(t, a).GetOr([]);
    var level2 := Get(level1, b).GetOr([]);
    GetSet(t, a, Set(level1, b, Set(level2, c, v)), a);
    GetSet(level1, b, Set(level2, c, v), b);
    GetSet(t, a, Set(level1, b, Set(level2, c, v)), a');
    if a' == a {
      GetSet(level1, b, Set(level2, c, v), b');
    }
  }

  /** `if a not in t: t[a] = {}`. */
  function EnsureFirst<V>(t: Table<V>, a: string): Table<V> {
    if Get(t, a).Some? then t else Set(t, a, [])
  }

  /** `if b not in t[a]: t[a][b] = {}`, for an existing `t[a]`. */
  function EnsureSecond<V>(t: Table<V>, a: string, b: string): Table<V> {
    var level1 := Get(t, a).GetOr([]);
    if Get(level1, b).Some? then t else Set(t, a, Set(level1, b, []))
  }

  /** Both steps, as the aggregators run them for each metric. */
  function EnsurePath<V>(t: Table<V>, a: string, b: string): Table<V> {
    EnsureSecond(EnsureFirst(t, a), a, b)
  }

  lemma GetEnsureFirst<V>(t: Table<V>, a: string, a': string)
    ensures Get(EnsureFirst(t, a), a') == if a' == a && Get(t, a).None? then Some([]) else Get(t, a')
  {
    if Get(t, a).None? { GetSet(t, a, [], a'); }
  }

  lemma GetEnsureSecond<V>(t: Table<V>, a: string, b: string, a': string)
    ensures var level1 := Get(t, a).GetOr([]);
            Get(EnsureSecond(t, a, b), a') == if a' == a && Get(level1, b).None? then Some(Set(level1, b, [])) else Get(t, a')
  {
    var level1 := Get(t, a).GetOr([]);
    if Get(level1, b).None? { GetSet(t, a, Set(level1, b, []), a'); }
  }

  /** Afterwards `t[a][b]` exists. */
  lemma EnsurePathHas<V>(t: Table<V>, a: string, b: string)
    ensures HasPath(EnsurePath(t, a, b), a, b)
  {
    var t1 := EnsureFirst(t, a);
    GetEnsureFirst(t, a, a);
    GetEnsureSecond(t1, a, b, a);
    var level1 := Get(t1, a).GetOr([]);
    GetSet(level1, b, [], b);
  }

  /** Creating empty dictionaries changes no cell. */
  lemma EnsurePathCell<V>(t: Table<V>, a: string, b: string, a': string, b': string, c': string)
    ensures Cell(EnsurePath(t, a, b), a', b', c') == Cell(t, a', b', c')
  {
    var t1 := EnsureFirst(t, a);
    GetEnsureFirst(t, a, a');
    GetEnsureSecond(t1, a, b, a');
    var level1 := Get(t1, a).GetOr([]);
    GetSet(level1, b, [], b');
  }

  /** Existing paths stay. */
  lemma EnsurePathKeeps<V>(t: Table<V>, a: string, b: string, a': string, b': string)
    requires HasPath(t, a', b')
    ensures HasPath(EnsurePath(t, a, b), a', b')
  {
    var t1 := EnsureFirst(t, a);
    GetEnsureFirst(t, a, a');
    GetEnsureSecond(t1, a, b, a');
    var level1 := Get(t1, a).GetOr([]);
    GetSet(level1, b, [], b');
  }

  /** The first-level keys grow by `a` at most. */
  lemma EnsurePathKeys<V>(t: Table<V>, a: string, b: string, a': string)
    ensures Get(EnsurePath(t, a, b), a').Some? <==> Get(t, a').Some? || a' == a
  {
    GetEnsureFirst(t, a, a');
    GetEnsureSecond(EnsureFirst(t, a), a, b, a');
  }

  // ---------------------------------------------------------------------
  // Python dictionaries have unique keys at every level
  // ---------------------------------------------------------------------

  predicate UniqueLevels<V>(t: Table<V>) {
    && Unique(t)
    && (forall i :: 0 <= i < |t| ==> Unique(t[i].1))
    && (forall i, j :: 0 <= i < |t| && 0 <= j < |t[i].1| ==> Unique(t[i].1[j].1))
  }

  /** A looked-up value is one of the stored values. */
  lemma {:induction false} GetStored<V>(d: Dict<string, V>, k: string, p: V -> bool)
    requires forall i :: 0 <= i < |d| ==> p(d[i].1)
    requires Get(d, k).Some?
    ensures p(Get(d, k).value)
    decreases |d|
  {
    if d[0].0 != k {
      GetStored(d[1..], k, p);
    }
  }

  predicate UniqueDict<V>(d: Dict<string, V>) {
    Unique(d)
  }

  predicate UniqueNested<V>(d: Dict<string, Dict<string, V>>) {
    Unique(d) && forall i :: 0 <= i < |d| ==> Unique(d[i].1)
  }

  lemma PutUnique<V>(t: Table<V>, a: string, b: string, c: string, v: V)
    requires UniqueLevels(t)
    ensures UniqueLevels(Put(t, a, b, c, v))
  {
    var level1 := Get(t, a).GetOr([]);
    var level2 := Get(level1, b).GetOr([]);
    assert forall i :: 0 <= i < |t| ==> UniqueNested(t[i].1);
    if Get(t, a).Some? { GetStored(t, a, UniqueNested); }
    if Get(level1, b).Some? { GetStored(level1, b, UniqueDict); }
    SetUnique(level2, c, v);
    SetUnique(level1, b, Set(level2, c, v));
    SetPreserves(level1, b, Set(level2, c, v), UniqueDict);
    SetUnique(t, a, Set(level1, b, Set(level2, c, v)));
    SetPreserves(t, a, Set(level1, b, Set(level2, c, v)), UniqueNested);
  }

  lemma EnsurePathUnique<V>(t: Table<V>, a: string, b: string)
    requires UniqueLevels(t)
    ensures UniqueLevels(EnsurePath(t, a, b))
  {
    LevelsNested(t);
    EnsureFirstUnique(t, a);
    LevelsNested(EnsureFirst(t, a));
    EnsureSecondUnique(EnsureFirst(t, a), a, b);
    LevelsNested(EnsurePath(t, a, b));
  }

  /** Unique keys at every level, stated through the nested dictionaries. */
  lemma LevelsNested<V>(t: Table<V>)
    ensures UniqueLevels(t) <==> Unique(t) && forall i :: 0 <= i < |t| ==> UniqueNested(t[i].1)
  {
  }

  lemma EnsureFirstUnique<V>(t: Table<V>, a: string)
    requires Unique(t) && forall i :: 0 <= i < |t| ==> UniqueNested(t[i].1)
    ensures var t1 := EnsureFirst(t, a); Unique(t1) && forall i :: 0 <= i < |t1| ==> UniqueNested(t1[i].1)
  {
    if Get(t, a).None? {
      SetUnique(t, a, []);
      SetPreserves(t, a, [], UniqueNested);
    }
  }

  lemma EnsureSecondUnique<V>(t: Table<V>, a: string, b: string)
    requires Unique(t) && forall i :: 0 <= i < |t| ==> UniqueNested(t[i].1)
    ensures var t2 := EnsureSecond(t, a, b); Unique(t2) && forall i :: 0 <= i < |t2| ==> UniqueNested(t2[i].1)
  {
    var level1 := Get(t, a).GetOr([]);
    if Get(t, a).Some? { GetStored(t, a, UniqueNested); }
    if Get(level1, b).None? {
      SetUnique(level1, b, []);
      SetPreserves(level1, b, [], UniqueDict);
      SetUnique(t, a, Set(level1, b, []));
      SetPreserves(t, a, Set(level1, b, []), UniqueNested);
    }
  }
}
