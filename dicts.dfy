/**
 * Python dictionaries keep their keys in insertion order, and the benchmark's
 * CSV rows, chart series and JSON files follow that order.  A dictionary is
 * therefore modelled as a list of entries with at most one entry per key.
 */
module Dicts {
  import opened Wrappers

  type Dict<K, V> = seq<(K, V)>

  /** `list(d.keys())`. */
  function Keys<K, V>(d: Dict<K, V>): (r: seq<K>)
    ensures |r| == |d|
    ensures forall i :: 0 <= i < |d| ==> r[i] == d[i].0
  {
    seq(|d|, i requires 0 <= i < |d| => d[i].0)
  }

  /** No key occurs twice. */
  predicate Unique<K(==), V>(d: Dict<K, V>) {
    forall i, j :: 0 <= i < j < |d| ==> d[i].0 != d[j].0
  }

  /** `d.get(k)`: the value stored under `k`, if any. */
  function Get<K(==), V>(d: Dict<K, V>, k: K): (r: Option<V>)
    ensures r.Some? <==> k in Keys(d)
    ensures r.Some? ==> exists i :: 0 <= i < |d| && d[i] == (k, r.value)
    decreases |d|
  {
    if d == [] then None
    else if d[0].0 == k then Some(d[0].1)
    else
      var r := Get(d[1..], k);
      assert Keys(d) == [d[0].0] + Keys(d[1..]);
      r
  }

  /** `d[k] = v`: an existing key keeps its position, a new key goes to the end. */
  function Set<K(==), V>(d: Dict<K, V>, k: K, v: V): (r: Dict<K, V>)
    ensures k in Keys(d) ==> Keys(r) == Keys(d)
    ensures k !in Keys(d) ==> Keys(r) == Keys(d) + [k]
    decreases |d|
  {
    if d == [] then [(k, v)]
    else if d[0].0 == k then
      var r := [(k, v)] + d[1..];
      assert Keys(r) == Keys(d);
      r
    else
      var rest := Set(d[1..], k, v);
      var r := [d[0]] + rest;
      assert r[1..] == rest;
      assert Keys(d) == [d[0].0] + Keys(d[1..]);
      assert Keys(r) == [d[0].0] + Keys(rest);
      r
  }

  /** After `d[k] = v`, `d.get(k)` is `v` and every other key reads as before. */
  lemma {:induction false} GetSet<K, V>(d: Dict<K, V>, k: K, v: V, k': K)
    ensures Get(Set(d, k, v), k') == if k' == k then Some(v) else Get(d, k')
    decreases |d|
  {
    if d != [] && d[0].0 != k {
      var r := Set(d, k, v);
      assert r[0] == d[0] && r[1..] == Set(d[1..], k, v);
      GetSet(d[1..], k, v, k');
    }
  }

  /** Setting a key keeps keys unique. */
  lemma SetUnique<K, V>(d: Dict<K, V>, k: K, v: V)
    requires Unique(d)
    ensures Unique(Set(d, k, v))
  {
    var r := Set(d, k, v);
    var kd := Keys(d);
    var kr := Keys(r);
    forall i, j | 0 <= i < j < |r| ensures r[i].0 != r[j].0 {
      assert kr[i] == r[i].0 && kr[j] == r[j].0;
      if k in kd {
        assert kr == kd;
        assert kd[i] == d[i].0 && kd[j] == d[j].0;
      } else if j < |d| {
        assert kr[..|d|] == kd;
        assert kd[i] == d[i].0 && kd[j] == d[j].0;
      } else {
        assert kr[j] == k && kr[i] == kd[i];
      }
    }
  }

  /** Looking up an entry's key finds that entry when no earlier entry has the same key. */
  lemma {:induction false} GetFirstAt<K, V>(d: Dict<K, V>, i: nat)
    requires i < |d|
    requires forall j :: 0 <= j < i ==> d[j].0 != d[i].0
    ensures Get(d, d[i].0) == Some(d[i].1)
  {
    if i > 0 {
      assert d[0].0 != d[i].0;
      assert d[1..][i - 1] == d[i];
      forall j | 0 <= j < i - 1 ensures d[1..][j].0 != d[1..][i - 1].0 {
        assert d[1..][j] == d[j + 1];
      }
      GetFirstAt(d[1..], i - 1);
    }
  }

  /** Without repeated keys, looking up an entry's key finds that entry. */
  lemma GetUnique<K, V>(d: Dict<K, V>, i: nat)
    requires Unique(d) && i < |d|
    ensures Get(d, d[i].0) == Some(d[i].1)
  {
    GetFirstAt(d, i);
  }

  /** A property of every stored value survives `d[k] = v` when the new value has it too. */
  lemma {:induction false} SetPreserves<K, V>(d: Dict<K, V>, k: K, v: V, p: V -> bool)
    requires forall i :: 0 <= i < |d| ==> p(d[i].1)
    requires p(v)
    ensures forall i :: 0 <= i < |Set(d, k, v)| ==> p(Set(d, k, v)[i].1)
    decreases |d|
  {
    if d != [] && d[0].0 != k {
      SetPreserves(d[1..], k, v, p);
      assert Set(d, k, v) == [d[0]] + Set(d[1..], k, v);
    }
  }
}
