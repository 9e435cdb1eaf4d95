/**
 * Python's `sorted(xs, key=k)`, which is stable, and the two orderings the
 * aggregators use for their charts: platforms by their place in a fixed
 * preference list (unknown platforms last, in listing order) and dataset
 * sizes by their numeric percentage.
 */
module Ordering {
  import opened Wrappers
  import opened Strings
  import opened UnicodeDigits

  predicate SortedBy<T>(s: seq<T>, key: T -> int) {
    forall i, j :: 0 <= i < j < |s| ==> key(s[i]) <= key(s[j])
  }

  /** The elements whose key is `k`, in their order in `s`. */
  function WithKey<T>(s: seq<T>, key: T -> int, k: int): seq<T>
    decreases |s|
  {
    if s == [] then []
    else WithKey(s[..|s| - 1], key, k) + (if key(s[|s| - 1]) == k then [s[|s| - 1]] else [])
  }

  /** Inserts `x` after every element whose key is at most `x`'s. */
  function Insert<T>(s: seq<T>, x: T, key: T -> int): seq<T>
    decreases |s|
  {
    if s == [] || key(s[|s| - 1]) <= key(x) then s + [x]
    else Insert(s[..|s| - 1], x, key) + [s[|s| - 1]]
  }

  /** `sorted(xs, key=key)`: insertion sort, inserting the elements in their listing order. */
  function SortBy<T>(xs: seq<T>, key: T -> int): seq<T>
    decreases |xs|
  {
    if xs == [] then [] else Insert(SortBy(xs[..|xs| - 1], key), xs[|xs| - 1], key)
  }

  lemma {:induction false} InsertMultiset<T>(s: seq<T>, x: T, key: T -> int)
    ensures multiset(Insert(s, x, key)) == multiset(s) + multiset{x}
    decreases |s|
  {
    if s != [] && key(s[|s| - 1]) > key(x) {
      InsertMultiset(s[..|s| - 1], x, key);
      assert s == s[..|s| - 1] + [s[|s| - 1]];
    }
  }

  lemma {:induction false} InsertSorted<T>(s: seq<T>, x: T, key: T -> int)
    requires SortedBy(s, key)
    ensures SortedBy(Insert(s, x, key), key)
    decreases |s|
  {
    var r := Insert(s, x, key);
    if s == [] || key(s[|s| - 1]) <= key(x) {
      forall i, j | 0 <= i < j < |r| ensures key(r[i]) <= key(r[j]) {
        if j == |r| - 1 && i < |s| {
          assert key(s[i]) <= key(s[|s| - 1]);
        }
      }
    } else {
      var init := s[..|s| - 1];
      var r' := Insert(init, x, key);
      InsertSorted(init, x, key);
      InsertMultiset(init, x, key);
      assert r == r' + [s[|s| - 1]];
      forall i | 0 <= i < |r'| ensures key(r'[i]) <= key(s[|s| - 1]) {
        assert r'[i] in multiset(r');
        if r'[i] != x {
          assert r'[i] in multiset(init);
          var m :| 0 <= m < |init| && init[m] == r'[i];
          assert key(s[m]) <= key(s[|s| - 1]);
        }
      }
    }
  }

  lemma {:induction false} InsertWithKey<T>(s: seq<T>, x: T, key: T -> int, k: int)
    ensures WithKey(Insert(s, x, key), key, k) == WithKey(s, key, k) + (if key(x) == k then [x] else [])
    decreases |s|
  {
    var r := Insert(s, x, key);
    if s == [] || key(s[|s| - 1]) <= key(x) {
      assert r[..|r| - 1] == s;
    } else {
      var init := s[..|s| - 1];
      InsertWithKey(init, x, key, k);
      assert r[..|r| - 1] == Insert(init, x, key);
    }
  }

  /** `sorted` returns a permutation of its input, ordered by the key. */
  lemma {:induction false} SortByOrdered<T>(xs: seq<T>, key: T -> int)
    ensures SortedBy(SortBy(xs, key), key)
    ensures multiset(SortBy(xs, key)) == multiset(xs)
    decreases |xs|
  {
    if xs != [] {
      var init := xs[..|xs| - 1];
      SortByOrdered(init, key);
      InsertSorted(SortBy(init, key), xs[|xs| - 1], key);
      InsertMultiset(SortBy(init, key), xs[|xs| - 1], key);
      assert xs == init + [xs[|xs| - 1]];
    }
  }

  /** `sorted` is stable: the elements sharing a key keep their relative order. */
  lemma {:induction false} SortByStable<T>(xs: seq<T>, key: T -> int, k: int)
    ensures WithKey(SortBy(xs, key), key, k) == WithKey(xs, key, k)
    decreases |xs|
  {
    if xs != [] {
      var init := xs[..|xs| - 1];
      SortByStable(init, key, k);
      InsertWithKey(SortBy(init, key), xs[|xs| - 1], key, k);
    }
  }

  // ---------------------------------------------------------------------
  // Platforms
  // ---------------------------------------------------------------------

  const PredefinedPlatforms := ["python_gpu", "rust_wasm_cpu", "tensorflow_js_cpu", "tensorflow_js_webgpu", "tensorflow_js_wasm"]

  /** `predefined_platforms.index(x) if x in predefined_platforms else len(predefined_platforms)`. */
  function PlatformRank(x: string): (r: int)
    ensures 0 <= r <= |PredefinedPlatforms|
    ensures r < |PredefinedPlatforms| ==> PredefinedPlatforms[r] == x
    ensures r == |PredefinedPlatforms| <==> x !in PredefinedPlatforms
  {
    if x == PredefinedPlatforms[0] then 0
    else if x == PredefinedPlatforms[1] then 1
    else if x == PredefinedPlatforms[2] then 2
    else if x == PredefinedPlatforms[3] then 3
    else if x == PredefinedPlatforms[4] then 4
    else 5
  }

  function SortPlatforms(folders: seq<string>): seq<string> {
    SortBy(folders, PlatformRank)
  }

  /**
   * The platforms come out as a permutation of the folders, ordered by the
   * preference list; the unknown ones come last, in listing order.
   */
  lemma SortPlatformsOrder(folders: seq<string>)
    ensures multiset(SortPlatforms(folders)) == multiset(folders)
    ensures forall i, j :: 0 <= i < j < |SortPlatforms(folders)| ==>
              PlatformRank(SortPlatforms(folders)[i]) <= PlatformRank(SortPlatforms(folders)[j])
    ensures WithKey(SortPlatforms(folders), PlatformRank, |PredefinedPlatforms|)
         == WithKey(folders, PlatformRank, |PredefinedPlatforms|)
  {
    SortByOrdered(folders, PlatformRank);
    SortByStable(folders, PlatformRank, |PredefinedPlatforms|);
  }

  // ---------------------------------------------------------------------
  // Dataset sizes
  // ---------------------------------------------------------------------

  /** `int(x.replace('%', ''))`, or `None` where `int` raises `ValueError`. */
  function SizeKey(x: string): (r: Option<int>)
    ensures r.Some? <==> ParseInt(RemoveAll(x, "%")).Some?
  {
    ParseInt(RemoveAll(x, "%"))
  }

  function SizeKeyOr0(x: string): int {
    SizeKey(x).GetOr(0)
  }

  /** `sorted(sizes, key=lambda x: int(x.replace('%', '')))`; `None` when some key fails to parse. */
  function SortSizes(sizes: seq<string>): (r: Option<seq<string>>)
    ensures r.Some? <==> forall i :: 0 <= i < |sizes| ==> SizeKey(sizes[i]).Some?
  {
    if forall i :: 0 <= i < |sizes| ==> SizeKey(sizes[i]).Some? then Some(SortBy(sizes, SizeKeyOr0)) else None
  }

  lemma {:induction false} RemovePercent(d: string)
    requires AllDecimal(d)
    ensures RemoveAll(d + "%", "%") == d
    decreases |d|
  {
    if d == [] {
      assert StartsWith("%", "%");
      assert "%"[1..] == [];
    } else {
      assert !StartsWith(d + "%", "%") by { assert IsDecimal((d + "%")[0]); }
      assert (d + "%")[1..] == d[1..] + "%";
      RemovePercent(d[1..]);
      assert [d[0]] + d[1..] == d;
    }
  }

  /** The key of a label `<digits>%` is the number its digits spell. */
  lemma SizeKeyOfLabel(d: string)
    requires d != [] && AllDecimal(d)
    ensures SizeKey(d + "%") == Some(DigitsValue(d))
  {
    RemovePercent(d);
    ParseIntOfDecimals(d);
  }

  /** Labels `<digits>%` always sort, into increasing percentage, as a permutation of the input. */
  lemma SortSizesOrder(sizes: seq<string>)
    requires forall i :: 0 <= i < |sizes| ==> |sizes[i]| >= 2 && sizes[i][|sizes[i]| - 1] == '%'
                                              && AllDecimal(sizes[i][..|sizes[i]| - 1])
    ensures SortSizes(sizes).Some?
    ensures multiset(SortSizes(sizes).value) == multiset(sizes)
    ensures forall i :: 0 <= i < |SortSizes(sizes).value| ==> SizeKey(SortSizes(sizes).value[i]).Some?
    ensures forall i, j :: 0 <= i < j < |SortSizes(sizes).value| ==>
              SizeKey(SortSizes(sizes).value[i]).value <= SizeKey(SortSizes(sizes).value[j]).value
  {
    LabelsHaveKeys(sizes);
    SortByOrdered(sizes, SizeKeyOr0);
    var r := SortBy(sizes, SizeKeyOr0);
    assert SortSizes(sizes) == Some(r);
    KeysOfPermutation(r, sizes);
  }

  lemma LabelsHaveKeys(sizes: seq<string>)
    requires forall i :: 0 <= i < |sizes| ==> |sizes[i]| >= 2 && sizes[i][|sizes[i]| - 1] == '%'
                                              && AllDecimal(sizes[i][..|sizes[i]| - 1])
    ensures forall i :: 0 <= i < |sizes| ==> SizeKey(sizes[i]).Some?
  {
    forall i | 0 <= i < |sizes| ensures SizeKey(sizes[i]).Some? {
      LabelKey(sizes[i]);
    }
  }

  /** In a permutation of labels that all have keys, every label has its key. */
  lemma KeysOfPermutation(r: seq<string>, sizes: seq<string>)
    requires multiset(r) == multiset(sizes)
    requires forall i :: 0 <= i < |sizes| ==> SizeKey(sizes[i]).Some?
    ensures forall i :: 0 <= i < |r| ==> SizeKey(r[i]).Some? && SizeKey(r[i]).value == SizeKeyOr0(r[i])
  {
    forall i | 0 <= i < |r| ensures SizeKey(r[i]).Some? && SizeKey(r[i]).value == SizeKeyOr0(r[i]) {
      SameElements(r, sizes, i);
    }
  }

  /** A label `<digits>%` has a key. */
  lemma LabelKey(x: string)
    requires |x| >= 2 && x[|x| - 1] == '%' && AllDecimal(x[..|x| - 1])
    ensures SizeKey(x).Some?
  {
    var d := x[..|x| - 1];
    assert x == d + "%";
    SizeKeyOfLabel(d);
  }

  /** An element of a permutation is an element of the original. */
  lemma SameElements<T>(r: seq<T>, xs: seq<T>, i: int)
    requires multiset(r) == multiset(xs) && 0 <= i < |r|
    ensures exists j :: 0 <= j < |xs| && xs[j] == r[i]
  {
    assert r[i] in multiset(xs);
  }
}
