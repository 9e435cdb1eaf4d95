/**
 * The names of result files.  The drivers store each run's metrics as
 * `<platform>_sample_<digits>%.json` (the neural-network drivers sometimes put
 * "nn_mnist_" in front), and the plot modules recover the platform and the
 * percentage from the name with `re.match(r"([a-zA-Z0-9_]+)_sample_(\d+)%.json", name)`.
 * Dataset sizes are read off names with `re.search(r'(\d+%)', name)`.
 */
module ResultNames {
  import opened Wrappers
  import opened Strings
  import opened UnicodeDigits

  /** The characters of the class `[a-zA-Z0-9_]`. */
  predicate IsWordChar(c: char) {
    ('a' <= c <= 'z') || ('A' <= c <= 'Z') || IsDigit(c) || c == '_'
  }

  predicate AllWord(s: string) {
    forall i :: 0 <= i < |s| ==> IsWordChar(s[i])
  }

  /** Length of the longest prefix of word characters. */
  function WordRun(s: string): (n: nat)
    ensures n <= |s|
    decreases |s|
  {
    if s != [] && IsWordChar(s[0]) then 1 + WordRun(s[1..]) else 0
  }

  /** Length of the longest prefix of decimal digits, the characters `\d` matches. */
  function DigitRun(s: string): (n: nat)
    ensures n <= |s|
    decreases |s|
  {
    if s != [] && IsDecimal(s[0]) then 1 + DigitRun(s[1..]) else 0
  }

  /** The word run is all word characters and cannot be extended. */
  lemma {:induction false} WordRunMaximal(s: string)
    ensures AllWord(s[..WordRun(s)])
    ensures WordRun(s) < |s| ==> !IsWordChar(s[WordRun(s)])
    decreases |s|
  {
    if s != [] && IsWordChar(s[0]) {
      WordRunMaximal(s[1..]);
      assert s[..WordRun(s)] == [s[0]] + s[1..][..WordRun(s[1..])];
    }
  }

  /** The digit run is all digits and cannot be extended. */
  lemma {:induction false} DigitRunMaximal(s: string)
    ensures AllDecimal(s[..DigitRun(s)])
    ensures DigitRun(s) < |s| ==> !IsDecimal(s[DigitRun(s)])
    decreases |s|
  {
    if s != [] && IsDecimal(s[0]) {
      DigitRunMaximal(s[1..]);
      assert s[..DigitRun(s)] == [s[0]] + s[1..][..DigitRun(s[1..])];
    }
  }

  lemma {:induction false} WordRunAppend(a: string, b: string)
    requires AllWord(a)
    ensures WordRun(a + b) == |a| + WordRun(b)
    decreases |a|
  {
    if a != [] {
      assert (a + b)[1..] == a[1..] + b;
      WordRunAppend(a[1..], b);
    } else {
      assert a + b == b;
    }
  }

  lemma {:induction false} DigitRunAppend(a: string, b: string)
    requires AllDecimal(a)
    ensures DigitRun(a + b) == |a| + DigitRun(b)
    decreases |a|
  {
    if a != [] {
      assert (a + b)[1..] == a[1..] + b;
      DigitRunAppend(a[1..], b);
    } else {
      assert a + b == b;
    }
  }

  /**
   * The rest of the pattern, `_sample_(\d+)%.json`, matched at the start of `t`
   * (no end anchor; "." is any character but a newline): the digits of group 2.
   */
  function SampleTail(t: string): (r: Option<string>)
    ensures r.Some? ==> r.value != [] && AllDecimal(r.value) && StartsWith(t, "_sample_" + r.value + "%")
  {
    if StartsWith(t, "_sample_") then
      var rest := t[8..];
      var n := DigitRun(rest);
      if 0 < n && n + 6 <= |rest| && rest[n] == '%' && rest[n + 1] != '\n' && rest[n + 2..n + 6] == "json" then
        DigitRunMaximal(rest);
        assert t[..8 + n + 1] == "_sample_" + rest[..n] + "%";
        Some(rest[..n])
      else None
    else None
  }

  /** Backtracking of the greedy group 1: split points `k`, `k - 1`, ..., 1 in turn. */
  function MatchBelow(name: string, k: nat): (r: Option<(string, string)>)
    requires k <= |name|
    ensures r.Some? ==> 0 < |r.value.0| <= k && r.value.0 == name[..|r.value.0|]
    decreases k
  {
    if k == 0 then None
    else
      match SampleTail(name[k..])
      case Some(d) => Some((name[..k], d + "%"))
      case None => MatchBelow(name, k - 1)
  }

  /** No split point in `(lo, hi]` leaves a tail that matches the rest of the pattern. */
  predicate NoTailIn(name: string, lo: nat, hi: nat)
    requires hi <= |name|
  {
    forall j :: lo < j <= hi ==> SampleTail(name[j..]).None?
  }

  /**
   * The split chosen is the largest one at or below `k` whose tail matches, and
   * `None` means that no split at or below `k` matches.
   */
  lemma {:induction false} MatchBelowSpec(name: string, k: nat)
    requires k <= |name|
    ensures MatchBelow(name, k).None? <==> NoTailIn(name, 0, k)
    ensures MatchBelow(name, k).Some? ==>
              var r := MatchBelow(name, k).value;
              SampleTail(name[|r.0|..]).Some? && r.1 == SampleTail(name[|r.0|..]).value + "%"
              && NoTailIn(name, |r.0|, k)
    decreases k
  {
    if k == 0 {
      assert NoTailIn(name, 0, 0);
    } else if SampleTail(name[k..]).None? {
      MatchBelowSpec(name, k - 1);
      NoTailExtend(name, k);
    } else {
      assert |name[..k]| == k;
      assert NoTailIn(name, k, k);
    }
  }

  /** A split point without a match extends a run of split points without one. */
  lemma NoTailExtend(name: string, k: nat)
    requires 0 < k <= |name| && SampleTail(name[k..]).None?
    ensures forall lo: nat :: lo < k ==> (NoTailIn(name, lo, k - 1) <==> NoTailIn(name, lo, k))
  {
  }

  /**
   * `re.match(r"([a-zA-Z0-9_]+)_sample_(\d+)%.json", name)`, giving group 1 (the
   * platform) and group 2 + "%" (the percentage); `None` when the name does not match.
   */
  function ParseResultName(name: string): (r: Option<(string, string)>)
  {
    MatchBelow(name, WordRun(name))
  }

  /**
   * What the parser returns is really there: a non-empty word-character platform,
   * then "_sample_", digits and "%" — and the platform is the longest one that works.
   */
  lemma ParseResultNameSound(name: string)
    requires ParseResultName(name).Some?
    ensures ParseResultName(name).value.0 != [] && AllWord(ParseResultName(name).value.0)
    ensures exists d :: d != [] && AllDecimal(d) && ParseResultName(name).value.1 == d + "%"
                     && StartsWith(name, ParseResultName(name).value.0 + "_sample_" + d + "%")
  {
    var r := ParseResultName(name).value;
    var w := WordRun(name);
    var k := |r.0|;
    WordRunMaximal(name);
    assert r.0 == name[..w][..k];
    MatchBelowSpec(name, w);
    var d := SampleTail(name[k..]).value;
    TailPrefix(name, k, d);
    assert r.0 == name[..k];
  }

  /** A matching tail after the split point puts the whole matched text at the start of the name. */
  lemma TailPrefix(name: string, k: nat, d: string)
    requires k <= |name| && SampleTail(name[k..]) == Some(d)
    ensures StartsWith(name, name[..k] + "_sample_" + d + "%")
  {
    StartsWithAt(name, k, "_sample_" + d + "%");
    assert name[..k] + "_sample_" + d + "%" == name[..k] + ("_sample_" + d + "%");
  }

  /** The tails of a built name that start inside "_sample_<digits>" never match the rest of the pattern. */
  lemma LaterSplitsFail(p: string, d: string, k: nat)
    requires d != [] && AllDigits(d)
    requires |p| < k <= |p| + 8 + |d|
    ensures SampleTail((p + "_sample_" + d + "%.json")[k..]).None?
  {
    var name := p + "_sample_" + d + "%.json";
    var t := name[k..];
    var j := k - |p|;
    assert |t| >= 6;
    if j <= 6 {
      assert t[0] == "_sample_"[j];
    } else if j == 7 {
      assert t[1] == d[0];
    } else if j < 8 + |d| {
      assert t[0] == d[j - 8];
    } else {
      assert t[0] == '%';
    }
    assert !StartsWith(t, "_sample_");
  }

  lemma LaterSplitsNone(p: string, d: string)
    requires d != [] && AllDigits(d)
    ensures NoTailIn(p + "_sample_" + d + "%.json", |p|, |p| + 8 + |d|)
  {
    var name := p + "_sample_" + d + "%.json";
    forall j | |p| < j <= |p| + 8 + |d| ensures SampleTail(name[j..]).None? {
      LaterSplitsFail(p, d, j);
    }
  }

  lemma AllWordAppend(a: string, b: string)
    requires AllWord(a) && AllWord(b)
    ensures AllWord(a + b)
  {
    forall i | 0 <= i < |a + b| ensures IsWordChar((a + b)[i]) {
      if i < |a| { assert (a + b)[i] == a[i]; } else { assert (a + b)[i] == b[i - |a|]; }
    }
  }

  lemma SampleWordRun(y: string)
    ensures WordRun("_sample_" + y) == 8 + WordRun(y)
  {
    assert AllWord("_sample_");
    WordRunAppend("_sample_", y);
  }

  lemma DigitsJsonWordRun(d: string)
    requires AllDigits(d)
    ensures WordRun(d + "%.json") == |d|
  {
    assert AllWord(d);
    WordRunAppend(d, "%.json");
    assert WordRun("%.json") == 0;
  }

  lemma BuiltNameShape(p: string, d: string)
    ensures p + "_sample_" + d + "%.json" == p + ("_sample_" + (d + "%.json"))
  {
  }

  lemma BuiltNameWordRun(p: string, d: string)
    requires AllWord(p) && AllDigits(d)
    ensures WordRun(p + "_sample_" + d + "%.json") == |p| + 8 + |d|
  {
    BuiltNameShape(p, d);
    DigitsJsonWordRun(d);
    SampleWordRun(d + "%.json");
    WordRunAppend(p, "_sample_" + (d + "%.json"));
  }

  lemma BuiltNameTail(p: string, d: string)
    requires d != [] && AllDigits(d)
    ensures SampleTail((p + "_sample_" + d + "%.json")[|p|..]) == Some(d)
  {
    var tail := (p + "_sample_" + d + "%.json")[|p|..];
    assert tail == "_sample_" + (d + "%.json");
    assert tail[8..] == d + "%.json";
    DigitsAreDecimal(d);
    DigitRunAppend(d, "%.json");
    assert (d + "%.json")[..|d|] == d;
    assert (d + "%.json")[|d| + 2..|d| + 6] == "json";
  }

  /** Parsing recovers the platform and the percentage from the name a driver built. */
  lemma ParseBuiltName(p: string, d: string)
    requires p != [] && AllWord(p) && d != [] && AllDigits(d)
    ensures ParseResultName(p + "_sample_" + d + "%.json") == Some((p, d + "%"))
  {
    var name := p + "_sample_" + d + "%.json";
    BuiltNameWordRun(p, d);
    BuiltNameTail(p, d);
    assert name[..|p|] == p;
    var w := |p| + 8 + |d|;
    MatchBelowSpec(name, w);
    LaterSplitsNone(p, d);
    assert SampleTail(name[|p|..]).Some?;
    var r := MatchBelow(name, w);
    assert r.Some?;
    assert |r.value.0| == |p|;
  }

  /** A built name holds no "/", so it is the base name of any path that ends in it. */
  lemma BuiltNameNoSlash(p: string, d: string)
    requires AllWord(p) && AllDigits(d)
    ensures '/' !in p + "_sample_" + d + "%.json"
  {
    BuiltNameShape(p, d);
    assert '/' !in p by {
      forall i | 0 <= i < |p| ensures p[i] != '/' { assert IsWordChar(p[i]); }
    }
    assert '/' !in d by {
      forall i | 0 <= i < |d| ensures d[i] != '/' { assert IsDigit(d[i]); }
    }
    assert '/' !in "_sample_" && '/' !in "%.json";
  }

  /**
   * The round trip between the drivers and the aggregator: the name
   * `<platform>_sample_<digits>%.json` parses back into the platform and
   * `<digits>%`, the size search finds `<digits>%`, and the name holds no "/".
   */
  lemma BuiltNameRoundTrip(name: string, p: string, d: string)
    requires p != [] && AllWord(p) && d != [] && AllDigits(d)
    requires name == p + "_sample_" + d + "%.json"
    ensures ParseResultName(name) == Some((p, d + "%"))
    ensures SearchPercent(name) == Some(d + "%")
    ensures '/' !in name
  {
    ParseBuiltName(p, d);
    SearchBuiltName(p, d);
    BuiltNameNoSlash(p, d);
  }

  /** A built name ends in ".json". */
  lemma BuiltNameEndsJson(p: string, d: string)
    ensures EndsWith(p + "_sample_" + d + "%.json", ".json")
  {
    var x := p + "_sample_" + d;
    assert (x + "%.json")[|x| + 1..] == ".json";
  }

  /** The neural-network plot modules first remove every "nn_mnist_" from the name. */
  function StripNnPrefix(name: string): string {
    RemoveAll(name, "nn_mnist_")
  }

  /** A name with a leading "nn_mnist_" and no "i" after it loses just that prefix. */
  lemma StripNnPrefixOf(rest: string)
    requires 'i' !in rest
    ensures StripNnPrefix("nn_mnist_" + rest) == rest
  {
    RemoveAllLeading("nn_mnist_", rest);
    assert "nn_mnist_"[5] == 'i';
    RemoveAllAbsent(rest, "nn_mnist_", 5);
  }

  /** A name without an "i" is left alone. */
  lemma StripNnPrefixAbsent(name: string)
    requires 'i' !in name
    ensures StripNnPrefix(name) == name
  {
    assert "nn_mnist_"[5] == 'i';
    RemoveAllAbsent(name, "nn_mnist_", 5);
  }

  /** No digit is an "i". */
  lemma DigitsHaveNoI(d: string)
    requires AllDigits(d)
    ensures 'i' !in d
  {
    forall k | 0 <= k < |d| ensures d[k] != 'i' {
      assert IsDigit(d[k]);
    }
  }

  /** A built name holds no "i" when its platform holds none. */
  lemma BuiltNameHasNoI(p: string, d: string)
    requires 'i' !in p && AllDigits(d)
    ensures 'i' !in p + "_sample_" + d + "%.json"
  {
    DigitsHaveNoI(d);
    BuiltNameShape(p, d);
    assert 'i' !in "_sample_" && 'i' !in "%.json";
  }

  /** `re.search(r'(\d+%)', s).group(1)`: the leftmost digits-and-percent run, if any. */
  function SearchPercent(s: string): (r: Option<string>)
    ensures r.Some? ==> |r.value| >= 2 && r.value[|r.value| - 1] == '%' && AllDecimal(r.value[..|r.value| - 1])
    decreases |s|
  {
    if s == [] then None
    else
      var n := DigitRun(s);
      if 0 < n < |s| && s[n] == '%' then
        DigitRunMaximal(s);
        assert s[..n + 1][..n] == s[..n];
        Some(s[..n + 1])
      else SearchPercent(s[1..])
  }

  lemma {:induction false} DigitRunBound(s: string, i: nat)
    requires i < |s| && !IsDecimal(s[i])
    ensures DigitRun(s) <= i
    decreases i
  {
    if i > 0 && IsDecimal(s[0]) {
      DigitRunBound(s[1..], i - 1);
    }
  }

  /** Text that holds no "%" and does not end in a decimal digit cannot start the leftmost match. */
  lemma {:induction false} SearchSkips(x: string, y: string)
    requires '%' !in x
    requires x == [] || !IsDecimal(x[|x| - 1])
    ensures SearchPercent(x + y) == SearchPercent(y)
    decreases |x|
  {
    if x != [] {
      var s := x + y;
      var n := DigitRun(s);
      DigitRunBound(s, |x| - 1);
      assert n < |x| && s[n] == x[n];
      assert s[1..] == x[1..] + y;
      SearchSkips(x[1..], y);
    } else {
      assert x + y == y;
    }
  }

  /** The size search finds the percentage of a built name. */
  lemma SearchBuiltName(p: string, d: string)
    requires AllWord(p) && d != [] && AllDigits(d)
    ensures SearchPercent(p + "_sample_" + d + "%.json") == Some(d + "%")
  {
    var x := p + "_sample_";
    var y := d + "%.json";
    assert '%' !in x by {
      forall i | 0 <= i < |x| ensures x[i] != '%' {
        if i < |p| { assert x[i] == p[i] && IsWordChar(p[i]); }
      }
    }
    assert x[|x| - 1] == '_';
    SearchSkips(x, y);
    assert p + "_sample_" + d + "%.json" == x + y;
    DigitsAreDecimal(d);
    DigitRunAppend(d, "%.json");
    assert y[..|d| + 1] == d + "%";
  }

  /** `pathlib`'s `suffix == '.json'`: the name ends in ".json" and has a non-empty stem. */
  predicate HasJsonSuffix(name: string) {
    |name| > 5 && EndsWith(name, ".json")
  }

  /** `pathlib`'s `stem` of a name with suffix ".json". */
  function JsonStem(name: string): (r: string)
    requires HasJsonSuffix(name)
    ensures r + ".json" == name
  {
    name[..|name| - 5]
  }
}
