/**
 * String operations the benchmark code relies on: prefix and suffix tests,
 * JavaScript's and Python's `replace` with an empty replacement, `split` on one
 * character, JavaScript's `trim`, POSIX `basename`, decimal rendering of
 * integers and Python's `int()` on a str.
 */
module Strings {
  import opened Wrappers
  import opened UnicodeDigits

  predicate StartsWith(s: string, p: string) {
    |p| <= |s| && s[..|p|] == p
  }

  /** Python's `s.endswith(p)` and JavaScript's `s.endsWith(p)`. */
  predicate EndsWith(s: string, p: string) {
    |p| <= |s| && s[|s| - |p|..] == p
  }

  /** A prefix found after position `k` extends to one of the whole string. */
  lemma StartsWithAt(s: string, k: nat, u: string)
    requires k <= |s| && StartsWith(s[k..], u)
    ensures StartsWith(s, s[..k] + u)
  {
    assert s[..k + |u|] == s[..k] + s[k..][..|u|];
  }

  /** Two strings can both end a third only if one of them ends the other. */
  lemma EndsWithBoth(s: string, a: string, b: string)
    requires EndsWith(s, a) && EndsWith(s, b) && |a| <= |b|
    ensures EndsWith(b, a)
  {
    assert b[|b| - |a|..] == s[|s| - |a|..];
  }

  // ---------------------------------------------------------------------
  // replace(pat, "")
  // ---------------------------------------------------------------------

  /** JavaScript's `s.replace(pat, '')` with a string pattern: only the first occurrence goes. */
  function RemoveFirst(s: string, pat: string): string
    requires pat != []
    decreases |s|
  {
    if StartsWith(s, pat) then s[|pat|..]
    else if s == [] then []
    else [s[0]] + RemoveFirst(s[1..], pat)
  }

  /** Python's `s.replace(pat, '')`: every occurrence, scanning left to right without overlap. */
  function RemoveAll(s: string, pat: string): string
    requires pat != []
    decreases |s|
  {
    if StartsWith(s, pat) then RemoveAll(s[|pat|..], pat)
    else if s == [] then []
    else [s[0]] + RemoveAll(s[1..], pat)
  }

  /** Text that cannot hold the pattern's first character keeps the first occurrence that follows it. */
  lemma {:induction false} RemoveFirstAfter(x: string, pat: string, y: string)
    requires pat != [] && pat[0] !in x
    ensures RemoveFirst(x + pat + y, pat) == x + y
    decreases |x|
  {
    if x == [] {
      assert x + pat + y == pat + y;
      assert (pat + y)[..|pat|] == pat;
    } else {
      var s := x + pat + y;
      assert s[0] == x[0] && x[0] != pat[0];
      assert !StartsWith(s, pat);
      assert s[1..] == x[1..] + pat + y;
      RemoveFirstAfter(x[1..], pat, y);
      assert [x[0]] + (x[1..] + y) == x + y;
    }
  }

  /** A pattern at the end, after text that cannot hold its first character, is removed. */
  lemma RemoveFirstLast(x: string, pat: string)
    requires pat != [] && pat[0] !in x
    ensures RemoveFirst(x + pat, pat) == x
  {
    RemoveFirstAfter(x, pat, []);
    assert x + pat + [] == x + pat && x + [] == x;
  }

  /** `(a + b) + ((c + d) + e) + f` regrouped as `(a + (b + c)) + d + (e + f)`. */
  lemma Regroup6(a: string, b: string, c: string, d: string, e: string, f: string)
    ensures (a + b) + ((c + d) + e) + f == (a + (b + c)) + d + (e + f)
  {
  }

  /** A pattern whose first character never occurs is never removed. */
  lemma {:induction false} RemoveFirstAbsent(s: string, pat: string)
    requires pat != [] && pat[0] !in s
    ensures RemoveFirst(s, pat) == s
    decreases |s|
  {
    if s != [] {
      assert s[0] != pat[0];
      assert !StartsWith(s, pat);
      RemoveFirstAbsent(s[1..], pat);
      assert [s[0]] + s[1..] == s;
    }
  }

  /** A pattern with a character that never occurs in `s` is never removed. */
  lemma {:induction false} RemoveAllAbsent(s: string, pat: string, k: nat)
    requires k < |pat| && pat[k] !in s
    ensures RemoveAll(s, pat) == s
    decreases |s|
  {
    if s != [] {
      if |pat| <= |s| {
        assert s[..|pat|][k] == s[k] && s[k] != pat[k];
      }
      assert !StartsWith(s, pat);
      RemoveAllAbsent(s[1..], pat, k);
      assert [s[0]] + s[1..] == s;
    }
  }

  /** Python's replace removes a leading occurrence and carries on after it. */
  lemma RemoveAllLeading(pat: string, rest: string)
    requires pat != []
    ensures RemoveAll(pat + rest, pat) == RemoveAll(rest, pat)
  {
    assert (pat + rest)[..|pat|] == pat;
    assert (pat + rest)[|pat|..] == rest;
  }

  /** Every character of `s` that is not in `cs`, in order (a global regular-expression replace by ''). */
  function RemoveChars(s: string, cs: set<char>): (r: string)
    ensures |r| <= |s|
    ensures forall i :: 0 <= i < |r| ==> r[i] !in cs
    ensures (forall i :: 0 <= i < |s| ==> s[i] !in cs) ==> r == s
    decreases |s|
  {
    if s == [] then []
    else if s[0] in cs then RemoveChars(s[1..], cs)
    else [s[0]] + RemoveChars(s[1..], cs)
  }

  // ---------------------------------------------------------------------
  // split, trim, basename
  // ---------------------------------------------------------------------

  /** JavaScript's `s.split(sep)` for a one-character separator; `"".split(sep)` is `[""]`. */
  function Split(s: string, sep: char): (r: seq<string>)
    ensures |r| >= 1
    ensures forall i :: 0 <= i < |r| ==> sep !in r[i]
    decreases |s|
  {
    if s == [] then [[]]
    else
      var rest := Split(s[1..], sep);
      if s[0] == sep then [[]] + rest
      else [[s[0]] + rest[0]] + rest[1..]
  }

  /** The pieces joined back with the separator. */
  function Join(pieces: seq<string>, sep: char): string
    requires |pieces| >= 1
    decreases |pieces|
  {
    if |pieces| == 1 then pieces[0] else pieces[0] + [sep] + Join(pieces[1..], sep)
  }

  /** Splitting loses nothing: joining the pieces with the separator gives the text back. */
  lemma {:induction false} SplitJoin(s: string, sep: char)
    ensures Join(Split(s, sep), sep) == s
    decreases |s|
  {
    if s != [] {
      var rest := Split(s[1..], sep);
      SplitJoin(s[1..], sep);
      assert s == [s[0]] + s[1..];
      if s[0] == sep {
        SplitAtSep(sep, s[1..]);
        JoinEmptyHead([[]] + rest, sep);
        assert ([[]] + rest)[1..] == rest;
      } else {
        SplitAtChar(s[0], sep, s[1..]);
        JoinPrepend(s[0], rest, sep);
      }
    }
  }

  /** Putting a character before the first piece puts it before the joined text. */
  lemma JoinPrepend(c: char, pieces: seq<string>, sep: char)
    requires |pieces| >= 1
    ensures Join([[c] + pieces[0]] + pieces[1..], sep) == [c] + Join(pieces, sep)
  {
    var longer := [[c] + pieces[0]] + pieces[1..];
    assert longer[1..] == pieces[1..];
  }

  /** Splitting a joined list of separator-free pieces gives the same pieces. */
  lemma {:induction false} JoinSplit(pieces: seq<string>, sep: char)
    requires |pieces| >= 1
    requires forall i :: 0 <= i < |pieces| ==> sep !in pieces[i]
    ensures Split(Join(pieces, sep), sep) == pieces
    decreases |pieces|, |pieces[0]|
  {
    if |pieces| == 1 {
      SplitNoSep(pieces[0], sep);
    } else if pieces[0] == [] {
      var rest := pieces[1..];
      JoinSplit(rest, sep);
      JoinEmptyHead(pieces, sep);
      SplitAtSep(sep, Join(rest, sep));
      ConsTail(pieces);
    } else {
      var c := pieces[0][0];
      var shorter := [pieces[0][1..]] + pieces[1..];
      ShorterSepFree(pieces, sep);
      JoinSplit(shorter, sep);
      JoinShorterHead(pieces, sep);
      SplitAtChar(c, sep, Join(shorter, sep));
      ReattachHead(pieces, Split(Join(shorter, sep), sep));
    }
  }

  lemma JoinEmptyHead(pieces: seq<string>, sep: char)
    requires |pieces| >= 2 && pieces[0] == []
    ensures Join(pieces, sep) == [sep] + Join(pieces[1..], sep)
  {
  }

  lemma JoinShorterHead(pieces: seq<string>, sep: char)
    requires |pieces| >= 2 && pieces[0] != []
    ensures Join(pieces, sep) == [pieces[0][0]] + Join([pieces[0][1..]] + pieces[1..], sep)
  {
    var shorter := [pieces[0][1..]] + pieces[1..];
    assert shorter[0] == pieces[0][1..] && shorter[1..] == pieces[1..];
    assert pieces[0] == [pieces[0][0]] + pieces[0][1..];
  }

  lemma SplitAtSep(sep: char, t: string)
    ensures Split([sep] + t, sep) == [[]] + Split(t, sep)
  {
    assert ([sep] + t)[1..] == t;
  }

  lemma SplitAtChar(c: char, sep: char, t: string)
    requires c != sep
    ensures Split([c] + t, sep) == [[c] + Split(t, sep)[0]] + Split(t, sep)[1..]
  {
    assert ([c] + t)[1..] == t;
  }

  lemma ConsTail<T>(xs: seq<seq<T>>)
    requires xs != [] && xs[0] == []
    ensures [[]] + xs[1..] == xs
  {
  }

  /** Putting the first element back on the first piece restores the original pieces. */
  lemma ReattachHead<T>(pieces: seq<seq<T>>, r: seq<seq<T>>)
    requires |pieces| >= 2 && pieces[0] != [] && r == [pieces[0][1..]] + pieces[1..]
    ensures [[pieces[0][0]] + r[0]] + r[1..] == pieces
  {
    assert [pieces[0][0]] + pieces[0][1..] == pieces[0];
    assert r[1..] == pieces[1..];
  }

  lemma ShorterSepFree(pieces: seq<string>, sep: char)
    requires |pieces| >= 2 && pieces[0] != []
    requires forall i :: 0 <= i < |pieces| ==> sep !in pieces[i]
    ensures var shorter := [pieces[0][1..]] + pieces[1..];
            && |shorter| == |pieces| && |shorter[0]| < |pieces[0]| && pieces[0][0] != sep
            && forall i :: 0 <= i < |shorter| ==> sep !in shorter[i]
  {
    var shorter := [pieces[0][1..]] + pieces[1..];
    assert pieces[0][0] in pieces[0];
    forall i | 0 <= i < |shorter| ensures sep !in shorter[i] {
      if i > 0 { assert shorter[i] == pieces[i]; }
    }
  }

  lemma {:induction false} SplitNoSep(s: string, sep: char)
    requires sep !in s
    ensures Split(s, sep) == [s]
    decreases |s|
  {
    if s != [] {
      SplitNoSep(s[1..], sep);
      assert [s[0]] + s[1..] == s;
    }
  }

  /** The characters JavaScript's `trim()` removes: WhiteSpace and LineTerminator of ECMAScript. */
  predicate IsJsSpace(c: char) {
    c == '\t' || c == '\n' || c == '\U{000B}' || c == '\U{000C}' || c == '\r' || c == ' '
    || c == '\U{00A0}' || c == '\U{1680}' || ('\U{2000}' <= c <= '\U{200A}')
    || c == '\U{2028}' || c == '\U{2029}' || c == '\U{202F}' || c == '\U{205F}'
    || c == '\U{3000}' || c == '\U{FEFF}'
  }

  /** `s` without its leading characters of the class `space`. */
  function TrimStart(s: string, space: char -> bool): (r: string)
    ensures |r| <= |s| && r == s[|s| - |r|..]
    ensures r == [] || !space(r[0])
    ensures forall i :: 0 <= i < |s| - |r| ==> space(s[i])
    decreases |s|
  {
    if s != [] && space(s[0]) then TrimStart(s[1..], space) else s
  }

  /** `s` without its trailing characters of the class `space`. */
  function TrimEnd(s: string, space: char -> bool): (r: string)
    ensures |r| <= |s| && r == s[..|r|]
    ensures r == [] || !space(r[|r| - 1])
    ensures forall i :: |r| <= i < |s| ==> space(s[i])
    decreases |s|
  {
    if s != [] && space(s[|s| - 1]) then TrimEnd(s[..|s| - 1], space) else s
  }

  /** JavaScript's `s.trim()`: the text between the leading and the trailing white space. */
  function Trim(s: string): (r: string)
  {
    TrimEnd(TrimStart(s, IsJsSpace), IsJsSpace)
  }

  /** What trim keeps is a slice of the input that neither starts nor ends with white space, and all it cuts is white space. */
  lemma TrimIsCore(s: string)
    ensures exists i, j :: 0 <= i <= j <= |s| && Trim(s) == s[i..j]
                        && (forall k :: 0 <= k < i ==> IsJsSpace(s[k]))
                        && (forall k :: j <= k < |s| ==> IsJsSpace(s[k]))
    ensures Trim(s) == [] || (!IsJsSpace(Trim(s)[0]) && !IsJsSpace(Trim(s)[|Trim(s)| - 1]))
  {
    var a := TrimStart(s, IsJsSpace);
    var b := TrimEnd(a, IsJsSpace);
    TrimSlices(s, a, b, IsJsSpace);
  }

  /** A prefix of a suffix is a slice; what the two cuts drop is what each cut dropped. */
  lemma TrimSlices<T>(s: seq<T>, a: seq<T>, b: seq<T>, cut: T -> bool)
    requires |a| <= |s| && a == s[|s| - |a|..] && |b| <= |a| && b == a[..|b|]
    requires forall k :: 0 <= k < |s| - |a| ==> cut(s[k])
    requires forall k :: |b| <= k < |a| ==> cut(a[k])
    ensures exists i, j :: 0 <= i <= j <= |s| && b == s[i..j]
                        && (forall k :: 0 <= k < i ==> cut(s[k]))
                        && (forall k :: j <= k < |s| ==> cut(s[k]))
    ensures b != [] ==> b[0] == a[0]
  {
    var i := |s| - |a|;
    var j := i + |b|;
    assert b == s[i..j];
    forall k | j <= k < |s| ensures cut(s[k]) {
      assert s[k] == a[k - i];
    }
  }

  /** Python's `os.path.basename`: the text after the last "/". */
  function Basename(p: string): (r: string)
    ensures '/' !in r
    ensures EndsWith(p, r)
    decreases |p|
  {
    if p == [] || p[|p| - 1] == '/' then []
    else Basename(p[..|p| - 1]) + [p[|p| - 1]]
  }

  /** The base name of `dir + "/" + name` is `name` when `name` holds no "/". */
  lemma {:induction false} BasenameOfJoin(dir: string, name: string)
    requires '/' !in name
    ensures Basename(dir + "/" + name) == name
    decreases |name|
  {
    var p := dir + "/" + name;
    if name == [] {
      assert p[|p| - 1] == '/';
    } else {
      var last := name[|name| - 1];
      assert p[..|p| - 1] == dir + "/" + name[..|name| - 1];
      assert p[|p| - 1] == last;
      BasenameOfJoin(dir, name[..|name| - 1]);
      assert name[..|name| - 1] + [last] == name;
    }
  }

  // ---------------------------------------------------------------------
  // Decimal numbers
  // ---------------------------------------------------------------------

  predicate IsDigit(c: char) {
    '0' <= c <= '9'
  }

  predicate AllDigits(s: string) {
    forall i :: 0 <= i < |s| ==> IsDigit(s[i])
  }

  /** Decimal digits, any of Unicode's, and underscores. */
  predicate DecimalText(s: string) {
    forall i :: 0 <= i < |s| ==> IsDecimal(s[i]) || s[i] == '_'
  }

  /** The number the decimal digits of `s` spell, the underscores skipped. */
  function DigitsValue(s: string): nat
    requires DecimalText(s)
    decreases |s|
  {
    if s == [] then 0
    else if s[|s| - 1] == '_' then DigitsValue(s[..|s| - 1])
    else DigitsValue(s[..|s| - 1]) * 10 + DecimalValue(s[|s| - 1])
  }

  function DigitChar(d: nat): (c: char)
    requires d < 10
    ensures IsDigit(c) && c as int - '0' as int == d
  {
    ('0' as int + d) as char
  }

  /** Decimal rendering of a natural number, as Python's `str` and JavaScript's string concatenation give it. */
  function NatToString(n: nat): (r: string)
    ensures r != [] && AllDigits(r)
    ensures |r| > 1 ==> r[0] != '0'
    decreases n
  {
    if n < 10 then [DigitChar(n)] else NatToString(n / 10) + [DigitChar(n % 10)]
  }

  /** Rendering and parsing are inverse. */
  lemma {:induction false} NatToStringValue(n: nat)
    ensures DigitsValue(NatToString(n)) == n
    decreases n
  {
    if n >= 10 {
      NatToStringValue(n / 10);
      var s := NatToString(n);
      assert s[..|s| - 1] == NatToString(n / 10);
    }
  }

  /** Python's `%0<width>d`: the decimal rendering, padded on the left with zeros to `width` characters. */
  function ZeroPad(n: nat, width: nat): (r: string)
    ensures AllDigits(r)
  {
    var digits := NatToString(n);
    if |digits| >= width then digits else seq(width - |digits|, _ => '0') + digits
  }

  /**
   * The digits of a Python integer literal: decimal digits, with single
   * underscores between them.
   */
  predicate IsDigitGroups(s: string) {
    && s != [] && IsDecimal(s[0]) && DecimalText(s)
    && forall i :: 0 <= i < |s| && s[i] == '_' ==> i + 1 < |s| && IsDecimal(s[i + 1])
  }

  /** What `int()` ignores around the number: its white space at either end. */
  function IntCore(s: string): (r: string)
  {
    TrimEnd(TrimStart(s, IsIntSpace), IsIntSpace)
  }

  /**
   * Python's `int(s)` on a str: white space at either end is skipped, then an
   * optional "+" or "-", then decimal digits with single underscores between
   * them; `None` where `int` raises `ValueError`.  The limit on the number of
   * digits of recent interpreters is not modelled.
   */
  function ParseInt(s: string): (r: Option<int>)
    ensures r.Some? <==> IsDigitGroups(IntCore(s))
                         || (|IntCore(s)| >= 2 && IntCore(s)[0] in "+-" && IsDigitGroups(IntCore(s)[1..]))
    ensures IsDigitGroups(IntCore(s)) ==> r == Some(DigitsValue(IntCore(s)))
    ensures |IntCore(s)| >= 2 && IntCore(s)[0] == '+' && IsDigitGroups(IntCore(s)[1..])
            ==> r == Some(DigitsValue(IntCore(s)[1..]))
    ensures |IntCore(s)| >= 2 && IntCore(s)[0] == '-' && IsDigitGroups(IntCore(s)[1..])
            ==> r == Some(0 - DigitsValue(IntCore(s)[1..]))
  {
    SignedGroups(IntCore(s))
  }

  /** An optionally signed digit-groups text read as an integer. */
  function SignedGroups(t: string): Option<int> {
    if IsDigitGroups(t) then Some(DigitsValue(t))
    else if |t| >= 2 && t[0] == '+' && IsDigitGroups(t[1..]) then Some(DigitsValue(t[1..]))
    else if |t| >= 2 && t[0] == '-' && IsDigitGroups(t[1..]) then Some(0 - DigitsValue(t[1..]) as int)
    else None
  }

  /** Decimal rendering of an integer, with a leading "-" when it is negative. */
  function IntToString(n: int): (r: string)
    ensures r != [] && '/' !in r
    ensures n >= 0 ==> r == NatToString(n)
  {
    var r := if n < 0 then "-" + NatToString(-n) else NatToString(n);
    assert forall i :: 0 <= i < |r| ==> r[i] == '-' || IsDigit(r[i]);
    r
  }

  /** ASCII digits are decimal digits. */
  lemma DigitsAreDecimal(d: string)
    requires AllDigits(d)
    ensures AllDecimal(d) && DecimalText(d)
  {
  }

  /** Text that does not start or end with white space is its own core. */
  lemma IntCoreOfBare(s: string)
    requires s == [] || (!IsIntSpace(s[0]) && !IsIntSpace(s[|s| - 1]))
    ensures IntCore(s) == s
  {
    if s != [] {
      assert TrimStart(s, IsIntSpace) == s;
      assert TrimEnd(s, IsIntSpace) == s;
    }
  }

  /** A non-empty run of decimal digits is a digit-groups text. */
  lemma DecimalsAreGroups(d: string)
    requires d != [] && AllDecimal(d)
    ensures IsDigitGroups(d) && DecimalText(d)
  {
  }

  /** `int(d)` of a string of decimal digits is the number they spell. */
  lemma ParseIntOfDecimals(d: string)
    requires d != [] && AllDecimal(d)
    ensures ParseInt(d) == Some(DigitsValue(d))
  {
    SpaceIsNoDigit(d[0]);
    SpaceIsNoDigit(d[|d| - 1]);
    IntCoreOfBare(d);
    DecimalsAreGroups(d);
  }

  /** `int(str(n))` is `n` for every integer. */
  lemma ParseIntOfIntString(n: int)
    ensures ParseInt(IntToString(n)) == Some(n)
  {
    if n >= 0 {
      ParseIntOfString(n);
    } else {
      var digits := NatToString(-n);
      NatToStringValue(-n);
      DigitsAreDecimal(digits);
      DecimalsAreGroups(digits);
      var s := IntToString(n);
      assert s == "-" + digits && s[1..] == digits && s[0] == '-';
      assert s[|s| - 1] == digits[|digits| - 1];
      SpaceIsNoDigit(digits[|digits| - 1]);
      IntCoreOfBare(s);
      assert |IntCore(s)| >= 2 && IntCore(s)[0] == '-' && IsDigitGroups(IntCore(s)[1..]);
    }
  }

  /** `int(str(n))` is `n`. */
  lemma ParseIntOfString(n: nat)
    ensures ParseInt(NatToString(n)) == Some(n)
  {
    NatToStringValue(n);
    DigitsAreDecimal(NatToString(n));
    ParseIntOfDecimals(NatToString(n));
  }

  /** White space around a number does not change what `int()` reads. */
  lemma ParseIntSpaced(a: string, t: string, b: string)
    requires forall i :: 0 <= i < |a| ==> IsIntSpace(a[i])
    requires forall i :: 0 <= i < |b| ==> IsIntSpace(b[i])
    requires t != [] && !IsIntSpace(t[0]) && !IsIntSpace(t[|t| - 1])
    ensures ParseInt(a + t + b) == ParseInt(t)
  {
    var s := a + t + b;
    TrimAround(a, t, b, IsIntSpace);
    IntCoreOfBare(t);
  }

  /** Cutting a class of characters from the front of `a + r` leaves `r` when `a` is of the class and `r` does not start with it. */
  lemma TrimStartOf(a: string, r: string, space: char -> bool)
    requires forall i :: 0 <= i < |a| ==> space(a[i])
    requires r != [] && !space(r[0])
    ensures TrimStart(a + r, space) == r
  {
    var s := a + r;
    var u := TrimStart(s, space);
    assert s[|a|..] == r;
  }

  /** Cutting a class of characters from the back of `r + b` leaves `r` when `b` is of the class and `r` does not end with it. */
  lemma TrimEndOf(r: string, b: string, space: char -> bool)
    requires forall i :: 0 <= i < |b| ==> space(b[i])
    requires r != [] && !space(r[|r| - 1])
    ensures TrimEnd(r + b, space) == r
  {
    var s := r + b;
    var u := TrimEnd(s, space);
    assert s[..|r|] == r;
  }

  /** Cutting a class of characters from both ends of `a + t + b` leaves `t` when `a` and `b` are of the class and `t` is not at its ends. */
  lemma TrimAround(a: string, t: string, b: string, space: char -> bool)
    requires forall i :: 0 <= i < |a| ==> space(a[i])
    requires forall i :: 0 <= i < |b| ==> space(b[i])
    requires t != [] && !space(t[0]) && !space(t[|t| - 1])
    ensures TrimEnd(TrimStart(a + t + b, space), space) == t
  {
    assert a + t + b == a + (t + b);
    assert (t + b)[0] == t[0];
    TrimStartOf(a, t + b, space);
    TrimEndOf(t, b, space);
  }

  /** An underscore between two runs of digits does not change the number. */
  lemma {:induction false} UnderscoreSkipped(x: string, y: string)
    requires DecimalText(x) && DecimalText(y)
    ensures DecimalText(x + "_" + y) && DecimalText(x + y)
    ensures DigitsValue(x + "_" + y) == DigitsValue(x + y)
    decreases |y|
  {
    var s := x + "_" + y;
    assert DecimalText(s) by {
      forall i | 0 <= i < |s| ensures IsDecimal(s[i]) || s[i] == '_' {
        if i < |x| { assert s[i] == x[i]; } else if i > |x| { assert s[i] == y[i - |x| - 1]; }
      }
    }
    assert DecimalText(x + y) by {
      forall i | 0 <= i < |x + y| ensures IsDecimal((x + y)[i]) || (x + y)[i] == '_' {
        if i < |x| { assert (x + y)[i] == x[i]; } else { assert (x + y)[i] == y[i - |x|]; }
      }
    }
    if y == [] {
      assert s[..|s| - 1] == x && x + y == x;
    } else {
      var y' := y[..|y| - 1];
      assert DecimalText(y') by {
        forall i | 0 <= i < |y'| ensures IsDecimal(y'[i]) || y'[i] == '_' { assert y'[i] == y[i]; }
      }
      UnderscoreSkipped(x, y');
      assert s[..|s| - 1] == x + "_" + y' && s[|s| - 1] == y[|y| - 1];
      assert (x + y)[..|x + y| - 1] == x + y' && (x + y)[|x + y| - 1] == y[|y| - 1];
    }
  }

  /** `int("1_000")` is `int("1000")`: single underscores between digits are accepted and skipped. */
  lemma ParseIntUnderscore(x: string, y: string)
    requires x != [] && AllDecimal(x) && y != [] && AllDecimal(y)
    ensures ParseInt(x + "_" + y) == ParseInt(x + y)
    ensures ParseInt(x + "_" + y).Some?
  {
    var s := x + "_" + y;
    DecimalsAreGroups(x);
    DecimalsAreGroups(y);
    UnderscoreSkipped(x, y);
    assert AllDecimal(x + y) by {
      forall i | 0 <= i < |x + y| ensures IsDecimal((x + y)[i]) {
        if i < |x| { assert (x + y)[i] == x[i]; } else { assert (x + y)[i] == y[i - |x|]; }
      }
    }
    ParseIntOfDecimals(x + y);
    assert s[0] == x[0] && s[|s| - 1] == y[|y| - 1];
    SpaceIsNoDigit(s[0]);
    SpaceIsNoDigit(s[|s| - 1]);
    IntCoreOfBare(s);
    assert IsDigitGroups(s) by {
      forall i | 0 <= i < |s| ensures IsDecimal(s[i]) || (s[i] == '_' && i + 1 < |s| && IsDecimal(s[i + 1])) {
        if i < |x| { assert s[i] == x[i]; }
        else if i == |x| { assert s[i + 1] == y[0]; }
        else { assert s[i] == y[i - |x| - 1]; }
      }
    }
  }
}
