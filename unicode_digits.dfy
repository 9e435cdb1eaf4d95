/**
 * Unicode decimal digits and the white space Python's `int()` skips.  The
 * digits are the characters of general category Nd as of Unicode 15.0 (the
 * database of Python 3.12): they come in runs of ten, each holding the digits
 * zero to nine in order.  They are what `str.isdecimal()` accepts, what `\d`
 * matches in a str pattern of `re`, and what `int()` reads as digits.
 */
module UnicodeDigits {
  import opened Wrappers

  /** The number of runs of decimal digits. */
  const RunCount := 68

  /** The code point of the zero of the `k`-th run of decimal digits; the runs are listed in increasing order. */
  function RunZero(k: nat): int
    requires k < RunCount
  {
    match k
    case 0 => 0x30 case 1 => 0x660 case 2 => 0x6F0 case 3 => 0x7C0 case 4 => 0x966 case 5 => 0x9E6
    case 6 => 0xA66 case 7 => 0xAE6 case 8 => 0xB66 case 9 => 0xBE6 case 10 => 0xC66 case 11 => 0xCE6
    case 12 => 0xD66 case 13 => 0xDE6 case 14 => 0xE50 case 15 => 0xED0 case 16 => 0xF20 case 17 => 0x1040
    case 18 => 0x1090 case 19 => 0x17E0 case 20 => 0x1810 case 21 => 0x1946 case 22 => 0x19D0 case 23 => 0x1A80
    case 24 => 0x1A90 case 25 => 0x1B50 case 26 => 0x1BB0 case 27 => 0x1C40 case 28 => 0x1C50 case 29 => 0xA620
    case 30 => 0xA8D0 case 31 => 0xA900 case 32 => 0xA9D0 case 33 => 0xA9F0 case 34 => 0xAA50 case 35 => 0xABF0
    case 36 => 0xFF10 case 37 => 0x104A0 case 38 => 0x10D30 case 39 => 0x11066 case 40 => 0x110F0 case 41 => 0x11136
    case 42 => 0x111D0 case 43 => 0x112F0 case 44 => 0x11450 case 45 => 0x114D0 case 46 => 0x11650 case 47 => 0x116C0
    case 48 => 0x11730 case 49 => 0x118E0 case 50 => 0x11950 case 51 => 0x11C50 case 52 => 0x11D50 case 53 => 0x11DA0
    case 54 => 0x11F50 case 55 => 0x16A60 case 56 => 0x16AC0 case 57 => 0x16B50 case 58 => 0x1D7CE case 59 => 0x1D7D8
    case 60 => 0x1D7E2 case 61 => 0x1D7EC case 62 => 0x1D7F6 case 63 => 0x1E140 case 64 => 0x1E2F0 case 65 => 0x1E4F0
    case 66 => 0x1E950 case 67 => 0x1FBF0
    case _ => 0x1FBF0
  }

  /** The zero of the run holding `n`, searching the runs from the `k`-th on; `None` when `n` lies in none of them. */
  function ZeroFrom(n: int, k: nat): (z: Option<int>)
    requires k <= RunCount
    ensures z.Some? ==> z.value <= n < z.value + 10
    ensures k < RunCount && n < RunZero(k) ==> z.None?
    decreases RunCount - k
  {
    if k == RunCount || n < RunZero(k) then None
    else if n < RunZero(k) + 10 then Some(RunZero(k))
    else ZeroFrom(n, k + 1)
  }

  /** The zero of the run of decimal digits that holds code point `n`; `None` when `n` is not a decimal digit. */
  function DigitZero(n: int): (z: Option<int>)
    ensures z.Some? ==> z.value <= n < z.value + 10
    ensures n < 0x660 ==> (z.Some? <==> '0' as int <= n <= '9' as int)
    ensures '0' as int <= n <= '9' as int ==> z == Some('0' as int)
  {
    ZeroFrom(n, 0)
  }

  /** `c.isdecimal()`, and a match of `\d`. */
  predicate IsDecimal(c: char) {
    DigitZero(c as int).Some?
  }

  predicate AllDecimal(s: string) {
    forall i :: 0 <= i < |s| ==> IsDecimal(s[i])
  }

  /** The digit a decimal character stands for: its distance from the zero of its run. */
  function DecimalValue(c: char): (v: nat)
    requires IsDecimal(c)
    ensures v < 10
    ensures '0' <= c <= '9' ==> v == c as int - '0' as int
  {
    c as int - DigitZero(c as int).value
  }

  /** Skipping runs that end at or below `n` does not change the search. */
  lemma {:induction false} ZeroFromSkips(n: int, j: nat, k: nat)
    requires j <= k <= RunCount
    requires forall i :: j <= i < k ==> RunZero(i) + 10 <= n
    ensures ZeroFrom(n, j) == ZeroFrom(n, k)
    decreases k - j
  {
    if j < k {
      ZeroFromSkips(n, j + 1, k);
    }
  }

  /** A code point above the first `k` runs and below the next one is no digit. */
  lemma GapHasNoDigit(n: int, k: nat)
    requires k < RunCount && n < RunZero(k)
    requires forall i :: 0 <= i < k ==> RunZero(i) + 10 <= n
    ensures DigitZero(n).None?
  {
    ZeroFromSkips(n, 0, k);
  }

  /**
   * The characters `int()` skips at either end of its argument.  CPython keeps
   * every character below U+007F as it is and reads the ASCII white space of C
   * (space, tab, line feed, vertical tab, form feed, carriage return); a
   * character above it that `str.isspace()` accepts counts as a space.  The
   * separators U+001C to U+001F, which `str.isspace()` also accepts, are not
   * skipped.
   */
  predicate IsIntSpace(c: char) {
    c == ' ' || c == '\t' || c == '\n' || c == '\U{000B}' || c == '\U{000C}' || c == '\r'
    || c == '\U{0085}' || c == '\U{00A0}' || c == '\U{1680}' || ('\U{2000}' <= c <= '\U{200A}')
    || c == '\U{2028}' || c == '\U{2029}' || c == '\U{202F}' || c == '\U{205F}' || c == '\U{3000}'
  }

  /** No space is a digit. */
  lemma SpaceIsNoDigit(c: char)
    ensures IsIntSpace(c) ==> !IsDecimal(c)
  {
    var n := c as int;
    if n == 0x1680 {
      GapHasNoDigit(n, 19);
    } else if 0x2000 <= n <= 0x3000 {
      GapHasNoDigit(n, 29);
    }
  }
}
