/**
 * The start and end timestamps of an experiment.  The Python drivers format a
 * UTC `datetime` with `strftime('%Y-%m-%dT%H:%M:%S.%f')`, drop the last three
 * characters and append "Z"; the browser drivers store a JavaScript `Date`,
 * which `JSON.stringify` renders with `toISOString()`.
 */
module Timestamps {
  import opened Strings

  datatype DateTime = DateTime(year: nat, month: nat, day: nat, hour: nat, minute: nat, second: nat, micro: nat)

  /** The ranges a clock reading falls in (years of four digits). */
  predicate ValidDateTime(t: DateTime) {
    1000 <= t.year <= 9999 && 1 <= t.month <= 12 && 1 <= t.day <= 31
    && t.hour < 24 && t.minute < 60 && t.second < 60 && t.micro < 1000000
  }

  function Pow10(w: nat): (r: nat)
    ensures r >= 1
  {
    if w == 0 then 1 else 10 * Pow10(w - 1)
  }

  /** The last `w` decimal digits of `n`, zero-padded: strftime's fixed-width fields. */
  function Fixed(n: nat, w: nat): (r: string)
    ensures |r| == w && AllDigits(r)
  {
    if w == 0 then [] else Fixed(n / 10, w - 1) + [DigitChar(n % 10)]
  }

  /** A fixed-width field reads back as the number it renders, when the number fits. */
  lemma {:induction false} FixedValue(n: nat, w: nat)
    requires n < Pow10(w)
    ensures DigitsValue(Fixed(n, w)) == n
  {
    if w > 0 {
      FixedValue(n / 10, w - 1);
      var r := Fixed(n, w);
      assert r[..|r| - 1] == Fixed(n / 10, w - 1);
    }
  }

  /** `strftime('%Y-%m-%dT%H:%M:%S.%f')`. */
  function Strftime(t: DateTime): (r: string)
    requires ValidDateTime(t)
  {
    Fixed(t.year, 4) + "-" + Fixed(t.month, 2) + "-" + Fixed(t.day, 2) + "T"
    + Fixed(t.hour, 2) + ":" + Fixed(t.minute, 2) + ":" + Fixed(t.second, 2) + "." + Fixed(t.micro, 6)
  }

  /** `strftime(...)[:-3] + 'Z'`, as the Python drivers write `start` and `end`. */
  function PythonTimestamp(t: DateTime): (r: string)
    requires ValidDateTime(t)
  {
    var s := Strftime(t);
    s[..|s| - 3] + "Z"
  }

  /** `Date.prototype.toISOString()`: milliseconds and a "Z" suffix. */
  function IsoString(t: DateTime): (r: string)
    requires ValidDateTime(t)
    ensures |r| == 24 && r[23] == 'Z'
  {
    Fixed(t.year, 4) + "-" + Fixed(t.month, 2) + "-" + Fixed(t.day, 2) + "T"
    + Fixed(t.hour, 2) + ":" + Fixed(t.minute, 2) + ":" + Fixed(t.second, 2) + "." + Fixed(t.micro / 1000, 3) + "Z"
  }

  /** Dropping the last three microsecond digits truncates to milliseconds. */
  lemma MicrosToMillis(n: nat)
    ensures Fixed(n, 6)[..3] == Fixed(n / 1000, 3)
  {
    var a := n / 10;
    var b := a / 10;
    var c := b / 10;
    assert Fixed(n, 6) == Fixed(a, 5) + [DigitChar(n % 10)];
    assert Fixed(a, 5) == Fixed(b, 4) + [DigitChar(a % 10)];
    assert Fixed(b, 4) == Fixed(c, 3) + [DigitChar(b % 10)];
    assert Fixed(n, 6) == Fixed(c, 3) + [DigitChar(b % 10), DigitChar(a % 10), DigitChar(n % 10)];
    assert c == n / 1000;
  }

  /** The Python drivers and the browser drivers write timestamps in the same format, truncated to milliseconds. */
  lemma PythonTimestampIsIso(t: DateTime)
    requires ValidDateTime(t)
    ensures PythonTimestamp(t) == IsoString(t)
  {
    var head := Fixed(t.year, 4) + "-" + Fixed(t.month, 2) + "-" + Fixed(t.day, 2) + "T"
      + Fixed(t.hour, 2) + ":" + Fixed(t.minute, 2) + ":" + Fixed(t.second, 2) + ".";
    var s := Strftime(t);
    assert s == head + Fixed(t.micro, 6);
    MicrosToMillis(t.micro);
    assert s[..|s| - 3] == head + Fixed(t.micro, 6)[..3];
  }
}
