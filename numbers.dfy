/**
 * `Number.parseInt` on decimal input and the `parsed || fallback` coercion the
 * numeric inputs use (`NaN` and `0` are both falsy).
 */
module Numbers {
  import opened Wrappers
  import Text

  function DigitValue(c: char): nat
    requires Text.IsDigit(c)
  {
    c as int - '0' as int
  }

  ghost predicate AllDigits(s: string) {
    forall i :: 0 <= i < |s| ==> Text.IsDigit(s[i])
  }

  /** Decimal value of a digit string, read left to right. */
  function DigitsValue(ds: string): nat
    requires AllDigits(ds)
  {
    if ds == [] then 0 else DigitsValue(ds[..|ds| - 1]) * 10 + DigitValue(ds[|ds| - 1])
  }

  /** The longest prefix of `s` made of decimal digits. */
  function DigitPrefix(s: string): (r: string)
    ensures r <= s && AllDigits(r)
    ensures |r| < |s| ==> !Text.IsDigit(s[|r|])
  {
    if s != [] && Text.IsDigit(s[0]) then [s[0]] + DigitPrefix(s[1..]) else []
  }

  /**
   * `Number.parseInt(s)`: leading whitespace is skipped, one sign is read, then
   * the longest run of digits; no digit at all gives `NaN` (here `None`).
   */
  function ParseInt(s: string): Option<int> {
    ParseSigned(Text.TrimStart(s))
  }

  /** What `parseInt` reads once the leading whitespace is gone. */
  function ParseSigned(t: string): Option<int> {
    var negative := |t| > 0 && t[0] == '-';
    var body := if |t| > 0 && (t[0] == '-' || t[0] == '+') then t[1..] else t;
    var ds := DigitPrefix(body);
    var v: int := if ds == [] then 0 else DigitsValue(ds);
    if ds == [] then None else Some(if negative then -v else v)
  }

  /** The decimal digits of a natural number. */
  function NatString(n: nat): (r: string)
    ensures r != [] && AllDigits(r)
  {
    if n < 10 then [('0' as int + n) as char] else NatString(n / 10) + [('0' as int + n % 10) as char]
  }

  /** `String(n)` for an integer. */
  function IntString(n: int): string {
    if n < 0 then "-" + NatString(-n) else NatString(n)
  }

  lemma {:induction false} NatStringValue(n: nat)
    ensures DigitsValue(NatString(n)) == n
  {
    if n >= 10 {
      var s := NatString(n);
      assert s[..|s| - 1] == NatString(n / 10);
      NatStringValue(n / 10);
    }
  }

  lemma {:induction false} DigitPrefixOfDigits(s: string)
    requires AllDigits(s)
    ensures DigitPrefix(s) == s
  {
    if s != [] {
      DigitPrefixOfDigits(s[1..]);
    }
  }

  /** Parsing what `String(n)` prints gives `n` back. */
  lemma ParseIntString(n: int)
    ensures ParseInt(IntString(n)) == Some(n)
  {
    var m: nat := if n < 0 then -n else n;
    var digits := NatString(m);
    NatStringValue(m);
    ParseSignedDigits(digits);
    assert Text.IsDigit(digits[0]);
    var s := if n < 0 then ['-'] + digits else digits;
    assert IntString(n) == s;
    assert s[0] == '-' || s[0] == digits[0];
    NoLeadingSpaceIsTrimmed(s);
  }

  lemma NoLeadingSpaceIsTrimmed(s: string)
    requires s != [] && !Text.IsSpace(s[0])
    ensures Text.TrimStart(s) == s
  {
  }

  /** A digit run, with or without a minus sign before it, is read whole. */
  lemma ParseSignedDigits(ds: string)
    requires ds != [] && AllDigits(ds)
    ensures ParseSigned(ds) == Some(DigitsValue(ds))
    ensures ParseSigned(['-'] + ds) == Some(-(DigitsValue(ds) as int))
  {
    DigitPrefixOfDigits(ds);
    assert Text.IsDigit(ds[0]);
    assert (['-'] + ds)[1..] == ds;
  }

  /** Leading whitespace does not change what `parseInt` reads. */
  lemma ParseIntSkipsLeadingSpace(c: char, s: string)
    requires Text.IsSpace(c)
    ensures ParseInt([c] + s) == ParseInt(s)
  {
    assert ([c] + s)[1..] == s;
    assert Text.TrimStart([c] + s) == Text.TrimStart(s);
  }

  /** `parsed || fallback`: `NaN` and `0` fall back, every other number is kept. */
  function OrElse(parsed: Option<int>, fallback: int): (r: int)
    ensures parsed.Some? && parsed.value != 0 ==> r == parsed.value
    ensures (parsed.None? || parsed.value == 0) ==> r == fallback
  {
    if parsed.Some? && parsed.value != 0 then parsed.value else fallback
  }

  /** `parsed || fallback` for a `parseFloat` result. */
  function RealOrElse(parsed: Option<real>, fallback: real): (r: real)
    ensures parsed.Some? && parsed.value != 0.0 ==> r == parsed.value
    ensures (parsed.None? || parsed.value == 0.0) ==> r == fallback
  {
    if parsed.Some? && parsed.value != 0.0 then parsed.value else fallback
  }
}
