/**
 * Python's fixed-point rendering of numbers, the format specs `.4f` and
 * `.2f`, and its integer rendering, the format spec `d` /
 * `str(i)`, over exact rationals instead of binary floating point.
 */
module Decimal {

  function Pow10(n: nat): (r: nat)
    ensures r >= 1
  {
    if n == 0 then 1 else 10 * Pow10(n - 1)
  }

  function DigitChar(d: nat): char
    requires d < 10
  {
    (('0' as int) + d) as char
  }

  predicate IsDigit(c: char) {
    '0' <= c <= '9'
  }

  function DigitValue(c: char): nat
    requires IsDigit(c)
  {
    (c as int) - ('0' as int)
  }

  /** Decimal digits of `n`, most significant first, without leading zeros. */
  function NatText(n: nat): (s: string)
    ensures |s| >= 1
    ensures forall k :: 0 <= k < |s| ==> IsDigit(s[k])
  {
    if n < 10 then [DigitChar(n)] else NatText(n / 10) + [DigitChar(n % 10)]
  }

  /** Reads a string of decimal digits back as a number. */
  function DigitsValue(s: string): nat
    requires forall k :: 0 <= k < |s| ==> IsDigit(s[k])
  {
    if |s| == 0 then 0 else 10 * DigitsValue(s[..|s| - 1]) + DigitValue(s[|s| - 1])
  }

  /** Rendering a natural number and reading it back gives the number. */
  lemma {:induction false} NatTextRoundTrip(n: nat)
    ensures DigitsValue(NatText(n)) == n
  {
    var s := NatText(n);
    if n >= 10 {
      NatTextRoundTrip(n / 10);
      assert s[..|s| - 1] == NatText(n / 10);
    }
  }

  /** The format spec `d` and `str(i)` for a Python int. */
  function IntText(i: int): string
  {
    if i < 0 then "-" + NatText(-i) else NatText(i)
  }

  /** `s` left-padded with zeros to at least `width` characters. */
  function ZeroPad(s: string, width: nat): (r: string)
    ensures |r| == if |s| >= width then |s| else width
    ensures forall k :: 0 <= k < |r| ==> r[k] == '0' || r[k] in s
    decreases width - |s|
  {
    if |s| >= width then s else ZeroPad("0" + s, width)
  }

  /** The quotient and remainder of naturals, stated apart so that the
      division stays out of the callers' arithmetic. */
  lemma DivModBounds(n: nat, d: nat)
    requires d >= 1
    ensures n / d >= 0 && 0 <= n % d < d
  {
  }

  /** Rounds a non-negative rational to the nearest integer, ties to even
      (the rule Python's float formatting applies to exact ties). */
  function RoundHalfEven(y: real): (n: nat)
    requires y >= 0.0
  {
    var f := y.Floor;
    var frac := y - f as real;
    if frac > 0.5 then f + 1
    else if frac < 0.5 then f
    else if f % 2 == 0 then f else f + 1
  }

  /** The rounded value is within half a unit of the exact one. */
  lemma RoundHalfEvenNearest(y: real)
    requires y >= 0.0
    ensures -0.5 <= RoundHalfEven(y) as real - y <= 0.5
  {
  }

  function Abs(x: real): (r: real)
    ensures r >= 0.0
  {
    if x < 0.0 then -x else x
  }

  /** `|x| * 10^places`, the magnitude counted in units of the last place. */
  function Units(x: real, places: nat): (u: real)
    ensures u >= 0.0
  {
    var a := Abs(x);
    var scale := Pow10(places) as real;
    assert a * scale >= 0.0;
    a * scale
  }

  /** The format spec `.<places>f`: an optional minus sign (kept for values
      that round to zero, as Python keeps "-0.0000"), the integer part, and
      exactly `places` decimals after a point. */
  function FixedPoint(x: real, places: nat): string
  {
    var scale := Pow10(places);
    var n := RoundHalfEven(Units(x, places));
    var sign := if x < 0.0 then "-" else "";
    DivModBounds(n, scale);
    var whole := NatText(n / scale);
    if places == 0 then sign + whole
    else sign + whole + "." + ZeroPad(NatText(n % scale), places)
  }

  function Fmt4(x: real): string {
    FixedPoint(x, 4)
  }

  function Fmt2(x: real): string {
    FixedPoint(x, 2)
  }

  /** A character that may appear in a rendered number. */
  predicate IsNumeral(c: char) {
    IsDigit(c) || c == '-' || c == '.'
  }

  /** A rendered number is a single token: non-empty and made of digits,
      a sign and a point only (so no space or newline). */
  lemma FixedPointIsToken(x: real, places: nat)
    ensures |FixedPoint(x, places)| >= 1
    ensures forall k :: 0 <= k < |FixedPoint(x, places)| ==> IsNumeral(FixedPoint(x, places)[k])
  {
    var scale := Pow10(places);
    var n := RoundHalfEven(Units(x, places));
    var frac := ZeroPad(NatText(n % scale), places);
    assert forall k :: 0 <= k < |frac| ==> IsDigit(frac[k]);
  }

  /** With places > 0 the rendering has exactly `places` digits after its point. */
  lemma FixedPointDecimals(x: real, places: nat)
    requires places > 0
    ensures var s := FixedPoint(x, places);
      |s| > places && s[|s| - places - 1] == '.' &&
      forall k :: |s| - places <= k < |s| ==> IsDigit(s[k])
  {
    var scale := Pow10(places);
    var n := RoundHalfEven(Units(x, places));
    var frac := NatText(n % scale);
    NatTextShort(n % scale, places);
    var padded := ZeroPad(frac, places);
    assert |padded| == places;
    assert forall k :: 0 <= k < |padded| ==> IsDigit(padded[k]);
  }

  /** A number below 10^p has at most p digits (for p >= 1). */
  lemma {:induction false} NatTextShort(n: nat, p: nat)
    requires p >= 1 && n < Pow10(p)
    ensures |NatText(n)| <= p
  {
    if n >= 10 {
      NatTextShort(n / 10, p - 1);
    }
  }
}
