/**
 * The two pieces of .NET number handling the core depends on, stated on
 * exact values: `Math.Round(value, digits)`, which rounds a midpoint to the
 * even neighbour (the `MidpointRounding.ToEven` default), for the two digit
 * counts the core uses, and `Int32.ToString()` (decimal digits, with a
 * leading '-' for a negative number).
 */
module Rounding {

  /** The integer nearest to `x`; a tie goes to the even integer. */
  function RoundToEven(x: real): (n: int)
    ensures -0.5 <= n as real - x <= 0.5
    ensures x == x.Floor as real ==> n == x.Floor
    ensures x - x.Floor as real == 0.5 ==> n % 2 == 0
  {
    var f := x.Floor;
    var frac := x - f as real;
    if frac < 0.5 then f
    else if frac > 0.5 then f + 1
    else if f % 2 == 0 then f
    else f + 1
  }

  lemma RoundToEvenMonotone(x: real, y: real)
    requires x <= y
    ensures RoundToEven(x) <= RoundToEven(y)
  {
    if x.Floor < y.Floor {
      assert RoundToEven(x) <= x.Floor + 1 <= y.Floor <= RoundToEven(y);
    }
  }

  /** `Math.Round(value, 2)`: a value with at most two decimals. */
  function Round2(value: real): (r: real)
    ensures (r * 100.0).Floor as real == r * 100.0
  {
    RoundToEven(value * 100.0) as real / 100.0
  }

  /** `Math.Round(value, 3)`. */
  function Round3(value: real): real
  {
    RoundToEven(value * 1000.0) as real / 1000.0
  }

  /** A value with at most two decimals is left as it is. */
  lemma Round2Exact(k: int)
    ensures Round2(k as real / 100.0) == k as real / 100.0
  {
    assert (k as real / 100.0) * 100.0 == k as real;
  }

  /** A value with at most three decimals is left as it is. */
  lemma Round3Exact(k: int)
    ensures Round3(k as real / 1000.0) == k as real / 1000.0
  {
    assert (k as real / 1000.0) * 1000.0 == k as real;
  }

  /** Rounding to two decimals moves a value by at most half a hundredth. */
  lemma Round2Error(value: real)
    ensures -0.005 <= Round2(value) - value <= 0.005
  {
  }

  /** Rounding to three decimals moves a value by at most half a thousandth. */
  lemma Round3Error(value: real)
    ensures -0.0005 <= Round3(value) - value <= 0.0005
  {
  }

  /** Rounding to three decimals never reverses the order of two values. */
  lemma Round3Monotone(a: real, b: real)
    requires a <= b
    ensures Round3(a) <= Round3(b)
  {
    RoundToEvenMonotone(a * 1000.0, b * 1000.0);
  }

  /** Rounding to three decimals keeps a value of [0, 1] inside [0, 1]. */
  lemma Round3UnitInterval(value: real)
    requires 0.0 <= value <= 1.0
    ensures 0.0 <= Round3(value) <= 1.0
  {
    Round3Monotone(0.0, value);
    Round3Monotone(value, 1.0);
    Round3Exact(0);
    Round3Exact(1000);
  }

  /** The character of a decimal digit. */
  function DigitChar(d: nat): (c: char)
    requires d < 10
    ensures '0' <= c <= '9'
  {
    "0123456789"[d]
  }

  /** The decimal digits of `n`, most significant first, without leading zeros. */
  function Digits(n: nat): (s: string)
    ensures |s| >= 1
    ensures forall i :: 0 <= i < |s| ==> '0' <= s[i] <= '9'
  {
    if n < 10 then [DigitChar(n)] else Digits(n / 10) + [DigitChar(n % 10)]
  }

  /** `Int32.ToString()` of `n`. */
  function DecimalString(n: int): (s: string)
    ensures |s| >= 1
    ensures n < 0 <==> s[0] == '-'
  {
    if n < 0 then "-" + Digits(-n) else Digits(n)
  }
}
