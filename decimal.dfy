/** Exact decimal arithmetic standing in for Python's `float` and `round`. */
module Decimal {

  predicate IsDigit(c: char) {
    '0' <= c <= '9'
  }

  predicate AllDigits(s: string) {
    forall k :: 0 <= k < |s| ==> IsDigit(s[k])
  }

  function Pow10(k: nat): (r: nat)
    ensures r >= 1
  {
    if k == 0 then 1 else 10 * Pow10(k - 1)
  }

  /** The natural number a string of decimal digits denotes. */
  function DigitsValue(ds: string): (v: nat)
    requires AllDigits(ds)
    ensures v < Pow10(|ds|)
  {
    if ds == [] then 0
    else DigitsValue(ds[..|ds| - 1]) * 10 + (ds[|ds| - 1] as int - '0' as int)
  }

  /**
   * Python's `round` to an integer: the nearest integer, ties going to the
   * even neighbour.
   */
  function RoundHalfEven(x: real): (r: int)
    ensures -0.5 <= r as real - x <= 0.5
    ensures (r as real - x == 0.5 || x - r as real == 0.5) ==> r % 2 == 0
  {
    var f := x.Floor;
    var d := x - f as real;
    if d < 0.5 then f
    else if d > 0.5 then f + 1
    else if f % 2 == 0 then f
    else f + 1
  }

  /** `round(x, 1)`: a whole number of tenths nearest `x`, a tie going to an even number of tenths. */
  function RoundTenths(x: real): (r: real)
    ensures -0.05 <= r - x <= 0.05
    ensures (r * 10.0).Floor as real == r * 10.0
    ensures (r - x == 0.05 || x - r == 0.05) ==> (r * 10.0).Floor % 2 == 0
  {
    RoundHalfEven(x * 10.0) as real / 10.0
  }

  /** Rounding never leaves an interval whose ends are integers. */
  lemma RoundWithin(x: real, lo: int, hi: int)
    requires lo as real <= x <= hi as real
    ensures lo <= RoundHalfEven(x) <= hi
  {
  }

  /** Rounding to tenths keeps the sign of its argument, and zero stays zero. */
  lemma RoundTenthsSign(x: real)
    ensures x >= 0.0 ==> RoundTenths(x) >= 0.0
    ensures x <= 0.0 ==> RoundTenths(x) <= 0.0
    ensures x == 0.0 ==> RoundTenths(x) == 0.0
  {
    var n := RoundHalfEven(x * 10.0);
    if x >= 0.0 { RoundWithin(x * 10.0, 0, n + 1); }
    if x <= 0.0 { RoundWithin(x * 10.0, n - 1, 0); }
  }
}
