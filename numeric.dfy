/**
 * Numeric normalisation of option values: rounding to the nearest integer
 * and clamping into a closed range. Numbers are exact reals, not IEEE doubles.
 */
module Numeric {

  /** Distance between two reals. */
  function Distance(x: real, y: real): real {
    if x < y then y - x else x - y
  }

  /**
   * Rounds to the nearest integer; a value exactly halfway between two
   * integers goes to the larger one (as JavaScript's Math.round does).
   */
  function Round(x: real): (n: int)
    ensures n as real - 0.5 <= x < n as real + 0.5
  {
    (x + 0.5).Floor
  }

  /** No integer is closer to `x` than `Round(x)`. */
  lemma RoundIsNearest(x: real, m: int)
    ensures Distance(x, Round(x) as real) <= Distance(x, m as real)
  {
    var n := Round(x);
    if m < n {
      assert m as real <= n as real - 1.0;
    } else if m > n {
      assert m as real >= n as real + 1.0;
    }
  }

  /** An integral value is left as it is. */
  lemma RoundOfInteger(k: int)
    ensures Round(k as real) == k
  {
  }

  /** `v` moved to the nearest bound of `[lo, hi]` when it lies outside. */
  function Clamp(v: int, lo: int, hi: int): (r: int)
    requires lo <= hi
    ensures lo <= r <= hi
    ensures lo <= v <= hi ==> r == v
    ensures v < lo ==> r == lo
    ensures hi < v ==> r == hi
  {
    if v < lo then lo else if hi < v then hi else v
  }

  /**
   * Rounds `x` and clamps the result into `[lo, hi]`: a value inside the
   * range becomes its nearest integer, a value at or beyond a bound becomes
   * that bound.
   */
  function RoundAndClamp(x: real, lo: int, hi: int): (n: int)
    requires lo <= hi
    ensures lo <= n <= hi
    ensures lo as real <= x <= hi as real ==> n == Round(x)
    ensures x <= lo as real ==> n == lo
    ensures hi as real <= x ==> n == hi
  {
    Clamp(Round(x), lo, hi)
  }

  /** `RoundAndClamp` leaves an integer already inside the range unchanged. */
  lemma RoundAndClampOfInteger(k: int, lo: int, hi: int)
    requires lo <= k <= hi
    ensures RoundAndClamp(k as real, lo, hi) == k
  {
  }
}
