/**
 * `Math.round` applied to a quotient of integers. `Math.round(x)` is
 * `floor(x + 1/2)`: the nearest integer, with halves rounded up. For a
 * positive denominator `d`, `Math.round(n / d)` equals
 * `floor((2n + d) / 2d)`, and Dafny's `/` floors when the divisor is
 * positive.
 */
module Rounding {

  /** `Math.round(n / d)` for `d > 0`. */
  function RoundDiv(n: int, d: int): (r: int)
    requires d > 0
    ensures 2 * d * r - d <= 2 * n < 2 * d * r + d
  {
    var q := (2 * n + d) / (2 * d);
    assert (2 * n + d) == q * (2 * d) + (2 * n + d) % (2 * d);
    q
  }

  /** The rounding bracket above has exactly one solution, so it defines `RoundDiv`. */
  lemma RoundDivUnique(n: int, d: int, r: int)
    requires d > 0
    requires 2 * d * r - d <= 2 * n < 2 * d * r + d
    ensures r == RoundDiv(n, d)
  {
    var q := RoundDiv(n, d);
    if r < q {
      MulLe(d, r + 1, q);
    } else if r > q {
      MulLe(d, q + 1, r);
    }
  }

  lemma MulLe(d: int, a: int, b: int)
    requires d > 0 && a <= b
    ensures d * a <= d * b
  {
  }

  /** A multiple of the denominator divides exactly. */
  lemma RoundDivExact(k: int, d: int)
    requires d > 0
    ensures RoundDiv(d * k, d) == k
  {
    RoundDivUnique(d * k, d, k);
  }

  /** Rounding is monotone in the numerator. */
  lemma RoundDivMonotone(n1: int, n2: int, d: int)
    requires d > 0 && n1 <= n2
    ensures RoundDiv(n1, d) <= RoundDiv(n2, d)
  {
    var r1, r2 := RoundDiv(n1, d), RoundDiv(n2, d);
    if r1 > r2 {
      MulLe(d, r2 + 1, r1);
    }
  }

  /** A rounded quotient of a numerator between `d*lo` and `d*hi` lies between `lo` and `hi`. */
  lemma RoundDivBetween(n: int, d: int, lo: int, hi: int)
    requires d > 0
    requires d * lo <= n <= d * hi
    ensures lo <= RoundDiv(n, d) <= hi
  {
    RoundDivMonotone(d * lo, n, d);
    RoundDivMonotone(n, d * hi, d);
    RoundDivExact(lo, d);
    RoundDivExact(hi, d);
  }
}
