/** Small facts about exact real arithmetic that the transform proofs use
    when they cancel a perspective divide or a screen scale. */
module RealArith {

  /** A quotient is the number that multiplied by the divisor gives the dividend. */
  lemma QuotientByProduct(a: real, b: real, r: real)
    requires b != 0.0 && r * b == a
    ensures a / b == r
  {
  }

  /** Scaling both sides of an equation by the same non-zero factor can be undone. */
  lemma CancelFactor(a: real, b: real, n: real)
    requires n != 0.0 && a * n == b * n
    ensures a == b
  {
  }

  /** A product of a non-negative and a positive factor keeps the first factor's sign. */
  lemma ProductSign(a: real, n: real)
    requires 0.0 < n
    ensures 0.0 <= a ==> 0.0 <= a * n
    ensures 0.0 < a ==> 0.0 < a * n
    ensures a < 0.0 ==> a * n < 0.0
  {
  }

  /** Bounds on a multiple by a positive factor are bounds on the number. */
  lemma BoundsByPositiveFactor(t: real, lo: real, hi: real, n: real)
    requires 0.0 < n && lo * n <= t * n <= hi * n
    ensures lo <= t <= hi
  {
    ProductSign(t - lo, n);
    ProductSign(hi - t, n);
  }
}
