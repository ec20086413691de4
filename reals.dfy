/** Small facts about real division and products, kept apart so that the scorers' proofs do not
    have to reason about nonlinear arithmetic directly. */
module Reals {

  /** A quotient of a non-negative number by a positive one at most `c` times as large is at most `c`. */
  lemma QuotientAtMost(s: real, t: real, c: real)
    requires 0.0 <= s <= c * t && t > 0.0
    ensures 0.0 <= s / t <= c
  {
    assert s / t * t == s;
  }

  lemma QuotientNonNegative(s: real, t: real)
    requires s >= 0.0 && t > 0.0
    ensures s / t >= 0.0
  {
    assert s / t * t == s;
  }

  lemma QuotientPositive(s: real, t: real)
    requires s > 0.0 && t > 0.0
    ensures s / t > 0.0
  {
    assert s / t * t == s;
  }

  lemma SelfQuotient(t: real)
    requires t > 0.0
    ensures t / t == 1.0
  {
  }

  /** Division by a positive number distributes over addition. */
  lemma QuotientSum(a: real, b: real, t: real)
    requires t > 0.0
    ensures a / t + b / t == (a + b) / t
  {
    assert a / t * t == a && b / t * t == b;
  }

  lemma ScaleAtMost(ratio: real, w: real)
    requires 0.0 <= ratio <= 1.0 && w >= 0.0
    ensures 0.0 <= ratio * w <= w
  {
  }

  lemma UnitProduct(x: real, y: real)
    requires 0.0 <= x <= 1.0 && 0.0 <= y <= 1.0
    ensures 0.0 <= x * y <= 1.0
  {
    ScaleAtMost(y, x);
  }
}
