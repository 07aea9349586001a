/**
 * Facts about division of reals that the estimators' proofs use, and the two
 * properties of the natural logarithm the estimators' lemmas assume.
 */
module RealArith {
  ghost predicate LnZeroAtOne(ln: real -> real) { ln(1.0) == 0.0 }

  ghost predicate LnMonotone(ln: real -> real)
  {
    forall x, y | 0.0 < x <= y :: ln(x) <= ln(y)
  }

  /** Under both assumptions ln is non-negative from 1 on. */
  lemma LnNonNegative(ln: real -> real, x: real)
    requires LnZeroAtOne(ln) && LnMonotone(ln) && x >= 1.0
    ensures ln(x) >= 0.0
  {
    assert ln(1.0) <= ln(x);
  }

  // ---------------------------------------------------------------------------
  // Division and multiplication

  lemma DivSelf(x: real)
    requires x != 0.0
    ensures x / x == 1.0
  {
  }

  /** Dividing by a positive number keeps the order. */
  lemma DivMono(a: real, b: real, l: real)
    requires l > 0.0 && a <= b
    ensures a / l <= b / l
  {
    var qa := a / l;
    var qb := b / l;
    assert (qb - qa) * l == b - a;
  }

  lemma DivNonNeg(a: real, l: real)
    requires l > 0.0 && a >= 0.0
    ensures a / l >= 0.0
  {
    DivMono(0.0, a, l);
  }

  /** A larger positive divisor gives a smaller quotient of a non-negative number. */
  lemma DivAntiMono(k: real, l1: real, l2: real)
    requires k >= 0.0 && 0.0 < l1 <= l2
    ensures k / l2 <= k / l1
  {
    var q1 := k / l1;
    var q2 := k / l2;
    DivNonNeg(k, l1);
    assert q1 * l1 == k && q2 * l2 == k;
    assert (q1 - q2) * l2 == q1 * (l2 - l1);
    assert q1 * (l2 - l1) >= 0.0;
  }

  /** Multiplying by a non-negative number keeps the order. */
  lemma MulMono(k: real, a: real, b: real)
    requires k >= 0.0 && a <= b
    ensures k * a <= k * b
  {
    assert k * b - k * a == k * (b - a);
  }
}
