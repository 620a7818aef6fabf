/** Square roots over the reals.

    The pages take square roots with np.sqrt. Dafny's `real` has no square-root
    operation, so every member that needs one receives the square-root function
    as a parameter `sqrt`, constrained by IsSqrt: on the non-negative reals it
    returns the non-negative number whose square is its argument. That pins
    `sqrt` down uniquely there (SqrtOfSquare), so the model does not depend on
    which such function is passed. */
module RealSqrt {

  /** `sqrt` is a square root on the non-negative reals. */
  ghost predicate IsSqrt(sqrt: real -> real) {
    forall r :: 0.0 <= r ==> 0.0 <= sqrt(r) && sqrt(r) * sqrt(r) == r
  }

  /** Squaring is strictly increasing on the non-negative reals. */
  lemma SquareLess(s: real, a: real)
    requires 0.0 <= s < a
    ensures s * s < a * a
  {
    var lo, mid, hi := s * s, s * a, a * a;
    assert lo <= mid;
    assert mid < hi;
  }

  /** The square root of a square is the non-negative base. */
  lemma SqrtOfSquare(sqrt: real -> real, a: real)
    requires IsSqrt(sqrt) && 0.0 <= a
    ensures sqrt(a * a) == a
  {
    var s := sqrt(a * a);
    if s < a {
      SquareLess(s, a);
    } else if a < s {
      SquareLess(a, s);
    }
  }

  /** Square root of zero. */
  lemma SqrtZero(sqrt: real -> real)
    requires IsSqrt(sqrt)
    ensures sqrt(0.0) == 0.0
  {
    SqrtOfSquare(sqrt, 0.0);
  }

  /** A positive argument has a positive root. */
  lemma SqrtPositive(sqrt: real -> real, r: real)
    requires IsSqrt(sqrt) && 0.0 < r
    ensures 0.0 < sqrt(r)
  {
    assert sqrt(r) * sqrt(r) == r;
  }

  /** np.sqrt is monotone: a larger argument never has a smaller root. */
  lemma SqrtMonotone(sqrt: real -> real, a: real, b: real)
    requires IsSqrt(sqrt) && 0.0 <= a <= b
    ensures sqrt(a) <= sqrt(b)
  {
    if sqrt(b) < sqrt(a) {
      SquareLess(sqrt(b), sqrt(a));
    }
  }

  /** ... and strictly monotone. */
  lemma SqrtStrictMonotone(sqrt: real -> real, a: real, b: real)
    requires IsSqrt(sqrt) && 0.0 <= a < b
    ensures sqrt(a) < sqrt(b)
  {
    SqrtMonotone(sqrt, a, b);
    assert sqrt(a) * sqrt(a) == a && sqrt(b) * sqrt(b) == b;
  }
}
