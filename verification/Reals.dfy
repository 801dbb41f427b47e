/**
 Multiplication of reals under a name that a proof can hide, and rounding.  A proof that
 hides `Mul` works with the laws below only, which keeps the solver out of nonlinear search.
 */
module Reals {

  type Positive = x: real | x > 0.0 witness 1.0

  function Mul(x: real, y: real): real { x * y }

  lemma MulIs(x: real, y: real)
    ensures Mul(x, y) == x * y
  {}

  lemma MulUnit(x: real)
    ensures Mul(1.0, x) == Mul(x, 1.0) == x
    ensures Mul(0.0, x) == Mul(x, 0.0) == 0.0
  {}

  lemma QuotientTimes(x: real, y: real)
    requires y > 0.0
    ensures Mul(x / y, y) == x
  {}

  lemma MulCommutes(x: real, y: real)
    ensures Mul(x, y) == Mul(y, x)
  {}

  lemma MulAssociates(x: real, y: real, z: real)
    ensures Mul(x, Mul(y, z)) == Mul(Mul(x, y), z)
  {}

  lemma MulDistributes(x: real, y: real, z: real)
    ensures Mul(x, y + z) == Mul(x, y) + Mul(x, z)
    ensures Mul(y + z, x) == Mul(y, x) + Mul(z, x)
  {}

  lemma MulNonNegative(x: real, y: real)
    requires x >= 0.0 && y >= 0.0
    ensures Mul(x, y) >= 0.0
  {}

  lemma MulMonotone(x: real, y: real, z: real)
    requires x <= y && z >= 0.0
    ensures Mul(x, z) <= Mul(y, z) && Mul(z, x) <= Mul(z, y)
  {}

  /** Multiplication is monotone in both factors at once on non-negative reals. */
  lemma MulMonotoneBoth(x: real, y: real, u: real, v: real)
    requires 0.0 <= x <= y && 0.0 <= u <= v
    ensures Mul(x, u) <= Mul(y, v)
  {
    MulMonotone(x, y, u);
    MulMonotone(u, v, y);
  }

  function Max(x: real, y: real): real { if x >= y then x else y }

  function Min(x: real, y: real): real { if x <= y then x else y }

  function PositiveOrZero(x: real): real { Max(x, 0.0) }

  function Floor(x: real): int { x.Floor }

  function Ceil(x: real): int { -(-x).Floor }

  lemma CeilMonotone(x: real, y: real)
    requires x <= y
    ensures Ceil(x) <= Ceil(y)
  {}
}
