/** Small facts of field arithmetic, stated over plain variables so that the
    proofs using them do not have to search for them among function terms. */
module Algebra {

  /** `(z * p + t) * s + m == z * (p * s) + (t * s + m)` */
  lemma AffineAfter(z: real, p: real, t: real, s: real, m: real)
    ensures (z * p + t) * s + m == z * (p * s) + (t * s + m)
  {
  }

  lemma DistribRight(a: real, b: real, c: real)
    ensures (a + b) * c == a * c + b * c
  {
  }

  lemma ProductPositive(a: real, b: real)
    requires a > 0.0 && b > 0.0
    ensures a * b > 0.0
  {
  }

  lemma IntMulAssoc(a: int, b: int, c: int)
    ensures a * b * c == a * (b * c)
  {
  }

  /** `(f - 1) * s + (s - 1) + 1 == f * s` */
  lemma StretchStep(f: int, s: int)
    ensures (f - 1) * s + (s - 1) + 1 == f * s
  {
  }

  /** `b * r + x * w1 == (b + x * w) * r` when `w1 == r * w` */
  lemma FactorScaled(b: real, x: real, w: real, r: real, w1: real)
    requires w1 == r * w
    ensures b * r + x * w1 == (b + x * w) * r
  {
  }

  /** `b * (r * r) + w1 * w1 == (b + w * w) * (r * r)` when `w1 == r * w` */
  lemma SquareScaled(b: real, w: real, r: real, w1: real)
    requires w1 == r * w
    ensures b * (r * r) + w1 * w1 == (b + w * w) * (r * r)
  {
  }
}
