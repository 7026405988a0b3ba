/** Weighted sums over sequences of reals, and how they change when every weight is scaled. */
module Sums {
  import Algebra

  /** The weighted sum of the first `i` entries of `xs`, entry `k` weighted by `ws[k]`. */
  function Dot(xs: seq<real>, ws: seq<real>, i: nat): real
    requires i <= |xs| && i <= |ws|
    decreases i
  {
    if i == 0 then 0.0 else Dot(xs, ws, i - 1) + xs[i - 1] * ws[i - 1]
  }

  /** The last term of a weighted sum. */
  lemma DotLast(xs: seq<real>, ws: seq<real>, i: nat)
    requires 0 < i <= |xs| && i <= |ws|
    ensures Dot(xs, ws, i) == Dot(xs, ws, i - 1) + xs[i - 1] * ws[i - 1]
  {
  }

  /** A weighted sum reads only the first `i` entries. */
  lemma {:induction false} DotPrefix(xs: seq<real>, ws: seq<real>, ys: seq<real>, vs: seq<real>, i: nat)
    requires i <= |xs| && i <= |ws| && i <= |ys| && i <= |vs|
    requires forall k :: 0 <= k < i ==> xs[k] == ys[k]
    requires forall k :: 0 <= k < i ==> ws[k] == vs[k]
    ensures Dot(xs, ws, i) == Dot(ys, vs, i)
    decreases i
  {
    if i > 0 {
      DotPrefix(xs, ws, ys, vs, i - 1);
    }
  }

  /** Multiplying every weight by `r` multiplies the weighted sum by `r`. */
  lemma {:induction false} DotScaled(xs: seq<real>, ws: seq<real>, vs: seq<real>, r: real, i: nat)
    requires i <= |xs| && i <= |ws| && i <= |vs|
    requires forall k :: 0 <= k < i ==> vs[k] == r * ws[k]
    ensures Dot(xs, vs, i) == Dot(xs, ws, i) * r
    decreases i
  {
    if i > 0 {
      DotScaled(xs, ws, vs, r, i - 1);
      Algebra.FactorScaled(Dot(xs, ws, i - 1), xs[i - 1], ws[i - 1], r, vs[i - 1]);
    }
  }

  /** Multiplying every entry by `r` multiplies the sum of squares by `r * r`. */
  lemma {:induction false} SquaresScaled(ws: seq<real>, vs: seq<real>, r: real, i: nat)
    requires i <= |ws| && i <= |vs|
    requires forall k :: 0 <= k < i ==> vs[k] == r * ws[k]
    ensures Dot(vs, vs, i) == Dot(ws, ws, i) * (r * r)
    decreases i
  {
    if i > 0 {
      SquaresScaled(ws, vs, r, i - 1);
      Algebra.SquareScaled(Dot(ws, ws, i - 1), ws[i - 1], r, vs[i - 1]);
    }
  }
}
