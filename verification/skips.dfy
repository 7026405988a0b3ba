/** The accumulation of the residual layers' skip outputs during generation: the first layer's
    output is taken as it is and each later one is added before the running sum is multiplied
    by `r` (`sqrt(0.5)` in the network). The closed form gives every layer a weight, a power of
    `r`; the squared weights sum to one when `r * r == 0.5`. */
module Skips {
  import opened Results
  import Algebra
  import opened Sums

  /** `r` to the power `e`. */
  function Pow(r: real, e: nat): real
    decreases e
  {
    if e == 0 then 1.0 else r * Pow(r, e - 1)
  }

  /** The layers' skip outputs combined in layer order: the first is taken as it is, each later
      one as `(skips + h) * r`; `None` when there is no layer. */
  function AccumulateSkips(hs: seq<real>, r: real): (acc: Option<real>)
    ensures acc.Some? <==> |hs| > 0
    decreases |hs|
  {
    if |hs| == 0 then None
    else if |hs| == 1 then Some(hs[0])
    else Some((AccumulateSkips(hs[..|hs| - 1], r).value + hs[|hs| - 1]) * r)
  }

  /** The weight of layer `k` of `n` in the combined skip: a layer's output is multiplied by `r`
      once for every later layer, and layer 0 enters together with layer 1 (see
      `SkipWeightPower` for the closed form). */
  function SkipWeight(n: nat, k: nat, r: real): real
    requires k < n
    decreases n
  {
    if n == 1 then 1.0 else if k == n - 1 then r else r * SkipWeight(n - 1, k, r)
  }

  /** The weights of all `n` layers, in layer order. */
  function SkipWeights(n: nat, r: real): seq<real> {
    seq(n, k requires 0 <= k < n => SkipWeight(n, k, r))
  }

  /** The closed form of the combined skip: each layer's output times its weight. */
  function WeightedSkips(hs: seq<real>, r: real): real {
    Dot(hs, SkipWeights(|hs|, r), |hs|)
  }

  /** The sum of the squared weights of `n` layers. */
  function WeightEnergy(n: nat, r: real): real {
    Dot(SkipWeights(n, r), SkipWeights(n, r), n)
  }

  /** Adding a layer multiplies the weight of each earlier layer by `r`. */
  lemma NextSkipWeight(n: nat, k: nat, r: real)
    requires 0 < n && k < n
    ensures SkipWeight(n + 1, k, r) == r * SkipWeight(n, k, r)
  {
  }

  /** The last of `n > 1` layers has weight `r`. */
  lemma LastSkipWeight(n: nat, r: real)
    requires n > 1
    ensures SkipWeight(n, n - 1, r) == r
  {
  }

  /** The weights in closed form: `r^(n-1)` for the first layer and `r^(n-k)` for layer `k >= 1`. */
  lemma {:induction false} SkipWeightPower(n: nat, k: nat, r: real)
    requires k < n
    ensures SkipWeight(n, k, r) == Pow(r, n - (if k == 0 then 1 else k))
    decreases n
  {
    if n == 1 {
      assert Pow(r, 0) == 1.0;
    } else if k == n - 1 {
      assert Pow(r, 1) == r * Pow(r, 0);
    } else {
      SkipWeightPower(n - 1, k, r);
    }
  }

  /** The weights of `n + 1` layers, but for the last, are `r` times those of `n` layers. */
  lemma GrownWeights(n: nat, r: real)
    requires n > 0
    ensures forall k :: 0 <= k < n ==> SkipWeights(n + 1, r)[k] == r * SkipWeights(n, r)[k]
  {
    forall k | 0 <= k < n
      ensures SkipWeights(n + 1, r)[k] == r * SkipWeights(n, r)[k]
    {
      NextSkipWeight(n, k, r);
    }
  }

  /** One more layer: the closed form of the longer stack is the shorter one's times `r`, plus
      the new layer's output times `r`. */
  lemma WeightedSkipsGrow(u: seq<real>, h: real, r: real)
    requires |u| > 0
    ensures WeightedSkips(u + [h], r) == WeightedSkips(u, r) * r + h * r
  {
    var n := |u| + 1;
    var hs := u + [h];
    var w := SkipWeights(n, r);
    GrownWeights(n - 1, r);
    DotScaled(u, SkipWeights(n - 1, r), w, r, n - 1);
    DotPrefix(hs, w, u, w, n - 1);
    LastSkipWeight(n, r);
    DotLast(hs, w, n);
  }

  /** The skip recurrence in closed form: each layer's skip output contributes with its weight. */
  lemma {:induction false} SkipClosedForm(hs: seq<real>, r: real)
    requires |hs| > 0
    ensures AccumulateSkips(hs, r).value == WeightedSkips(hs, r)
    decreases |hs|
  {
    if |hs| == 1 {
      assert SkipWeights(1, r)[0] == 1.0;
    } else {
      var u := hs[..|hs| - 1];
      var h := hs[|hs| - 1];
      assert hs == u + [h];
      SkipClosedForm(u, r);
      WeightedSkipsGrow(u, h, r);
      Algebra.DistribRight(WeightedSkips(u, r), h, r);
    }
  }

  /** One more layer: the squared weights of the longer stack sum to the shorter one's sum times
      `r * r`, plus `r * r` for the new layer. */
  lemma EnergyGrow(n: nat, r: real)
    requires n > 0
    ensures WeightEnergy(n + 1, r) == WeightEnergy(n, r) * (r * r) + r * r
  {
    var w := SkipWeights(n + 1, r);
    GrownWeights(n, r);
    SquaresScaled(SkipWeights(n, r), w, r, n);
    LastSkipWeight(n + 1, r);
    DotLast(w, w, n + 1);
  }

  /** With `r * r == 0.5` the squared weights of any positive number of layers sum to one, so
      the combined skip keeps the variance of independent unit-variance skip outputs whatever
      the depth. */
  lemma {:induction false} SkipWeightsUnitEnergy(n: nat, r: real)
    requires n > 0 && r * r == 0.5
    ensures WeightEnergy(n, r) == 1.0
    decreases n
  {
    if n == 1 {
      assert SkipWeights(1, r)[0] == 1.0;
    } else {
      SkipWeightsUnitEnergy(n - 1, r);
      EnergyGrow(n - 1, r);
    }
  }
}
