/** The affine skeleton of the batch (flow) forward pass. Every flow step
    produces a shift `m` and a scale `s` (an `exp` output, hence positive)
    and updates the noise elementwise, `z := z * s + m`; afterwards the
    total transform is rebuilt in closed form, so that the final `z` is
    `z0 * scale_tot + mu_tot`. The operations are elementwise, so one time
    position is modelled with `real` scalars, and the networks producing
    `(m, s)` are replaced by the recorded per-step pairs. */
module Flow {
  import Algebra
  import opened Sums

  /** One flow step's transform at one position. */
  datatype Affine = Affine(shift: real, scale: real)

  /** The elementwise update of one flow step. */
  function Apply(a: Affine, z: real): real {
    z * a.scale + a.shift
  }

  /** The value obtained by applying the steps of `trace` in order, starting from `z0`. */
  function Run(z0: real, trace: seq<Affine>): real
    decreases |trace|
  {
    if |trace| == 0 then z0 else Apply(trace[|trace| - 1], Run(z0, trace[..|trace| - 1]))
  }

  /** Product of the scales of steps `lo .. hi - 1` (1 for an empty range). */
  function Product(trace: seq<Affine>, lo: nat, hi: nat): real
    requires lo <= hi <= |trace|
    decreases hi - lo
  {
    if lo == hi then 1.0 else Product(trace, lo, hi - 1) * trace[hi - 1].scale
  }

  /** Product of all scales: `scale_tot`. */
  function ScaleProduct(trace: seq<Affine>): real {
    Product(trace, 0, |trace|)
  }

  /** The shifts of the steps, in order. */
  function Shifts(trace: seq<Affine>): seq<real> {
    seq(|trace|, i requires 0 <= i < |trace| => trace[i].shift)
  }

  /** For every step, the product of the scales of all later steps. */
  function LaterProducts(trace: seq<Affine>): seq<real> {
    seq(|trace|, i requires 0 <= i < |trace| => Product(trace, i + 1, |trace|))
  }

  /** The closed-form total shift: `sum_i m_i * prod_{j > i} s_j`. */
  function TotalShift(trace: seq<Affine>): real {
    Dot(Shifts(trace), LaterProducts(trace), |trace|)
  }

  /** Every step's scale is positive, as `exp` outputs are. */
  predicate PositiveScales(trace: seq<Affine>) {
    forall i :: 0 <= i < |trace| ==> trace[i].scale > 0.0
  }

  lemma {:induction false} ProductPositive(trace: seq<Affine>, lo: nat, hi: nat)
    requires lo <= hi <= |trace| && PositiveScales(trace)
    ensures Product(trace, lo, hi) > 0.0
    decreases hi - lo
  {
    if lo < hi {
      ProductPositive(trace, lo, hi - 1);
      Algebra.ProductPositive(Product(trace, lo, hi - 1), trace[hi - 1].scale);
    }
  }

  /** With every scale positive, as `exp` outputs are, `scale_tot` is positive. */
  lemma ScaleProductPositive(trace: seq<Affine>)
    requires PositiveScales(trace)
    ensures ScaleProduct(trace) > 0.0
  {
    ProductPositive(trace, 0, |trace|);
  }

  /** Appending a step does not change the product over a range of earlier steps. */
  lemma {:induction false} ProductOfPrefix(trace: seq<Affine>, a: Affine, lo: nat, hi: nat)
    requires lo <= hi <= |trace|
    ensures Product(trace + [a], lo, hi) == Product(trace, lo, hi)
    decreases hi - lo
  {
    if lo < hi {
      ProductOfPrefix(trace, a, lo, hi - 1);
    }
  }

  /** Extending a range to the appended step multiplies its product by that step's scale. */
  lemma ProductAppend(trace: seq<Affine>, a: Affine, lo: nat)
    requires lo <= |trace|
    ensures Product(trace + [a], lo, |trace| + 1) == Product(trace, lo, |trace|) * a.scale
  {
    ProductOfPrefix(trace, a, lo, |trace|);
  }

  lemma ScaleProductAppend(trace: seq<Affine>, a: Affine)
    ensures ScaleProduct(trace + [a]) == ScaleProduct(trace) * a.scale
  {
    ProductAppend(trace, a, 0);
  }

  /** Appending a step multiplies every earlier step's later-scale product by its scale; its own
      later-scale product is 1. */
  lemma LaterProductsAppend(trace: seq<Affine>, a: Affine)
    ensures forall k :: 0 <= k < |trace| ==> LaterProducts(trace + [a])[k] == a.scale * LaterProducts(trace)[k]
    ensures LaterProducts(trace + [a])[|trace|] == 1.0
  {
    forall k | 0 <= k < |trace|
      ensures LaterProducts(trace + [a])[k] == a.scale * LaterProducts(trace)[k]
    {
      ProductAppend(trace, a, k + 1);
    }
  }

  /** Appending a step keeps the earlier shifts and adds its own. */
  lemma ShiftsAppend(trace: seq<Affine>, a: Affine)
    ensures forall k :: 0 <= k < |trace| ==> Shifts(trace + [a])[k] == Shifts(trace)[k]
    ensures Shifts(trace + [a])[|trace|] == a.shift
  {
  }

  /** Appending a step multiplies the total shift by its scale and adds its shift. */
  lemma TotalShiftAppend(trace: seq<Affine>, a: Affine)
    ensures TotalShift(trace + [a]) == TotalShift(trace) * a.scale + a.shift
  {
    var n := |trace|;
    var shifts := Shifts(trace + [a]);
    var later := LaterProducts(trace + [a]);
    LaterProductsAppend(trace, a);
    ShiftsAppend(trace, a);
    DotLast(shifts, later, n + 1);
    DotPrefix(shifts, later, Shifts(trace), later, n);
    DotScaled(Shifts(trace), LaterProducts(trace), later, a.scale, n);
  }

  /** The composition identity: running the steps one after the other equals one affine map
      with the closed-form total scale and total shift. */
  lemma {:induction false} RunClosedForm(z0: real, trace: seq<Affine>)
    ensures Run(z0, trace) == z0 * ScaleProduct(trace) + TotalShift(trace)
    decreases |trace|
  {
    if |trace| > 0 {
      var u := trace[..|trace| - 1];
      var a := trace[|trace| - 1];
      assert trace == u + [a];
      RunClosedForm(z0, u);
      ScaleProductAppend(u, a);
      TotalShiftAppend(u, a);
      Algebra.AffineAfter(z0, ScaleProduct(u), TotalShift(u), a.scale, a.shift);
    }
  }

  /** The inner loop of the closed-form rebuild: the product of the scales after step `i`. */
  method LaterScales(trace: seq<Affine>, i: nat) returns (ss: real)
    requires i < |trace|
    ensures ss == Product(trace, i + 1, |trace|)
  {
    ss := 1.0;
    var j := i + 1;
    while j < |trace|
      invariant i + 1 <= j <= |trace|
      invariant ss == Product(trace, i + 1, j)
    {
      ss := ss * trace[j].scale;
      j := j + 1;
    }
  }

  /** One iteration of the closed-form rebuild adds step `i`'s shift times the product of the
      later scales, which extends the weighted sum by one step. */
  lemma TotalStep(trace: seq<Affine>, i: nat, mu: real, ss: real)
    requires i < |trace|
    requires mu == Dot(Shifts(trace), LaterProducts(trace), i)
    requires ss == Product(trace, i + 1, |trace|)
    ensures mu + trace[i].shift * ss == Dot(Shifts(trace), LaterProducts(trace), i + 1)
  {
    DotLast(Shifts(trace), LaterProducts(trace), i + 1);
  }

  /** The closed-form rebuild of the total transform from the recorded steps. */
  method TotalTransform(trace: seq<Affine>) returns (muTot: real, scaleTot: real)
    ensures scaleTot == ScaleProduct(trace)
    ensures muTot == TotalShift(trace)
  {
    muTot := 0.0;
    scaleTot := 1.0;
    var i := 0;
    while i < |trace|
      invariant 0 <= i <= |trace|
      invariant scaleTot == Product(trace, 0, i)
      invariant muTot == Dot(Shifts(trace), LaterProducts(trace), i)
    {
      var ss := LaterScales(trace, i);
      TotalStep(trace, i, muTot, ss);
      muTot := muTot + trace[i].shift * ss;
      scaleTot := scaleTot * trace[i].scale;
      i := i + 1;
    }
  }

  /** The sequential part of the batch forward pass: each step's update applied to the noise. */
  method ApplySteps(z0: real, trace: seq<Affine>) returns (z: real)
    ensures z == Run(z0, trace)
  {
    z := z0;
    var i := 0;
    while i < |trace|
      invariant 0 <= i <= |trace|
      invariant z == Run(z0, trace[..i])
    {
      assert trace[..i + 1][..i] == trace[..i];
      z := z * trace[i].scale + trace[i].shift;
      i := i + 1;
    }
    assert trace[..|trace|] == trace;
  }

  /** The batch forward pass at one position: the noise transformed step by step, and the total
      shift and scale, which map the original noise to the same value in one affine step. */
  method Forward(z0: real, trace: seq<Affine>) returns (z: real, muTot: real, scaleTot: real)
    ensures z == Run(z0, trace)
    ensures z == z0 * scaleTot + muTot
    ensures scaleTot == ScaleProduct(trace)
    ensures PositiveScales(trace) ==> scaleTot > 0.0
    ensures |trace| == 0 ==> muTot == 0.0 && scaleTot == 1.0
  {
    z := ApplySteps(z0, trace);
    muTot, scaleTot := TotalTransform(trace);
    RunClosedForm(z0, trace);
    if PositiveScales(trace) {
      ScaleProductPositive(trace);
    }
  }
}
