/** The control flow of sample-by-sample generation: resolving the number of
    steps against the teacher-forcing inputs, the default first input,
    choosing each step's input, accumulating the layers' skip outputs, and
    turning the output head's vector into the next sample.

    The learned layers and the random draws are parameters (`Oracles`). A
    convolution layer in incremental mode keeps a buffer of its recent
    inputs; here its skip output at step `t` is a function of the inputs fed
    to the network at steps `0..t`, which is what that buffer summarises. */
module Generation {
  import opened Results
  import Layout
  import Skips

  /** One time step of network input or output: one value in scalar mode, one entry per
      category in quantized mode. */
  type Frame = seq<real>

  /** The category that stands for silence when no first input is given in quantized mode. */
  const DefaultCategory: nat := 127

  /** `f` is the one-hot vector of category `k`. */
  predicate IsOneHotAt(f: Frame, k: nat) {
    && k < |f|
    && f[k] == 1.0
    && forall j :: 0 <= j < |f| && j != k ==> f[j] == 0.0
  }

  /** A zero vector of `width` entries with entry `k` set to one. */
  function OneHot(width: nat, k: nat): Frame {
    seq(width, j requires 0 <= j < width => if j == k then 1.0 else 0.0)
  }

  /** The exceptions generation can raise. */
  datatype GenError =
    | StepCountMissing            // `int(None)`: no step count and no teacher inputs
    | NoSpeakerEmbedding          // a speaker given to a network without an embedding table
    | ConditioningLengthMismatch  // upsampled local conditioning is not `T` steps long
    | DefaultCategoryOutOfRange   // the default one-hot index does not exist
    | NoSkipOutput                // no residual layer, so the head is applied to `None`
    | NothingGenerated            // stacking an empty list of outputs
    | MissingAttribute(name: string)

  /** The learned layers and random draws generation depends on. */
  datatype Oracles = Oracles(
    skip: (nat, nat, seq<Frame>, nat) -> real,  // (layer, step, inputs of steps 0..t, channel) -> skip value
    skipWidth: nat,                             // channels of a skip output
    head: seq<real> -> seq<real>,               // ReLU then 1x1 convolution of the skip sum
    softmax: seq<real> -> seq<real>,
    mixture: (nat, seq<real>) -> real,          // mixture-of-logistics draw at step t
    choice: (nat, seq<real>) -> nat,            // category draw at step t from the given probabilities
    sqrtHalf: real)                             // the constant sqrt(0.5)

  /** The step count used when the call does not pass one. */
  const DefaultSteps: int := 100

  /** A call's arguments, with the method's defaults: first input, step count (`None` stands for
      an explicit `T=None`), teacher-forcing inputs (time-major), whether a speaker is given, the
      time length of the local conditioning when given, and the flags. */
  datatype Request = Request(
    initialInput: Option<Frame> := None,
    steps: Option<int> := Some(DefaultSteps),
    teacher: Option<seq<Frame>> := None,
    speaker: bool := false,
    localFrames: Option<int> := None,
    softmax: bool := true,
    quantize: bool := true)

  /** Everything the step loop needs once the arguments are resolved. */
  datatype Session = Session(
    scalarInput: bool,
    outChannels: nat,
    numLayers: nat,
    steps: int,
    initial: Frame,
    teacher: seq<Frame>,
    softmax: bool,
    quantize: bool)

  // ---------------------------------------------------------------------------------------------
  // Resolving the arguments

  /** The number of steps: the teacher length when the count is `None`, otherwise the larger of
      the two; without teacher inputs the count must not be `None`. */
  function ResolveSteps(steps: Option<int>, teacher: Option<seq<Frame>>): (r: Result<int, GenError>)
    ensures r.Failure? <==> steps.None? && teacher.None?
    ensures r.Failure? ==> r.error == StepCountMissing
    ensures r.Success? && steps.Some? ==> r.value >= steps.value
    ensures r.Success? && teacher.Some? ==> r.value >= |teacher.value|
    ensures r.Success? ==>
              (steps.Some? && r.value == steps.value) || (teacher.Some? && r.value == |teacher.value|)
  {
    match teacher
    case Some(inputs) =>
      if steps.None? then Success(|inputs|)
      else if steps.value >= |inputs| then Success(steps.value)
      else Success(|inputs|)
    case None =>
      if steps.None? then Failure(StepCountMissing) else Success(steps.value)
  }

  /** A call that leaves out the step count runs 100 steps, or as many as there are teacher
      inputs when those are more. */
  lemma OmittedStepCount(teacher: Option<seq<Frame>>)
    ensures ResolveSteps(Request(teacher := teacher).steps, teacher) ==
              Success(if teacher.Some? && |teacher.value| > DefaultSteps then |teacher.value| else DefaultSteps)
  {
  }

  /** The first input when none is given: a zero sample in scalar mode, the one-hot vector of the
      silence category in quantized mode (which needs more than 127 categories). */
  function DefaultInitial(scalarInput: bool, outChannels: nat): (r: Result<Frame, GenError>)
    ensures scalarInput ==> r == Success([0.0])
    ensures !scalarInput ==> (r.Success? <==> outChannels > DefaultCategory)
    ensures !scalarInput && r.Success? ==> |r.value| == outChannels && IsOneHotAt(r.value, DefaultCategory)
    ensures r.Failure? ==> r.error == DefaultCategoryOutOfRange
  {
    if scalarInput then Success([0.0])
    else if outChannels <= DefaultCategory then Failure(DefaultCategoryOutOfRange)
    else Success(OneHot(outChannels, DefaultCategory))
  }

  /** The time length the local conditioning must have after upsampling, or `None` when there is
      nothing to check (no conditioning, or no upsampler). */
  function UpsampledConditioning(net: Layout.Network, localFrames: Option<int>): Option<int> {
    if localFrames.Some? && net.upsampleConv.Some? then
      Some(Layout.UpsampledLength(localFrames.value, net.upsampleConv.value))
    else None
  }

  /** The local conditioning, if it is checked at all, is upsampled to exactly `steps` steps. */
  predicate ConditioningFits(net: Layout.Network, localFrames: Option<int>, steps: int) {
    UpsampledConditioning(net, localFrames).Some? ==> UpsampledConditioning(net, localFrames).value == steps
  }

  /** A speaker is given to a network without an embedding table. */
  predicate SpeakerUnusable(net: Layout.Network, req: Request) {
    req.speaker && !net.HasSpeakerEmbedding()
  }

  /** Argument resolution in the order the source performs it: step count, speaker, local
      conditioning, first input. */
  function Prepare(net: Layout.Network, req: Request): (r: Result<Session, GenError>)
    ensures r.Success? <==>
              && ResolveSteps(req.steps, req.teacher).Success?
              && !SpeakerUnusable(net, req)
              && ConditioningFits(net, req.localFrames, ResolveSteps(req.steps, req.teacher).value)
              && (req.initialInput.Some? || DefaultInitial(net.scalarInput, net.outChannels).Success?)
    ensures req.steps.None? && req.teacher.None? ==> r == Failure(StepCountMissing)
    ensures (ResolveSteps(req.steps, req.teacher).Success? && SpeakerUnusable(net, req))
              ==> r == Failure(NoSpeakerEmbedding)
    ensures (ResolveSteps(req.steps, req.teacher).Success? && !SpeakerUnusable(net, req)
             && !ConditioningFits(net, req.localFrames, ResolveSteps(req.steps, req.teacher).value))
              ==> r == Failure(ConditioningLengthMismatch)
    ensures (ResolveSteps(req.steps, req.teacher).Success? && !SpeakerUnusable(net, req)
             && ConditioningFits(net, req.localFrames, ResolveSteps(req.steps, req.teacher).value)
             && req.initialInput.None? && DefaultInitial(net.scalarInput, net.outChannels).Failure?)
              ==> r == Failure(DefaultCategoryOutOfRange)
    ensures r.Success? ==> ResolveSteps(req.steps, req.teacher) == Success(r.value.steps)
    ensures r.Success? ==> r.value.numLayers == |net.convLayers|
    ensures r.Success? ==> r.value.scalarInput == net.scalarInput && r.value.outChannels == net.outChannels
    ensures r.Success? ==> r.value.softmax == req.softmax && r.value.quantize == req.quantize
    ensures r.Success? ==> (req.speaker ==> net.HasSpeakerEmbedding())
    ensures r.Success? ==> (UpsampledConditioning(net, req.localFrames).Some? ==>
                              UpsampledConditioning(net, req.localFrames).value == r.value.steps)
    ensures r.Success? ==> r.value.teacher == (if req.teacher.Some? then req.teacher.value else [])
    ensures r.Success? && req.initialInput.Some? ==> r.value.initial == req.initialInput.value
    ensures r.Success? && req.initialInput.None? ==>
              DefaultInitial(net.scalarInput, net.outChannels) == Success(r.value.initial)
  {
    var steps :- ResolveSteps(req.steps, req.teacher);
    if SpeakerUnusable(net, req) then Failure(NoSpeakerEmbedding)
    else if !ConditioningFits(net, req.localFrames, steps) then Failure(ConditioningLengthMismatch)
    else
      var initial :- if req.initialInput.Some? then Success(req.initialInput.value)
                     else DefaultInitial(net.scalarInput, net.outChannels);
      Success(Session(net.scalarInput, net.outChannels, |net.convLayers|, steps, initial,
                      if req.teacher.Some? then req.teacher.value else [], req.softmax, req.quantize))
  }

  // ---------------------------------------------------------------------------------------------
  // One step

  /** The input of step `t`: the teacher sample while there is one, otherwise the previous
      output, and the first input at step 0. */
  function InputAt(s: Session, outs: seq<Frame>, t: nat): Frame
    requires t <= |outs|
  {
    if t < |s.teacher| then s.teacher[t]
    else if t > 0 then outs[t - 1]
    else s.initial
  }

  /** The inputs of steps `0..t`. */
  function History(s: Session, outs: seq<Frame>, t: nat): (h: seq<Frame>)
    requires t <= |outs|
  {
    seq(t + 1, k requires 0 <= k <= t => InputAt(s, outs, k))
  }

  /** The skip outputs of all layers, in layer order, for one channel at step `t`. */
  function LayerSkips(s: Session, o: Oracles, t: nat, hist: seq<Frame>, c: nat): seq<real> {
    seq(s.numLayers, l requires 0 <= l < s.numLayers => o.skip(l, t, hist, c))
  }

  /** The combined skip vector at step `t`. */
  function SkipVector(s: Session, o: Oracles, t: nat, hist: seq<Frame>): seq<real>
    requires s.numLayers > 0
  {
    seq(o.skipWidth, c requires 0 <= c < o.skipWidth => Skips.AccumulateSkips(LayerSkips(s, o, t, hist, c), o.sqrtHalf).value)
  }

  /** The distribution the category is drawn from: the head's output, normalised when asked. */
  function Probabilities(s: Session, o: Oracles, out: seq<real>): seq<real> {
    if s.softmax then o.softmax(out) else out
  }

  /** The next sample from the head's output: a mixture draw in scalar mode; in quantized mode
      the (optionally normalised) vector, replaced by the one-hot vector of a drawn category when
      quantizing. */
  function NextSample(s: Session, o: Oracles, t: nat, out: seq<real>): (x: Frame)
    ensures s.scalarInput ==> x == [o.mixture(t, out)]
    ensures !s.scalarInput && !s.quantize ==> x == Probabilities(s, o, out)
    ensures !s.scalarInput && s.quantize ==>
              |x| == s.outChannels
              && (o.choice(t, Probabilities(s, o, out)) < s.outChannels ==>
                    IsOneHotAt(x, o.choice(t, Probabilities(s, o, out))))
  {
    if s.scalarInput then [o.mixture(t, out)]
    else
      var p := Probabilities(s, o, out);
      if s.quantize then OneHot(s.outChannels, o.choice(t, p)) else p
  }

  /** The output of step `t` given the inputs of steps `0..t`. */
  function StepOutput(s: Session, o: Oracles, t: nat, hist: seq<Frame>): Frame
    requires s.numLayers > 0
  {
    NextSample(s, o, t, o.head(SkipVector(s, o, t, hist)))
  }

  /** Each channel of the combined skip vector is the weighted sum of the layers' skip outputs. */
  lemma SkipVectorClosedForm(s: Session, o: Oracles, t: nat, hist: seq<Frame>, c: nat)
    requires s.numLayers > 0 && c < o.skipWidth
    ensures SkipVector(s, o, t, hist)[c] ==
              Skips.WeightedSkips(LayerSkips(s, o, t, hist, c), o.sqrtHalf)
  {
    Skips.SkipClosedForm(LayerSkips(s, o, t, hist, c), o.sqrtHalf);
  }

  // ---------------------------------------------------------------------------------------------
  // The step loop

  /** The outputs of the first `n` steps. */
  function Outputs(s: Session, o: Oracles, n: nat): (outs: seq<Frame>)
    requires n == 0 || s.numLayers > 0
    ensures |outs| == n
    decreases n
  {
    if n == 0 then []
    else
      var prev := Outputs(s, o, n - 1);
      prev + [StepOutput(s, o, n - 1, History(s, prev, n - 1))]
  }

  /** Generation: the resolved step count must be positive and there must be a layer. */
  function Generate(net: Layout.Network, req: Request, o: Oracles): (r: Result<seq<Frame>, GenError>)
    ensures r.Success? <==>
              Prepare(net, req).Success? && Prepare(net, req).value.steps > 0 && |net.convLayers| > 0
    ensures Prepare(net, req).Failure? ==> r == Failure(Prepare(net, req).error)
    ensures Prepare(net, req).Success? && Prepare(net, req).value.steps <= 0 ==> r == Failure(NothingGenerated)
    ensures (Prepare(net, req).Success? && Prepare(net, req).value.steps > 0 && |net.convLayers| == 0)
              ==> r == Failure(NoSkipOutput)
    ensures r.Success? ==> Prepare(net, req).Success? && |r.value| == Prepare(net, req).value.steps
  {
    var s :- Prepare(net, req);
    if s.steps <= 0 then Failure(NothingGenerated)
    else if s.numLayers == 0 then Failure(NoSkipOutput)
    else Success(Outputs(s, o, s.steps))
  }

  /** The step loop as the source writes it: `current` keeps its value between iterations and is
      replaced by a teacher sample or by the previous output; `history` stands for the layers'
      buffers. */
  method IncrementalForward(net: Layout.Network, req: Request, o: Oracles) returns (r: Result<seq<Frame>, GenError>)
    ensures r == Generate(net, req, o)
    ensures Prepare(net, req).Failure? ==> r == Failure(Prepare(net, req).error)
    ensures r.Success? ==> |r.value| == Prepare(net, req).value.steps
    ensures r.Success? && req.steps.Some? ==> |r.value| >= req.steps.value
    ensures r.Success? && req.teacher.Some? ==> |r.value| >= |req.teacher.value|
  {
    var prep := Prepare(net, req);
    if prep.Failure? {
      return Failure(prep.error);
    }
    var s := prep.value;
    var outputs: seq<Frame> := [];
    var history: seq<Frame> := [];
    var current := s.initial;
    var t: nat := 0;
    while t < s.steps
      invariant t == 0 || (t <= s.steps && s.numLayers > 0)
      invariant |outputs| == t && |history| == t
      invariant outputs == Outputs(s, o, t)
      invariant forall k :: 0 <= k < t ==> history[k] == InputAt(s, outputs, k)
      invariant t == 0 ==> current == s.initial
      decreases s.steps - t
    {
      if t < |s.teacher| {
        current := s.teacher[t];
      } else if t > 0 {
        current := outputs[t - 1];
      }
      history := history + [current];
      assert history == History(s, outputs, t);
      if s.numLayers == 0 {
        return Failure(NoSkipOutput);
      }
      var x := StepOutput(s, o, t, history);
      outputs := outputs + [x];
      t := t + 1;
    }
    if |outputs| == 0 {
      return Failure(NothingGenerated);
    }
    r := Success(outputs);
  }

  // ---------------------------------------------------------------------------------------------
  // Properties of the step loop

  /** Generation is causal: running fewer steps yields a prefix of a longer run. */
  lemma {:induction false} OutputsPrefix(s: Session, o: Oracles, m: nat, n: nat)
    requires m <= n && (n == 0 || s.numLayers > 0)
    ensures Outputs(s, o, m) == Outputs(s, o, n)[..m]
    decreases n
  {
    if m < n {
      OutputsPrefix(s, o, m, n - 1);
      var prev := Outputs(s, o, n - 1);
      assert Outputs(s, o, n)[..n - 1] == prev;
      assert Outputs(s, o, n)[..m] == prev[..m];
    } else {
      assert Outputs(s, o, n)[..n] == Outputs(s, o, n);
    }
  }

  /** In a run of `n` steps, output `t` is the step function applied to the inputs of steps
      `0..t`, each chosen from the teacher inputs, the run's own earlier outputs or the first
      input. */
  lemma GeneratedStep(s: Session, o: Oracles, n: nat, t: nat)
    requires t < n && s.numLayers > 0
    ensures Outputs(s, o, n)[t] == StepOutput(s, o, t, History(s, Outputs(s, o, n), t))
  {
    OutputsPrefix(s, o, t + 1, n);
    OutputsPrefix(s, o, t, n);
    var full := Outputs(s, o, n);
    var prev := Outputs(s, o, t);
    assert History(s, prev, t) == History(s, full, t);
  }

  /** While teacher inputs last, a step sees only teacher samples: its output is the step
      function applied to the teacher prefix, whatever was generated before. */
  lemma TeacherForcedStep(s: Session, o: Oracles, n: nat, t: nat)
    requires t < n && t < |s.teacher| && s.numLayers > 0
    ensures Outputs(s, o, n)[t] == StepOutput(s, o, t, s.teacher[..t + 1])
  {
    GeneratedStep(s, o, n, t);
    assert History(s, Outputs(s, o, n), t) == s.teacher[..t + 1];
  }

  /** Past the teacher inputs, step `t > 0` is fed the output of step `t - 1`. */
  lemma FeedbackStep(s: Session, o: Oracles, n: nat, t: nat)
    requires 0 < t < n && t >= |s.teacher| && s.numLayers > 0
    ensures History(s, Outputs(s, o, n), t)[t] == Outputs(s, o, n)[t - 1]
    ensures Outputs(s, o, n)[t] == StepOutput(s, o, t, History(s, Outputs(s, o, n), t))
  {
    GeneratedStep(s, o, n, t);
  }

  /** In quantized mode with quantizing on, every output is the one-hot vector of the category
      drawn at its step. */
  lemma QuantizedOutputsOneHot(s: Session, o: Oracles, n: nat)
    requires !s.scalarInput && s.quantize && (n == 0 || s.numLayers > 0)
    requires forall t: nat, p: seq<real> :: o.choice(t, p) < s.outChannels
    ensures forall t :: 0 <= t < n ==>
              |Outputs(s, o, n)[t]| == s.outChannels
              && exists k: nat :: k < s.outChannels && IsOneHotAt(Outputs(s, o, n)[t], k)
  {
    forall t | 0 <= t < n
      ensures |Outputs(s, o, n)[t]| == s.outChannels
      ensures exists k: nat :: k < s.outChannels && IsOneHotAt(Outputs(s, o, n)[t], k)
    {
      GeneratedStep(s, o, n, t);
      var hist := History(s, Outputs(s, o, n), t);
      var out := o.head(SkipVector(s, o, t, hist));
      var k := o.choice(t, Probabilities(s, o, out));
      assert IsOneHotAt(Outputs(s, o, n)[t], k);
    }
  }

  // ---------------------------------------------------------------------------------------------
  // The method as written

  /** `clear_buffer` as written iterates `last_conv_layers`, an attribute construction never
      assigns (the output head is stored as `last_layer`). */
  function ClearBufferAsWritten(net: Layout.Network): (r: Result<(), GenError>)
  {
    if "last_conv_layers" in Layout.ConstructedAttributes then Success(())
    else Failure(MissingAttribute("last_conv_layers"))
  }

  /** Generation as written: it starts by clearing the buffers, which raises. */
  function IncrementalForwardAsWritten(net: Layout.Network, req: Request, o: Oracles): (r: Result<seq<Frame>, GenError>)
  {
    var _ :- ClearBufferAsWritten(net);
    Generate(net, req, o)
  }

  /** The method as written raises for every network and every argument, even those for which
      the corrected generation produces samples. */
  lemma AsWrittenAlwaysRaises(net: Layout.Network, req: Request, o: Oracles)
    ensures IncrementalForwardAsWritten(net, req, o) == Failure(MissingAttribute("last_conv_layers"))
    ensures Generate(net, req, o).Success? ==> IncrementalForwardAsWritten(net, req, o) != Generate(net, req, o)
  {
    assert "last_conv_layers" !in Layout.ConstructedAttributes;
  }
}
