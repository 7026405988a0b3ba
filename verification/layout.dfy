/** Construction of the student network: configuration checks, the split of
    the residual layers into flow steps, each layer's dilation, the flat
    layer list, the optional speaker embedding and the optional upsampling
    stages. Learned weights are not modelled; a layer is described by the
    hyper-parameters it is built with. */
module Layout {
  import opened Results
  import Algebra

  /** Python's `2 ** e` for a non-negative exponent. */
  function Pow2(e: nat): (p: nat)
    ensures p >= 1
  {
    if e == 0 then 1 else 2 * Pow2(e - 1)
  }

  lemma {:induction false} Pow2Monotone(a: nat, b: nat)
    requires a <= b
    ensures Pow2(a) <= Pow2(b)
    decreases b
  {
    if a < b {
      Pow2Monotone(a, b - 1);
    }
  }

  /** Number of iterations of Python's `range(n)`: none when `n <= 0`. */
  function RangeLength(n: int): nat {
    if n > 0 then n else 0
  }

  /** The constructor's arguments that shape the network, with the constructor's defaults. */
  datatype Config = Config(
    outChannels: nat := 2,
    layers: nat := 30,
    stacks: nat := 3,
    iafLayerSize: seq<int> := [10, 10, 10, 30],
    residualChannels: nat := 64,
    gateChannels: nat := 64,
    kernelSize: nat := 3,
    cinChannels: int := -1,
    ginChannels: int := -1,
    nSpeakers: Option<int> := None,
    upsampleConditionalFeatures: bool := false,
    upsampleScales: Option<seq<int>> := None,
    freqAxisKernelSize: int := 3,
    scalarInput: bool := true)

  /** One gated residual convolution layer, by the hyper-parameters it is built with. */
  datatype ResidualLayer = ResidualLayer(dilation: nat, kernelSize: nat, cinChannels: int, ginChannels: int)

  /** One transposed-convolution stage of the conditioning upsampler (each is followed by a ReLU). */
  datatype UpsampleStage = UpsampleStage(scale: int, freqKernel: int, freqPadding: int)

  /** The constructed network. */
  datatype Network = Network(
    scalarInput: bool,
    outChannels: nat,
    cinChannels: int,
    inputChannels: nat,
    layersPerStack: nat,
    iafLayers: seq<seq<ResidualLayer>>,
    convLayers: seq<ResidualLayer>,
    headChannels: nat,
    speakerEmbedding: Option<(int, int)>,
    upsampleConv: Option<seq<UpsampleStage>>)
  {
    predicate HasSpeakerEmbedding() {
      speakerEmbedding.Some?
    }

    predicate LocalConditioningEnabled() {
      cinChannels > 0
    }
  }

  /** The attribute names the constructor assigns on the module object. */
  const ConstructedAttributes: set<string> :=
    {"scalar_input", "out_channels", "cin_channels", "is_student", "last_layers",
     "first_conv", "iaf_layers", "conv_layers", "last_layer", "embed_speakers",
     "upsample_conv", "receptive_field"}

  /** The exceptions construction can raise. */
  datatype BuildError =
    | ZeroDivision             // `layers % stacks` with no stacks, or `layer % layers_per_stack` with none per stack
    | StacksDoNotDivideLayers  // the `layers % stacks == 0` assertion
    | MissingSpeakerCount      // global conditioning without `n_speakers`
    | MissingUpsampleScales    // upsampling enabled while `upsample_scales` is None

  /** Some flow step has at least one layer. */
  ghost predicate HasLayers(cfg: Config) {
    exists i :: 0 <= i < |cfg.iafLayerSize| && cfg.iafLayerSize[i] > 0
  }

  /** The configurations the layer loop accepts: the stacks divide the layers, and there are
      layers per stack whenever some flow step has a layer. */
  ghost predicate LayersAccepted(cfg: Config) {
    && cfg.stacks > 0
    && cfg.layers % cfg.stacks == 0
    && (cfg.layers / cfg.stacks > 0 || !HasLayers(cfg))
  }

  /** The configurations the constructor accepts. */
  ghost predicate Accepted(cfg: Config) {
    && LayersAccepted(cfg)
    && !(cfg.ginChannels > 0 && cfg.nSpeakers.None?)
    && !(cfg.upsampleConditionalFeatures && cfg.upsampleScales.None?)
  }

  /** The layer at position `k` of a flow step: the dilation cycle restarts with every step. */
  function LayerAt(cfg: Config, lps: nat, k: nat): ResidualLayer
    requires lps > 0
  {
    ResidualLayer(Pow2(k % lps), cfg.kernelSize, cfg.cinChannels, cfg.ginChannels)
  }

  /** Concatenation, in order, of a sequence of sequences. */
  function Flatten<T>(xss: seq<seq<T>>): seq<T>
  {
    if |xss| == 0 then [] else Flatten(xss[..|xss| - 1]) + xss[|xss| - 1]
  }

  /** Sum of the lengths of a sequence of sequences. */
  function TotalLength<T>(xss: seq<seq<T>>): nat
  {
    if |xss| == 0 then 0 else TotalLength(xss[..|xss| - 1]) + |xss[|xss| - 1]|
  }

  /** Total number of iterations of `range(n)` over the sizes. */
  function SumRanges(sizes: seq<int>): nat
  {
    if |sizes| == 0 then 0 else SumRanges(sizes[..|sizes| - 1]) + RangeLength(sizes[|sizes| - 1])
  }

  /** Plain sum of a sequence of integers. */
  function Sum(xs: seq<int>): int
  {
    if |xs| == 0 then 0 else Sum(xs[..|xs| - 1]) + xs[|xs| - 1]
  }

  /** The upsampling stages built for the given scales: kernel `(freq, s)`, stride `(1, s)`,
      frequency padding `(freq - 1) // 2` (floor division by 2, which Dafny's `/` matches). */
  function UpsampleStages(scales: seq<int>, freqKernel: int): seq<UpsampleStage>
  {
    seq(|scales|, i requires 0 <= i < |scales| => UpsampleStage(scales[i], freqKernel, (freqKernel - 1) / 2))
  }

  /** Everything a successful construction establishes about the network. */
  ghost predicate LaidOut(net: Network, cfg: Config) {
    && net.scalarInput == cfg.scalarInput
    && net.outChannels == cfg.outChannels
    && net.cinChannels == cfg.cinChannels
    && net.inputChannels == (if cfg.scalarInput then 1 else cfg.outChannels)
    && cfg.stacks > 0
    && net.layersPerStack == cfg.layers / cfg.stacks
    && |net.iafLayers| == |cfg.iafLayerSize|
    && (forall i :: 0 <= i < |net.iafLayers| ==> |net.iafLayers[i]| == RangeLength(cfg.iafLayerSize[i]))
    && (forall i :: 0 <= i < |net.iafLayers| && |net.iafLayers[i]| > 0 ==> net.layersPerStack > 0)
    && (forall i, k :: 0 <= i < |net.iafLayers| && 0 <= k < |net.iafLayers[i]| ==>
          net.layersPerStack > 0 ==> net.iafLayers[i][k] == LayerAt(cfg, net.layersPerStack, k))
    && net.convLayers == Flatten(net.iafLayers)
    && net.headChannels == cfg.outChannels
    && (net.HasSpeakerEmbedding() <==> cfg.ginChannels > 0)
    && (net.HasSpeakerEmbedding() ==>
          cfg.nSpeakers.Some? && net.speakerEmbedding.value == (cfg.nSpeakers.value, cfg.ginChannels))
    && (net.upsampleConv.Some? <==> cfg.upsampleConditionalFeatures)
    && (net.upsampleConv.Some? ==>
          cfg.upsampleScales.Some? &&
          net.upsampleConv.value == UpsampleStages(cfg.upsampleScales.value, cfg.freqAxisKernelSize))
  }

  /** The constructor: checks the configuration and builds the flow steps and the flat layer
      list with the same nested loop, so that the flat list is the steps' concatenation. */
  method Construct(cfg: Config) returns (r: Result<Network, BuildError>)
    ensures r.Success? <==> Accepted(cfg)
    ensures cfg.stacks == 0 ==> r == Failure(ZeroDivision)
    ensures cfg.stacks > 0 && cfg.layers % cfg.stacks != 0 ==> r == Failure(StacksDoNotDivideLayers)
    ensures (cfg.stacks > 0 && cfg.layers % cfg.stacks == 0 && cfg.layers / cfg.stacks == 0 && HasLayers(cfg))
              ==> r == Failure(ZeroDivision)
    ensures (LayersAccepted(cfg) && cfg.ginChannels > 0 && cfg.nSpeakers.None?)
              ==> r == Failure(MissingSpeakerCount)
    ensures (LayersAccepted(cfg) && !(cfg.ginChannels > 0 && cfg.nSpeakers.None?)
             && cfg.upsampleConditionalFeatures && cfg.upsampleScales.None?)
              ==> r == Failure(MissingUpsampleScales)
    ensures r == Failure(MissingSpeakerCount) ==> cfg.ginChannels > 0 && cfg.nSpeakers.None?
    ensures r == Failure(MissingUpsampleScales) ==>
              cfg.upsampleConditionalFeatures && cfg.upsampleScales.None?
              && !(cfg.ginChannels > 0 && cfg.nSpeakers.None?)
    ensures r.Success? ==> LaidOut(r.value, cfg)
    ensures r.Success? ==> (r.value.LocalConditioningEnabled() <==> cfg.cinChannels > 0)
  {
    if cfg.stacks == 0 {
      return Failure(ZeroDivision);
    }
    if cfg.layers % cfg.stacks != 0 {
      return Failure(StacksDoNotDivideLayers);
    }
    var lps := cfg.layers / cfg.stacks;
    var sizes := cfg.iafLayerSize;
    var iaf: seq<seq<ResidualLayer>> := [];
    var conv: seq<ResidualLayer> := [];
    var i := 0;
    while i < |sizes|
      invariant 0 <= i <= |sizes|
      invariant |iaf| == i
      invariant forall a :: 0 <= a < i ==> |iaf[a]| == RangeLength(sizes[a])
      invariant forall a :: 0 <= a < i && |iaf[a]| > 0 ==> lps > 0
      invariant forall a, k :: 0 <= a < i && 0 <= k < |iaf[a]| ==> lps > 0 ==> iaf[a][k] == LayerAt(cfg, lps, k)
      invariant lps == 0 ==> forall a :: 0 <= a < i ==> sizes[a] <= 0
      invariant conv == Flatten(iaf)
    {
      var step: seq<ResidualLayer> := [];
      var k := 0;
      while k < RangeLength(sizes[i])
        invariant 0 <= k <= RangeLength(sizes[i])
        invariant |step| == k
        invariant lps == 0 ==> k == 0
        invariant forall j :: 0 <= j < k ==> lps > 0 ==> step[j] == LayerAt(cfg, lps, j)
        invariant conv == Flatten(iaf) + step
      {
        if lps == 0 {
          return Failure(ZeroDivision);
        }
        var layer := LayerAt(cfg, lps, k);
        conv := conv + [layer];
        step := step + [layer];
        k := k + 1;
      }
      assert |step| == RangeLength(sizes[i]);
      assert (iaf + [step])[..|iaf|] == iaf;
      assert forall k :: 0 <= k < |step| ==> (iaf + [step])[i][k] == step[k];
      iaf := iaf + [step];
      i := i + 1;
    }
    var embedding: Option<(int, int)> := None;
    if cfg.ginChannels > 0 {
      if cfg.nSpeakers.None? {
        return Failure(MissingSpeakerCount);
      }
      embedding := Some((cfg.nSpeakers.value, cfg.ginChannels));
    }
    var upsample: Option<seq<UpsampleStage>> := None;
    if cfg.upsampleConditionalFeatures {
      if cfg.upsampleScales.None? {
        return Failure(MissingUpsampleScales);
      }
      upsample := Some(UpsampleStages(cfg.upsampleScales.value, cfg.freqAxisKernelSize));
    }
    var inputChannels := if cfg.scalarInput then 1 else cfg.outChannels;
    r := Success(Network(cfg.scalarInput, cfg.outChannels, cfg.cinChannels, inputChannels, lps,
                         iaf, conv, cfg.outChannels, embedding, upsample));
  }

  lemma {:induction false} FlattenLength<T>(xss: seq<seq<T>>)
    ensures |Flatten(xss)| == TotalLength(xss)
    decreases |xss|
  {
    if |xss| > 0 {
      FlattenLength(xss[..|xss| - 1]);
    }
  }

  /** Layer `k` of step `i` sits in the flat list right after all layers of the earlier steps. */
  lemma {:induction false} FlattenIndex<T>(xss: seq<seq<T>>, i: nat, k: nat)
    requires i < |xss| && k < |xss[i]|
    ensures TotalLength(xss[..i]) + k < |Flatten(xss)|
    ensures Flatten(xss)[TotalLength(xss[..i]) + k] == xss[i][k]
    decreases |xss|
  {
    var prefix := xss[..|xss| - 1];
    FlattenLength(prefix);
    if i == |xss| - 1 {
      assert xss[..i] == prefix;
    } else {
      assert prefix[..i] == xss[..i];
      FlattenIndex(prefix, i, k);
    }
  }

  lemma {:induction false} StepCounts(net: Network, cfg: Config, n: nat)
    requires LaidOut(net, cfg)
    requires n <= |net.iafLayers|
    ensures TotalLength(net.iafLayers[..n]) == SumRanges(cfg.iafLayerSize[..n])
    decreases n
  {
    if n > 0 {
      StepCounts(net, cfg, n - 1);
      assert net.iafLayers[..n][..n - 1] == net.iafLayers[..n - 1];
      assert cfg.iafLayerSize[..n][..n - 1] == cfg.iafLayerSize[..n - 1];
    }
  }

  /** There is one flow step per entry of the size list, and the flat layer list holds exactly
      `sum(range-lengths)` layers; with no negative sizes, that is the plain sum. */
  lemma ConvLayerCount(net: Network, cfg: Config)
    requires LaidOut(net, cfg)
    ensures |net.iafLayers| == |cfg.iafLayerSize|
    ensures |net.convLayers| == SumRanges(cfg.iafLayerSize)
    ensures (forall i :: 0 <= i < |cfg.iafLayerSize| ==> cfg.iafLayerSize[i] >= 0) ==>
              |net.convLayers| == Sum(cfg.iafLayerSize)
  {
    StepCounts(net, cfg, |net.iafLayers|);
    assert net.iafLayers[..|net.iafLayers|] == net.iafLayers;
    assert cfg.iafLayerSize[..|cfg.iafLayerSize|] == cfg.iafLayerSize;
    FlattenLength(net.iafLayers);
    if forall i :: 0 <= i < |cfg.iafLayerSize| ==> cfg.iafLayerSize[i] >= 0 {
      NonNegativeSums(cfg.iafLayerSize);
    }
  }

  /** The constructor's defaults are accepted: 30 layers in 3 stacks give 10 layers per stack,
      and the four flow steps of sizes 10, 10, 10 and 30 hold 60 layers. */
  lemma DefaultLayout(net: Network)
    requires LaidOut(net, Config())
    ensures Accepted(Config())
    ensures net.layersPerStack == 10
    ensures |net.iafLayers| == 4 && |net.iafLayers[3]| == 30
    ensures |net.convLayers| == 60
  {
    var cfg := Config();
    ConvLayerCount(net, cfg);
    var sizes := cfg.iafLayerSize;
    assert SumRanges(sizes) == 60 by {
      assert sizes[..3] == [10, 10, 10];
      assert [10, 10, 10][..2] == [10, 10];
      assert [10, 10][..1] == [10];
      assert [10][..0] == [];
      assert SumRanges([10]) == 10;
      assert SumRanges([10, 10]) == 20;
      assert SumRanges([10, 10, 10]) == 30;
    }
  }

  lemma {:induction false} NonNegativeSums(sizes: seq<int>)
    requires forall i :: 0 <= i < |sizes| ==> sizes[i] >= 0
    ensures SumRanges(sizes) == Sum(sizes)
    decreases |sizes|
  {
    if |sizes| > 0 {
      NonNegativeSums(sizes[..|sizes| - 1]);
    }
  }

  /** A position within a cycle of `lps` layers, and the first position of a step. */
  lemma CyclePosition(lps: nat, k: nat)
    requires lps > 0
    ensures k % lps < lps
    ensures k == 0 ==> k % lps == 0
  {
  }

  /** The dilation at cycle position `e < lps` lies within `[1, 2^(lps - 1)]`. */
  lemma DilationBounds(lps: nat, e: nat)
    requires e < lps
    ensures 1 <= Pow2(e) <= Pow2(lps - 1)
  {
    Pow2Monotone(e, lps - 1);
  }

  /** The layer the constructor builds at position `k` of flow step `i`. */
  lemma LaidOutLayer(net: Network, cfg: Config, i: nat, k: nat)
    requires LaidOut(net, cfg)
    requires i < |net.iafLayers| && k < |net.iafLayers[i]|
    ensures net.layersPerStack > 0
    ensures net.iafLayers[i][k] == LayerAt(cfg, net.layersPerStack, k)
  {
  }

  /** The dilation schedule: layer `k` of any flow step has dilation `2^(k mod layers_per_stack)`,
      starts at 1 in every step, stays within `[1, 2^(layers_per_stack - 1)]`, and the same layer
      appears in the flat list after the layers of all earlier steps. */
  lemma DilationSchedule(net: Network, cfg: Config, i: nat, k: nat)
    requires LaidOut(net, cfg)
    requires i < |net.iafLayers| && k < |net.iafLayers[i]|
    ensures net.layersPerStack > 0
    ensures net.iafLayers[i][k].dilation == Pow2(k % net.layersPerStack)
    ensures k == 0 ==> net.iafLayers[i][k].dilation == 1
    ensures 1 <= net.iafLayers[i][k].dilation <= Pow2(net.layersPerStack - 1)
    ensures TotalLength(net.iafLayers[..i]) + k < |net.convLayers|
    ensures net.convLayers[TotalLength(net.iafLayers[..i]) + k] == net.iafLayers[i][k]
  {
    LaidOutLayer(net, cfg, i, k);
    CyclePosition(net.layersPerStack, k);
    DilationBounds(net.layersPerStack, k % net.layersPerStack);
    FlattenIndex(net.iafLayers, i, k);
  }

  /** The time-axis settings every upsampling stage is built with, besides kernel and stride. */
  const TimePadding: int := 0
  const TimeDilation: int := 1
  const TimeOutputPadding: int := 0

  /** Time length after one transposed-convolution stage with kernel `s` and stride `s`, by the
      output-size rule of transposed convolution:
      `(L - 1) * stride - 2 * padding + dilation * (kernel - 1) + output_padding + 1`. */
  function TransposedLength(frames: int, stage: UpsampleStage): int
  {
    var stride, kernel := stage.scale, stage.scale;
    (frames - 1) * stride - 2 * TimePadding + TimeDilation * (kernel - 1) + TimeOutputPadding + 1
  }

  /** Time length of the conditioning after all upsampling stages (the ReLUs keep the length). */
  function UpsampledLength(frames: int, stages: seq<UpsampleStage>): int
    decreases |stages|
  {
    if |stages| == 0 then frames else UpsampledLength(TransposedLength(frames, stages[0]), stages[1..])
  }

  /** Product of the stages' time scales. */
  function UpsampleFactor(stages: seq<UpsampleStage>): int
    decreases |stages|
  {
    if |stages| == 0 then 1 else stages[0].scale * UpsampleFactor(stages[1..])
  }

  /** The upsampler stretches time by the product of its scales. */
  lemma {:induction false} UpsampleStretch(frames: int, stages: seq<UpsampleStage>)
    ensures UpsampledLength(frames, stages) == frames * UpsampleFactor(stages)
    decreases |stages|
  {
    if |stages| > 0 {
      var s := stages[0].scale;
      Algebra.StretchStep(frames, s);
      UpsampleStretch(frames * s, stages[1..]);
      Algebra.IntMulAssoc(frames, s, UpsampleFactor(stages[1..]));
    }
  }
}
