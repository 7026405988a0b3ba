# StudentWaveNet — a Dafny model of its discrete and algebraic skeleton

`StudentWaveNet` is the "student" vocoder of a probability-density-distillation
setup: a stack of inverse autoregressive flow (IAF) steps, each built from
gated dilated residual convolution layers. This project models what sits
underneath the tensors, with every learned layer and every random draw turned
into a parameter:

- **Construction** (`layout.dfy`, module `Layout`). The configuration checks
  cover layers divisible by stacks, a speaker count for global conditioning,
  and scales when upsampling. The residual layers are split into flow steps
  whose dilation cycle `2^(k mod layers_per_stack)` restarts in every step.
  The flat `conv_layers` list is built in the same nested loop, so it is the
  steps' concatenation. Also modelled: the input projection's width, the
  optional speaker embedding and the upsampling stages with their time
  stretch.
- **Flow composition** (`flow.dfy`, module `Flow`). The batch forward pass
  at one time position is modelled. Each step updates `z := z * s_i + m_i`.
  The second loop then rebuilds `scale_tot = prod s_i` and
  `mu_tot = sum m_i * prod_{j>i} s_j`. The model proves that one affine map
  with these totals equals running the steps one by one.
- **Incremental generation** (`generation.dfy`, module `Generation`). This
  part covers:
  - resolving the step count against teacher-forcing inputs;
  - the default first input (a zero sample, or the one-hot "silence"
    category 127);
  - choosing each step's input;
  - the skip recurrence `skips = h` then `(skips + h) * sqrt(0.5)`, with its
    closed form in `skips.dfy` (module `Skips`);
  - turning the head's output into the next sample: a mixture draw, the
    softmax vector, or a one-hot vector of a drawn category.

  A convolution layer in incremental mode keeps a buffer of its recent
  inputs. The model stands for that buffer by giving each layer's skip
  output the history of network inputs.
- `results.dfy` (module `Results`) holds `Option` and `Result`. They model
  Python's `None` arguments and the exceptions the code raises.
- `sums.dfy` (module `Sums`) holds weighted sums over sequences of reals.
  `algebra.dfy` (module `Algebra`) holds small field identities over plain
  variables. Sums is shared by the flow and skip closed forms; Algebra by
  those and by the upsampling length rule in `Layout`.

Parameters standing for foreign code or randomness: the `Oracles` record
(per-layer skip outputs, the output head, softmax, the mixture-of-logistics
sampler, the category draw, and the constant `sqrt(0.5)`). The flow's
recorded per-step `(shift, scale)` pairs are parameters too, and so is the
base noise `z0`.

Generation calls the buffer-clearing routine `clear_buffer` before and after
the step loop (`wavenet_vocoder/student_wavenet.py:222, 321`), but that
routine raises, as does the step loop's application of the output head; see
Findings. The model's corrected generation applies the head `last_layer`.

## Model

| member | source | states |
|---|---|---|
| Layout.Construct | wavenet_vocoder/student_wavenet.py:72-134 | construction succeeds exactly when stacks > 0, stacks divide layers, layers_per_stack > 0 whenever some flow step is non-empty, global conditioning has a speaker count and upsampling has scales; each failure is the exception raised first in source order; on success there is one flow step per size entry, layer `k` of each step has dilation `2^(k mod layers_per_stack)`, `conv_layers` is the steps' concatenation, the input projection reads 1 or `out_channels` channels, the speaker embedding exists iff `gin_channels > 0`, local conditioning is enabled iff `cin_channels > 0`, and upsampling stages carry the given scales with padding `(freq_kernel - 1) // 2` |
| Layout.DefaultLayout | wavenet_vocoder/student_wavenet.py:57-104 | the constructor's defaults are accepted, with 10 layers per stack, four flow steps of which the last has 30 layers, and 60 layers in the flat list |
| Layout.ConvLayerCount | wavenet_vocoder/student_wavenet.py:85-104 | the flat layer list has as many layers as the `range` loops over the sizes iterate, which is `sum(iaf_layer_size)` when no size is negative, and there is one flow step per size entry |
| Layout.DilationSchedule | wavenet_vocoder/student_wavenet.py:87-104 | layer `k` of any flow step has dilation `2^(k mod layers_per_stack)`, which is 1 at the start of every step and always within `[1, 2^(layers_per_stack-1)]`; the same layer sits in the flat list right after all layers of the earlier steps |
| Layout.FlattenIndex | wavenet_vocoder/student_wavenet.py:101-102 | element `k` of group `i` appears in the concatenation at the offset equal to the total size of the earlier groups |
| Layout.UpsampleStretch | wavenet_vocoder/student_wavenet.py:119-130 | the upsampling stages stretch the conditioning's time length by the product of their scales |
| Flow.ApplySteps | wavenet_vocoder/student_wavenet.py:178-187 | the first loop's in-place updates produce the value of applying the recorded steps one after the other |
| Flow.LaterScales | wavenet_vocoder/student_wavenet.py:189-191 | the inner loop yields the product of the scales of all steps after step `i` (1 for the last step) |
| Flow.TotalTransform | wavenet_vocoder/student_wavenet.py:174-175 | starting from 0 and 1, the second loop yields `scale_tot` = product of all scales and `mu_tot` = sum of each shift times the product of all later scales |
| Flow.RunClosedForm | wavenet_vocoder/student_wavenet.py:178-194 | applying the steps one by one from `z0` equals `z0 * scale_tot + mu_tot` |
| Flow.TotalShiftAppend | wavenet_vocoder/student_wavenet.py:188-194 | appending a flow step to the recorded ones turns the closed-form `mu_tot` into `mu_tot * s + m` for the new step's scale `s` and shift `m`, so the closed form tracks the in-place update |
| Flow.ScaleProductPositive | wavenet_vocoder/student_wavenet.py:184-193 | when every step's scale is positive, as `exp` outputs are, so is `scale_tot` |
| Flow.Forward | wavenet_vocoder/student_wavenet.py:173-194 | the transformed noise equals `z0 * scale_tot + mu_tot`; `scale_tot` is positive when all scales are; with no flow step the totals are the identity `(0, 1)` |
| Generation.ResolveSteps | wavenet_vocoder/student_wavenet.py:227-241 | with teacher inputs of length `L` the step count is `L` when `T=None` is passed, else the larger of the two; without teacher inputs the given count is used, and `T=None` raises |
| Generation.OmittedStepCount | wavenet_vocoder/student_wavenet.py:196-241 | a call that leaves out `T` runs 100 steps, or the teacher length when that is larger |
| Generation.DefaultInitial | wavenet_vocoder/student_wavenet.py:265-270 | without a first input, scalar mode starts from a single zero and quantized mode from the one-hot vector of category 127, which raises unless there are more than 127 categories |
| Generation.Prepare | wavenet_vocoder/student_wavenet.py:227-276 | preparation succeeds exactly when the step count resolves, no speaker is given to a network without an embedding table, upsampled local conditioning is exactly `T` steps long, and a first input is given or the default one exists; each failure is the first in source order (step count, speaker, conditioning length, default category); the session keeps the resolved `T`, the teacher inputs, the first input, one layer per flat conv layer, the network's `scalar_input` and `out_channels`, and the call's `softmax` and `quantize` flags |
| Skips.AccumulateSkips | wavenet_vocoder/student_wavenet.py:292-295 | the combined skip is absent exactly when there is no residual layer |
| Skips.SkipClosedForm | wavenet_vocoder/student_wavenet.py:292-295 | the combined skip of the layers' outputs `h_0 .. h_{n-1}` equals the sum of each output times its weight: every layer's output is multiplied by `r` once per later layer, and the first enters together with the second |
| Skips.WeightedSkipsGrow | wavenet_vocoder/student_wavenet.py:293-295 | one more layer turns the closed form `S` of the shorter stack into `S * r + h * r`, the same step the recurrence `(skips + h) * r` takes |
| Skips.SkipWeightPower | wavenet_vocoder/student_wavenet.py:292-295 | the weight of layer `k` of `n` is `r^(n-1)` for the first layer and `r^(n-k)` for every later one |
| Skips.SkipWeightsUnitEnergy | wavenet_vocoder/student_wavenet.py:295 | with `r * r == 0.5` the squared weights of the combined skip sum to one for any positive number of layers, so depth does not change the variance |
| Generation.SkipVectorClosedForm | wavenet_vocoder/student_wavenet.py:290-296 | every channel of the skip vector fed to the head is that weighted sum of the layers' skip outputs |
| Generation.NextSample | wavenet_vocoder/student_wavenet.py:303-314 | scalar mode emits the single mixture draw; quantized mode emits the (optionally softmaxed) vector, or, when quantizing, an `out_channels`-wide vector that is one-hot at the drawn category |
| Generation.Outputs | wavenet_vocoder/student_wavenet.py:278-314 | the loop appends exactly one output per step |
| Generation.Generate | wavenet_vocoder/student_wavenet.py:222-322 | generation succeeds exactly when the arguments resolve, the resolved `T` is positive and the network has a residual layer; otherwise it fails with the argument error, then with stacking no outputs when `T <= 0`, then with applying the head to no skip output; a successful generation has exactly `T` output steps |
| Generation.IncrementalForward | wavenet_vocoder/student_wavenet.py:278-322 | the loop, with its persistent current input, computes the same outputs as the declarative step definition. It fails with the argument errors, then with no layers or with a non-positive step count. On success the output length is the resolved `T`, which is at least the given count and at least the teacher length |
| Generation.OutputsPrefix | wavenet_vocoder/student_wavenet.py:278-314 | generation is causal: a run of fewer steps yields a prefix of a longer run |
| Generation.GeneratedStep | wavenet_vocoder/student_wavenet.py:278-294 | output `t` of a run is the step function applied to the inputs of steps `0..t`, each the teacher sample while one exists, else the previous output, and the first input at step 0 |
| Generation.TeacherForcedStep | wavenet_vocoder/student_wavenet.py:280-281 | while teacher inputs last, output `t` depends only on the first `t+1` teacher samples |
| Generation.FeedbackStep | wavenet_vocoder/student_wavenet.py:282-284 | past the teacher inputs, step `t > 0` is fed the output of step `t - 1` |
| Generation.QuantizedOutputsOneHot | wavenet_vocoder/student_wavenet.py:307-314 | in quantized mode with quantizing on, every output is an `out_channels`-wide one-hot vector |
| Generation.AsWrittenAlwaysRaises | wavenet_vocoder/student_wavenet.py:324-332 | as written, generation raises a missing-attribute error for every network and argument, even where the corrected generation succeeds |

## Left out

- Learned layers and their numerics are parameters, not models: `ResidualConv1dGLU`, `Conv1d1x1`, `ConvTranspose2d`, ReLU, the speaker `Embedding`, softmax and the mixture sampler. They are foreign code and floating-point tensor maths.
- Random draws are inputs: the logistic base noise of the batch pass is `z0`, and `np.random.choice` and the mixture sampler are `Oracles` functions.
- `exp` and `sqrt(0.5)` are not computed. Scales are given reals, and positivity is a hypothesis. `sqrt(0.5)` is the parameter `sqrtHalf`, and the unit-energy lemma assumes `sqrtHalf * sqrtHalf == 0.5`. All arithmetic is exact `real`, not float.
- Flow.Forward: models one time position with one scale channel. This holds when `out_channels == 2`; wider heads broadcast the scale tensor, which is not modelled. The networks that compute each step's `(shift, scale)` from the current noise are replaced by the recorded pairs.
- Streaming buffers are not modelled as state. Buffer clearing is not claimed: as written it raises (see Findings). `receptive_field_size` is imported code and is not part of this model. Weight-normalisation removal (`make_generation_fast_`) is a foreign torch utility.
- Tensor layout is not modelled: the batch dimension, and the transposes of teacher inputs, the initial input, the conditioning and the stacked outputs. Frames are time-major. The shape-based guess whether teacher or initial inputs need transposing is not modelled.
- Local conditioning that is not upsampled is assumed to be aligned with `T`. The global-feature expansion is foreign; only its "speaker given without an embedding table" error is modelled. The shape assertions on the embedding output and, in the batch pass, on the conditioning length are not modelled.
- Layout.Construct: negative `layers`, `stacks` or `out_channels` are not modelled (they are `nat`). Non-positive upsampling scales, which the transposed convolution rejects, are not modelled. Dropout, weight normalisation, `gate_channels` and `is_student` only pass through to foreign layers, so they are not modelled.
- Generation.NextSample: `np.random.choice` raises unless its probabilities form a distribution, which the raw head output used with `softmax=False, quantize=True` generally does not. The draw is a total `Oracles` function, so the model emits a one-hot frame where the code may raise. Deciding whether a float vector is a distribution needs float rounding, which is not modelled.
- Generation.QuantizedOutputsOneHot: holds only for draws the oracle returns; the `np.random.choice` failure above is not modelled.
- `log_scale_min` and `tqdm` only pass through to the foreign mixture sampler and the progress wrapper, so `Request` has no fields for them. The other defaults of the constructor and of `incremental_forward` are the default values of `Config` and `Request`.
- CUDA placement, `Variable` wrapping and the `tqdm` progress wrapper have no behaviour to model.

## Findings

| source | as written | input that shows it | evidently intended | confidence | as-written member | corrected member |
|---|---|---|---|---|---|---|
| wavenet_vocoder/student_wavenet.py:222, 297, 328 | `incremental_forward` first calls `clear_buffer`, which iterates `self.last_conv_layers`; the constructor never assigns that attribute (the head is stored as `self.last_layer`, line 105), so an `AttributeError` is raised before any sample is produced | any network and any arguments, e.g. scalar input, `T=8`, two layers | iterate the output head `last_layer` when clearing buffers and when applying the head, so that generation yields `T` samples | not executed | Generation.IncrementalForwardAsWritten (with Generation.AsWrittenAlwaysRaises) | Generation.IncrementalForward |
