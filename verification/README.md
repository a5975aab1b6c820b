# Batch normalisation on the CPU, modelled in Dafny

This project models the CPU batch-normalisation engine of ATen
(`aten/src/ATen/native/Normalization.cpp`) and the three wrappers built on
it. Tensors are flat sequences of reals in row-major N x C x S layout:
dimension 0 is the batch, dimension 1 the feature (channel) axis, and every
trailing dimension is collapsed into one image extent S. `1 / std::sqrt(.)`
is a parameter `rsqrt`; a proof that needs its meaning assumes only that it
is positive on positive inputs and squares to the inverse (`Stats.IsRsqrt`).

The modules follow the source:

- `Layout`: the N x C x S layout, the offsets `n*C*S + c*S + i` and
  `input.select(1, f)`.
- `Sums` and `Wrappers`: sums and means over sequences, and `Option`/`Result`.
- `Params`:
  - the optional per-feature vectors;
  - `check_dims_match_num_input_features`;
  - the argument checks of `_batch_norm_impl_index`;
  - the per-feature reads of weight and bias. `conditional_accessor_1d`
    gives no accessor for an undefined tensor; the ternaries guarding the
    reads (lines 93-94, 170-171 and 271) substitute 1 for an absent weight
    and 0 for an absent bias.
- `Stats`: `InvStd`, `Var` and `batch_norm_cpu_update_stats_template`
  (a mean pass, a pass of squared deviations, and the moving-average update
  of the running statistics).
- `Transform`:
  - `batch_norm_cpu_transform_input_template`;
  - the contiguous inference fast path `batch_norm_cpu_inference_contiguous`,
    both as a function and as a method with the source's offset loops.
- `Forward`: `batch_norm_cpu` and `batch_norm_update_stats_cpu`.
- `Backward`: `batch_norm_backward_cpu_template`, with its three-bit
  gradient mask.
- `Dispatch`:
  - `_batch_norm_impl_index`: the argument checks, the cuDNN / MIOpen /
    native selection, and the integer tag;
  - `_batch_norm_impl_index_backward`, which dispatches on that tag.
- `Norms`: the shape checks and reshapes of `layer_norm`, `group_norm` and
  `instance_norm`, each delegating to the CPU engine.

Each wrapper's result is related to an independent reference, `RowNormalize`.
It normalises every run of S consecutive elements with that run's own mean
and inverse deviation.

## Model

All source paths are relative to the repository root.

| member | source | states |
|---|---|---|
| Layout.OffsetInRange | aten/src/ATen/native/Normalization.cpp:104-116 | every offset `n*C*S + c*S + i` with in-range n, c, i lies inside the N*C*S buffer |
| Layout.CoordinatesOfOffset | aten/src/ATen/native/Normalization.cpp:104-116 | no two in-range triples share an offset: the coordinates of an offset give back (n, c, i) |
| Layout.OffsetOfCoordinates | aten/src/ATen/native/Normalization.cpp:104-116 | every index of the buffer is the offset of some in-range triple |
| Layout.ChannelOfOffset | aten/src/ATen/native/Normalization.cpp:111-113 | the element at offset (n, c, i) belongs to channel c, so it is combined with `alpha[c]` and `beta[c]` |
| Layout.FeatureSliceAt | aten/src/ATen/native/Normalization.cpp:157 | element (n, i) of `input.select(1, f)` is the buffer element at offset (n, f, i) |
| Layout.SingleBatchSlice | aten/src/ATen/native/Normalization.cpp:506 | in a view with batch 1, feature f is the f-th run of S consecutive elements |
| Params.CheckDims | aten/src/ATen/native/Normalization.cpp:17-20 | fails exactly when the sizes differ, and the error carries the argument name and both counts |
| Params.CheckArguments | aten/src/ATen/native/Normalization.cpp:343-359 | succeeds exactly when every defined vector has one entry per feature and, outside training, both running vectors are defined; a wrong-sized running mean is reported first; a missing running mean and then a missing running variance are reported in evaluation mode |
| Stats.InvStd | aten/src/ATen/native/Normalization.cpp:39-48 | 0 when the variance and epsilon are both 0; otherwise, for `var + eps > 0`, a positive value whose square times `var + eps` is 1 |
| Stats.Ema | aten/src/ATen/native/Normalization.cpp:218-225 | for momentum in [0, 1] the update lies between the old running value and the new estimate; momentum 0 keeps the old value, momentum 1 takes the estimate |
| Stats.ReduceFeature | aten/src/ATen/native/Normalization.cpp:203-216 | the first pass yields the mean of the feature; the deviations from it sum to zero; the second pass is the non-negative sum of squared deviations |
| Stats.UpdateRunning | aten/src/ATen/native/Normalization.cpp:218-225 | only a defined running vector is returned; for momentum in [0, 1] every entry lies between its old value and its estimate; momentum 0 returns the running vector unchanged and momentum 1 replaces it by the estimates |
| Stats.UpdateStats | aten/src/ATen/native/Normalization.cpp:181-229 | per feature: the saved mean is the mean of `input.select(1, f)`; the saved value is the chosen transform of the biased variance; the running mean moves towards the mean; the running variance moves towards the unbiased variance (`/(n-1)`) |
| Transform.GeneralTransform | aten/src/ATen/native/Normalization.cpp:155-177 | element j of feature f of the output is `((i - mean[f]) * invstd[f]) * w[f] + b[f]`, with an absent weight read as 1 and an absent bias as 0 |
| Transform.FastPathCoefficients | aten/src/ATen/native/Normalization.cpp:91-97 | for every channel c and input v, `v * alpha[c] + beta[c]` equals the general formula with `invstd = 1/sqrt(var[c] + eps)` |
| Transform.FastPathMatchesGeneral | aten/src/ATen/native/Normalization.cpp:99-125 | the fast path's multiply-add over the whole buffer equals the general transform on the running statistics |
| Transform.ComputeCoefficients | aten/src/ATen/native/Normalization.cpp:87-97 | the coefficient loop produces exactly the fast-path coefficients |
| Transform.ApplyStrided | aten/src/ATen/native/Normalization.cpp:104-116 | the three nested loops write every index of the buffer exactly once, in increasing order, with its channel's multiply-add |
| Transform.ApplyChannelVector | aten/src/ATen/native/Normalization.cpp:117-125 | with image size 1 the offsets `n*C + c` also write every index exactly once, in order |
| Transform.InferenceContiguous | aten/src/ATen/native/Normalization.cpp:61-126 | the fast path's output equals the general transform on the running statistics, and its offsets cover the buffer exactly once |
| Transform.FastPathEligible | aten/src/ATen/native/Normalization.cpp:138-142 | the fast path is taken only in evaluation with the input and both running vectors contiguous, and a defined weight or bias must be contiguous; with those, an undefined weight and bias, or contiguous ones, never block it |
| Transform.TransformInput | aten/src/ATen/native/Normalization.cpp:128-179 | whether or not the fast path is eligible, the output is the general transform: saved statistics in training, running statistics in evaluation |
| Forward.BatchNormCpu | aten/src/ATen/native/Normalization.cpp:575-588 | evaluation: nothing is saved, the running statistics are unchanged, and the output uses them; training: the saved mean and `InvStd` of the biased variance are per-feature statistics of the input, the output uses them, and defined running vectors move by the moving average |
| Forward.UpdateStatsCpuMeanAndVariance | aten/src/ATen/native/Normalization.cpp:568-573 | `batch_norm_update_stats_cpu` returns each feature's mean and a variance that, times n, is the feature's sum of squared deviations (the `Var` transform with eps 0) |
| Forward.UpdateStatsAgreesWithTraining | aten/src/ATen/native/Normalization.cpp:568-588 | the stats-only entry and training `batch_norm_cpu` compute the same means, and `InvStd` of the returned variance is the saved inverse deviation |
| Forward.TrainingOutputMeanIsBias | aten/src/ATen/native/Normalization.cpp:584-585 | in training every feature of the output has its bias as its mean |
| Forward.ZeroMomentumKeepsRunningStats | aten/src/ATen/native/Normalization.cpp:218-225 | training with momentum 0 leaves both running vectors unchanged |
| Forward.AbsentAffineActsAsIdentity | aten/src/ATen/native/Normalization.cpp:170-171 | omitting weight and bias gives the same result as passing all ones and all zeros, in both modes |
| Backward.DotExpanded | aten/src/ATen/native/Normalization.cpp:288-292 | the centred dot product `dotp` equals `sum(i * go) - mean * sum(go)`: centring the input subtracts the mean times the gradient's sum |
| Backward.GradInput | aten/src/ATen/native/Normalization.cpp:294-321 | element j of feature f of the input gradient follows the training formula (mean and projection removed) or the evaluation formula `go * invstd * w` |
| Backward.InputGradient | aten/src/ATen/native/Normalization.cpp:266-321 | element j of feature f of the engine's input gradient is the per-element formula with the mode's mean and invstd, the weight read as 1 when absent, and that feature's `sum` of the output gradient and `dotp` |
| Backward.EngineGradInputSumsToZero | aten/src/ATen/native/Normalization.cpp:294-312 | in training, when the saved mean is the feature's mean, every feature of the engine's input gradient sums to zero |
| Backward.BackwardCpu | aten/src/ATen/native/Normalization.cpp:242-250 | exactly the gradients whose mask bit is set are produced, with the input's or the feature count's length |
| Backward.WeightAndBiasGradients | aten/src/ATen/native/Normalization.cpp:273-329 | the weight gradient of feature f is its `dotp` times its invstd, and the bias gradient is the sum of its output gradient, with the statistics the mode selects |
| Backward.GradWeightIsDotWithNormalized | aten/src/ATen/native/Normalization.cpp:289-292 | `dotp * invstd` is the sum of the output gradient times the normalised input: the derivative of `sum(go * out)` with respect to the weight |
| Backward.EvalGradInputIsSlope | aten/src/ATen/native/Normalization.cpp:313-320 | in evaluation the input gradient is the output gradient times the slope of the forward map, for every step h |
| Backward.TrainingGradInputSumsToZero | aten/src/ATen/native/Normalization.cpp:296-312 | in training, when the saved mean is the feature's mean, each feature's input gradient sums to zero |
| Backward.AbsentWeightActsAsOnesBackward | aten/src/ATen/native/Normalization.cpp:271 | an absent weight gives the same input gradient as a weight of ones |
| Dispatch.Tag | aten/src/ATen/native/Normalization.cpp:380-406 | the tag of a backend is 0, 1 or 2 |
| Dispatch.BackendOfTag | aten/src/ATen/native/Normalization.cpp:415-422 | backward accepts exactly tags 0, 1 and 2, and any other tag is an error carrying it |
| Dispatch.TagRoundTrip | aten/src/ATen/native/Normalization.cpp:338-422 | tags and backends correspond one to one in both directions |
| Dispatch.SelectionConditions | aten/src/ATen/native/Normalization.cpp:361-406 | cuDNN is chosen exactly when its condition holds and eps reaches its minimum; MIOpen exactly when cuDNN is not chosen and its condition holds; the native engine otherwise, and always on a CPU tensor or without both weight and bias |
| Dispatch.ImplIndex | aten/src/ATen/native/Normalization.cpp:339-407 | fails exactly when the arguments are invalid, with the first check's error; otherwise returns the tag of the selected backend together with that backend's result; for tag 0 that is the CPU engine's result on a CPU tensor and the CUDA kernel's on a CUDA one |
| Dispatch.ImplIndexBackward | aten/src/ATen/native/Normalization.cpp:409-423 | fails exactly on an unknown tag, with an error carrying it; otherwise runs the implementation the tag names: for tag 0 the CPU backward on a CPU tensor and the CUDA kernel on a CUDA one |
| Dispatch.ForwardTagSelectsSameBackward | aten/src/ATen/native/Normalization.cpp:335-423 | the tag forward returns is accepted by backward and names the backend forward ran; for the native engine the saved statistics meet the CPU backward's needs |
| Norms.BroadcastAffine | aten/src/ATen/native/Normalization.cpp:512-520 | each of the four branches (both parameters, weight only, bias only, neither) gives every element `v * w + b` of its broadcast parameter entries, an absent weight counting as 1 and an absent bias as 0; `group_norm` takes the same branches at lines 556-565 |
| Norms.LayerNormCheck | aten/src/ATen/native/Normalization.cpp:469-498 | succeeds exactly when `normalized_shape` is non-empty, the weight and bias have that shape, and the input ends with it; an empty shape is reported first, then the weight's shape |
| Norms.LayerNormRows | aten/src/ATen/native/Normalization.cpp:500-506 | the `(1, n, -1)` view has batch 1, `prod(normalized_shape)` elements per feature and the input's element count |
| Norms.LayerNorm | aten/src/ATen/native/Normalization.cpp:465-521 | fails exactly when a shape check fails, with its error; otherwise the result has the input's shape |
| Norms.LayerNormIsRowNormalize | aten/src/ATen/native/Normalization.cpp:500-520 | the result is the reference normalisation of each row followed by the weight and bias broadcast over the trailing dimensions |
| Norms.LayerNormNormalisesRows | aten/src/ATen/native/Normalization.cpp:500-520 | element j of row f is normalised with row f's own mean and deviation, then scaled and shifted by weight and bias entry j |
| Norms.LayerNormRowsCentred | aten/src/ATen/native/Normalization.cpp:505-510 | without weight and bias every row of the result has mean zero |
| Norms.GroupNormCheck | aten/src/ATen/native/Normalization.cpp:527-543 | succeeds exactly when there is a channel dimension, the group count divides it, and weight and bias are vectors of the channel count; a rejected weight or bias is reported with its own shape |
| Norms.GroupRows | aten/src/ATen/native/Normalization.cpp:546 | the `(1, b * num_groups, -1)` view has batch 1, `b * num_groups` features of `(c / num_groups) * S` elements, and the input's element count |
| Norms.GroupPosition | aten/src/ATen/native/Normalization.cpp:546 | in the N x C x S layout element (n, ch, i) is entry `(ch % (c/G)) * S + i` of run `n*G + ch / (c/G)`: the runs of the view are the groups of consecutive channels |
| Norms.GroupNorm | aten/src/ATen/native/Normalization.cpp:523-566 | fails exactly when a shape check fails, with its error; otherwise the result has the input's shape |
| Norms.GroupNormIsRowNormalize | aten/src/ATen/native/Normalization.cpp:545-565 | the result is the reference normalisation of each group followed by the weight and bias of each element's channel |
| Norms.GroupNormNormalisesGroups | aten/src/ATen/native/Normalization.cpp:545-565 | element (n, ch, i) is normalised with the mean and deviation of its group, then scaled and shifted by channel ch's weight and bias |
| Norms.GroupNormGroupsCentred | aten/src/ATen/native/Normalization.cpp:545-550 | without weight and bias every group of the result has mean zero |
| Norms.GroupNormBiasShownAsWritten | aten/src/ATen/native/Normalization.cpp:540-543 | the bias message as written reports a shape only when a weight is given, and then the weight's |
| Norms.GroupNormBiasMessageMisreports | aten/src/ATen/native/Normalization.cpp:540-543 | when a weight is present and the bias check fails, the message as written reports a shape other than the bias's |
| Norms.GroupNormBiasMessageExample | aten/src/ATen/native/Normalization.cpp:540-543 | with 4 channels, a weight of 4 and a bias of 3, the message as written reports [4] instead of [3], and nothing without a weight |
| Norms.RepeatOpt | aten/src/ATen/native/Normalization.cpp:22-27 | an undefined vector stays undefined; a defined one of length L becomes `times * L` entries whose copy n, the slice from `n * L` to `(n + 1) * L`, is the vector itself |
| Norms.RepeatFits | aten/src/ATen/native/Normalization.cpp:445-448 | b copies of a vector have one entry per (sample, channel) exactly when the vector has one entry per channel |
| Norms.InstanceRows | aten/src/ATen/native/Normalization.cpp:439-443 | the view with `shape[0] = 1, shape[1] = b * c` has batch 1, `b * c` features of the trailing extent each, and the input's element count |
| Norms.InstanceNormCheck | aten/src/ATen/native/Normalization.cpp:437-448 | succeeds exactly when running statistics are given whenever input statistics are not used, there is a channel dimension, and every defined vector has one entry per channel; missing running statistics are reported first |
| Norms.InstanceNorm | aten/src/ATen/native/Normalization.cpp:433-463 | fails exactly when the arguments are invalid, with the first check's error; otherwise the output has the input's shape, and the running vectors stay defined exactly when given |
| Norms.InstanceNormIsRowNormalize | aten/src/ATen/native/Normalization.cpp:439-452 | with input statistics the output is the reference normalisation of each (sample, channel) instance, scaled and shifted by its channel's weight and bias |
| Norms.FoldMean | aten/src/ATen/native/Normalization.cpp:455-460 | the `view({b, c}).mean(0)` of a buffer has c entries, and entry ch times b is the sum of column ch, the entries `n * c + ch` |
| Norms.FoldOpt | aten/src/ATen/native/Normalization.cpp:455-460 | an undefined running vector is not written back; a defined one of b * c entries becomes c entries, each the mean of its channel's column |
| Norms.FoldRepeat | aten/src/ATen/native/Normalization.cpp:445-460 | averaging the b copies of a repeated vector gives the vector back |
| Norms.FoldOfEma | aten/src/ATen/native/Normalization.cpp:455-460 | averaging b moving-average updates of copies of a running value is one update with the average estimate |
| Norms.InstanceNormRunningStats | aten/src/ATen/native/Normalization.cpp:445-460 | with input statistics each channel's running mean moves towards the batch average of its instances' means, and its running variance towards the average of their unbiased variances |
| Norms.InstanceNormEvalKeepsRunningStats | aten/src/ATen/native/Normalization.cpp:445-460 | without input statistics the running vectors come back unchanged |

## Left out

- Floating point: the model computes over the reals. Rounding, the `acc_type` widening of the sums, and NaN or infinity from `std::sqrt` of a negative or zero value are not modelled.
- `std::sqrt` is not modelled: `1 / std::sqrt(.)` is the parameter `rsqrt`.
- `parallel_for`: features are independent, so each is computed on its own, with no order between them.
- cuDNN, MIOpen and the CUDA hooks are foreign code.
  - The device, dtype, build and version facts the selection reads are the fields of `Dispatch.DeviceFacts`.
  - The libraries' forward and backward results are parameters.
- Tensor storage is not modelled: strides, `select`, `view`, `contiguous`, `empty_like`, `repeat`, `alias().copy_` and `addcmul`. Tensors are flat row-major sequences, and the fast-path eligibility test reads contiguity flags.
- `checkBackend` and `AT_DISPATCH_FLOATING_TYPES` are not modelled: tensors hold reals. `Dispatch.ImplIndex` and `Dispatch.ImplIndexBackward` tell a CPU tensor from a CUDA one by `DeviceFacts.isCuda`, and the native CUDA kernels' results are parameters. The wrappers are modelled on CPU tensors only.
- Error message texts are not modelled; errors are datatype values. The one exception is the shape a rejected weight or bias reports, which is kept so that the finding below can be stated.
- Division by zero is excluded by preconditions on the calls that perform it.
  - Integer divisions, which would trap:
    - the inference fast path divides by the batch and the channel count (line 67), so an eligible evaluation call needs both positive (`Transform.FastPathDefined`);
    - the statistics pass divides by the channel count (line 189), so a training call needs at least one channel;
    - the CPU backward divides by the channel count (line 257), so it needs at least one channel.
  - Floating-point divisions, where the source does not trap but stores NaN in the saved and running statistics:
    - the mean and the biased variance divide by the element count per feature (lines 208 and 216), so a training call needs `PerFeature() > 0`;
    - the unbiased variance divides by `n - 1` (line 223), so a training call with a running variance needs `PerFeature() >= 2`.
    The model therefore does not describe the NaN statistics the source returns on those inputs.
  - `Dispatch.ImplIndex` asks for these only when the call reaches the CPU engine (`Dispatch.ReachesCpu`); other backends' calls carry no such precondition.
  - The wrappers need a non-empty input, and `instance_norm` with input statistics and a running variance needs two elements per instance.
  - `group_norm` needs `num_groups > 0`.
- Norms.GroupNorm: takes `num_groups` as a natural number. A negative count can pass the truncating `c % num_groups == 0` of line 531 and is then rejected by `view`, which is not modelled.
- Dispatch.ForwardTagSelectsSameBackward: on the CPU engine it requires at least one channel, the CPU backward's own need (line 257), even in evaluation mode where the forward pass might not divide by it.
- Backward.BackwardCpu: requires a defined weight when the weight or bias gradient is requested. The source allocates both like the weight and would index an undefined tensor otherwise.
- Norms.InstanceNorm: takes the weight, bias and running statistics as flat per-channel vectors. The source does not check their rank itself.
- `batch_norm` (lines 425-431) is not a separate member. It is `Dispatch.ImplIndex` without the tag.
- The wrappers call the CPU engine `Forward.BatchNormCpu` directly, which is what `_batch_norm_impl_index` runs for a CPU tensor. Their `cudnn_enabled` argument only matters on CUDA and is not modelled.
- Forward.UpdateStatsCpu: its own contract states only lengths. The mean and variance it returns are stated by `Forward.UpdateStatsCpuMeanAndVariance`, and the running statistics it updates by `Stats.UpdateStats`.
- Stats.InvStd: states the value only when `var + eps > 0` or both are 0. For a negative sum the source takes the square root of a negative number.
- Transform.EvalInvStd: applies `rsqrt` with no zero guard. The source divides by `std::sqrt(var + eps)` in evaluation too (lines 92 and 166).

## Findings

| source | as written | input that shows it | evidently intended | confidence | as-written member | corrected member |
|---|---|---|---|---|---|---|
| aten/src/ATen/native/Normalization.cpp:540-543 | the bias check's message in `group_norm` prints `weight.sizes()` as the bias's shape | 4 channels, 2 groups, a weight of shape [4] and a bias of shape [3]: the message reports [4]. With no weight, reading its sizes raises an unrelated error instead | report `bias.sizes()`, as `layer_norm` does at lines 480-483 | high on reading; not executed | Norms.GroupNormBiasShownAsWritten (shown by Norms.GroupNormBiasMessageMisreports and Norms.GroupNormBiasMessageExample) | Norms.GroupNormCheck (a rejected bias carries the bias's own shape) |
