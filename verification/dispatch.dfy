/** `_batch_norm_impl_index` and `_batch_norm_impl_index_backward`: argument
    validation, the run-time choice between the native, cuDNN and MIOpen
    implementations, and the integer tag that lets backward pick the
    implementation that matches the forward call. */
module Dispatch {
  import opened Wrappers
  import opened Layout
  import opened Params
  import opened Stats
  import opened Transform
  import opened Forward
  import opened Backward

  /** The three implementations; the tag is part of the forward result. */
  datatype Backend = Native | CuDNN | MIOpen

  function Tag(b: Backend): (t: int)
    ensures 0 <= t <= 2
  {
    match b
    case Native => 0
    case CuDNN => 1
    case MIOpen => 2
  }

  /** The tag dispatch at the head of `_batch_norm_impl_index_backward`. */
  function BackendOfTag(t: int): (r: Result<Backend, BnError>)
    ensures r.Success? <==> 0 <= t <= 2
    ensures r.Failure? ==> r.error == UnsupportedImplIndex(t)
  {
    if t == 0 then Success(Native)
    else if t == 1 then Success(CuDNN)
    else if t == 2 then Success(MIOpen)
    else Failure(UnsupportedImplIndex(t))
  }

  /** Tags and backends are in one-to-one correspondence. */
  lemma TagRoundTrip(b: Backend, t: int)
    ensures BackendOfTag(Tag(b)) == Success(b)
    ensures BackendOfTag(t).Success? ==> Tag(BackendOfTag(t).value) == t
  {
  }

  /** The largest batch cuDNN is given, the oldest cuDNN version used, and
      the largest input rank MIOpen is given. */
  const CuDNNMaxBatch: int := 131070
  const CuDNNMinVersion: int := 5110
  const MIOpenDimMax: int := 4

  /** What the selection reads about the device, the element types and the
      installed libraries; none of it is computed here. */
  datatype DeviceFacts = DeviceFacts(
    isCuda: bool,
    inputIsHalf: bool, inputIsDouble: bool, weightIsFloat: bool, weightIsHalf: bool,
    inputDim: nat,
    compiledWithCuDNN: bool, cudnnVersion: int, cudnnMinEpsilon: real,
    compiledWithMIOpen: bool)

  /** Both running statistics are given, or neither is and the call trains. */
  predicate RunningStatsPaired(runningMean: Option<seq<real>>, runningVar: Option<seq<real>>, training: bool) {
    (runningMean.Some? && runningVar.Some?) || (runningMean.None? && runningVar.None? && training)
  }

  /** `use_cudnn`. */
  predicate UseCuDNN(
    dev: DeviceFacts, batch: nat, weight: Option<seq<real>>, bias: Option<seq<real>>,
    runningMean: Option<seq<real>>, runningVar: Option<seq<real>>, training: bool, cudnnEnabled: bool)
  {
    && dev.isCuda
    && (!dev.inputIsHalf || dev.weightIsFloat)
    && weight.Some? && bias.Some?
    && RunningStatsPaired(runningMean, runningVar, training)
    && batch <= CuDNNMaxBatch
    && dev.compiledWithCuDNN
    && cudnnEnabled && dev.cudnnVersion >= CuDNNMinVersion
  }

  /** `use_miopen`. */
  predicate UseMIOpen(
    dev: DeviceFacts, weight: Option<seq<real>>, bias: Option<seq<real>>,
    runningMean: Option<seq<real>>, runningVar: Option<seq<real>>, training: bool)
  {
    && dev.isCuda
    && dev.inputDim <= MIOpenDimMax
    && !dev.inputIsDouble
    && !dev.weightIsHalf
    && weight.Some? && bias.Some?
    && RunningStatsPaired(runningMean, runningVar, training)
    && dev.compiledWithMIOpen
  }

  /** The backend `_batch_norm_impl_index` runs once the arguments are valid. */
  function SelectBackend(
    dev: DeviceFacts, batch: nat, weight: Option<seq<real>>, bias: Option<seq<real>>,
    runningMean: Option<seq<real>>, runningVar: Option<seq<real>>,
    training: bool, eps: real, cudnnEnabled: bool): Backend
  {
    if UseCuDNN(dev, batch, weight, bias, runningMean, runningVar, training, cudnnEnabled)
       && eps >= dev.cudnnMinEpsilon then CuDNN
    else if UseMIOpen(dev, weight, bias, runningMean, runningVar, training) then MIOpen
    else Native
  }

  /** cuDNN is chosen exactly when its condition holds and `eps` reaches its
      minimum; MIOpen exactly when cuDNN is not chosen and its condition holds;
      the native engine otherwise. Neither library is chosen on a CPU tensor
      or without both the weight and the bias. */
  lemma SelectionConditions(
    dev: DeviceFacts, batch: nat, weight: Option<seq<real>>, bias: Option<seq<real>>,
    runningMean: Option<seq<real>>, runningVar: Option<seq<real>>,
    training: bool, eps: real, cudnnEnabled: bool)
    ensures var s := SelectBackend(dev, batch, weight, bias, runningMean, runningVar, training, eps, cudnnEnabled);
      && (s == CuDNN <==> UseCuDNN(dev, batch, weight, bias, runningMean, runningVar, training, cudnnEnabled)
                          && eps >= dev.cudnnMinEpsilon)
      && (s == MIOpen <==> !(UseCuDNN(dev, batch, weight, bias, runningMean, runningVar, training, cudnnEnabled)
                             && eps >= dev.cudnnMinEpsilon)
                           && UseMIOpen(dev, weight, bias, runningMean, runningVar, training))
      && (!dev.isCuda || weight.None? || bias.None? ==> s == Native)
  {
  }

  /** The results this model does not compute: the cuDNN and MIOpen
      libraries', and the native CUDA kernel's, which `native_batch_norm`
      runs on a CUDA tensor. Each is whatever that code returns for the call. */
  datatype ForeignForward = ForeignForward(cudnn: ForwardResult, miopen: ForwardResult, nativeCuda: ForwardResult)
  datatype ForeignBackward = ForeignBackward(cudnn: Grads, miopen: Grads, nativeCuda: Grads)

  /** The call reaches the CPU engine: its arguments pass the checks, the
      native backend is selected, and the tensor is a CPU tensor. */
  predicate ReachesCpu(
    sh: Shape, weight: Option<seq<real>>, bias: Option<seq<real>>,
    runningMean: Option<seq<real>>, runningVar: Option<seq<real>>,
    training: bool, eps: real, cudnnEnabled: bool, dev: DeviceFacts)
  {
    && ArgumentsValid(sh.channels, weight, bias, runningMean, runningVar, training)
    && SelectBackend(dev, sh.batch, weight, bias, runningMean, runningVar, training, eps, cudnnEnabled) == Native
    && !dev.isCuda
  }

  /** `_batch_norm_impl_index`: the forward result and the tag of the backend
      that produced it. The native backend is the CPU engine on a CPU tensor
      and the CUDA kernel on a CUDA one. Only a call that reaches the CPU
      engine needs that engine's divisions to be defined. */
  function ImplIndex(
    x: seq<real>, sh: Shape, weight: Option<seq<real>>, bias: Option<seq<real>>,
    runningMean: Option<seq<real>>, runningVar: Option<seq<real>>,
    training: bool, momentum: real, eps: real, cudnnEnabled: bool,
    dev: DeviceFacts, contig: Contiguity, rsqrt: real -> real, foreign: ForeignForward): (r: Result<(ForwardResult, int), BnError>)
    requires |x| == sh.Numel()
    requires ReachesCpu(sh, weight, bias, runningMean, runningVar, training, eps, cudnnEnabled, dev) ==>
      CpuDivisionsDefined(sh, weight, bias, runningVar, training, contig)
    ensures r.Failure? <==> !ArgumentsValid(sh.channels, weight, bias, runningMean, runningVar, training)
    ensures r.Failure? ==> Some(r.error) == CheckArguments(sh.channels, weight, bias, runningMean, runningVar, training)
    ensures r.Success? ==>
      r.value.1 == Tag(SelectBackend(dev, sh.batch, weight, bias, runningMean, runningVar, training, eps, cudnnEnabled))
    ensures r.Success? && r.value.1 == 0 && !dev.isCuda ==>
      r.value.0 == BatchNormCpu(x, sh, weight, bias, runningMean, runningVar, training, momentum, eps, contig, rsqrt)
    ensures r.Success? && r.value.1 == 0 && dev.isCuda ==> r.value.0 == foreign.nativeCuda
    ensures r.Success? && r.value.1 == 1 ==> r.value.0 == foreign.cudnn
    ensures r.Success? && r.value.1 == 2 ==> r.value.0 == foreign.miopen
  {
    var check := CheckArguments(sh.channels, weight, bias, runningMean, runningVar, training);
    if check.Some? then Failure(check.value)
    else
      match SelectBackend(dev, sh.batch, weight, bias, runningMean, runningVar, training, eps, cudnnEnabled)
      case CuDNN => Success((foreign.cudnn, 1))
      case MIOpen => Success((foreign.miopen, 2))
      case Native =>
        if dev.isCuda then Success((foreign.nativeCuda, 0))
        else Success((BatchNormCpu(x, sh, weight, bias, runningMean, runningVar, training, momentum, eps, contig, rsqrt), 0))
  }

  /** `_batch_norm_impl_index_backward`: the implementation the tag names; for
      tag 0, the CPU engine on a CPU tensor and the CUDA kernel on a CUDA one. */
  function ImplIndexBackward(
    tag: int, isCuda: bool, x: seq<real>, go: seq<real>, sh: Shape, weight: Option<seq<real>>,
    runningMean: Option<seq<real>>, runningVar: Option<seq<real>>,
    saveMean: Option<seq<real>>, saveInvStd: Option<seq<real>>,
    train: bool, eps: real, mask: GradMask, rsqrt: real -> real, foreign: ForeignBackward): (r: Result<Grads, BnError>)
    requires tag == 0 && !isCuda ==>
      BackwardArguments(x, go, sh, weight, runningMean, runningVar, saveMean, saveInvStd, train, mask)
    ensures r.Failure? <==> BackendOfTag(tag).Failure?
    ensures r.Failure? ==> r.error == UnsupportedImplIndex(tag)
    ensures r.Success? && BackendOfTag(tag).value == Native && !isCuda ==>
      r.value == BackwardCpu(go, x, sh, weight, runningMean, runningVar, saveMean, saveInvStd, train, eps, mask, rsqrt)
    ensures r.Success? && BackendOfTag(tag).value == Native && isCuda ==> r.value == foreign.nativeCuda
    ensures r.Success? && BackendOfTag(tag).value == CuDNN ==> r.value == foreign.cudnn
    ensures r.Success? && BackendOfTag(tag).value == MIOpen ==> r.value == foreign.miopen
  {
    match BackendOfTag(tag)
    case Failure(e) => Failure(e)
    case Success(Native) =>
      if isCuda then Success(foreign.nativeCuda)
      else Success(BackwardCpu(go, x, sh, weight, runningMean, runningVar, saveMean, saveInvStd, train, eps, mask, rsqrt))
    case Success(CuDNN) => Success(foreign.cudnn)
    case Success(MIOpen) => Success(foreign.miopen)
  }

  /** Every tag the forward selector returns is accepted by backward and names
      the backend forward ran, so backward runs the matching implementation.
      The CPU backward divides by the channel count, which a call reaching
      the CPU engine must therefore not have zero of. */
  lemma ForwardTagSelectsSameBackward(
    x: seq<real>, sh: Shape, weight: Option<seq<real>>, bias: Option<seq<real>>,
    runningMean: Option<seq<real>>, runningVar: Option<seq<real>>,
    training: bool, momentum: real, eps: real, cudnnEnabled: bool,
    dev: DeviceFacts, contig: Contiguity, rsqrt: real -> real, foreign: ForeignForward,
    go: seq<real>, mask: GradMask, foreignBack: ForeignBackward)
    requires |x| == |go| == sh.Numel()
    requires ReachesCpu(sh, weight, bias, runningMean, runningVar, training, eps, cudnnEnabled, dev) ==>
      CpuDivisionsDefined(sh, weight, bias, runningVar, training, contig) && sh.channels > 0
    requires mask.weight || mask.bias ==> weight.Some?
    requires ImplIndex(x, sh, weight, bias, runningMean, runningVar, training, momentum, eps, cudnnEnabled,
                       dev, contig, rsqrt, foreign).Success?
    ensures var fwd := ImplIndex(x, sh, weight, bias, runningMean, runningVar, training, momentum, eps, cudnnEnabled,
                                 dev, contig, rsqrt, foreign).value;
      && BackendOfTag(fwd.1)
         == Success(SelectBackend(dev, sh.batch, weight, bias, runningMean, runningVar, training, eps, cudnnEnabled))
      && (fwd.1 == 0 && !dev.isCuda ==> BackwardArguments(x, go, sh, weight, runningMean, runningVar,
                                                          fwd.0.saveMean, fwd.0.saveInvStd, training, mask))
      && ImplIndexBackward(fwd.1, dev.isCuda, x, go, sh, weight, runningMean, runningVar, fwd.0.saveMean, fwd.0.saveInvStd,
                           training, eps, mask, rsqrt, foreignBack).Success?
  {
  }
}
