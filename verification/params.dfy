/** Optional per-feature parameters and the argument checks that guard the
    batch-norm entry point (Normalization.cpp, `_batch_norm_impl_index`). */
module Params {
  import opened Wrappers

  /** The failures the engine and its wrappers raise. */
  datatype BnError =
    | DimMismatch(arg: string, expected: int, actual: int)  // "<arg> should contain <expected> elements not <actual>"
    | MissingInEvalMode(arg: string)                        // "<arg> must be defined in evaluation mode"
    | UnsupportedImplIndex(index: int)                      // backward got a tag forward never produces
    | InvalidShape(reason: ShapeError)                      // a shape check of layer/group/instance norm
    | RunningStatsRequired                                  // instance norm without input statistics

  /** Which shape check of the layer, group and instance norm wrappers failed.
      A rejected weight or bias carries the shape its message reports. */
  datatype ShapeError =
    | EmptyNormalizedShape    // normalized_shape has no dimension
    | WeightShape(shown: seq<nat>)  // weight is not shaped like normalized_shape, or not a channel vector
    | BiasShape(shown: seq<nat>)    // bias is not shaped like normalized_shape, or not a channel vector
    | InputShape              // the input does not end with normalized_shape
    | GroupsDoNotDivide       // the channel count is not a multiple of num_groups
    | TooFewDimensions        // the input has no channel dimension

  /** An optional per-feature vector is absent or has one entry per feature. */
  predicate Fits(t: Option<seq<real>>, numFeatures: nat) {
    t.Some? ==> |t.value| == numFeatures
  }

  /** `check_dims_match_num_input_features`: the error it raises, if any. */
  function CheckDims(arg: string, expected: int, actual: int): (r: Option<BnError>)
    ensures r.None? <==> actual == expected
    ensures r.Some? ==> r.value == DimMismatch(arg, expected, actual)
  {
    if actual == expected then None else Some(DimMismatch(arg, expected, actual))
  }

  /** Checks one optional per-feature argument, and its presence in evaluation mode. */
  function CheckOptional(arg: string, t: Option<seq<real>>, numFeatures: nat, requiredHere: bool): Option<BnError> {
    if t.Some? then CheckDims(arg, numFeatures, |t.value|)
    else if requiredHere then Some(MissingInEvalMode(arg))
    else None
  }

  /** What a well-formed call looks like, independently of the order of the checks. */
  predicate ArgumentsValid(
    numFeatures: nat, weight: Option<seq<real>>, bias: Option<seq<real>>,
    runningMean: Option<seq<real>>, runningVar: Option<seq<real>>, training: bool)
  {
    && Fits(weight, numFeatures) && Fits(bias, numFeatures)
    && Fits(runningMean, numFeatures) && Fits(runningVar, numFeatures)
    && (training || (runningMean.Some? && runningVar.Some?))
  }

  /** The checks at the head of `_batch_norm_impl_index`, in source order:
      running_mean, running_var, weight, bias. The first failure is reported. */
  function CheckArguments(
    numFeatures: nat, weight: Option<seq<real>>, bias: Option<seq<real>>,
    runningMean: Option<seq<real>>, runningVar: Option<seq<real>>, training: bool): (r: Option<BnError>)
    ensures r.None? <==> ArgumentsValid(numFeatures, weight, bias, runningMean, runningVar, training)
    ensures runningMean.Some? && |runningMean.value| != numFeatures ==>
      r == Some(DimMismatch("running_mean", numFeatures, |runningMean.value|))
    ensures runningMean.None? && !training ==> r == Some(MissingInEvalMode("running_mean"))
    ensures Fits(runningMean, numFeatures) && (training || runningMean.Some?) && runningVar.None? && !training ==>
      r == Some(MissingInEvalMode("running_var"))
    ensures r.Some? && r.value.DimMismatch? ==> r.value.expected == numFeatures && r.value.actual != numFeatures
  {
    var e1 := CheckOptional("running_mean", runningMean, numFeatures, !training);
    var e2 := CheckOptional("running_var", runningVar, numFeatures, !training);
    var e3 := CheckOptional("weight", weight, numFeatures, false);
    var e4 := CheckOptional("bias", bias, numFeatures, false);
    if e1.Some? then e1 else if e2.Some? then e2 else if e3.Some? then e3 else e4
  }

  /** The weight of feature f as the engine reads it: `conditional_accessor_1d`
      yields no accessor for an undefined tensor, and the ternary guarding each
      read substitutes 1 for an absent weight. */
  function WeightAt(w: Option<seq<real>>, f: nat): real
    requires w.Some? ==> f < |w.value|
  {
    if w.Some? then w.value[f] else 1.0
  }

  /** The bias of feature f; the guarding ternary substitutes 0 for an absent bias. */
  function BiasAt(b: Option<seq<real>>, f: nat): real
    requires b.Some? ==> f < |b.value|
  {
    if b.Some? then b.value[f] else 0.0
  }

  function Ones(n: nat): seq<real> { seq(n, _ => 1.0) }

  function Zeros(n: nat): seq<real> { seq(n, _ => 0.0) }
}
