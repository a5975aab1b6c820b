/** The statistics reducer, `batch_norm_cpu_update_stats_template`: per
    feature, a mean pass, a centred sum-of-squares pass, a variance transform,
    and the exponential-moving-average update of the running statistics. */
module Stats {
  import opened Wrappers
  import opened Layout
  import opened Sums
  import opened Params

  /** `rsqrt` stands for `1 / std::sqrt(.)`. Proofs that need its meaning
      assume only this: positive on positive inputs, and squaring to the inverse. */
  ghost predicate IsRsqrt(rsqrt: real -> real) {
    forall v: real :: v > 0.0 ==> rsqrt(v) > 0.0 && rsqrt(v) * rsqrt(v) * v == 1.0
  }

  /** The `InvStd` transform: 1/sqrt(var + eps), but 0 when both are exactly 0. */
  function InvStd(variance: real, eps: real, rsqrt: real -> real): (r: real)
    ensures variance == 0.0 && eps == 0.0 ==> r == 0.0
    ensures IsRsqrt(rsqrt) && variance + eps > 0.0 ==> r > 0.0 && r * r * (variance + eps) == 1.0
  {
    if variance != 0.0 || eps != 0.0 then rsqrt(variance + eps) else 0.0
  }

  /** The compile-time choice between the `InvStd` and the `Var` transform. */
  datatype VarTransform = InvStdTransform | VarIdentity

  function ApplyTransform(t: VarTransform, variance: real, eps: real, rsqrt: real -> real): real {
    match t
    case InvStdTransform => InvStd(variance, eps, rsqrt)
    case VarIdentity => variance
  }

  /** `momentum * estimate + (1 - momentum) * running`. */
  function Ema(momentum: real, estimate: real, running: real): (r: real)
    ensures 0.0 <= momentum <= 1.0 && running <= estimate ==> running <= r <= estimate
    ensures 0.0 <= momentum <= 1.0 && estimate <= running ==> estimate <= r <= running
    ensures momentum == 0.0 ==> r == running
    ensures momentum == 1.0 ==> r == estimate
  {
    var r := momentum * estimate + (1.0 - momentum) * running;
    EmaBounds(momentum, estimate, running, r);
    r
  }

  lemma EmaBounds(momentum: real, estimate: real, running: real, r: real)
    requires r == momentum * estimate + (1.0 - momentum) * running
    ensures 0.0 <= momentum <= 1.0 && running <= estimate ==> running <= r <= estimate
    ensures 0.0 <= momentum <= 1.0 && estimate <= running ==> estimate <= r <= running
  {
    assert r - running == momentum * (estimate - running);
    assert estimate - r == (1.0 - momentum) * (estimate - running);
    if 0.0 <= momentum <= 1.0 {
      if running <= estimate {
        ProductNonNegative(momentum, estimate - running);
        ProductNonNegative(1.0 - momentum, estimate - running);
      } else {
        ProductNonNegative(momentum, running - estimate);
        ProductNonNegative(1.0 - momentum, running - estimate);
      }
    }
  }

  lemma ProductNonNegative(a: real, b: real)
    requires a >= 0.0 && b >= 0.0
    ensures a * b >= 0.0
  {
  }

  lemma SquareNonNegative(a: real)
    ensures a * a >= 0.0
  {
    if a < 0.0 {
      ProductNonNegative(-a, -a);
    } else {
      ProductNonNegative(a, a);
    }
  }

  lemma SquaresNonNegative(xs: seq<real>, mean: real)
    ensures forall k :: 0 <= k < |xs| ==> (xs[k] - mean) * (xs[k] - mean) >= 0.0
  {
    forall k | 0 <= k < |xs| {
      SquareNonNegative(xs[k] - mean);
    }
  }

  /** The deviations from a mean, `i - mean`, of every element. */
  function Centered(xs: seq<real>, mean: real): (r: seq<real>)
    ensures |r| == |xs|
  {
    seq(|xs|, k requires 0 <= k < |xs| => xs[k] - mean)
  }

  /** The second pass: `var_sum = sum of (i - mean) * (i - mean)`. */
  function VarSum(xs: seq<real>, mean: real): real {
    Sum(seq(|xs|, k requires 0 <= k < |xs| => (xs[k] - mean) * (xs[k] - mean)))
  }

  /** The mean and centred sum of squares of one feature's elements. */
  datatype FeatureStats = FeatureStats(mean: real, varSum: real)

  /** The two passes over one feature: the mean first, then squared deviations from it. */
  function ReduceFeature(xs: seq<real>): (r: FeatureStats)
    requires |xs| > 0
    ensures IsMean(r.mean, xs)
    ensures Sum(Centered(xs, r.mean)) == 0.0
    ensures r.varSum >= 0.0
    ensures r.varSum == VarSum(xs, r.mean)
  {
    var mean := Sum(xs) / |xs| as real;
    QuotientIsMean(xs, mean);
    CenteredSumsToZero(xs, mean, Centered(xs, mean));
    var squares := seq(|xs|, k requires 0 <= k < |xs| => (xs[k] - mean) * (xs[k] - mean));
    SquaresNonNegative(xs, mean);
    SumNonNegative(squares);
    FeatureStats(mean, Sum(squares))
  }

  /** Result of the reducer: the saved per-feature mean and variance transform,
      and the running statistics after the update (absent ones stay absent). */
  datatype StatsResult = StatsResult(
    saveMean: seq<real>, saveVarTransform: seq<real>,
    runningMean: Option<seq<real>>, runningVar: Option<seq<real>>)

  /** Folds each feature's estimate into an optional running vector: for a
      momentum in [0, 1] every entry moves from its old value towards its
      estimate without passing it; momentum 0 keeps the vector and momentum 1
      replaces it by the estimates. */
  function UpdateRunning(running: Option<seq<real>>, momentum: real, estimates: seq<real>): (r: Option<seq<real>>)
    requires running.Some? ==> |running.value| == |estimates|
    ensures r.Some? <==> running.Some?
    ensures r.Some? ==> |r.value| == |estimates|
    ensures r.Some? ==> forall f :: 0 <= f < |estimates| ==> r.value[f] == Ema(momentum, estimates[f], running.value[f])
    ensures r.Some? && 0.0 <= momentum <= 1.0 ==> forall f :: 0 <= f < |estimates| ==>
      (running.value[f] <= estimates[f] ==> running.value[f] <= r.value[f] <= estimates[f])
      && (estimates[f] <= running.value[f] ==> estimates[f] <= r.value[f] <= running.value[f])
    ensures momentum == 0.0 ==> r == running
    ensures momentum == 1.0 && r.Some? ==> r.value == estimates
  {
    if running.Some? then
      var v := seq(|estimates|, f requires 0 <= f < |estimates| => Ema(momentum, estimates[f], running.value[f]));
      assert momentum == 0.0 ==> v == running.value;
      assert momentum == 1.0 ==> v == estimates;
      Some(v)
    else None
  }

  /** The statistics of feature f: both passes over `input.select(1, f)`. */
  function StatsOf(x: seq<real>, sh: Shape, f: nat): FeatureStats
    requires |x| == sh.Numel() && f < sh.channels && sh.PerFeature() > 0
  {
    ReduceFeature(FeatureSlice(x, sh, f))
  }

  /** The biased variance of feature f: its sum of squared deviations over `n`. */
  function BiasedVar(x: seq<real>, sh: Shape, f: nat): real
    requires |x| == sh.Numel() && f < sh.channels && sh.PerFeature() > 0
  {
    StatsOf(x, sh, f).varSum / sh.PerFeature() as real
  }

  /** The unbiased variance of feature f: the same sum over `n - 1`. */
  function UnbiasedVar(x: seq<real>, sh: Shape, f: nat): real
    requires |x| == sh.Numel() && f < sh.channels && sh.PerFeature() >= 2
  {
    StatsOf(x, sh, f).varSum / (sh.PerFeature() - 1) as real
  }

  /** `batch_norm_cpu_update_stats_template<scalar_t, VarTransform>`. */
  function UpdateStats(
    x: seq<real>, sh: Shape, runningMean: Option<seq<real>>, runningVar: Option<seq<real>>,
    momentum: real, eps: real, t: VarTransform, rsqrt: real -> real): (r: StatsResult)
    requires |x| == sh.Numel() && sh.channels > 0 && sh.PerFeature() > 0
    requires Fits(runningMean, sh.channels) && Fits(runningVar, sh.channels)
    requires runningVar.Some? ==> sh.PerFeature() >= 2
    ensures |r.saveMean| == sh.channels && |r.saveVarTransform| == sh.channels
    ensures forall f :: 0 <= f < sh.channels ==> r.saveMean[f] == StatsOf(x, sh, f).mean
    ensures forall f :: 0 <= f < sh.channels ==>
      r.saveVarTransform[f] == ApplyTransform(t, BiasedVar(x, sh, f), eps, rsqrt)
    ensures r.runningMean.Some? <==> runningMean.Some?
    ensures r.runningVar.Some? <==> runningVar.Some?
    ensures r.runningMean.Some? ==> |r.runningMean.value| == sh.channels && forall f :: 0 <= f < sh.channels ==>
      r.runningMean.value[f] == Ema(momentum, StatsOf(x, sh, f).mean, runningMean.value[f])
    ensures r.runningVar.Some? ==> |r.runningVar.value| == sh.channels && forall f :: 0 <= f < sh.channels ==>
      r.runningVar.value[f] == Ema(momentum, UnbiasedVar(x, sh, f), runningVar.value[f])
  {
    var n := sh.PerFeature() as real;
    var saveMean := seq(sh.channels, f requires 0 <= f < sh.channels => StatsOf(x, sh, f).mean);
    var saveVar := seq(sh.channels, f requires 0 <= f < sh.channels => ApplyTransform(t, StatsOf(x, sh, f).varSum / n, eps, rsqrt));
    var unbiased := seq(sh.channels, f requires 0 <= f < sh.channels =>
      if runningVar.Some? then StatsOf(x, sh, f).varSum / (n - 1.0) else 0.0);
    StatsResult(saveMean, saveVar, UpdateRunning(runningMean, momentum, saveMean), UpdateRunning(runningVar, momentum, unbiased))
  }
}
