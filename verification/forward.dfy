/** The CPU forward entry points: `batch_norm_cpu`, which reduces the
    statistics in training and then applies the transform, and
    `batch_norm_update_stats_cpu`, which only reduces. */
module Forward {
  import opened Wrappers
  import opened Layout
  import opened Sums
  import opened Params
  import opened Stats
  import opened Transform

  /** The output, the saved statistics (undefined in evaluation) and the
      running statistics after the call (the source updates them in place). */
  datatype ForwardResult = ForwardResult(
    output: seq<real>,
    saveMean: Option<seq<real>>, saveInvStd: Option<seq<real>>,
    runningMean: Option<seq<real>>, runningVar: Option<seq<real>>)

  /** What the CPU engine needs of its arguments: one entry per feature in
      every defined vector, running statistics in evaluation, and in training
      a non-empty tensor with at least two elements per feature when the
      running variance, which divides by `n - 1`, is updated. The fast path's
      own division is `FastPathDefined`. */
  predicate CpuArguments(
    x: seq<real>, sh: Shape, w: Option<seq<real>>, b: Option<seq<real>>,
    runningMean: Option<seq<real>>, runningVar: Option<seq<real>>, train: bool)
  {
    && |x| == sh.Numel()
    && Fits(w, sh.channels) && Fits(b, sh.channels)
    && Fits(runningMean, sh.channels) && Fits(runningVar, sh.channels)
    && (!train ==> runningMean.Some? && runningVar.Some?)
    && (train ==> sh.channels > 0 && sh.PerFeature() > 0 && (runningVar.Some? ==> sh.PerFeature() >= 2))
  }

  /** The divisions of the CPU engine are defined: the training clause of
      `CpuArguments` and the fast path's division by the batch and channel
      counts. */
  predicate CpuDivisionsDefined(
    sh: Shape, w: Option<seq<real>>, b: Option<seq<real>>, runningVar: Option<seq<real>>,
    train: bool, contig: Contiguity)
  {
    && (train ==> sh.channels > 0 && sh.PerFeature() > 0 && (runningVar.Some? ==> sh.PerFeature() >= 2))
    && FastPathDefined(sh, train, contig, w, b)
  }

  /** `batch_norm_cpu`. */
  function BatchNormCpu(
    x: seq<real>, sh: Shape, w: Option<seq<real>>, b: Option<seq<real>>,
    runningMean: Option<seq<real>>, runningVar: Option<seq<real>>,
    train: bool, momentum: real, eps: real, contig: Contiguity, rsqrt: real -> real): (r: ForwardResult)
    requires CpuArguments(x, sh, w, b, runningMean, runningVar, train)
    requires FastPathDefined(sh, train, contig, w, b)
    ensures |r.output| == |x|
    ensures !train ==> r.saveMean.None? && r.saveInvStd.None?
    ensures !train ==> r.runningMean == runningMean && r.runningVar == runningVar
    ensures !train ==> r.output == GeneralTransform(x, sh, w, b, runningMean.value, EvalInvStd(runningVar.value, eps, rsqrt))
    ensures train ==> r.saveMean.Some? && |r.saveMean.value| == sh.channels
    ensures train ==> r.saveInvStd.Some? && |r.saveInvStd.value| == sh.channels
    ensures train ==> forall f :: 0 <= f < sh.channels ==>
      r.saveMean.value[f] == StatsOf(x, sh, f).mean
      && r.saveInvStd.value[f] == InvStd(BiasedVar(x, sh, f), eps, rsqrt)
    ensures train ==> r.output == GeneralTransform(x, sh, w, b, r.saveMean.value, r.saveInvStd.value)
    ensures train ==> (r.runningMean.Some? <==> runningMean.Some?) && (r.runningVar.Some? <==> runningVar.Some?)
    ensures train && r.runningMean.Some? ==> |r.runningMean.value| == sh.channels && forall f :: 0 <= f < sh.channels ==>
      r.runningMean.value[f] == Ema(momentum, StatsOf(x, sh, f).mean, runningMean.value[f])
    ensures train && r.runningVar.Some? ==> |r.runningVar.value| == sh.channels && forall f :: 0 <= f < sh.channels ==>
      r.runningVar.value[f] == Ema(momentum, UnbiasedVar(x, sh, f), runningVar.value[f])
  {
    if !train then
      var out := TransformInput(x, sh, w, b, None, None, runningMean, runningVar, false, eps, contig, rsqrt);
      ForwardResult(out, None, None, runningMean, runningVar)
    else
      var stats := UpdateStats(x, sh, runningMean, runningVar, momentum, eps, InvStdTransform, rsqrt);
      var out := TransformInput(x, sh, w, b, Some(stats.saveMean), Some(stats.saveVarTransform),
                                runningMean, runningVar, true, eps, contig, rsqrt);
      ForwardResult(out, Some(stats.saveMean), Some(stats.saveVarTransform), stats.runningMean, stats.runningVar)
  }

  /** Each feature's mean, the statistic training saves. */
  function SavedMeans(x: seq<real>, sh: Shape): (m: seq<real>)
    requires |x| == sh.Numel() && sh.PerFeature() > 0
    ensures |m| == sh.channels
  {
    seq(sh.channels, f requires 0 <= f < sh.channels => StatsOf(x, sh, f).mean)
  }

  /** Each feature's `InvStd` of its biased variance, the other saved statistic. */
  function SavedInvStds(x: seq<real>, sh: Shape, eps: real, rsqrt: real -> real): (s: seq<real>)
    requires |x| == sh.Numel() && sh.PerFeature() > 0
    ensures |s| == sh.channels
  {
    seq(sh.channels, f requires 0 <= f < sh.channels => InvStd(BiasedVar(x, sh, f), eps, rsqrt))
  }

  /** Each feature's unbiased variance, the estimate the running variance moves towards. */
  function UnbiasedVars(x: seq<real>, sh: Shape): (v: seq<real>)
    requires |x| == sh.Numel() && sh.PerFeature() >= 2
    ensures |v| == sh.channels
  {
    seq(sh.channels, f requires 0 <= f < sh.channels => UnbiasedVar(x, sh, f))
  }

  /** Training, summarised by whole vectors: the output is the general
      transform with the saved statistics, and each running vector moves
      towards the per-feature mean or unbiased variance. */
  lemma TrainingSummary(
    x: seq<real>, sh: Shape, w: Option<seq<real>>, b: Option<seq<real>>,
    runningMean: Option<seq<real>>, runningVar: Option<seq<real>>,
    momentum: real, eps: real, contig: Contiguity, rsqrt: real -> real)
    requires CpuArguments(x, sh, w, b, runningMean, runningVar, true)
    ensures BatchNormCpu(x, sh, w, b, runningMean, runningVar, true, momentum, eps, contig, rsqrt).output
            == GeneralTransform(x, sh, w, b, SavedMeans(x, sh), SavedInvStds(x, sh, eps, rsqrt))
    ensures BatchNormCpu(x, sh, w, b, runningMean, runningVar, true, momentum, eps, contig, rsqrt).runningMean
            == UpdateRunning(runningMean, momentum, SavedMeans(x, sh))
    ensures runningVar.Some? ==>
      BatchNormCpu(x, sh, w, b, runningMean, runningVar, true, momentum, eps, contig, rsqrt).runningVar
      == UpdateRunning(runningVar, momentum, UnbiasedVars(x, sh))
  {
    var r := BatchNormCpu(x, sh, w, b, runningMean, runningVar, true, momentum, eps, contig, rsqrt);
    assert r.saveMean.value == SavedMeans(x, sh);
    assert r.saveInvStd.value == SavedInvStds(x, sh, eps, rsqrt);
    if runningMean.Some? {
      assert r.runningMean.value == UpdateRunning(runningMean, momentum, SavedMeans(x, sh)).value;
    }
    if runningVar.Some? {
      assert r.runningVar.value == UpdateRunning(runningVar, momentum, UnbiasedVars(x, sh)).value;
    }
  }

  /** `batch_norm_update_stats_cpu`: the reducer with the `Var` transform and
      `eps = 0`, returning the mean and the biased variance. */
  function UpdateStatsCpu(
    x: seq<real>, sh: Shape, runningMean: Option<seq<real>>, runningVar: Option<seq<real>>,
    momentum: real): (r: StatsResult)
    requires |x| == sh.Numel() && sh.channels > 0 && sh.PerFeature() > 0
    requires Fits(runningMean, sh.channels) && Fits(runningVar, sh.channels)
    requires runningVar.Some? ==> sh.PerFeature() >= 2
    ensures |r.saveMean| == sh.channels && |r.saveVarTransform| == sh.channels
  {
    UpdateStats(x, sh, runningMean, runningVar, momentum, 0.0, VarIdentity, y => y)
  }

  /** What `batch_norm_update_stats_cpu` returns for feature f: the mean of
      `input.select(1, f)`, and a variance that times `n` is the sum of
      squared deviations from that mean. */
  lemma UpdateStatsCpuMeanAndVariance(
    x: seq<real>, sh: Shape, runningMean: Option<seq<real>>, runningVar: Option<seq<real>>,
    momentum: real, f: nat)
    requires |x| == sh.Numel() && sh.channels > 0 && sh.PerFeature() > 0
    requires Fits(runningMean, sh.channels) && Fits(runningVar, sh.channels)
    requires runningVar.Some? ==> sh.PerFeature() >= 2
    requires f < sh.channels
    ensures IsMean(UpdateStatsCpu(x, sh, runningMean, runningVar, momentum).saveMean[f], FeatureSlice(x, sh, f))
    ensures UpdateStatsCpu(x, sh, runningMean, runningVar, momentum).saveVarTransform[f] * sh.PerFeature() as real
            == VarSum(FeatureSlice(x, sh, f), UpdateStatsCpu(x, sh, runningMean, runningVar, momentum).saveMean[f])
  {
    var r := UpdateStatsCpu(x, sh, runningMean, runningVar, momentum);
    var st := StatsOf(x, sh, f);
    var n := sh.PerFeature() as real;
    assert r.saveMean[f] == st.mean;
    assert st.varSum == VarSum(FeatureSlice(x, sh, f), st.mean);
    assert r.saveVarTransform[f] == st.varSum / n;
    QuotientTimesCount(st.varSum, n);
  }

  lemma QuotientTimesCount(total: real, n: real)
    requires n != 0.0
    ensures total / n * n == total
  {
  }

  /** In training each feature of the output sums to `n` times its bias: the
      normalised values of a feature have mean zero, so its outputs have the
      bias as their mean. */
  lemma TrainingOutputMeanIsBias(
    x: seq<real>, sh: Shape, w: Option<seq<real>>, b: Option<seq<real>>,
    runningMean: Option<seq<real>>, runningVar: Option<seq<real>>,
    momentum: real, eps: real, contig: Contiguity, rsqrt: real -> real, f: nat)
    requires CpuArguments(x, sh, w, b, runningMean, runningVar, true) && f < sh.channels
    ensures IsMean(BiasAt(b, f),
                   FeatureSlice(BatchNormCpu(x, sh, w, b, runningMean, runningVar, true, momentum, eps, contig, rsqrt).output, sh, f))
  {
    var r := BatchNormCpu(x, sh, w, b, runningMean, runningVar, true, momentum, eps, contig, rsqrt);
    var xs, out := FeatureSlice(x, sh, f), FeatureSlice(r.output, sh, f);
    var m, s := r.saveMean.value[f], r.saveInvStd.value[f];
    assert IsMean(m, xs);
    assert forall j :: 0 <= j < |out| ==> out[j] == Normalize(xs[j], m, s, WeightAt(w, f), BiasAt(b, f));
    NormalizedSliceMean(xs, out, m, s, WeightAt(w, f), BiasAt(b, f));
  }

  /** Normalising a sequence around its own mean leaves the bias as the mean. */
  lemma NormalizedSliceMean(xs: seq<real>, out: seq<real>, m: real, s: real, w: real, b: real)
    requires |out| == |xs| && IsMean(m, xs)
    requires forall j :: 0 <= j < |out| ==> out[j] == Normalize(xs[j], m, s, w, b)
    ensures IsMean(b, out)
  {
    var cen := Centring(xs, m);
    forall j | 0 <= j < |out|
      ensures out[j] == (s * w) * cen[j] + 0.0 * cen[j] + b
    {
      NormalizeAffine(xs[j], m, s, w, b);
    }
    SumAffine(cen, cen, out, s * w, 0.0, b);
    assert (s * w) * Sum(cen) == 0.0;
  }

  lemma NormalizeAffine(v: real, m: real, s: real, w: real, b: real)
    ensures Normalize(v, m, s, w, b) == (s * w) * (v - m) + 0.0 * (v - m) + b
  {
  }

  /** With zero momentum, training leaves the running statistics as they were. */
  lemma ZeroMomentumKeepsRunningStats(
    x: seq<real>, sh: Shape, w: Option<seq<real>>, b: Option<seq<real>>,
    runningMean: Option<seq<real>>, runningVar: Option<seq<real>>,
    eps: real, contig: Contiguity, rsqrt: real -> real)
    requires CpuArguments(x, sh, w, b, runningMean, runningVar, true)
    ensures BatchNormCpu(x, sh, w, b, runningMean, runningVar, true, 0.0, eps, contig, rsqrt).runningMean == runningMean
    ensures BatchNormCpu(x, sh, w, b, runningMean, runningVar, true, 0.0, eps, contig, rsqrt).runningVar == runningVar
  {
    var r := BatchNormCpu(x, sh, w, b, runningMean, runningVar, true, 0.0, eps, contig, rsqrt);
    if runningMean.Some? {
      assert r.runningMean.value == runningMean.value;
    }
    if runningVar.Some? {
      assert r.runningVar.value == runningVar.value;
    }
  }

  /** Omitting the weight and bias gives the same output as passing ones and zeros. */
  lemma AbsentAffineActsAsIdentity(
    x: seq<real>, sh: Shape, runningMean: Option<seq<real>>, runningVar: Option<seq<real>>,
    train: bool, momentum: real, eps: real, contig: Contiguity, rsqrt: real -> real)
    requires CpuArguments(x, sh, None, None, runningMean, runningVar, train)
    requires FastPathDefined(sh, train, contig, None, None)
    ensures CpuArguments(x, sh, Some(Ones(sh.channels)), Some(Zeros(sh.channels)), runningMean, runningVar, train)
    ensures FastPathDefined(sh, train, contig, Some(Ones(sh.channels)), Some(Zeros(sh.channels)))
    ensures BatchNormCpu(x, sh, None, None, runningMean, runningVar, train, momentum, eps, contig, rsqrt)
         == BatchNormCpu(x, sh, Some(Ones(sh.channels)), Some(Zeros(sh.channels)), runningMean, runningVar, train, momentum, eps, contig, rsqrt)
  {
    var ones, zeros := Some(Ones(sh.channels)), Some(Zeros(sh.channels));
    var r0 := BatchNormCpu(x, sh, None, None, runningMean, runningVar, train, momentum, eps, contig, rsqrt);
    var r1 := BatchNormCpu(x, sh, ones, zeros, runningMean, runningVar, train, momentum, eps, contig, rsqrt);
    var mean := if train then r0.saveMean.value else runningMean.value;
    var invstd := if train then r0.saveInvStd.value else EvalInvStd(runningVar.value, eps, rsqrt);
    IdentityAffine(x, sh, mean, invstd);
  }

  lemma IdentityAffine(x: seq<real>, sh: Shape, mean: seq<real>, invstd: seq<real>)
    requires |x| == sh.Numel() && |mean| == |invstd| == sh.channels
    ensures GeneralTransform(x, sh, None, None, mean, invstd)
         == GeneralTransform(x, sh, Some(Ones(sh.channels)), Some(Zeros(sh.channels)), mean, invstd)
  {
    var a := GeneralTransform(x, sh, None, None, mean, invstd);
    var c := GeneralTransform(x, sh, Some(Ones(sh.channels)), Some(Zeros(sh.channels)), mean, invstd);
    forall k | 0 <= k < |x| ensures a[k] == c[k] {
      ExtentsPositive(sh, k);
    }
  }

  /** `batch_norm_update_stats_cpu` and training-mode `batch_norm_cpu` agree:
      the same means, and the saved inverse deviation is `InvStd` of the
      returned variance. */
  lemma UpdateStatsAgreesWithTraining(
    x: seq<real>, sh: Shape, w: Option<seq<real>>, b: Option<seq<real>>,
    runningMean: Option<seq<real>>, runningVar: Option<seq<real>>,
    momentum: real, eps: real, contig: Contiguity, rsqrt: real -> real, f: nat)
    requires CpuArguments(x, sh, w, b, runningMean, runningVar, true) && f < sh.channels
    ensures UpdateStatsCpu(x, sh, runningMean, runningVar, momentum).saveMean[f]
         == BatchNormCpu(x, sh, w, b, runningMean, runningVar, true, momentum, eps, contig, rsqrt).saveMean.value[f]
    ensures InvStd(UpdateStatsCpu(x, sh, runningMean, runningVar, momentum).saveVarTransform[f], eps, rsqrt)
         == BatchNormCpu(x, sh, w, b, runningMean, runningVar, true, momentum, eps, contig, rsqrt).saveInvStd.value[f]
  {
  }
}
