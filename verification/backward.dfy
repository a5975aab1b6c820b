/** The backward engine, `batch_norm_backward_cpu_template`: per feature, the
    sum of the output gradient and its dot product with the centred input,
    then the bias, weight and input gradients selected by a three-bit mask. */
module Backward {
  import opened Wrappers
  import opened Layout
  import opened Sums
  import opened Params
  import opened Transform

  /** `grad_input_mask`: which of the input, weight and bias gradients to produce. */
  datatype GradMask = GradMask(input: bool, weight: bool, bias: bool)

  /** The three optional gradients; an unrequested one is left undefined. */
  datatype Grads = Grads(gradInput: Option<seq<real>>, gradWeight: Option<seq<real>>, gradBias: Option<seq<real>>)

  /** `dotp`: the sum of `(i - mean) * go` over one feature. */
  function Dot(xs: seq<real>, gos: seq<real>, mean: real): real
    requires |xs| == |gos|
  {
    Sum(seq(|xs|, j requires 0 <= j < |xs| => (xs[j] - mean) * gos[j]))
  }

  /** The two reductions of one feature, `sum` and `dotp`. */
  datatype GradReduction = GradReduction(sum: real, dotp: real)

  function ReduceGrad(x: seq<real>, go: seq<real>, sh: Shape, f: nat, mean: real): GradReduction
    requires |x| == |go| == sh.Numel() && f < sh.channels
  {
    GradReduction(Sum(FeatureSlice(go, sh, f)), Dot(FeatureSlice(x, sh, f), FeatureSlice(go, sh, f), mean))
  }

  /** One element of the input gradient. In training the statistics depend on
      the input, so the mean of the gradient and its projection on the centred
      input are removed; in evaluation the statistics are constants. */
  function GradInputAt(train: bool, go: real, v: real, mean: real, invstd: real, w: real,
                       red: GradReduction, n: real): real
    requires n != 0.0
  {
    if train then
      var k := red.dotp * invstd * invstd / n;
      (go - red.sum / n - (v - mean) * k) * invstd * w
    else
      go * invstd * w
  }

  /** `sum of i * go`: the dot product of a feature's input and output gradient. */
  function Cross(xs: seq<real>, gos: seq<real>): real
    requires |xs| == |gos|
  {
    Sum(seq(|xs|, j requires 0 <= j < |xs| => xs[j] * gos[j]))
  }

  /** Centring the input inside the dot product subtracts the mean times the
      gradient's sum: `dotp = sum(i * go) - mean * sum(go)`. */
  lemma DotExpanded(xs: seq<real>, gos: seq<real>, mean: real)
    requires |xs| == |gos|
    ensures Dot(xs, gos, mean) == Cross(xs, gos) - mean * Sum(gos)
  {
    var d := seq(|xs|, j requires 0 <= j < |xs| => (xs[j] - mean) * gos[j]);
    var p := seq(|xs|, j requires 0 <= j < |xs| => xs[j] * gos[j]);
    var q := seq(|xs|, j requires 0 <= j < |xs| => mean * gos[j]);
    forall j | 0 <= j < |xs| ensures d[j] == p[j] - q[j] {
      CentredProduct(xs[j], mean, gos[j]);
    }
    SumDifference(p, q, d);
    ScaledSum(gos, mean);
  }

  lemma CentredProduct(a: real, m: real, g: real)
    ensures (a - m) * g == a * g - m * g
  {
  }

  /** A pointwise difference sums to the difference of the sums. */
  lemma SumDifference(p: seq<real>, q: seq<real>, d: seq<real>)
    requires |p| == |q| == |d|
    requires forall k :: 0 <= k < |d| ==> d[k] == p[k] - q[k]
    ensures Sum(d) == Sum(p) - Sum(q)
  {
    forall k | 0 <= k < |d| ensures d[k] == 1.0 * p[k] + (-1.0) * q[k] {
    }
    SumLinear(p, q, d, 1.0, -1.0);
  }

  /** Scaling every element scales the sum. */
  lemma ScaledSum(gos: seq<real>, mean: real)
    ensures Sum(seq(|gos|, j requires 0 <= j < |gos| => mean * gos[j])) == mean * Sum(gos)
  {
    var q := seq(|gos|, j requires 0 <= j < |gos| => mean * gos[j]);
    forall j | 0 <= j < |gos| ensures q[j] == mean * gos[j] + 0.0 * gos[j] {
    }
    SumLinear(gos, gos, q, mean, 0.0);
  }

  /** The per-feature reductions of the whole tensor. */
  function ReduceAllGrad(x: seq<real>, go: seq<real>, sh: Shape, mean: seq<real>): (r: seq<GradReduction>)
    requires |x| == |go| == sh.Numel() && |mean| == sh.channels
    ensures |r| == sh.channels
    ensures forall f :: 0 <= f < sh.channels ==> r[f] == ReduceGrad(x, go, sh, f, mean[f])
  {
    seq(sh.channels, f requires 0 <= f < sh.channels => ReduceGrad(x, go, sh, f, mean[f]))
  }

  /** The input gradient over the flat buffer, each element with its channel's values. */
  function GradInput(
    train: bool, go: seq<real>, x: seq<real>, sh: Shape, w: Option<seq<real>>,
    mean: seq<real>, invstd: seq<real>, red: seq<GradReduction>): (r: seq<real>)
    requires |x| == |go| == sh.Numel() && |mean| == |invstd| == |red| == sh.channels
    requires Fits(w, sh.channels)
    ensures |r| == |x|
    ensures forall f, j :: 0 <= f < sh.channels && 0 <= j < sh.PerFeature() ==>
      FeatureSlice(r, sh, f)[j] ==
        GradInputAt(train, FeatureSlice(go, sh, f)[j], FeatureSlice(x, sh, f)[j], mean[f], invstd[f],
                    WeightAt(w, f), red[f], sh.PerFeature() as real)
  {
    var r := seq(|x|, k requires 0 <= k < |x| =>
      ExtentsPositive(sh, k);
      var c := ChannelOf(sh, k);
      GradInputAt(train, go[k], x[k], mean[c], invstd[c], WeightAt(w, c), red[c], sh.PerFeature() as real));
    GradInputPerFeature(train, go, x, sh, w, mean, invstd, red, r);
    r
  }

  lemma GradInputPerFeature(
    train: bool, go: seq<real>, x: seq<real>, sh: Shape, w: Option<seq<real>>,
    mean: seq<real>, invstd: seq<real>, red: seq<GradReduction>, r: seq<real>)
    requires |x| == |go| == |r| == sh.Numel() && |mean| == |invstd| == |red| == sh.channels
    requires Fits(w, sh.channels)
    requires sh.Numel() > 0 ==> sh.PerFeature() > 0
    requires forall k :: 0 <= k < |x| ==>
      sh.PerFeature() > 0 && r[k] == GradInputAt(train, go[k], x[k], mean[ChannelOf(sh, k)], invstd[ChannelOf(sh, k)],
                          WeightAt(w, ChannelOf(sh, k)), red[ChannelOf(sh, k)], sh.PerFeature() as real)
    ensures forall f, j :: 0 <= f < sh.channels && 0 <= j < sh.PerFeature() ==>
      FeatureSlice(r, sh, f)[j] ==
        GradInputAt(train, FeatureSlice(go, sh, f)[j], FeatureSlice(x, sh, f)[j], mean[f], invstd[f],
                    WeightAt(w, f), red[f], sh.PerFeature() as real)
  {
    forall f, j | 0 <= f < sh.channels && 0 <= j < sh.PerFeature()
      ensures FeatureSlice(r, sh, f)[j] ==
        GradInputAt(train, FeatureSlice(go, sh, f)[j], FeatureSlice(x, sh, f)[j], mean[f], invstd[f],
                    WeightAt(w, f), red[f], sh.PerFeature() as real)
    {
      SliceOffsetInChannel(sh, f, j);
    }
  }

  /** `grad_weight[f] = dotp * invstd`. */
  function GradWeight(red: seq<GradReduction>, invstd: seq<real>): (r: seq<real>)
    requires |red| == |invstd|
    ensures |r| == |red| && forall f :: 0 <= f < |red| ==> r[f] == red[f].dotp * invstd[f]
  {
    seq(|red|, f requires 0 <= f < |red| => red[f].dotp * invstd[f])
  }

  /** `grad_bias[f] = sum`. */
  function GradBias(red: seq<GradReduction>): (r: seq<real>)
    ensures |r| == |red| && forall f :: 0 <= f < |red| ==> r[f] == red[f].sum
  {
    seq(|red|, f requires 0 <= f < |red| => red[f].sum)
  }

  /** What the backward engine needs of its arguments: at least one feature,
      since `n = numel / n_input` divides by the feature count; one entry per
      feature in every defined vector; the saved statistics in training and the
      running ones in evaluation; and a weight whenever its or the bias's
      gradient is requested. */
  predicate BackwardArguments(
    x: seq<real>, go: seq<real>, sh: Shape, weight: Option<seq<real>>,
    runningMean: Option<seq<real>>, runningVar: Option<seq<real>>,
    saveMean: Option<seq<real>>, saveInvStd: Option<seq<real>>, train: bool, mask: GradMask)
  {
    && |x| == |go| == sh.Numel() && sh.channels > 0
    && Fits(weight, sh.channels) && (mask.weight || mask.bias ==> weight.Some?)
    && Fits(runningMean, sh.channels) && Fits(runningVar, sh.channels)
    && Fits(saveMean, sh.channels) && Fits(saveInvStd, sh.channels)
    && (train ==> saveMean.Some? && saveInvStd.Some?)
    && (!train ==> runningMean.Some? && runningVar.Some?)
  }

  /** `batch_norm_backward_cpu_template`. The statistics are the saved ones in
      training and the running ones in evaluation; an absent weight reads as 1.
      The weight and bias gradients are allocated like the weight, so the
      weight must be defined when either is requested. */
  function BackwardCpu(
    go: seq<real>, x: seq<real>, sh: Shape, weight: Option<seq<real>>,
    runningMean: Option<seq<real>>, runningVar: Option<seq<real>>,
    saveMean: Option<seq<real>>, saveInvStd: Option<seq<real>>,
    train: bool, eps: real, mask: GradMask, rsqrt: real -> real): (r: Grads)
    requires BackwardArguments(x, go, sh, weight, runningMean, runningVar, saveMean, saveInvStd, train, mask)
    ensures r.gradInput.Some? <==> mask.input
    ensures r.gradWeight.Some? <==> mask.weight
    ensures r.gradBias.Some? <==> mask.bias
    ensures r.gradInput.Some? ==> |r.gradInput.value| == |x|
    ensures r.gradWeight.Some? ==> |r.gradWeight.value| == sh.channels
    ensures r.gradBias.Some? ==> |r.gradBias.value| == sh.channels
  {
    var mean := UsedMean(train, saveMean, runningMean, sh.channels);
    var invstd := UsedInvStd(train, saveInvStd, runningVar, eps, rsqrt, sh.channels);
    var red := ReduceAllGrad(x, go, sh, mean);
    Grads(
      if mask.input then Some(GradInput(train, go, x, sh, weight, mean, invstd, red)) else None,
      if mask.weight then Some(GradWeight(red, invstd)) else None,
      if mask.bias then Some(GradBias(red)) else None)
  }

  /** The weight gradient is `dotp * invstd` and the bias gradient is the sum
      of the output gradient, per feature, with the statistics the mode selects. */
  lemma WeightAndBiasGradients(
    go: seq<real>, x: seq<real>, sh: Shape, weight: Option<seq<real>>,
    runningMean: Option<seq<real>>, runningVar: Option<seq<real>>,
    saveMean: Option<seq<real>>, saveInvStd: Option<seq<real>>,
    train: bool, eps: real, mask: GradMask, rsqrt: real -> real, f: nat)
    requires f < sh.channels
    requires BackwardArguments(x, go, sh, weight, runningMean, runningVar, saveMean, saveInvStd, train, mask)
    ensures mask.weight ==>
      BackwardCpu(go, x, sh, weight, runningMean, runningVar, saveMean, saveInvStd, train, eps, mask, rsqrt).gradWeight.value[f]
      == Dot(FeatureSlice(x, sh, f), FeatureSlice(go, sh, f), UsedMean(train, saveMean, runningMean, sh.channels)[f])
         * UsedInvStd(train, saveInvStd, runningVar, eps, rsqrt, sh.channels)[f]
    ensures mask.bias ==>
      BackwardCpu(go, x, sh, weight, runningMean, runningVar, saveMean, saveInvStd, train, eps, mask, rsqrt).gradBias.value[f]
      == Sum(FeatureSlice(go, sh, f))
  {
  }

  /** Element j of feature f of the input gradient the engine returns is the
      per-element formula with the statistics the mode selects and that
      feature's `sum` and `dotp`. */
  lemma InputGradient(
    go: seq<real>, x: seq<real>, sh: Shape, weight: Option<seq<real>>,
    runningMean: Option<seq<real>>, runningVar: Option<seq<real>>,
    saveMean: Option<seq<real>>, saveInvStd: Option<seq<real>>,
    train: bool, eps: real, mask: GradMask, rsqrt: real -> real, f: nat, j: nat)
    requires f < sh.channels && j < sh.PerFeature()
    requires BackwardArguments(x, go, sh, weight, runningMean, runningVar, saveMean, saveInvStd, train, mask)
    ensures mask.input ==>
      var mean := UsedMean(train, saveMean, runningMean, sh.channels)[f];
      FeatureSlice(BackwardCpu(go, x, sh, weight, runningMean, runningVar, saveMean, saveInvStd, train, eps, mask, rsqrt)
                     .gradInput.value, sh, f)[j]
      == GradInputAt(train, FeatureSlice(go, sh, f)[j], FeatureSlice(x, sh, f)[j], mean,
                     UsedInvStd(train, saveInvStd, runningVar, eps, rsqrt, sh.channels)[f], WeightAt(weight, f),
                     GradReduction(Sum(FeatureSlice(go, sh, f)), Dot(FeatureSlice(x, sh, f), FeatureSlice(go, sh, f), mean)),
                     sh.PerFeature() as real)
  {
  }

  /** In training, when the saved mean is the feature's own mean, every feature
      of the input gradient the engine returns sums to zero. */
  lemma EngineGradInputSumsToZero(
    go: seq<real>, x: seq<real>, sh: Shape, weight: Option<seq<real>>,
    runningMean: Option<seq<real>>, runningVar: Option<seq<real>>,
    saveMean: Option<seq<real>>, saveInvStd: Option<seq<real>>,
    eps: real, mask: GradMask, rsqrt: real -> real, f: nat)
    requires f < sh.channels
    requires BackwardArguments(x, go, sh, weight, runningMean, runningVar, saveMean, saveInvStd, true, mask)
    requires IsMean(saveMean.value[f], FeatureSlice(x, sh, f))
    ensures mask.input ==>
      Sum(FeatureSlice(BackwardCpu(go, x, sh, weight, runningMean, runningVar, saveMean, saveInvStd, true, eps, mask, rsqrt)
                         .gradInput.value, sh, f)) == 0.0
  {
    if mask.input && sh.PerFeature() > 0 {
      TrainingGradInputSumsToZero(go, x, sh, weight, saveMean.value, saveInvStd.value, f);
    }
  }

  /** The weight gradient is the output gradient's dot product with the
      forward pass's normalised input `(i - mean) * invstd`: it is the
      derivative of `sum(go * out)` with respect to the scale. */
  lemma {:induction false} GradWeightIsDotWithNormalized(xs: seq<real>, gos: seq<real>, mean: real, invstd: real)
    requires |xs| == |gos|
    ensures Dot(xs, gos, mean) * invstd ==
      Sum(seq(|xs|, j requires 0 <= j < |xs| => gos[j] * Normalize(xs[j], mean, invstd, 1.0, 0.0)))
  {
    var d := seq(|xs|, j requires 0 <= j < |xs| => (xs[j] - mean) * gos[j]);
    var u := seq(|xs|, j requires 0 <= j < |xs| => gos[j] * Normalize(xs[j], mean, invstd, 1.0, 0.0));
    forall j | 0 <= j < |xs| ensures u[j] == invstd * d[j] + 0.0 * d[j] {
      ScaledProduct(xs[j] - mean, gos[j], invstd);
    }
    SumLinear(d, d, u, invstd, 0.0);
  }

  lemma ScaledProduct(a: real, g: real, s: real)
    ensures g * ((a * s) * 1.0 + 0.0) == s * (a * g) + 0.0 * (a * g)
  {
  }

  /** In evaluation mode the statistics are constants, so the input gradient is
      the output gradient times the slope of the forward map: for every step h,
      `grad_in * h == go * (out(v + h) - out(v))`. */
  lemma EvalGradInputIsSlope(go: real, v: real, mean: real, invstd: real, w: real, b: real,
                             red: GradReduction, n: real, h: real)
    requires n != 0.0
    ensures GradInputAt(false, go, v, mean, invstd, w, red, n) * h ==
      go * (Normalize(v + h, mean, invstd, w, b) - Normalize(v, mean, invstd, w, b))
  {
    assert Normalize(v + h, mean, invstd, w, b) - Normalize(v, mean, invstd, w, b) == h * invstd * w;
  }

  /** In training mode, when the saved mean is the feature's own mean, the input
      gradient of every feature sums to zero: shifting a whole feature by a
      constant does not change the normalised output. */
  lemma TrainingGradInputSumsToZero(
    go: seq<real>, x: seq<real>, sh: Shape, w: Option<seq<real>>,
    mean: seq<real>, invstd: seq<real>, f: nat)
    requires |x| == |go| == sh.Numel() && |mean| == |invstd| == sh.channels && f < sh.channels
    requires Fits(w, sh.channels) && sh.PerFeature() > 0
    requires IsMean(mean[f], FeatureSlice(x, sh, f))
    ensures Sum(FeatureSlice(GradInput(true, go, x, sh, w, mean, invstd, ReduceAllGrad(x, go, sh, mean)), sh, f)) == 0.0
  {
    var red := ReduceAllGrad(x, go, sh, mean);
    var gi := FeatureSlice(GradInput(true, go, x, sh, w, mean, invstd, red), sh, f);
    TrainingSlice(go, x, sh, w, mean, invstd, red, f);
    TrainingSliceSumsToZero(FeatureSlice(go, sh, f), FeatureSlice(x, sh, f), gi,
                            mean[f], invstd[f], WeightAt(w, f), red[f], sh.PerFeature() as real);
  }

  /** One feature of the training-mode input gradient, element by element. */
  lemma TrainingSlice(
    go: seq<real>, x: seq<real>, sh: Shape, w: Option<seq<real>>,
    mean: seq<real>, invstd: seq<real>, red: seq<GradReduction>, f: nat)
    requires |x| == |go| == sh.Numel() && |mean| == |invstd| == |red| == sh.channels && f < sh.channels
    requires Fits(w, sh.channels) && sh.PerFeature() > 0
    ensures var gi := FeatureSlice(GradInput(true, go, x, sh, w, mean, invstd, red), sh, f);
      forall j :: 0 <= j < |gi| ==>
        gi[j] == GradInputAt(true, FeatureSlice(go, sh, f)[j], FeatureSlice(x, sh, f)[j], mean[f], invstd[f],
                             WeightAt(w, f), red[f], sh.PerFeature() as real)
  {
  }

  /** One feature's training-mode input gradient sums to zero when `m` is
      the mean of its `n` elements. */
  lemma TrainingSliceSumsToZero(gs: seq<real>, xs: seq<real>, gi: seq<real>,
                                m: real, s: real, w: real, red: GradReduction, n: real)
    requires |gs| == |xs| == |gi| > 0 && n == |xs| as real
    requires IsMean(m, xs) && red.sum == Sum(gs)
    requires forall j :: 0 <= j < |gi| ==> gi[j] == GradInputAt(true, gs[j], xs[j], m, s, w, red, n)
    ensures Sum(gi) == 0.0
  {
    var cen := Centring(xs, m);
    var a, b, c := TrainingGradAffine(gs, xs, gi, cen, m, s, w, red, n);
    AffineSumZero(gs, cen, gi, a, b, c, red.sum, n);
  }

  /** Over a whole feature, the training-mode input gradient is the affine
      combination `a * go + b * (i - mean) + c`, and `n` copies of `c` cancel
      `a` times the gradient's sum. */
  lemma TrainingGradAffine(gs: seq<real>, xs: seq<real>, gi: seq<real>, cen: seq<real>,
                           m: real, s: real, w: real, red: GradReduction, n: real)
    returns (a: real, b: real, c: real)
    requires |gs| == |xs| == |gi| == |cen| && n != 0.0
    requires forall j :: 0 <= j < |cen| ==> cen[j] == xs[j] - m
    requires forall j :: 0 <= j < |gi| ==> gi[j] == GradInputAt(true, gs[j], xs[j], m, s, w, red, n)
    ensures forall j :: 0 <= j < |gi| ==> gi[j] == a * gs[j] + b * cen[j] + c
    ensures a * red.sum + n * c == 0.0
  {
    a, b, c := GradCoefficient(s, w), CenteredCoefficient(s, w, red, n), ConstantTerm(s, w, red, n);
    forall j | 0 <= j < |gi|
      ensures gi[j] == a * gs[j] + b * cen[j] + c
    {
      TrainingGradForm(gs[j], xs[j], m, s, w, red, n, a, b, c);
    }
    CancelMean(s, w, red, n, a, c);
  }

  /** An affine combination of a sequence and a zero-sum sequence sums to zero
      when the constant cancels the first sequence's weighted total. */
  lemma AffineSumZero(gs: seq<real>, cen: seq<real>, gi: seq<real>, a: real, b: real, c: real, total: real, n: real)
    requires |gs| == |cen| == |gi| && n == |gi| as real && total == Sum(gs)
    requires forall j :: 0 <= j < |gi| ==> gi[j] == a * gs[j] + b * cen[j] + c
    requires Sum(cen) == 0.0 && a * total + n * c == 0.0
    ensures Sum(gi) == 0.0
  {
    SumAffine(gs, cen, gi, a, b, c);
    assert b * Sum(cen) == 0.0;
    assert a * Sum(gs) == a * total;
    assert |gi| as real * c == n * c;
  }

  /** The three per-feature coefficients of the training-mode input gradient. */
  function GradCoefficient(s: real, w: real): real { s * w }

  function CenteredCoefficient(s: real, w: real, red: GradReduction, n: real): real
    requires n != 0.0
  {
    -((s * w) * (red.dotp * s * s / n))
  }

  function ConstantTerm(s: real, w: real, red: GradReduction, n: real): real
    requires n != 0.0
  {
    -((s * w) * red.sum / n)
  }

  /** The constant term removes the gradient's mean: `n` copies of it cancel
      the first coefficient times the gradient's sum. */
  lemma CancelMean(s: real, w: real, red: GradReduction, n: real, a: real, c: real)
    requires n != 0.0 && a == GradCoefficient(s, w) && c == ConstantTerm(s, w, red, n)
    ensures a * red.sum + n * c == 0.0
  {
  }

  /** The training-mode formula as a combination of the gradient, the centred
      input and a constant. */
  lemma TrainingGradForm(g: real, v: real, m: real, s: real, w: real, red: GradReduction, n: real,
                         a: real, b: real, c: real)
    requires n != 0.0
    requires a == GradCoefficient(s, w) && b == CenteredCoefficient(s, w, red, n) && c == ConstantTerm(s, w, red, n)
    ensures GradInputAt(true, g, v, m, s, w, red, n) == a * g + b * (v - m) + c
  {
    var k := red.dotp * s * s / n;
    var q := red.sum / n;
    assert GradInputAt(true, g, v, m, s, w, red, n) == (g - q - (v - m) * k) * s * w;
    assert (g - q - (v - m) * k) * (s * w) == (s * w) * g + (-((s * w) * k)) * (v - m) + (-((s * w) * q));
    assert (s * w) * q == (s * w) * red.sum / n;
  }

  /** An absent weight acts as a weight of ones in the input gradient. */
  lemma AbsentWeightActsAsOnesBackward(
    train: bool, go: seq<real>, x: seq<real>, sh: Shape,
    mean: seq<real>, invstd: seq<real>, red: seq<GradReduction>)
    requires |x| == |go| == sh.Numel() && |mean| == |invstd| == |red| == sh.channels
    ensures GradInput(train, go, x, sh, None, mean, invstd, red)
         == GradInput(train, go, x, sh, Some(Ones(sh.channels)), mean, invstd, red)
  {
    var a := GradInput(train, go, x, sh, None, mean, invstd, red);
    var b := GradInput(train, go, x, sh, Some(Ones(sh.channels)), mean, invstd, red);
    forall k | 0 <= k < |x| ensures a[k] == b[k] {
      var c := ChannelOf(sh, k);
      assert WeightAt(None, c) == WeightAt(Some(Ones(sh.channels)), c);
    }
  }
}
