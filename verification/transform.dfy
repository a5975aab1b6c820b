/** The transform applier, `batch_norm_cpu_transform_input_template`, and its
    contiguous inference fast path, `batch_norm_cpu_inference_contiguous`. */
module Transform {
  import opened Wrappers
  import opened Layout
  import opened Params

  /** The general path's per-element formula, `((i - mean) * invstd) * w + b`. */
  function Normalize(v: real, mean: real, invstd: real, w: real, b: real): real {
    ((v - mean) * invstd) * w + b
  }

  /** The general path over the flat buffer: each element is normalised with
      the statistics and parameters of its own channel. */
  function GeneralTransform(
    x: seq<real>, sh: Shape, w: Option<seq<real>>, b: Option<seq<real>>,
    mean: seq<real>, invstd: seq<real>): (r: seq<real>)
    requires |x| == sh.Numel() && |mean| == sh.channels && |invstd| == sh.channels
    requires Fits(w, sh.channels) && Fits(b, sh.channels)
    ensures |r| == |x|
    ensures forall f, j :: 0 <= f < sh.channels && 0 <= j < sh.PerFeature() ==>
      FeatureSlice(r, sh, f)[j] ==
        Normalize(FeatureSlice(x, sh, f)[j], mean[f], invstd[f], WeightAt(w, f), BiasAt(b, f))
  {
    var r := seq(|x|, k requires 0 <= k < |x| =>
      var c := ChannelOf(sh, k);
      Normalize(x[k], mean[c], invstd[c], WeightAt(w, c), BiasAt(b, c)));
    GeneralTransformPerFeature(x, sh, w, b, mean, invstd, r);
    r
  }

  /** The flat definition agrees with normalising each `input.select(1, f)`. */
  lemma GeneralTransformPerFeature(
    x: seq<real>, sh: Shape, w: Option<seq<real>>, b: Option<seq<real>>,
    mean: seq<real>, invstd: seq<real>, r: seq<real>)
    requires |x| == sh.Numel() && |mean| == sh.channels && |invstd| == sh.channels
    requires Fits(w, sh.channels) && Fits(b, sh.channels)
    requires |r| == |x|
    requires forall k :: 0 <= k < |x| ==>
      r[k] == Normalize(x[k], mean[ChannelOf(sh, k)], invstd[ChannelOf(sh, k)],
                        WeightAt(w, ChannelOf(sh, k)), BiasAt(b, ChannelOf(sh, k)))
    ensures forall f, j :: 0 <= f < sh.channels && 0 <= j < sh.PerFeature() ==>
      FeatureSlice(r, sh, f)[j] ==
        Normalize(FeatureSlice(x, sh, f)[j], mean[f], invstd[f], WeightAt(w, f), BiasAt(b, f))
  {
    forall f, j | 0 <= f < sh.channels && 0 <= j < sh.PerFeature()
      ensures FeatureSlice(r, sh, f)[j] ==
        Normalize(FeatureSlice(x, sh, f)[j], mean[f], invstd[f], WeightAt(w, f), BiasAt(b, f))
    {
      SliceOffsetInChannel(sh, f, j);
    }
  }

  /** Inverse standard deviation read from the running variance in evaluation
      mode, `1 / std::sqrt(running_var[f] + eps)` (no zero guard here). */
  function EvalInvStd(runningVar: seq<real>, eps: real, rsqrt: real -> real): (r: seq<real>)
    ensures |r| == |runningVar|
  {
    seq(|runningVar|, c requires 0 <= c < |runningVar| => rsqrt(runningVar[c] + eps))
  }

  /** The fast path's per-channel linear and constant terms. */
  datatype Coefficients = Coefficients(alpha: seq<real>, beta: seq<real>)

  /** `alpha[c] = inv_var * w` and `beta[c] = b - mean * inv_var * w`: one
      multiply-add per element reproduces the general formula exactly. */
  function FastPathCoefficients(
    w: Option<seq<real>>, b: Option<seq<real>>, mean: seq<real>, variance: seq<real>,
    eps: real, rsqrt: real -> real): (r: Coefficients)
    requires |variance| == |mean| && Fits(w, |mean|) && Fits(b, |mean|)
    ensures |r.alpha| == |mean| && |r.beta| == |mean|
    ensures forall c, v :: 0 <= c < |mean| ==>
      v * r.alpha[c] + r.beta[c] ==
        Normalize(v, mean[c], EvalInvStd(variance, eps, rsqrt)[c], WeightAt(w, c), BiasAt(b, c))
  {
    var C := |mean|;
    var alpha := seq(C, c requires 0 <= c < C => Alpha(w, variance, eps, rsqrt, c));
    var beta := seq(C, c requires 0 <= c < C => Beta(w, b, mean, variance, eps, rsqrt, c));
    CoefficientsAlgebra(w, b, mean, variance, eps, rsqrt, alpha, beta);
    Coefficients(alpha, beta)
  }

  /** The linear term of channel c, `inv_var(c) * weight(c)`. */
  function Alpha(w: Option<seq<real>>, variance: seq<real>, eps: real, rsqrt: real -> real, c: nat): real
    requires c < |variance| && Fits(w, |variance|)
  {
    rsqrt(variance[c] + eps) * WeightAt(w, c)
  }

  /** The constant term of channel c, `bias(c) - mean(c) * inv_var(c) * weight(c)`. */
  function Beta(w: Option<seq<real>>, b: Option<seq<real>>, mean: seq<real>, variance: seq<real>,
                eps: real, rsqrt: real -> real, c: nat): real
    requires c < |variance| == |mean| && Fits(w, |mean|) && Fits(b, |mean|)
  {
    BiasAt(b, c) - mean[c] * rsqrt(variance[c] + eps) * WeightAt(w, c)
  }

  lemma CoefficientsAlgebra(
    w: Option<seq<real>>, b: Option<seq<real>>, mean: seq<real>, variance: seq<real>,
    eps: real, rsqrt: real -> real, alpha: seq<real>, beta: seq<real>)
    requires |variance| == |mean| == |alpha| == |beta| && Fits(w, |mean|) && Fits(b, |mean|)
    requires forall c :: 0 <= c < |mean| ==> alpha[c] == Alpha(w, variance, eps, rsqrt, c)
    requires forall c :: 0 <= c < |mean| ==> beta[c] == Beta(w, b, mean, variance, eps, rsqrt, c)
    ensures forall c, v :: 0 <= c < |mean| ==>
      v * alpha[c] + beta[c] ==
        Normalize(v, mean[c], EvalInvStd(variance, eps, rsqrt)[c], WeightAt(w, c), BiasAt(b, c))
  {
    forall c, v | 0 <= c < |mean|
      ensures v * alpha[c] + beta[c] ==
        Normalize(v, mean[c], EvalInvStd(variance, eps, rsqrt)[c], WeightAt(w, c), BiasAt(b, c))
    {
      MultiplyAddForm(v, mean[c], rsqrt(variance[c] + eps), WeightAt(w, c), BiasAt(b, c));
    }
  }

  /** `(v - m) * s * w + b == v * (s * w) + (b - m * s * w)` over the reals. */
  lemma MultiplyAddForm(v: real, m: real, s: real, w: real, b: real)
    ensures v * (s * w) + (b - m * s * w) == Normalize(v, m, s, w, b)
  {
  }

  /** `input * alpha + beta`. */
  function MultiplyAdd(v: real, alpha: real, beta: real): real {
    v * alpha + beta
  }

  /** The fast path's output, `input[offset] * alpha[c] + beta[c]`, over the flat buffer. */
  function FastPathTransform(x: seq<real>, sh: Shape, k: Coefficients): (r: seq<real>)
    requires |x| == sh.Numel() && |k.alpha| == sh.channels && |k.beta| == sh.channels
    ensures |r| == |x|
  {
    seq(|x|, j requires 0 <= j < |x| => MultiplyAdd(x[j], k.alpha[ChannelOf(sh, j)], k.beta[ChannelOf(sh, j)]))
  }

  /** Over the reals the fast path computes exactly what the general path
      computes from the running statistics. */
  lemma FastPathMatchesGeneral(
    x: seq<real>, sh: Shape, w: Option<seq<real>>, b: Option<seq<real>>,
    runningMean: seq<real>, runningVar: seq<real>, eps: real, rsqrt: real -> real)
    requires |x| == sh.Numel() && |runningMean| == sh.channels && |runningVar| == sh.channels
    requires Fits(w, sh.channels) && Fits(b, sh.channels)
    ensures FastPathTransform(x, sh, FastPathCoefficients(w, b, runningMean, runningVar, eps, rsqrt))
         == GeneralTransform(x, sh, w, b, runningMean, EvalInvStd(runningVar, eps, rsqrt))
  {
    var k := FastPathCoefficients(w, b, runningMean, runningVar, eps, rsqrt);
    var fast := FastPathTransform(x, sh, k);
    var general := GeneralTransform(x, sh, w, b, runningMean, EvalInvStd(runningVar, eps, rsqrt));
    forall j | 0 <= j < |x| ensures fast[j] == general[j] {
      var c := ChannelOf(sh, j);
      assert fast[j] == MultiplyAdd(x[j], k.alpha[c], k.beta[c]);
    }
  }

  /** `batch_norm_cpu_inference_contiguous`: precomputes alpha and beta per
      channel, then walks the buffer by explicit offset arithmetic.
      `visits` records every offset written, in order: each index of the
      buffer exactly once, in increasing order. */
  method InferenceContiguous(
    x: seq<real>, sh: Shape, w: Option<seq<real>>, b: Option<seq<real>>,
    runningMean: seq<real>, runningVar: seq<real>, eps: real, rsqrt: real -> real)
    returns (out: seq<real>, ghost visits: seq<nat>)
    requires |x| == sh.Numel() && |runningMean| == sh.channels && |runningVar| == sh.channels
    requires Fits(w, sh.channels) && Fits(b, sh.channels)
    requires sh.batch > 0 && sh.channels > 0
    ensures out == GeneralTransform(x, sh, w, b, runningMean, EvalInvStd(runningVar, eps, rsqrt))
    ensures visits == seq(sh.Numel(), k requires 0 <= k < sh.Numel() => k)
  {
    var coeffs := ComputeCoefficients(w, b, runningMean, runningVar, eps, rsqrt);
    if sh.image != 1 {
      out, visits := ApplyStrided(x, sh, coeffs);
    } else {
      out, visits := ApplyChannelVector(x, sh, coeffs);
    }
    FastPathMatchesGeneral(x, sh, w, b, runningMean, runningVar, eps, rsqrt);
  }

  /** The coefficient loop of the fast path, one channel at a time. */
  method ComputeCoefficients(
    w: Option<seq<real>>, b: Option<seq<real>>, mean: seq<real>, variance: seq<real>,
    eps: real, rsqrt: real -> real) returns (k: Coefficients)
    requires |variance| == |mean| && Fits(w, |mean|) && Fits(b, |mean|)
    ensures k == FastPathCoefficients(w, b, mean, variance, eps, rsqrt)
  {
    var C := |mean|;
    var alpha := new real[C];
    var beta := new real[C];
    var c := 0;
    while c < C
      invariant 0 <= c <= C
      invariant forall d :: 0 <= d < c ==> alpha[d] == Alpha(w, variance, eps, rsqrt, d)
      invariant forall d :: 0 <= d < c ==> beta[d] == Beta(w, b, mean, variance, eps, rsqrt, d)
    {
      alpha[c] := Alpha(w, variance, eps, rsqrt, c);
      beta[c] := Beta(w, b, mean, variance, eps, rsqrt, c);
      c := c + 1;
    }
    k := Coefficients(alpha[..], beta[..]);
    assert k.alpha == FastPathCoefficients(w, b, mean, variance, eps, rsqrt).alpha;
  }

  /** The `image_size != 1` loops: offset `n * C * S + c * S + i`. */
  method ApplyStrided(x: seq<real>, sh: Shape, k: Coefficients) returns (out: seq<real>, ghost visits: seq<nat>)
    requires |x| == sh.Numel() && |k.alpha| == sh.channels && |k.beta| == sh.channels
    ensures out == FastPathTransform(x, sh, k)
    ensures visits == seq(sh.Numel(), j requires 0 <= j < sh.Numel() => j)
  {
    var N, C, S := sh.batch, sh.channels, sh.image;
    ghost var expected := FastPathTransform(x, sh, k);
    var o := new real[|x|];
    visits := [];
    var n := 0;
    while n < N
      invariant 0 <= n <= N
      invariant |visits| == n * C * S <= |x|
      invariant forall j :: 0 <= j < |visits| ==> visits[j] == j
      invariant forall j :: 0 <= j < |visits| ==> o[j] == expected[j]
    {
      ghost var rowBase := n * C * S;
      NextBlock(n, C * S, N);
      var c := 0;
      while c < C
        invariant 0 <= c <= C
        invariant |visits| == rowBase + c * S <= |x|
        invariant forall j :: 0 <= j < |visits| ==> visits[j] == j
        invariant forall j :: 0 <= j < |visits| ==> o[j] == expected[j]
      {
        NextBlock(c, S, C);
        StridedRunInRange(sh, n, c);
        visits := ApplyImageRun(o, x, sh, k, n, c, expected, visits);
        assert |visits| == rowBase + (c + 1) * S;
        c := c + 1;
      }
      n := n + 1;
    }
    out := o[..];
  }

  /** The innermost loop of the strided walk: the S elements of channel c of
      batch entry n, at offsets `n * C * S + c * S + i`, which continue the
      run of offsets already written. */
  method ApplyImageRun(
    o: array<real>, x: seq<real>, sh: Shape, k: Coefficients, n: nat, c: nat,
    ghost expected: seq<real>, ghost visited: seq<nat>) returns (ghost visits: seq<nat>)
    requires |x| == sh.Numel() == o.Length && |k.alpha| == sh.channels && |k.beta| == sh.channels
    requires n < sh.batch && c < sh.channels
    requires expected == FastPathTransform(x, sh, k)
    requires |visited| == n * sh.channels * sh.image + c * sh.image
    requires |visited| + sh.image <= |x|
    requires forall j :: 0 <= j < |visited| ==> visited[j] == j && o[j] == expected[j]
    modifies o
    ensures |visits| == |visited| + sh.image
    ensures forall j :: 0 <= j < |visits| ==> visits[j] == j && o[j] == expected[j]
  {
    var S := sh.image;
    visits := visited;
    var i := 0;
    while i < S
      invariant 0 <= i <= S
      invariant |visits| == |visited| + i <= |x|
      invariant forall j :: 0 <= j < |visits| ==> visits[j] == j
      invariant forall j :: 0 <= j < |visits| ==> o[j] == expected[j]
    {
      var offset := Offset(sh, n, c, i);
      ChannelOfOffset(sh, n, c, i);
      o[offset] := MultiplyAdd(x[offset], k.alpha[c], k.beta[c]);
      assert o[offset] == expected[offset];
      visits := visits + [offset];
      i := i + 1;
    }
  }

  /** The `image_size == 1` loops: offset `n * C + c`. */
  method ApplyChannelVector(x: seq<real>, sh: Shape, k: Coefficients) returns (out: seq<real>, ghost visits: seq<nat>)
    requires |x| == sh.Numel() && |k.alpha| == sh.channels && |k.beta| == sh.channels
    requires sh.image == 1
    ensures out == FastPathTransform(x, sh, k)
    ensures visits == seq(sh.Numel(), j requires 0 <= j < sh.Numel() => j)
  {
    var N, C := sh.batch, sh.channels;
    ghost var expected := FastPathTransform(x, sh, k);
    var o := new real[|x|];
    visits := [];
    var n := 0;
    while n < N
      invariant 0 <= n <= N
      invariant |visits| == n * C <= |x|
      invariant forall j :: 0 <= j < |visits| ==> visits[j] == j
      invariant forall j :: 0 <= j < |visits| ==> o[j] == expected[j]
    {
      ghost var rowBase := n * C;
      NextBlock(n, C, N);
      var c := 0;
      while c < C
        invariant 0 <= c <= C
        invariant |visits| == rowBase + c <= |x|
        invariant forall j :: 0 <= j < |visits| ==> visits[j] == j
        invariant forall j :: 0 <= j < |visits| ==> o[j] == expected[j]
      {
        var offset := n * C + c;
        ChannelOfOffset(sh, n, c, 0);
        assert offset == Offset(sh, n, c, 0) == rowBase + c;
        o[offset] := MultiplyAdd(x[offset], k.alpha[c], k.beta[c]);
        assert o[offset] == expected[offset];
        visits := visits + [offset];
        c := c + 1;
      }
      n := n + 1;
    }
    out := o[..];
  }

  /** The run of channel c of batch entry n ends inside the buffer. */
  lemma StridedRunInRange(sh: Shape, n: nat, c: nat)
    requires n < sh.batch && c < sh.channels
    ensures n * sh.channels * sh.image + c * sh.image + sh.image <= sh.Numel()
  {
    if sh.image > 0 {
      OffsetInRange(sh, n, c, sh.image - 1);
    }
  }

  /** Block q of width w ends where block q + 1 starts, inside q < count blocks. */
  lemma NextBlock(q: nat, width: nat, count: nat)
    requires q < count
    ensures q * width + width == (q + 1) * width <= count * width
  {
    MulMonotone(count, q + 1, width);
  }

  /** Memory-contiguity of the tensors the fast-path test inspects. */
  datatype Contiguity = Contiguity(input: bool, weight: bool, bias: bool, runningMean: bool, runningVar: bool)

  /** The fast path is taken only in inference with every relevant tensor
      contiguous; an undefined weight or bias never blocks it. */
  function FastPathEligible(train: bool, contig: Contiguity, w: Option<seq<real>>, b: Option<seq<real>>): (r: bool)
    ensures r ==> !train
    ensures r ==> contig.input && contig.runningMean && contig.runningVar
    ensures r ==> (w.Some? ==> contig.weight) && (b.Some? ==> contig.bias)
    ensures !train && contig.input && contig.runningMean && contig.runningVar && w.None? && b.None? ==> r
    ensures !train && contig.input && contig.runningMean && contig.runningVar && contig.weight && contig.bias ==> r
  {
    && !train && contig.input
    && (w.None? || contig.weight) && (b.None? || contig.bias)
    && contig.runningMean && contig.runningVar
  }

  /** The fast path derives the image size as `numel / n_batch / n_channel`,
      an integer division by the batch and by the channel count. */
  predicate FastPathDefined(sh: Shape, train: bool, contig: Contiguity, w: Option<seq<real>>, b: Option<seq<real>>) {
    FastPathEligible(train, contig, w, b) ==> sh.batch > 0 && sh.channels > 0
  }

  /** The statistics the transform reads: the saved ones in training, the
      running ones in evaluation. */
  function UsedMean(train: bool, saveMean: Option<seq<real>>, runningMean: Option<seq<real>>, numFeatures: nat): (r: seq<real>)
    requires train ==> saveMean.Some?
    requires !train ==> runningMean.Some?
    requires Fits(saveMean, numFeatures) && Fits(runningMean, numFeatures)
    ensures |r| == numFeatures
  {
    if train then saveMean.value else runningMean.value
  }

  function UsedInvStd(train: bool, saveInvStd: Option<seq<real>>, runningVar: Option<seq<real>>,
                      eps: real, rsqrt: real -> real, numFeatures: nat): (r: seq<real>)
    requires train ==> saveInvStd.Some?
    requires !train ==> runningVar.Some?
    requires Fits(saveInvStd, numFeatures) && Fits(runningVar, numFeatures)
    ensures |r| == numFeatures
  {
    if train then saveInvStd.value else EvalInvStd(runningVar.value, eps, rsqrt)
  }

  /** `batch_norm_cpu_transform_input_template`: the fast path when eligible,
      otherwise the general per-feature path; either way the general formula. */
  function TransformInput(
    x: seq<real>, sh: Shape, w: Option<seq<real>>, b: Option<seq<real>>,
    saveMean: Option<seq<real>>, saveInvStd: Option<seq<real>>,
    runningMean: Option<seq<real>>, runningVar: Option<seq<real>>,
    train: bool, eps: real, contig: Contiguity, rsqrt: real -> real): (r: seq<real>)
    requires |x| == sh.Numel()
    requires Fits(w, sh.channels) && Fits(b, sh.channels)
    requires Fits(runningMean, sh.channels) && Fits(runningVar, sh.channels)
    requires train ==> saveMean.Some? && saveInvStd.Some?
    requires Fits(saveMean, sh.channels) && Fits(saveInvStd, sh.channels)
    requires !train ==> runningMean.Some? && runningVar.Some?
    requires FastPathDefined(sh, train, contig, w, b)
    ensures r == GeneralTransform(x, sh, w, b, UsedMean(train, saveMean, runningMean, sh.channels),
                                  UsedInvStd(train, saveInvStd, runningVar, eps, rsqrt, sh.channels))
  {
    if FastPathEligible(train, contig, w, b) then
      FastPathMatchesGeneral(x, sh, w, b, runningMean.value, runningVar.value, eps, rsqrt);
      FastPathTransform(x, sh, FastPathCoefficients(w, b, runningMean.value, runningVar.value, eps, rsqrt))
    else
      GeneralTransform(x, sh, w, b, UsedMean(train, saveMean, runningMean, sh.channels),
                       UsedInvStd(train, saveInvStd, runningVar, eps, rsqrt, sh.channels))
  }
}
