/** The wrappers that reuse the batch-norm engine on reshaped inputs:
    `layer_norm`, `group_norm` and `instance_norm`. Each checks shapes, views
    the input as a single-sample batch whose features are the rows it
    normalises, runs batch norm on that view, and maps the result back. */
module Norms {
  import opened Wrappers
  import opened Layout
  import opened Sums
  import opened Params
  import opened Stats
  import opened Transform
  import opened Forward

  /** A dense tensor: its sizes and its elements in row-major order. */
  datatype Tensor = Tensor(sizes: seq<nat>, data: seq<real>) {
    predicate Valid() { |data| == Product(sizes) }
  }

  /** The element count of a tensor with these sizes. */
  function Product(dims: seq<nat>): nat {
    if |dims| == 0 then 1 else dims[0] * Product(dims[1..])
  }

  lemma {:induction false} ProductAppend(a: seq<nat>, b: seq<nat>)
    ensures Product(a + b) == Product(a) * Product(b)
  {
    if |a| == 0 {
      assert a + b == b;
    } else {
      assert (a + b)[1..] == a[1..] + b;
      ProductAppend(a[1..], b);
      assert Product(a + b) == a[0] * (Product(a[1..]) * Product(b));
    }
  }

  function Data(t: Option<Tensor>): (r: Option<seq<real>>)
    ensures r.Some? <==> t.Some?
    ensures r.Some? ==> r.value == t.value.data
  {
    if t.Some? then Some(t.value.data) else None
  }

  /** The input viewed as N x C x S: the batch, the channels, and every
      trailing dimension collapsed. */
  function ChannelShape(sizes: seq<nat>): (sh: Shape)
    requires |sizes| >= 2
    ensures sh.batch == sizes[0] && sh.channels == sizes[1] && sh.image == Product(sizes[2..])
    ensures sh.Numel() == Product(sizes)
  {
    assert sizes[1..][1..] == sizes[2..];
    Shape(sizes[0], sizes[1], Product(sizes[2..]))
  }

  /** Batch norm's statistics of one row, as a reference: its mean and
      `InvStd` of its biased variance. */
  function RowInvStd(row: seq<real>, eps: real, rsqrt: real -> real): real
    requires |row| > 0
  {
    InvStd(VarSum(row, Mean(row)) / |row| as real, eps, rsqrt)
  }

  /** With the statistics training saves, the general transform of a
      single-sample view normalises each feature's run of S consecutive
      elements with that run's own mean and deviation. */
  lemma TrainingRow(x: seq<real>, sh: Shape, w: Option<seq<real>>, b: Option<seq<real>>,
                    eps: real, rsqrt: real -> real, f: nat, j: nat)
    requires sh.batch == 1 && |x| == sh.Numel() && Fits(w, sh.channels) && Fits(b, sh.channels)
    requires f < sh.channels && j < sh.image
    ensures RowStart(f, sh.image) + sh.image <= |x|
    ensures var row := Row(x, sh.image, f);
      GeneralTransform(x, sh, w, b, SavedMeans(x, sh), SavedInvStds(x, sh, eps, rsqrt))[RowStart(f, sh.image) + j]
      == Normalize(row[j], Mean(row), RowInvStd(row, eps, rsqrt), WeightAt(w, f), BiasAt(b, f))
  {
    var S := sh.image;
    assert sh.PerFeature() == S;
    var out := GeneralTransform(x, sh, w, b, SavedMeans(x, sh), SavedInvStds(x, sh, eps, rsqrt));
    SingleBatchSlice(x, sh, f);
    SingleBatchSlice(out, sh, f);
    var row := Row(x, S, f);
    assert FeatureSlice(out, sh, f)[j] == out[RowStart(f, S) + j];
    assert FeatureSlice(x, sh, f)[j] == row[j];
    MeanUnique(StatsOf(x, sh, f).mean, row);
  }

  /** Layer normalisation as a reference independent of batch norm: each of
      the `rows` runs of S consecutive elements is normalised with its own
      mean and `RowInvStd`. */
  function RowNormalize(x: seq<real>, rows: nat, S: nat, eps: real, rsqrt: real -> real): (y: seq<real>)
    requires |x| == rows * S
    ensures |y| == |x|
  {
    seq(|x|, k requires 0 <= k < |x| => NormalizedInRow(x, rows, S, k, eps, rsqrt))
  }

  function NormalizedInRow(x: seq<real>, rows: nat, S: nat, k: nat, eps: real, rsqrt: real -> real): real
    requires |x| == rows * S && k < |x|
  {
    RowOfIndex(rows, S, k);
    var row := Row(x, S, k / S);
    Normalize(row[k % S], Mean(row), RowInvStd(row, eps, rsqrt), 1.0, 0.0)
  }

  /** Element k of `rows` runs of length S lies in run `k / S`, at `k % S`. */
  lemma RowOfIndex(rows: nat, S: nat, k: nat)
    requires k < rows * S
    ensures S > 0 && k / S < rows
    ensures k == RowStart(k / S, S) + k % S && RowStart(k / S, S) + S <= rows * S
  {
    var f := k / S;
    if rows <= f {
      MulMonotone(f, rows, S);
      assert false;
    }
    MulMonotone(rows, f + 1, S);
  }

  /** Training batch norm without parameters on a single-sample view is the
      row-wise reference normalisation. */
  lemma TrainingViewIsRowNormalize(x: seq<real>, sh: Shape, eps: real, contig: Contiguity, rsqrt: real -> real)
    requires sh.batch == 1 && CpuArguments(x, sh, None, None, None, None, true)
    ensures |x| == sh.channels * sh.image
    ensures BatchNormCpu(x, sh, None, None, None, None, true, 0.0, eps, contig, rsqrt).output
            == RowNormalize(x, sh.channels, sh.image, eps, rsqrt)
  {
    TrainingSummary(x, sh, None, None, None, None, 0.0, eps, contig, rsqrt);
    SavedTransformIsRowNormalize(x, sh, None, None, eps, rsqrt);
  }

  /** The four-way affine step of `layer_norm` and `group_norm`: `addcmul`
      with both parameters, `mul` with the weight only, `add` with the bias
      only, the normalised tensor unchanged with neither. `idx[k]` is the
      parameter entry element k is broadcast against. */
  function BroadcastAffine(out: seq<real>, w: Option<seq<real>>, b: Option<seq<real>>, idx: seq<nat>): (r: seq<real>)
    requires |idx| == |out|
    requires Broadcastable(idx, w, b)
    ensures |r| == |out|
    ensures forall k :: 0 <= k < |r| ==> r[k] == ScaleShift(out[k], WeightAt(w, idx[k]), BiasAt(b, idx[k]))
  {
    if w.Some? && b.Some? then
      seq(|out|, k requires 0 <= k < |out| => b.value[idx[k]] + out[k] * w.value[idx[k]])
    else if w.Some? then
      seq(|out|, k requires 0 <= k < |out| => out[k] * w.value[idx[k]])
    else if b.Some? then
      seq(|out|, k requires 0 <= k < |out| => out[k] + b.value[idx[k]])
    else
      out
  }

  /** Every parameter entry an element is broadcast against exists. */
  predicate Broadcastable(idx: seq<nat>, w: Option<seq<real>>, b: Option<seq<real>>) {
    forall k :: 0 <= k < |idx| ==> (w.Some? ==> idx[k] < |w.value|) && (b.Some? ==> idx[k] < |b.value|)
  }

  /** `v * w + b`: the elementwise affine step. */
  function ScaleShift(v: real, w: real, b: real): real { v * w + b }

  /** Broadcasting against trailing dimensions of extent S: element k meets
      parameter entry `k % S`. */
  function TrailingIndex(count: nat, S: nat): (idx: seq<nat>)
    requires S > 0
    ensures |idx| == count && forall k :: 0 <= k < count ==> idx[k] < S
  {
    seq(count, k requires 0 <= k < count => k % S)
  }

  /** Element j of row f meets parameter entry j. */
  lemma TrailingIndexOfRow(count: nat, S: nat, f: nat, j: nat)
    requires j < S && RowStart(f, S) + S <= count
    ensures TrailingIndex(count, S)[RowStart(f, S) + j] == j
  {
    DivModUnique(RowStart(f, S) + j, S, f, j);
  }

  /** Normalising with unit weight and zero bias and then scaling and
      shifting is normalising with that weight and bias. */
  lemma AffineAfterNormalize(r: real, out: real, v: real, m: real, s: real, w: real, b: real)
    requires r == ScaleShift(out, w, b) && out == Normalize(v, m, s, 1.0, 0.0)
    ensures r == Normalize(v, m, s, w, b)
  {
  }

  /** In a single-sample view the channel of element k is its run `k / S`. */
  lemma SingleBatchChannel(sh: Shape, k: nat)
    requires sh.batch == 1 && k < sh.Numel()
    ensures ChannelOf(sh, k) == k / sh.image
  {
    RowOfIndex(sh.channels, sh.image, k);
    DivModUnique(k / sh.image, sh.channels, 0, k / sh.image);
  }

  /** Element k of the reference normalisation scaled per channel of a
      single-sample view: run `k / S` normalised, then that run's weight and
      bias. */
  lemma ChannelRowEntry(x: seq<real>, sh: Shape, w: Option<seq<real>>, b: Option<seq<real>>,
                        eps: real, rsqrt: real -> real, k: nat)
    requires sh.batch == 1 && |x| == sh.channels * sh.image && k < |x|
    requires Fits(w, sh.channels) && Fits(b, sh.channels)
    ensures sh.image > 0 && k / sh.image < sh.channels && RowStart(k / sh.image, sh.image) + sh.image <= |x|
    ensures 0 <= k % sh.image < sh.image && k == RowStart(k / sh.image, sh.image) + k % sh.image
    ensures Broadcastable(ChannelIndex(sh), w, b)
    ensures var row := Row(x, sh.image, k / sh.image);
      BroadcastAffine(RowNormalize(x, sh.channels, sh.image, eps, rsqrt), w, b, ChannelIndex(sh))[k]
      == Normalize(row[k % sh.image], Mean(row), RowInvStd(row, eps, rsqrt), WeightAt(w, k / sh.image), BiasAt(b, k / sh.image))
  {
    RowOfIndex(sh.channels, sh.image, k);
    SingleBatchChannel(sh, k);
    ScaledRowEntry(x, sh.channels, sh.image, w, b, ChannelIndex(sh), eps, rsqrt, k / sh.image, k % sh.image);
  }

  /** Training batch norm on a single-sample view with a weight and a bias is
      the reference normalisation followed by the per-channel affine step. */
  lemma TrainingViewIsScaledRowNormalize(
    x: seq<real>, sh: Shape, w: Option<seq<real>>, b: Option<seq<real>>,
    runningMean: Option<seq<real>>, runningVar: Option<seq<real>>,
    momentum: real, eps: real, contig: Contiguity, rsqrt: real -> real)
    requires sh.batch == 1 && CpuArguments(x, sh, w, b, runningMean, runningVar, true)
    ensures |x| == sh.channels * sh.image && Broadcastable(ChannelIndex(sh), w, b)
    ensures BatchNormCpu(x, sh, w, b, runningMean, runningVar, true, momentum, eps, contig, rsqrt).output
            == BroadcastAffine(RowNormalize(x, sh.channels, sh.image, eps, rsqrt), w, b, ChannelIndex(sh))
  {
    TrainingSummary(x, sh, w, b, runningMean, runningVar, momentum, eps, contig, rsqrt);
    SavedTransformIsRowNormalize(x, sh, w, b, eps, rsqrt);
  }

  /** The general transform of a single-sample view with the statistics
      training saves is the reference normalisation followed by the
      per-channel affine step. */
  lemma SavedTransformIsRowNormalize(x: seq<real>, sh: Shape, w: Option<seq<real>>, b: Option<seq<real>>,
                                     eps: real, rsqrt: real -> real)
    requires sh.batch == 1 && |x| == sh.Numel() && sh.image > 0
    requires Fits(w, sh.channels) && Fits(b, sh.channels)
    ensures |x| == sh.channels * sh.image && Broadcastable(ChannelIndex(sh), w, b)
    ensures GeneralTransform(x, sh, w, b, SavedMeans(x, sh), SavedInvStds(x, sh, eps, rsqrt))
            == BroadcastAffine(RowNormalize(x, sh.channels, sh.image, eps, rsqrt), w, b, ChannelIndex(sh))
  {
    assert |x| == sh.channels * sh.image;
    forall k | 0 <= k < |x|
      ensures GeneralTransform(x, sh, w, b, SavedMeans(x, sh), SavedInvStds(x, sh, eps, rsqrt))[k]
              == BroadcastAffine(RowNormalize(x, sh.channels, sh.image, eps, rsqrt), w, b, ChannelIndex(sh))[k]
    {
      SavedTransformEntry(x, sh, w, b, eps, rsqrt, k);
    }
  }

  lemma SavedTransformEntry(x: seq<real>, sh: Shape, w: Option<seq<real>>, b: Option<seq<real>>,
                            eps: real, rsqrt: real -> real, k: nat)
    requires sh.batch == 1 && |x| == sh.Numel() && Fits(w, sh.channels) && Fits(b, sh.channels) && k < |x|
    ensures |x| == sh.channels * sh.image && Broadcastable(ChannelIndex(sh), w, b)
    ensures GeneralTransform(x, sh, w, b, SavedMeans(x, sh), SavedInvStds(x, sh, eps, rsqrt))[k]
            == BroadcastAffine(RowNormalize(x, sh.channels, sh.image, eps, rsqrt), w, b, ChannelIndex(sh))[k]
  {
    ChannelRowEntry(x, sh, w, b, eps, rsqrt, k);
    TrainingElement(x, sh, w, b, eps, rsqrt, k);
  }

  /** `TrainingRow` addressed by flat index: element k is entry `k % S` of run `k / S`. */
  lemma TrainingElement(x: seq<real>, sh: Shape, w: Option<seq<real>>, b: Option<seq<real>>,
                        eps: real, rsqrt: real -> real, k: nat)
    requires sh.batch == 1 && |x| == sh.Numel() && Fits(w, sh.channels) && Fits(b, sh.channels) && k < |x|
    ensures sh.image > 0 && k / sh.image < sh.channels && RowStart(k / sh.image, sh.image) + sh.image <= |x|
    ensures 0 <= k % sh.image < sh.image
    ensures var row := Row(x, sh.image, k / sh.image);
      GeneralTransform(x, sh, w, b, SavedMeans(x, sh), SavedInvStds(x, sh, eps, rsqrt))[k]
      == Normalize(row[k % sh.image], Mean(row), RowInvStd(row, eps, rsqrt), WeightAt(w, k / sh.image), BiasAt(b, k / sh.image))
  {
    RowOfIndex(sh.channels, sh.image, k);
    TrainingRow(x, sh, w, b, eps, rsqrt, k / sh.image, k % sh.image);
  }

  // ---------------------------------------------------------------- layer_norm

  /** The trailing dimensions of `sizes` are `suffix`. */
  ghost predicate EndsWith(sizes: seq<nat>, suffix: seq<nat>) {
    exists lead: seq<nat> :: sizes == lead + suffix
  }

  lemma EndsWithSlice(sizes: seq<nat>, suffix: seq<nat>)
    ensures EndsWith(sizes, suffix) <==> |suffix| <= |sizes| && sizes[|sizes| - |suffix|..] == suffix
  {
    if |suffix| <= |sizes| && sizes[|sizes| - |suffix|..] == suffix {
      var lead := sizes[..|sizes| - |suffix|];
      assert sizes == lead + suffix;
    }
    if EndsWith(sizes, suffix) {
      var lead :| sizes == lead + suffix;
      assert sizes[|lead|..] == suffix;
    }
  }

  /** What `layer_norm` accepts: a non-empty `normalized_shape`, parameters of
      exactly that shape, and an input whose trailing dimensions are it. */
  ghost predicate LayerNormShapesValid(sizes: seq<nat>, normShape: seq<nat>, weight: Option<Tensor>, bias: Option<Tensor>) {
    && |normShape| >= 1
    && (weight.Some? ==> weight.value.sizes == normShape)
    && (bias.Some? ==> bias.value.sizes == normShape)
    && EndsWith(sizes, normShape)
  }

  /** The checks at the head of `layer_norm`, in source order. */
  function LayerNormCheck(sizes: seq<nat>, normShape: seq<nat>, weight: Option<Tensor>, bias: Option<Tensor>): (r: Option<BnError>)
    ensures r.None? <==> LayerNormShapesValid(sizes, normShape, weight, bias)
    ensures |normShape| == 0 ==> r == Some(InvalidShape(EmptyNormalizedShape))
    ensures |normShape| > 0 && weight.Some? && weight.value.sizes != normShape ==>
      r == Some(InvalidShape(WeightShape(weight.value.sizes)))
    ensures r.Some? ==> r.value.InvalidShape?
  {
    EndsWithSlice(sizes, normShape);
    if |normShape| < 1 then Some(InvalidShape(EmptyNormalizedShape))
    else if weight.Some? && weight.value.sizes != normShape then Some(InvalidShape(WeightShape(weight.value.sizes)))
    else if bias.Some? && bias.value.sizes != normShape then Some(InvalidShape(BiasShape(bias.value.sizes)))
    else if |sizes| < |normShape| || sizes[|sizes| - |normShape|..] != normShape then Some(InvalidShape(InputShape))
    else None
  }

  /** The `(1, n, -1)` view: one feature per index of the leading dimensions,
      each holding one element per position of `normalized_shape`. */
  function LayerNormRows(sizes: seq<nat>, normShape: seq<nat>): (sh: Shape)
    requires EndsWith(sizes, normShape)
    ensures sh.batch == 1 && sh.image == Product(normShape)
    ensures sh.Numel() == Product(sizes)
  {
    EndsWithSlice(sizes, normShape);
    var lead := sizes[..|sizes| - |normShape|];
    assert sizes == lead + normShape;
    ProductAppend(lead, normShape);
    Shape(1, Product(lead), Product(normShape))
  }

  /** `layer_norm` on a non-empty CPU input. */
  function LayerNorm(
    x: Tensor, normShape: seq<nat>, weight: Option<Tensor>, bias: Option<Tensor>,
    eps: real, contig: Contiguity, rsqrt: real -> real): (r: Result<Tensor, BnError>)
    requires x.Valid() && |x.data| > 0
    requires weight.Some? ==> weight.value.Valid()
    requires bias.Some? ==> bias.value.Valid()
    ensures r.Failure? <==> !LayerNormShapesValid(x.sizes, normShape, weight, bias)
    ensures r.Failure? ==> Some(r.error) == LayerNormCheck(x.sizes, normShape, weight, bias)
    ensures r.Success? ==> r.value.sizes == x.sizes && r.value.Valid()
  {
    var check := LayerNormCheck(x.sizes, normShape, weight, bias);
    if check.Some? then Failure(check.value)
    else
      var sh := LayerNormRows(x.sizes, normShape);
      ExtentsPositive(sh, 0);
      var bn := BatchNormCpu(x.data, sh, None, None, None, None, true, 0.0, eps, contig, rsqrt);
      Success(Tensor(x.sizes, BroadcastAffine(bn.output, Data(weight), Data(bias), TrailingIndex(|x.data|, sh.image))))
  }

  /** The result of a successful `layer_norm`, one step unfolded. */
  lemma LayerNormUnfold(
    x: Tensor, normShape: seq<nat>, weight: Option<Tensor>, bias: Option<Tensor>,
    eps: real, contig: Contiguity, rsqrt: real -> real)
    requires x.Valid() && |x.data| > 0
    requires weight.Some? ==> weight.value.Valid()
    requires bias.Some? ==> bias.value.Valid()
    requires LayerNormShapesValid(x.sizes, normShape, weight, bias)
    ensures var sh := LayerNormRows(x.sizes, normShape);
      && sh.image > 0 && CpuArguments(x.data, sh, None, None, None, None, true)
      && Product(normShape) == sh.image
      && (weight.Some? ==> |weight.value.data| == sh.image)
      && (bias.Some? ==> |bias.value.data| == sh.image)
    ensures var sh := LayerNormRows(x.sizes, normShape);
      LayerNorm(x, normShape, weight, bias, eps, contig, rsqrt).value.data
      == BroadcastAffine(BatchNormCpu(x.data, sh, None, None, None, None, true, 0.0, eps, contig, rsqrt).output,
                         Data(weight), Data(bias), TrailingIndex(|x.data|, sh.image))
  {
    ExtentsPositive(LayerNormRows(x.sizes, normShape), 0);
  }

  /** `layer_norm` is the row-wise reference normalisation, scaled and
      shifted by the weight and bias entry at each position of
      `normalized_shape`. */
  lemma LayerNormIsRowNormalize(
    x: Tensor, normShape: seq<nat>, weight: Option<Tensor>, bias: Option<Tensor>,
    eps: real, contig: Contiguity, rsqrt: real -> real)
    requires x.Valid() && |x.data| > 0
    requires weight.Some? ==> weight.value.Valid()
    requires bias.Some? ==> bias.value.Valid()
    requires LayerNormShapesValid(x.sizes, normShape, weight, bias)
    ensures var rows, S := LayerNormRows(x.sizes, normShape).channels, Product(normShape);
      S > 0 && |x.data| == rows * S && Fits(Data(weight), S) && Fits(Data(bias), S)
    ensures var rows, S := LayerNormRows(x.sizes, normShape).channels, Product(normShape);
      LayerNorm(x, normShape, weight, bias, eps, contig, rsqrt).value.data
      == BroadcastAffine(RowNormalize(x.data, rows, S, eps, rsqrt), Data(weight), Data(bias), TrailingIndex(|x.data|, S))
  {
    LayerNormUnfold(x, normShape, weight, bias, eps, contig, rsqrt);
    TrainingViewIsRowNormalize(x.data, LayerNormRows(x.sizes, normShape), eps, contig, rsqrt);
  }

  /** Element j of row f of the scaled reference normalisation: the element
      normalised with its row's statistics, then scaled and shifted by the
      parameter entry it is broadcast against. */
  lemma ScaledRowEntry(
    x: seq<real>, rows: nat, R: nat, w: Option<seq<real>>, b: Option<seq<real>>, idx: seq<nat>,
    eps: real, rsqrt: real -> real, f: nat, j: nat)
    requires |x| == rows * R && f < rows && j < R
    requires |idx| == |x| && Broadcastable(idx, w, b)
    ensures RowStart(f, R) + R <= |x|
    ensures var row := Row(x, R, f); var k := RowStart(f, R) + j;
      BroadcastAffine(RowNormalize(x, rows, R, eps, rsqrt), w, b, idx)[k]
      == Normalize(row[j], Mean(row), RowInvStd(row, eps, rsqrt), WeightAt(w, idx[k]), BiasAt(b, idx[k]))
  {
    var k := RowStart(f, R) + j;
    var y := RowNormalize(x, rows, R, eps, rsqrt);
    MulMonotone(rows, f + 1, R);
    DivModUnique(k, R, f, j);
    var row := Row(x, R, f);
    assert y[k] == Normalize(row[j], Mean(row), RowInvStd(row, eps, rsqrt), 1.0, 0.0);
    AffineAfterNormalize(BroadcastAffine(y, w, b, idx)[k], y[k], row[j], Mean(row), RowInvStd(row, eps, rsqrt),
                         WeightAt(w, idx[k]), BiasAt(b, idx[k]));
  }

  /** `ScaledRowEntry` for parameters broadcast against the trailing
      dimensions: element j of every row meets entry j. */
  lemma TrailingRowEntry(
    y: seq<real>, x: seq<real>, rows: nat, S: nat, w: Option<seq<real>>, b: Option<seq<real>>,
    eps: real, rsqrt: real -> real, f: nat, j: nat)
    requires |x| == rows * S && f < rows && j < S
    requires Fits(w, S) && Fits(b, S)
    requires y == BroadcastAffine(RowNormalize(x, rows, S, eps, rsqrt), w, b, TrailingIndex(|x|, S))
    ensures RowStart(f, S) + S <= |x| == |y|
    ensures var row := Row(x, S, f);
      y[RowStart(f, S) + j] == Normalize(row[j], Mean(row), RowInvStd(row, eps, rsqrt), WeightAt(w, j), BiasAt(b, j))
  {
    ScaledRowEntry(x, rows, S, w, b, TrailingIndex(|x|, S), eps, rsqrt, f, j);
    TrailingIndexOfRow(|x|, S, f, j);
  }

  /** Every row of the reference normalisation has mean zero. */
  lemma RowNormalizeCentred(x: seq<real>, rows: nat, R: nat, eps: real, rsqrt: real -> real, f: nat)
    requires |x| == rows * R && f < rows
    ensures RowStart(f, R) + R <= |x|
    ensures IsMean(0.0, Row(RowNormalize(x, rows, R, eps, rsqrt), R, f))
  {
    MulMonotone(rows, f + 1, R);
    var row := Row(x, R, f);
    var out := Row(RowNormalize(x, rows, R, eps, rsqrt), R, f);
    if R > 0 {
      forall j | 0 <= j < R
        ensures out[j] == Normalize(row[j], Mean(row), RowInvStd(row, eps, rsqrt), 1.0, 0.0)
      {
        DivModUnique(RowStart(f, R) + j, R, f, j);
      }
      NormalizedSliceMean(row, out, Mean(row), RowInvStd(row, eps, rsqrt), 1.0, 0.0);
    }
  }

  /** Each index of the leading dimensions is a row normalised with its own
      mean and deviation, then scaled and shifted by the weight and bias entry
      at the same position of `normalized_shape`. */
  lemma LayerNormNormalisesRows(
    x: Tensor, normShape: seq<nat>, weight: Option<Tensor>, bias: Option<Tensor>,
    eps: real, contig: Contiguity, rsqrt: real -> real, f: nat, j: nat)
    requires x.Valid() && |x.data| > 0
    requires weight.Some? ==> weight.value.Valid()
    requires bias.Some? ==> bias.value.Valid()
    requires LayerNormShapesValid(x.sizes, normShape, weight, bias)
    requires f < LayerNormRows(x.sizes, normShape).channels && j < Product(normShape)
    ensures RowStart(f, Product(normShape)) + Product(normShape) <= |x.data|
    ensures var row := Row(x.data, Product(normShape), f);
      LayerNorm(x, normShape, weight, bias, eps, contig, rsqrt).value.data[RowStart(f, Product(normShape)) + j]
      == Normalize(row[j], Mean(row), RowInvStd(row, eps, rsqrt), WeightAt(Data(weight), j), BiasAt(Data(bias), j))
  {
    LayerNormIsRowNormalize(x, normShape, weight, bias, eps, contig, rsqrt);
    TrailingRowEntry(LayerNorm(x, normShape, weight, bias, eps, contig, rsqrt).value.data,
                     x.data, LayerNormRows(x.sizes, normShape).channels, Product(normShape), Data(weight), Data(bias),
                     eps, rsqrt, f, j);
  }

  /** Without weight and bias every row of the result has mean zero. */
  lemma LayerNormRowsCentred(
    x: Tensor, normShape: seq<nat>, eps: real, contig: Contiguity, rsqrt: real -> real, f: nat)
    requires x.Valid() && |x.data| > 0
    requires LayerNormShapesValid(x.sizes, normShape, None, None)
    requires f < LayerNormRows(x.sizes, normShape).channels
    ensures RowStart(f, Product(normShape)) + Product(normShape) <= |x.data|
    ensures IsMean(0.0, Row(LayerNorm(x, normShape, None, None, eps, contig, rsqrt).value.data, Product(normShape), f))
  {
    LayerNormIsRowNormalize(x, normShape, None, None, eps, contig, rsqrt);
    RowNormalizeCentred(x.data, LayerNormRows(x.sizes, normShape).channels, Product(normShape), eps, rsqrt, f);
  }

  // ---------------------------------------------------------------- group_norm

  /** What `group_norm` accepts: a channel dimension whose extent the group
      count divides, and weight and bias that are vectors with one entry per
      channel. */
  predicate GroupNormShapesValid(sizes: seq<nat>, groups: nat, weight: Option<Tensor>, bias: Option<Tensor>)
    requires groups > 0
  {
    && |sizes| >= 2
    && sizes[1] % groups == 0
    && (weight.Some? ==> |weight.value.sizes| == 1 && |weight.value.data| == sizes[1])
    && (bias.Some? ==> |bias.value.sizes| == 1 && |bias.value.data| == sizes[1])
  }

  /** The checks at the head of `group_norm`, in source order; reading
      `input.size(1)` fails first on an input without a channel dimension. */
  function GroupNormCheck(sizes: seq<nat>, groups: nat, weight: Option<Tensor>, bias: Option<Tensor>): (r: Option<BnError>)
    requires groups > 0
    ensures r.None? <==> GroupNormShapesValid(sizes, groups, weight, bias)
    ensures |sizes| < 2 ==> r == Some(InvalidShape(TooFewDimensions))
    ensures |sizes| >= 2 && sizes[1] % groups != 0 ==> r == Some(InvalidShape(GroupsDoNotDivide))
    ensures r.Some? ==> r.value.InvalidShape?
    ensures r.Some? && r.value.InvalidShape? && r.value.reason.WeightShape? ==>
      weight.Some? && r.value.reason.shown == weight.value.sizes
    ensures r.Some? && r.value.InvalidShape? && r.value.reason.BiasShape? ==>
      bias.Some? && r.value.reason.shown == bias.value.sizes
  {
    if |sizes| < 2 then Some(InvalidShape(TooFewDimensions))
    else if sizes[1] % groups != 0 then Some(InvalidShape(GroupsDoNotDivide))
    else if weight.Some? && !(|weight.value.sizes| == 1 && |weight.value.data| == sizes[1]) then
      Some(InvalidShape(WeightShape(weight.value.sizes)))
    else if bias.Some? && !(|bias.value.sizes| == 1 && |bias.value.data| == sizes[1]) then
      Some(InvalidShape(BiasShape(bias.value.sizes)))
    else None
  }

  /** The shape the bias check's message of `group_norm` reports, as
      written: it reads the weight's sizes, not the bias's. With no weight,
      reading them raises an error of its own and nothing is reported. */
  function GroupNormBiasShownAsWritten(weight: Option<Tensor>, bias: Option<Tensor>): (shown: Option<seq<nat>>)
    ensures shown.Some? <==> weight.Some?
    ensures shown.Some? ==> shown.value == weight.value.sizes
  {
    if weight.Some? then Some(weight.value.sizes) else None
  }

  /** Whenever the bias check fails with a weight present, the message as
      written reports a shape that is not the bias's: the weight passed its
      own check, so it is the vector of the channel count, and a bias of
      that shape would have passed too. */
  lemma GroupNormBiasMessageMisreports(sizes: seq<nat>, groups: nat, weight: Option<Tensor>, bias: Option<Tensor>)
    requires groups > 0 && weight.Some? && weight.value.Valid()
    requires bias.Some? && bias.value.Valid()
    requires GroupNormCheck(sizes, groups, weight, bias) == Some(InvalidShape(BiasShape(bias.value.sizes)))
    ensures GroupNormBiasShownAsWritten(weight, bias).value != bias.value.sizes
  {
    var c := sizes[1];
    assert |weight.value.sizes| == 1 && |weight.value.data| == c;
    assert Product(weight.value.sizes) == weight.value.sizes[0] * Product(weight.value.sizes[1..]);
    assert weight.value.sizes == [c];
  }

  /** A concrete input: 4 channels in 2 groups, a weight of 4 entries and a
      bias of 3. The check rejects the bias and should report shape [3]; the
      message as written reports [4], and with no weight it reports nothing. */
  lemma GroupNormBiasMessageExample()
    ensures var bias := Some(Tensor([3], Zeros(3)));
      && GroupNormCheck([2, 4, 5], 2, Some(Tensor([4], Ones(4))), bias) == Some(InvalidShape(BiasShape([3])))
      && GroupNormBiasShownAsWritten(Some(Tensor([4], Ones(4))), bias) == Some([4])
      && GroupNormCheck([2, 4, 5], 2, None, bias) == Some(InvalidShape(BiasShape([3])))
      && GroupNormBiasShownAsWritten(None, bias).None?
  {
    assert |Zeros(3)| == 3;
    assert |Ones(4)| == 4;
  }

  /** The `(1, b * num_groups, -1)` view: one feature per (sample, group),
      each holding the `c / num_groups` channels of its group. */
  function GroupRows(sizes: seq<nat>, groups: nat): (sh: Shape)
    requires |sizes| >= 2 && groups > 0 && sizes[1] % groups == 0
    ensures sh.batch == 1 && sh.channels == sizes[0] * groups
    ensures sh.image == GroupExtent(sizes, groups)
    ensures sh.Numel() == Product(sizes)
  {
    var b, c, S := sizes[0], sizes[1], Product(sizes[2..]);
    var q := c / groups;
    assert c == groups * q;
    assert Product(sizes) == b * (c * S) by {
      assert sizes[1..][1..] == sizes[2..];
    }
    assert (b * groups) * (q * S) == b * ((groups * q) * S);
    Shape(1, b * groups, q * S)
  }

  /** The elements of one group of one sample: its `c / num_groups` channels. */
  function GroupExtent(sizes: seq<nat>, groups: nat): nat
    requires |sizes| >= 2 && groups > 0
  {
    GroupSize(sizes[1], groups, Product(sizes[2..]))
  }

  /** `(c / G) * S`: the elements of `c / G` channels of extent S. */
  function GroupSize(c: nat, groups: nat, S: nat): nat
    requires groups > 0
  {
    (c / groups) * S
  }

  /** Broadcasting a per-channel vector viewed as `(1, c, 1, ...)`: element
      k meets the entry of its channel. */
  function ChannelIndex(sh: Shape): (idx: seq<nat>)
    ensures |idx| == sh.Numel() && forall k :: 0 <= k < |idx| ==> idx[k] < sh.channels
  {
    seq(sh.Numel(), k requires 0 <= k < sh.Numel() => ChannelOf(sh, k))
  }

  /** `group_norm` on a non-empty CPU input. */
  function GroupNorm(
    x: Tensor, groups: nat, weight: Option<Tensor>, bias: Option<Tensor>,
    eps: real, contig: Contiguity, rsqrt: real -> real): (r: Result<Tensor, BnError>)
    requires x.Valid() && |x.data| > 0 && groups > 0
    requires weight.Some? ==> weight.value.Valid()
    requires bias.Some? ==> bias.value.Valid()
    ensures r.Failure? <==> !GroupNormShapesValid(x.sizes, groups, weight, bias)
    ensures r.Failure? ==> Some(r.error) == GroupNormCheck(x.sizes, groups, weight, bias)
    ensures r.Success? ==> r.value.sizes == x.sizes && r.value.Valid()
  {
    var check := GroupNormCheck(x.sizes, groups, weight, bias);
    if check.Some? then Failure(check.value)
    else
      var sh := GroupRows(x.sizes, groups);
      ExtentsPositive(sh, 0);
      var bn := BatchNormCpu(x.data, sh, None, None, None, None, true, 0.0, eps, contig, rsqrt);
      Success(Tensor(x.sizes, BroadcastAffine(bn.output, Data(weight), Data(bias), ChannelIndex(ChannelShape(x.sizes)))))
  }

  /** `group_norm` is the row-wise reference normalisation of the view, each
      element then scaled and shifted by the weight and bias of its channel. */
  lemma GroupNormIsRowNormalize(
    x: Tensor, groups: nat, weight: Option<Tensor>, bias: Option<Tensor>,
    eps: real, contig: Contiguity, rsqrt: real -> real)
    requires x.Valid() && |x.data| > 0 && groups > 0
    requires weight.Some? ==> weight.value.Valid()
    requires bias.Some? ==> bias.value.Valid()
    requires GroupNormShapesValid(x.sizes, groups, weight, bias)
    ensures |x.data| == (x.sizes[0] * groups) * GroupExtent(x.sizes, groups)
    ensures Fits(Data(weight), x.sizes[1]) && Fits(Data(bias), x.sizes[1])
    ensures GroupNorm(x, groups, weight, bias, eps, contig, rsqrt).value.data
      == BroadcastAffine(RowNormalize(x.data, x.sizes[0] * groups, GroupExtent(x.sizes, groups), eps, rsqrt),
                         Data(weight), Data(bias), ChannelIndex(ChannelShape(x.sizes)))
  {
    ExtentsPositive(GroupRows(x.sizes, groups), 0);
    TrainingViewIsRowNormalize(x.data, GroupRows(x.sizes, groups), eps, contig, rsqrt);
  }

  /** The feature of the group view that holds channel ch of sample n: group
      `ch / (c / G)` of that sample. */
  function GroupIndex(c: nat, groups: nat, n: nat, ch: nat): nat
    requires groups > 0 && c / groups > 0
  {
    n * groups + ch / (c / groups)
  }

  /** Where element i of channel ch sits inside its group. */
  function GroupOffset(c: nat, groups: nat, S: nat, ch: nat, i: nat): nat
    requires groups > 0 && c / groups > 0
  {
    (ch % (c / groups)) * S + i
  }

  /** In the N x C x S layout the runs of `GroupSize` elements are the groups
      of consecutive channels of each sample: element (n, ch, i) is entry
      `GroupOffset` of run `GroupIndex`. */
  lemma GroupPosition(sh: Shape, groups: nat, n: nat, ch: nat, i: nat)
    requires groups > 0 && sh.channels % groups == 0
    requires n < sh.batch && ch < sh.channels && i < sh.image
    ensures sh.channels / groups > 0
    ensures Offset(sh, n, ch, i)
            == RowStart(GroupIndex(sh.channels, groups, n, ch), GroupSize(sh.channels, groups, sh.image))
               + GroupOffset(sh.channels, groups, sh.image, ch, i)
    ensures GroupOffset(sh.channels, groups, sh.image, ch, i) < GroupSize(sh.channels, groups, sh.image)
    ensures GroupIndex(sh.channels, groups, n, ch) < sh.batch * groups
  {
    var c, S := sh.channels, sh.image;
    var q := c / groups;
    var g, r := ch / q, ch % q;
    assert c == groups * q && ch == g * q + r;
    assert g < groups by {
      if g >= groups {
        MulMonotone(g, groups, q);
      }
    }
    GroupSplit(n, groups, g, q, r, S, i);
    GroupBound(sh.batch, n, groups, g);
  }

  /** Channel `g * q + r` of a sample with `G * q` channels of S elements sits
      in run `n * G + g` of length `q * S`, at entry `r * S + i`, which is in range. */
  lemma GroupSplit(n: nat, G: nat, g: nat, q: nat, r: nat, S: nat, i: nat)
    requires r < q && i < S
    ensures n * (G * q) * S + (g * q + r) * S + i == (n * G + g) * (q * S) + (r * S + i)
    ensures r * S + i < q * S
  {
    var sampleStart := n * (G * q) * S;
    var channelStart := (g * q + r) * S;
    assert sampleStart == (n * G) * (q * S);
    assert channelStart == g * (q * S) + r * S;
    assert (n * G) * (q * S) + g * (q * S) == (n * G + g) * (q * S);
    EntryInRun(q, r, S, i);
  }

  /** Entry i of channel r of a run of q channels of S elements is in the run. */
  lemma EntryInRun(q: nat, r: nat, S: nat, i: nat)
    requires r < q && i < S
    ensures r * S + i < q * S
  {
    MulMonotone(q - 1, r, S);
    assert (q - 1) * S == q * S - S;
  }

  /** Run `n * G + g` of a batch of N samples with G groups each is in range. */
  lemma GroupBound(N: nat, n: nat, G: nat, g: nat)
    requires n < N && g < G
    ensures n * G + g < N * G
  {
    MulMonotone(N, n + 1, G);
  }

  /** Element (n, ch, i) of the scaled reference normalisation of the group
      view: the element, normalised with the statistics of its group, scaled
      and shifted by the parameters of its channel. */
  lemma GroupedEntry(
    x: seq<real>, sizes: seq<nat>, groups: nat, w: Option<seq<real>>, b: Option<seq<real>>,
    eps: real, rsqrt: real -> real, n: nat, ch: nat, i: nat)
    requires |sizes| >= 2 && groups > 0 && sizes[1] % groups == 0
    requires |x| == Product(sizes) && |x| == (sizes[0] * groups) * GroupExtent(sizes, groups)
    requires Fits(w, sizes[1]) && Fits(b, sizes[1])
    requires n < sizes[0] && ch < sizes[1] && i < Product(sizes[2..])
    ensures sizes[1] / groups > 0
    ensures Offset(ChannelShape(sizes), n, ch, i) < |x|
    ensures RowStart(GroupIndex(sizes[1], groups, n, ch), GroupExtent(sizes, groups)) + GroupExtent(sizes, groups) <= |x|
    ensures var group := Row(x, GroupExtent(sizes, groups), GroupIndex(sizes[1], groups, n, ch));
      && GroupOffset(sizes[1], groups, Product(sizes[2..]), ch, i) < |group|
      && x[Offset(ChannelShape(sizes), n, ch, i)] == group[GroupOffset(sizes[1], groups, Product(sizes[2..]), ch, i)]
    ensures var group := Row(x, GroupExtent(sizes, groups), GroupIndex(sizes[1], groups, n, ch));
      BroadcastAffine(RowNormalize(x, sizes[0] * groups, GroupExtent(sizes, groups), eps, rsqrt),
                      w, b, ChannelIndex(ChannelShape(sizes)))[Offset(ChannelShape(sizes), n, ch, i)]
      == Normalize(x[Offset(ChannelShape(sizes), n, ch, i)], Mean(group), RowInvStd(group, eps, rsqrt),
                   WeightAt(w, ch), BiasAt(b, ch))
  {
    var sh := ChannelShape(sizes);
    var R := GroupExtent(sizes, groups);
    var k := Offset(sh, n, ch, i);
    GroupPosition(sh, groups, n, ch, i);
    ChannelOfOffset(sh, n, ch, i);
    var idx := ChannelIndex(sh);
    assert idx[k] == ch;
    ScaledRowEntry(x, sizes[0] * groups, R, w, b, idx, eps, rsqrt,
                   GroupIndex(sizes[1], groups, n, ch), GroupOffset(sizes[1], groups, Product(sizes[2..]), ch, i));
  }

  /** Each element of `group_norm`'s result is the element normalised with the
      mean and deviation of its group (its sample's `c / num_groups`
      consecutive channels), then scaled and shifted by its channel's weight
      and bias. */
  lemma GroupNormNormalisesGroups(
    x: Tensor, groups: nat, weight: Option<Tensor>, bias: Option<Tensor>,
    eps: real, contig: Contiguity, rsqrt: real -> real, n: nat, ch: nat, i: nat)
    requires x.Valid() && |x.data| > 0 && groups > 0
    requires weight.Some? ==> weight.value.Valid()
    requires bias.Some? ==> bias.value.Valid()
    requires GroupNormShapesValid(x.sizes, groups, weight, bias)
    requires n < x.sizes[0] && ch < x.sizes[1] && i < Product(x.sizes[2..])
    ensures x.sizes[1] / groups > 0 && Offset(ChannelShape(x.sizes), n, ch, i) < |x.data|
    ensures RowStart(GroupIndex(x.sizes[1], groups, n, ch), GroupExtent(x.sizes, groups)) + GroupExtent(x.sizes, groups)
            <= |x.data|
    ensures var group := Row(x.data, GroupExtent(x.sizes, groups), GroupIndex(x.sizes[1], groups, n, ch));
      GroupNorm(x, groups, weight, bias, eps, contig, rsqrt).value.data[Offset(ChannelShape(x.sizes), n, ch, i)]
      == Normalize(x.data[Offset(ChannelShape(x.sizes), n, ch, i)], Mean(group), RowInvStd(group, eps, rsqrt),
                   WeightAt(Data(weight), ch), BiasAt(Data(bias), ch))
  {
    GroupNormIsRowNormalize(x, groups, weight, bias, eps, contig, rsqrt);
    GroupedEntry(x.data, x.sizes, groups, Data(weight), Data(bias), eps, rsqrt, n, ch, i);
  }

  /** Without weight and bias every group of the result has mean zero. */
  lemma GroupNormGroupsCentred(
    x: Tensor, groups: nat, eps: real, contig: Contiguity, rsqrt: real -> real, g: nat)
    requires x.Valid() && |x.data| > 0 && groups > 0
    requires GroupNormShapesValid(x.sizes, groups, None, None)
    requires g < x.sizes[0] * groups
    ensures RowStart(g, GroupExtent(x.sizes, groups)) + GroupExtent(x.sizes, groups) <= |x.data|
    ensures IsMean(0.0, Row(GroupNorm(x, groups, None, None, eps, contig, rsqrt).value.data, GroupExtent(x.sizes, groups), g))
  {
    GroupNormIsRowNormalize(x, groups, None, None, eps, contig, rsqrt);
    RowNormalizeCentred(x.data, x.sizes[0] * groups, GroupExtent(x.sizes, groups), eps, rsqrt, g);
  }

  // ------------------------------------------------------------- instance_norm

  /** `v.repeat(times)` on a vector: `times` copies, end to end. */
  function Repeat(v: seq<real>, times: nat): (r: seq<real>)
    ensures |r| == times * |v|
  {
    seq(times * |v|, k requires 0 <= k < times * |v| => v[k % |v|])
  }

  /** `repeat_if_defined(t, times)`: an undefined vector stays undefined; a
      defined one of length L becomes `times` copies, copy n occupying
      `n * L` up to `(n + 1) * L`. */
  function RepeatOpt(t: Option<seq<real>>, times: nat): (r: Option<seq<real>>)
    ensures r.Some? <==> t.Some?
    ensures r.Some? ==> r.value == Repeat(t.value, times)
    ensures r.Some? ==> |r.value| == times * |t.value|
    ensures r.Some? ==> forall n :: 0 <= n < times ==>
      RowStart(n, |t.value|) + |t.value| <= |r.value| && r.value[RowStart(n, |t.value|)..RowStart(n, |t.value|) + |t.value|] == t.value
  {
    if t.Some? then
      var r := Repeat(t.value, times);
      RepeatCopies(t.value, times, r);
      Some(r)
    else None
  }

  /** Every copy in the repetition r is the vector. */
  lemma RepeatCopies(v: seq<real>, times: nat, r: seq<real>)
    requires r == Repeat(v, times)
    ensures forall n :: 0 <= n < times ==>
      RowStart(n, |v|) + |v| <= |r| && r[RowStart(n, |v|)..RowStart(n, |v|) + |v|] == v
  {
    forall n | 0 <= n < times
      ensures RowStart(n, |v|) + |v| <= |r| && r[RowStart(n, |v|)..RowStart(n, |v|) + |v|] == v
    {
      RowInRange(times, |v|, n);
      forall ch | 0 <= ch < |v|
        ensures r[RowStart(n, |v|)..RowStart(n, |v|) + |v|][ch] == v[ch]
      {
        RepeatAt(v, times, n, ch);
      }
    }
  }

  /** Entry ch of copy n is entry ch of the vector. */
  lemma RepeatAt(v: seq<real>, times: nat, n: nat, ch: nat)
    requires n < times && ch < |v|
    ensures RowStart(n, |v|) + ch < times * |v|
    ensures Repeat(v, times)[RowStart(n, |v|) + ch] == v[ch]
  {
    RowInRange(times, |v|, n);
    DivModUnique(RowStart(n, |v|) + ch, |v|, n, ch);
  }

  /** Every row of b rows of length L stays inside the buffer. */
  lemma RowInRange(rows: nat, L: nat, f: nat)
    requires f < rows
    ensures RowStart(f, L) + L <= rows * L
  {
    MulMonotone(rows, f + 1, L);
  }

  /** Column ch of a buffer viewed as b rows of c entries. */
  function Column(v: seq<real>, b: nat, c: nat, ch: nat): (col: seq<real>)
    requires |v| == b * c && ch < c
    ensures |col| == b
  {
    seq(b, n requires 0 <= n < b => RowInRange(b, c, n); v[RowStart(n, c) + ch])
  }

  /** `v.view({b, c}).mean(0)`: entry ch is the mean of column ch, the b
      entries `n * c + ch`, one from each row. */
  function FoldMean(v: seq<real>, b: nat, c: nat): (r: seq<real>)
    requires |v| == b * c && b > 0
    ensures |r| == c
    ensures forall ch :: 0 <= ch < c ==> IsMean(r[ch], Column(v, b, c, ch))
  {
    seq(c, ch requires 0 <= ch < c => Mean(Column(v, b, c, ch)))
  }

  /** The write-back of `instance_norm`: an undefined running vector stays
      undefined, a defined one of b * c entries becomes its c column means. */
  function FoldOpt(t: Option<seq<real>>, b: nat, c: nat): (r: Option<seq<real>>)
    requires t.Some? ==> |t.value| == b * c
    requires b > 0
    ensures r.Some? <==> t.Some?
    ensures r.Some? ==> r.value == FoldMean(t.value, b, c)
    ensures r.Some? ==> |r.value| == c && forall ch :: 0 <= ch < c ==> IsMean(r.value[ch], Column(t.value, b, c, ch))
  {
    if t.Some? then Some(FoldMean(t.value, b, c)) else None
  }

  /** Averaging b copies of a vector gives the vector back. */
  lemma FoldRepeat(v: seq<real>, b: nat)
    requires b > 0
    ensures FoldMean(Repeat(v, b), b, |v|) == v
  {
    var r := FoldMean(Repeat(v, b), b, |v|);
    forall ch | 0 <= ch < |v|
      ensures r[ch] == v[ch]
    {
      var col := Column(Repeat(v, b), b, |v|, ch);
      forall n | 0 <= n < b
        ensures col[n] == v[ch]
      {
        RepeatAt(v, b, n, ch);
      }
      SumConstant(col, v[ch]);
      MeanUnique(v[ch], col);
    }
  }

  /** Averaging commutes with the running-average update: updating b copies
      of each running value with b estimates and averaging the copies is
      updating the value once with the average estimate. */
  lemma FoldOfEma(upd: seq<real>, estimates: seq<real>, running: seq<real>, b: nat, momentum: real)
    requires b > 0 && |upd| == |estimates| == b * |running|
    requires forall f :: 0 <= f < |upd| ==> upd[f] == Ema(momentum, estimates[f], Repeat(running, b)[f])
    ensures forall ch :: 0 <= ch < |running| ==>
      FoldMean(upd, b, |running|)[ch] == Ema(momentum, FoldMean(estimates, b, |running|)[ch], running[ch])
  {
    var c := |running|;
    forall ch | 0 <= ch < c
      ensures FoldMean(upd, b, c)[ch] == Ema(momentum, FoldMean(estimates, b, c)[ch], running[ch])
    {
      var cu, ce := Column(upd, b, c, ch), Column(estimates, b, c, ch);
      forall n | 0 <= n < b
        ensures cu[n] == Ema(momentum, ce[n], running[ch])
      {
        RepeatAt(running, b, n, ch);
      }
      MeanOfEma(cu, ce, running[ch], momentum);
    }
  }

  /** The mean of running-average updates of one value is the update with the
      mean estimate. */
  lemma MeanOfEma(upd: seq<real>, estimates: seq<real>, prior: real, momentum: real)
    requires |upd| == |estimates| > 0
    requires forall n :: 0 <= n < |upd| ==> upd[n] == Ema(momentum, estimates[n], prior)
    ensures Mean(upd) == Ema(momentum, Mean(estimates), prior)
  {
    var len := |upd| as real;
    var c := (1.0 - momentum) * prior;
    forall n | 0 <= n < |upd|
      ensures upd[n] == momentum * estimates[n] + 0.0 * estimates[n] + c
    {
    }
    SumAffine(estimates, estimates, upd, momentum, 0.0, c);
    var m := Mean(estimates);
    assert m * len == Sum(estimates);
    var e := Ema(momentum, m, prior);
    assert e == momentum * m + c;
    assert e * len == momentum * (m * len) + len * c;
    MeanUnique(e, upd);
  }

  /** What `instance_norm` accepts: running statistics when the input's own
      statistics are not used, a channel dimension, and one entry per channel
      in every defined vector. */
  predicate InstanceNormArgumentsValid(
    sizes: seq<nat>, weight: Option<seq<real>>, bias: Option<seq<real>>,
    runningMean: Option<seq<real>>, runningVar: Option<seq<real>>, useInputStats: bool)
  {
    && (useInputStats || (runningMean.Some? && runningVar.Some?))
    && |sizes| >= 2
    && Fits(weight, sizes[1]) && Fits(bias, sizes[1])
    && Fits(runningMean, sizes[1]) && Fits(runningVar, sizes[1])
  }

  /** b copies of a vector have one entry per (sample, channel) exactly when
      the vector has one entry per channel. */
  lemma RepeatFits(t: Option<seq<real>>, b: nat, c: nat)
    requires b > 0
    ensures Fits(RepeatOpt(t, b), b * c) <==> Fits(t, c)
  {
    if t.Some? && |t.value| != c {
      if |t.value| < c {
        MulMonotone(c, |t.value| + 1, b);
      } else {
        MulMonotone(|t.value|, c + 1, b);
      }
    }
  }

  /** The checks `instance_norm` makes, in source order: its own check of the
      running statistics, reading `input.size(1)`, then the checks of the
      batch-norm entry on the repeated vectors. */
  function InstanceNormCheck(
    sizes: seq<nat>, weight: Option<seq<real>>, bias: Option<seq<real>>,
    runningMean: Option<seq<real>>, runningVar: Option<seq<real>>, useInputStats: bool): (r: Option<BnError>)
    requires Product(sizes) > 0
    ensures r.None? <==> InstanceNormArgumentsValid(sizes, weight, bias, runningMean, runningVar, useInputStats)
    ensures !useInputStats && !(runningMean.Some? && runningVar.Some?) ==> r == Some(RunningStatsRequired)
    ensures (useInputStats || (runningMean.Some? && runningVar.Some?)) && |sizes| < 2 ==>
      r == Some(InvalidShape(TooFewDimensions))
  {
    if !useInputStats && !(runningMean.Some? && runningVar.Some?) then Some(RunningStatsRequired)
    else if |sizes| < 2 then Some(InvalidShape(TooFewDimensions))
    else
      var b, c := sizes[0], sizes[1];
      RepeatFits(weight, b, c);
      RepeatFits(bias, b, c);
      RepeatFits(runningMean, b, c);
      RepeatFits(runningVar, b, c);
      CheckArguments(b * c, RepeatOpt(weight, b), RepeatOpt(bias, b), RepeatOpt(runningMean, b), RepeatOpt(runningVar, b),
                     useInputStats)
  }

  /** The elements of one (sample, channel) instance: the product of the
      trailing dimensions. */
  function InnerSize(sizes: seq<nat>): nat
    requires |sizes| >= 2
  {
    Product(sizes[2..])
  }

  /** The view with `shape[0] = 1, shape[1] = b * c`: one feature per
      (sample, channel) instance. */
  function InstanceRows(sizes: seq<nat>): (sh: Shape)
    requires |sizes| >= 2
    ensures sh.batch == 1 && sh.channels == sizes[0] * sizes[1] && sh.image == InnerSize(sizes)
    ensures sh.Numel() == Product(sizes)
  {
    assert sizes[1..][1..] == sizes[2..];
    Shape(1, sizes[0] * sizes[1], InnerSize(sizes))
  }

  /** The output and the running statistics after the call (the source
      writes them back in place). */
  datatype InstanceNormResult = InstanceNormResult(
    output: Tensor, runningMean: Option<seq<real>>, runningVar: Option<seq<real>>)

  /** `instance_norm` on a non-empty CPU input. */
  function InstanceNorm(
    x: Tensor, weight: Option<seq<real>>, bias: Option<seq<real>>,
    runningMean: Option<seq<real>>, runningVar: Option<seq<real>>,
    useInputStats: bool, momentum: real, eps: real, contig: Contiguity, rsqrt: real -> real): (r: Result<InstanceNormResult, BnError>)
    requires x.Valid() && |x.data| > 0
    requires (InstanceNormArgumentsValid(x.sizes, weight, bias, runningMean, runningVar, useInputStats)
              && useInputStats && runningVar.Some?) ==> InnerSize(x.sizes) >= 2
    ensures r.Failure? <==> !InstanceNormArgumentsValid(x.sizes, weight, bias, runningMean, runningVar, useInputStats)
    ensures r.Failure? ==> Some(r.error) == InstanceNormCheck(x.sizes, weight, bias, runningMean, runningVar, useInputStats)
    ensures r.Success? ==> r.value.output.sizes == x.sizes && r.value.output.Valid()
    ensures r.Success? ==> (r.value.runningMean.Some? <==> runningMean.Some?) && (r.value.runningVar.Some? <==> runningVar.Some?)
  {
    var check := InstanceNormCheck(x.sizes, weight, bias, runningMean, runningVar, useInputStats);
    if check.Some? then Failure(check.value)
    else
      var b, c := x.sizes[0], x.sizes[1];
      var sh := InstanceRows(x.sizes);
      ExtentsPositive(sh, 0);
      var bn := BatchNormCpu(x.data, sh, RepeatOpt(weight, b), RepeatOpt(bias, b),
                             RepeatOpt(runningMean, b), RepeatOpt(runningVar, b),
                             useInputStats, momentum, eps, contig, rsqrt);
      Success(InstanceNormResult(Tensor(x.sizes, bn.output), FoldOpt(bn.runningMean, b, c), FoldOpt(bn.runningVar, b, c)))
  }

  /** The result of a successful `instance_norm`, one step unfolded. */
  lemma InstanceNormUnfold(
    x: Tensor, weight: Option<seq<real>>, bias: Option<seq<real>>,
    runningMean: Option<seq<real>>, runningVar: Option<seq<real>>,
    useInputStats: bool, momentum: real, eps: real, contig: Contiguity, rsqrt: real -> real)
    requires x.Valid() && |x.data| > 0
    requires useInputStats && runningVar.Some? && |x.sizes| >= 2 ==> InnerSize(x.sizes) >= 2
    requires InstanceNormArgumentsValid(x.sizes, weight, bias, runningMean, runningVar, useInputStats)
    ensures x.sizes[0] > 0 && InnerSize(x.sizes) > 0
    ensures |x.data| == (x.sizes[0] * x.sizes[1]) * InnerSize(x.sizes)
    ensures CpuArguments(x.data, InstanceRows(x.sizes), RepeatOpt(weight, x.sizes[0]), RepeatOpt(bias, x.sizes[0]),
                         RepeatOpt(runningMean, x.sizes[0]), RepeatOpt(runningVar, x.sizes[0]), useInputStats)
    ensures var bn := BatchNormCpu(x.data, InstanceRows(x.sizes), RepeatOpt(weight, x.sizes[0]), RepeatOpt(bias, x.sizes[0]),
                                   RepeatOpt(runningMean, x.sizes[0]), RepeatOpt(runningVar, x.sizes[0]),
                                   useInputStats, momentum, eps, contig, rsqrt);
      && (bn.runningMean.Some? ==> |bn.runningMean.value| == x.sizes[0] * x.sizes[1])
      && (bn.runningVar.Some? ==> |bn.runningVar.value| == x.sizes[0] * x.sizes[1])
      && InstanceNorm(x, weight, bias, runningMean, runningVar, useInputStats, momentum, eps, contig, rsqrt).value
         == InstanceNormResult(Tensor(x.sizes, bn.output),
                               FoldOpt(bn.runningMean, x.sizes[0], x.sizes[1]), FoldOpt(bn.runningVar, x.sizes[0], x.sizes[1]))
  {
    ExtentsPositive(InstanceRows(x.sizes), 0);
  }

  /** The output of a successful `instance_norm` is batch norm's output on the
      instance view with the repeated vectors. */
  lemma InstanceNormOutput(
    x: Tensor, weight: Option<seq<real>>, bias: Option<seq<real>>,
    runningMean: Option<seq<real>>, runningVar: Option<seq<real>>,
    useInputStats: bool, momentum: real, eps: real, contig: Contiguity, rsqrt: real -> real)
    requires x.Valid() && |x.data| > 0
    requires useInputStats && runningVar.Some? && |x.sizes| >= 2 ==> InnerSize(x.sizes) >= 2
    requires InstanceNormArgumentsValid(x.sizes, weight, bias, runningMean, runningVar, useInputStats)
    ensures CpuArguments(x.data, InstanceRows(x.sizes), RepeatOpt(weight, x.sizes[0]), RepeatOpt(bias, x.sizes[0]),
                         RepeatOpt(runningMean, x.sizes[0]), RepeatOpt(runningVar, x.sizes[0]), useInputStats)
    ensures InstanceNorm(x, weight, bias, runningMean, runningVar, useInputStats, momentum, eps, contig, rsqrt).value.output.data
            == BatchNormCpu(x.data, InstanceRows(x.sizes), RepeatOpt(weight, x.sizes[0]), RepeatOpt(bias, x.sizes[0]),
                            RepeatOpt(runningMean, x.sizes[0]), RepeatOpt(runningVar, x.sizes[0]),
                            useInputStats, momentum, eps, contig, rsqrt).output
  {
    InstanceNormUnfold(x, weight, bias, runningMean, runningVar, useInputStats, momentum, eps, contig, rsqrt);
  }

  /** The channel of element k in the N x C x S layout is its instance's
      index modulo C, and every instance index is below b * c. */
  lemma InstanceChannel(sizes: seq<nat>, k: nat)
    requires |sizes| >= 2 && k < Product(sizes)
    ensures ChannelOf(InstanceRows(sizes), k) < sizes[0] * sizes[1]
    ensures ChannelOf(ChannelShape(sizes), k) == ChannelOf(InstanceRows(sizes), k) % sizes[1]
  {
    SingleBatchChannel(InstanceRows(sizes), k);
  }

  /** Copy `f / c` of a repeated vector holds entry `f % c` at position f. */
  lemma RepeatedEntry(w: Option<seq<real>>, b: Option<seq<real>>, times: nat, c: nat, f: nat)
    requires Fits(w, c) && Fits(b, c) && f < times * c
    ensures c > 0
    ensures WeightAt(RepeatOpt(w, times), f) == WeightAt(w, f % c)
    ensures BiasAt(RepeatOpt(b, times), f) == BiasAt(b, f % c)
  {
  }

  /** Reading the repeated vectors by instance is reading the vectors by
      channel. */
  lemma RepeatedAffine(y: seq<real>, sizes: seq<nat>, w: Option<seq<real>>, b: Option<seq<real>>)
    requires |sizes| >= 2 && |y| == Product(sizes)
    requires Fits(w, sizes[1]) && Fits(b, sizes[1])
    ensures Broadcastable(ChannelIndex(InstanceRows(sizes)), RepeatOpt(w, sizes[0]), RepeatOpt(b, sizes[0]))
    ensures Broadcastable(ChannelIndex(ChannelShape(sizes)), w, b)
    ensures BroadcastAffine(y, RepeatOpt(w, sizes[0]), RepeatOpt(b, sizes[0]), ChannelIndex(InstanceRows(sizes)))
            == BroadcastAffine(y, w, b, ChannelIndex(ChannelShape(sizes)))
  {
    forall k | 0 <= k < |y|
      ensures BroadcastAffine(y, RepeatOpt(w, sizes[0]), RepeatOpt(b, sizes[0]), ChannelIndex(InstanceRows(sizes)))[k]
              == BroadcastAffine(y, w, b, ChannelIndex(ChannelShape(sizes)))[k]
    {
      InstanceChannel(sizes, k);
      RepeatedEntry(w, b, sizes[0], sizes[1], ChannelOf(InstanceRows(sizes), k));
    }
  }

  /** With input statistics, `instance_norm` is the reference normalisation
      of each (sample, channel) instance followed by the per-channel affine
      step. */
  lemma InstanceNormIsRowNormalize(
    x: Tensor, weight: Option<seq<real>>, bias: Option<seq<real>>,
    runningMean: Option<seq<real>>, runningVar: Option<seq<real>>,
    momentum: real, eps: real, contig: Contiguity, rsqrt: real -> real)
    requires x.Valid() && |x.data| > 0
    requires runningVar.Some? && |x.sizes| >= 2 ==> InnerSize(x.sizes) >= 2
    requires InstanceNormArgumentsValid(x.sizes, weight, bias, runningMean, runningVar, true)
    ensures |x.data| == (x.sizes[0] * x.sizes[1]) * InnerSize(x.sizes)
    ensures Broadcastable(ChannelIndex(ChannelShape(x.sizes)), weight, bias)
    ensures InstanceNorm(x, weight, bias, runningMean, runningVar, true, momentum, eps, contig, rsqrt).value.output.data
      == BroadcastAffine(RowNormalize(x.data, x.sizes[0] * x.sizes[1], InnerSize(x.sizes), eps, rsqrt),
                         weight, bias, ChannelIndex(ChannelShape(x.sizes)))
  {
    InstanceNormOutput(x, weight, bias, runningMean, runningVar, true, momentum, eps, contig, rsqrt);
    TrainingViewIsScaledRowNormalize(x.data, InstanceRows(x.sizes), RepeatOpt(weight, x.sizes[0]), RepeatOpt(bias, x.sizes[0]),
                                     RepeatOpt(runningMean, x.sizes[0]), RepeatOpt(runningVar, x.sizes[0]),
                                     momentum, eps, contig, rsqrt);
    RepeatedAffine(RowNormalize(x.data, x.sizes[0] * x.sizes[1], InnerSize(x.sizes), eps, rsqrt), x.sizes, weight, bias);
  }

  /** Element (n, ch, i) of the reference is entry i of instance `n * c + ch`
      normalised, then scaled and shifted by channel ch's weight and bias. */
  lemma InstanceEntry(
    x: seq<real>, sh: Shape, rows: nat, c: nat, S: nat, w: Option<seq<real>>, b: Option<seq<real>>,
    eps: real, rsqrt: real -> real, n: nat, ch: nat, i: nat)
    requires c == sh.channels && rows == sh.batch * c && S == sh.image && |x| == rows * S
    requires Fits(w, c) && Fits(b, c)
    requires n < sh.batch && ch < c && i < S
    ensures Offset(sh, n, ch, i) == RowStart(RowStart(n, c) + ch, S) + i
    ensures RowStart(RowStart(n, c) + ch, S) + S <= |x|
    ensures |ChannelIndex(sh)| == |x| && Broadcastable(ChannelIndex(sh), w, b)
    ensures var inst := Row(x, S, RowStart(n, c) + ch);
      BroadcastAffine(RowNormalize(x, rows, S, eps, rsqrt), w, b, ChannelIndex(sh))[Offset(sh, n, ch, i)]
      == Normalize(inst[i], Mean(inst), RowInvStd(inst, eps, rsqrt), WeightAt(w, ch), BiasAt(b, ch))
  {
    InstancePosition(sh, n, ch, i);
    ChannelOfOffset(sh, n, ch, i);
    RowInRange(sh.batch, c, n);
    ScaledRowEntry(x, rows, S, w, b, ChannelIndex(sh), eps, rsqrt, RowStart(n, c) + ch, i);
  }

  /** Element (n, ch, i) of the N x C x S layout is entry i of run `n * C + ch`. */
  lemma InstancePosition(sh: Shape, n: nat, ch: nat, i: nat)
    ensures Offset(sh, n, ch, i) == RowStart(RowStart(n, sh.channels) + ch, sh.image) + i
  {
    var c, S := sh.channels, sh.image;
    assert (n * c + ch) * S == n * c * S + ch * S;
  }

  /** The mean of each run of S consecutive elements. */
  function RowMeans(x: seq<real>, rows: nat, S: nat): (r: seq<real>)
    requires |x| == rows * S && S > 0
    ensures |r| == rows
  {
    seq(rows, f requires 0 <= f < rows => RowInRange(rows, S, f); Mean(Row(x, S, f)))
  }

  /** The unbiased variance of each run of S consecutive elements. */
  function RowUnbiasedVars(x: seq<real>, rows: nat, S: nat): (r: seq<real>)
    requires |x| == rows * S && S >= 2
    ensures |r| == rows
  {
    seq(rows, f requires 0 <= f < rows => RowInRange(rows, S, f); VarSum(Row(x, S, f), Mean(Row(x, S, f))) / (S - 1) as real)
  }

  /** Training batch norm on a single-sample view moves each running mean
      towards the mean of that feature's run. */
  lemma TrainingRunningMeans(
    x: seq<real>, sh: Shape, rows: nat, S: nat, w: Option<seq<real>>, b: Option<seq<real>>,
    runningMean: Option<seq<real>>, runningVar: Option<seq<real>>,
    momentum: real, eps: real, contig: Contiguity, rsqrt: real -> real)
    requires sh.batch == 1 && rows == sh.channels && S == sh.image
    requires CpuArguments(x, sh, w, b, runningMean, runningVar, true) && runningMean.Some?
    ensures |x| == rows * S && S > 0
    ensures |BatchNormCpu(x, sh, w, b, runningMean, runningVar, true, momentum, eps, contig, rsqrt).runningMean.value| == rows
    ensures forall f :: 0 <= f < rows ==>
      BatchNormCpu(x, sh, w, b, runningMean, runningVar, true, momentum, eps, contig, rsqrt).runningMean.value[f]
      == Ema(momentum, RowMeans(x, rows, S)[f], runningMean.value[f])
  {
    ViewRowMeans(x, sh, rows, S);
  }

  /** Training batch norm on a single-sample view moves each running variance
      towards the unbiased variance of that feature's run. */
  lemma TrainingRunningVars(
    x: seq<real>, sh: Shape, rows: nat, S: nat, w: Option<seq<real>>, b: Option<seq<real>>,
    runningMean: Option<seq<real>>, runningVar: Option<seq<real>>,
    momentum: real, eps: real, contig: Contiguity, rsqrt: real -> real)
    requires sh.batch == 1 && rows == sh.channels && S == sh.image
    requires CpuArguments(x, sh, w, b, runningMean, runningVar, true) && runningVar.Some?
    ensures |x| == rows * S && S >= 2
    ensures |BatchNormCpu(x, sh, w, b, runningMean, runningVar, true, momentum, eps, contig, rsqrt).runningVar.value| == rows
    ensures forall f :: 0 <= f < rows ==>
      BatchNormCpu(x, sh, w, b, runningMean, runningVar, true, momentum, eps, contig, rsqrt).runningVar.value[f]
      == Ema(momentum, RowUnbiasedVars(x, rows, S)[f], runningVar.value[f])
  {
    ViewRowVars(x, sh, rows, S);
  }

  /** The per-feature means of a single-sample view are the run means. */
  lemma ViewRowMeans(x: seq<real>, sh: Shape, rows: nat, S: nat)
    requires sh.batch == 1 && rows == sh.channels && S == sh.image && S > 0
    requires |x| == sh.Numel()
    ensures |x| == rows * S
    ensures forall f :: 0 <= f < rows ==> StatsOf(x, sh, f).mean == RowMeans(x, rows, S)[f]
  {
    assert |x| == rows * S;
    forall f | 0 <= f < rows
      ensures StatsOf(x, sh, f).mean == RowMeans(x, rows, S)[f]
    {
      RowStatsOfView(x, sh, rows, S, f);
    }
  }

  /** The per-feature unbiased variances of a single-sample view are those of the runs. */
  lemma ViewRowVars(x: seq<real>, sh: Shape, rows: nat, S: nat)
    requires sh.batch == 1 && rows == sh.channels && S == sh.image && S >= 2
    requires |x| == sh.Numel()
    ensures |x| == rows * S
    ensures forall f :: 0 <= f < rows ==>
      UnbiasedVar(x, sh, f) == RowUnbiasedVars(x, rows, S)[f]
  {
    assert |x| == rows * S;
    forall f | 0 <= f < rows
      ensures UnbiasedVar(x, sh, f) == RowUnbiasedVars(x, rows, S)[f]
    {
      RowStatsOfView(x, sh, rows, S, f);
    }
  }

  /** Feature f's statistics of a single-sample view are those of run f. */
  lemma RowStatsOfView(x: seq<real>, sh: Shape, rows: nat, S: nat, f: nat)
    requires sh.batch == 1 && rows == sh.channels && S == sh.image && S > 0
    requires |x| == sh.Numel() && f < rows
    ensures |x| == rows * S
    ensures StatsOf(x, sh, f).mean == RowMeans(x, rows, S)[f]
    ensures S >= 2 ==> UnbiasedVar(x, sh, f) == RowUnbiasedVars(x, rows, S)[f]
  {
    SingleBatchSlice(x, sh, f);
    MeanUnique(StatsOf(x, sh, f).mean, Row(x, S, f));
  }

  /** `FoldOfEma` for the running vectors `instance_norm` repeats. */
  lemma FoldOfRepeatedEma(upd: seq<real>, estimates: seq<real>, running: Option<seq<real>>, b: nat, c: nat, momentum: real)
    requires b > 0 && running.Some? && |running.value| == c && |upd| == |estimates| == b * c
    requires forall f :: 0 <= f < b * c ==> upd[f] == Ema(momentum, estimates[f], RepeatOpt(running, b).value[f])
    ensures forall ch :: 0 <= ch < c ==>
      FoldMean(upd, b, c)[ch] == Ema(momentum, FoldMean(estimates, b, c)[ch], running.value[ch])
  {
    FoldOfEma(upd, estimates, running.value, b, momentum);
  }

  /** With input statistics, each channel's running mean moves towards the
      average over the batch of that channel's per-instance means, and its
      running variance towards the average of the per-instance unbiased
      variances. */
  lemma InstanceNormRunningStats(
    x: Tensor, weight: Option<seq<real>>, bias: Option<seq<real>>,
    runningMean: Option<seq<real>>, runningVar: Option<seq<real>>,
    momentum: real, eps: real, contig: Contiguity, rsqrt: real -> real)
    requires x.Valid() && |x.data| > 0
    requires runningVar.Some? && |x.sizes| >= 2 ==> InnerSize(x.sizes) >= 2
    requires InstanceNormArgumentsValid(x.sizes, weight, bias, runningMean, runningVar, true)
    ensures x.sizes[0] > 0 && InnerSize(x.sizes) > 0
    ensures |x.data| == (x.sizes[0] * x.sizes[1]) * InnerSize(x.sizes)
    ensures runningMean.Some? ==> forall ch :: 0 <= ch < x.sizes[1] ==>
      InstanceNorm(x, weight, bias, runningMean, runningVar, true, momentum, eps, contig, rsqrt).value.runningMean.value[ch]
      == Ema(momentum, FoldMean(RowMeans(x.data, x.sizes[0] * x.sizes[1], InnerSize(x.sizes)), x.sizes[0], x.sizes[1])[ch],
             runningMean.value[ch])
    ensures runningVar.Some? ==> forall ch :: 0 <= ch < x.sizes[1] ==>
      InstanceNorm(x, weight, bias, runningMean, runningVar, true, momentum, eps, contig, rsqrt).value.runningVar.value[ch]
      == Ema(momentum, FoldMean(RowUnbiasedVars(x.data, x.sizes[0] * x.sizes[1], InnerSize(x.sizes)), x.sizes[0], x.sizes[1])[ch],
             runningVar.value[ch])
  {
    InstanceNormUnfold(x, weight, bias, runningMean, runningVar, true, momentum, eps, contig, rsqrt);
    if runningMean.Some? {
      TrainingRunningMeans(x.data, InstanceRows(x.sizes), x.sizes[0] * x.sizes[1], InnerSize(x.sizes),
                           RepeatOpt(weight, x.sizes[0]), RepeatOpt(bias, x.sizes[0]),
                           RepeatOpt(runningMean, x.sizes[0]), RepeatOpt(runningVar, x.sizes[0]), momentum, eps, contig, rsqrt);
      FoldOfRepeatedEma(
        BatchNormCpu(x.data, InstanceRows(x.sizes), RepeatOpt(weight, x.sizes[0]), RepeatOpt(bias, x.sizes[0]),
                     RepeatOpt(runningMean, x.sizes[0]), RepeatOpt(runningVar, x.sizes[0]),
                     true, momentum, eps, contig, rsqrt).runningMean.value,
        RowMeans(x.data, x.sizes[0] * x.sizes[1], InnerSize(x.sizes)), runningMean, x.sizes[0], x.sizes[1], momentum);
    }
    if runningVar.Some? {
      TrainingRunningVars(x.data, InstanceRows(x.sizes), x.sizes[0] * x.sizes[1], InnerSize(x.sizes),
                          RepeatOpt(weight, x.sizes[0]), RepeatOpt(bias, x.sizes[0]),
                          RepeatOpt(runningMean, x.sizes[0]), RepeatOpt(runningVar, x.sizes[0]), momentum, eps, contig, rsqrt);
      FoldOfRepeatedEma(
        BatchNormCpu(x.data, InstanceRows(x.sizes), RepeatOpt(weight, x.sizes[0]), RepeatOpt(bias, x.sizes[0]),
                     RepeatOpt(runningMean, x.sizes[0]), RepeatOpt(runningVar, x.sizes[0]),
                     true, momentum, eps, contig, rsqrt).runningVar.value,
        RowUnbiasedVars(x.data, x.sizes[0] * x.sizes[1], InnerSize(x.sizes)), runningVar, x.sizes[0], x.sizes[1], momentum);
    }
  }

  /** Without input statistics the running statistics come back unchanged:
      batch norm leaves the b copies alone and averaging them restores them. */
  lemma InstanceNormEvalKeepsRunningStats(
    x: Tensor, weight: Option<seq<real>>, bias: Option<seq<real>>,
    runningMean: Option<seq<real>>, runningVar: Option<seq<real>>,
    momentum: real, eps: real, contig: Contiguity, rsqrt: real -> real)
    requires x.Valid() && |x.data| > 0
    requires InstanceNormArgumentsValid(x.sizes, weight, bias, runningMean, runningVar, false)
    ensures InstanceNorm(x, weight, bias, runningMean, runningVar, false, momentum, eps, contig, rsqrt).value.runningMean
            == runningMean
    ensures InstanceNorm(x, weight, bias, runningMean, runningVar, false, momentum, eps, contig, rsqrt).value.runningVar
            == runningVar
  {
    InstanceNormUnfold(x, weight, bias, runningMean, runningVar, false, momentum, eps, contig, rsqrt);
    FoldRepeat(runningMean.value, x.sizes[0]);
    FoldRepeat(runningVar.value, x.sizes[0]);
  }
}
