/** Flat row-major N x C x S layout of a batch-norm input.
    Dimension 0 is the batch, dimension 1 the feature (channel) axis, and all
    trailing dimensions are collapsed into one "image" extent S. */
module Layout {

  datatype Shape = Shape(batch: nat, channels: nat, image: nat) {
    /** Total number of elements, `input.numel()`. */
    function Numel(): nat { batch * channels * image }

    /** Elements reduced per feature, `input.numel() / input.size(1)`. */
    function PerFeature(): nat { batch * image }
  }

  /** The offset the contiguous fast path computes for element (n, c, i). */
  function Offset(sh: Shape, n: nat, c: nat, i: nat): nat {
    n * sh.channels * sh.image + c * sh.image + i
  }

  /** A flat index of a non-empty layout implies every extent is positive. */
  lemma ExtentsPositive(sh: Shape, k: nat)
    requires k < sh.Numel()
    ensures sh.batch > 0 && sh.channels > 0 && sh.image > 0
  {
  }

  /** The (n, c, i) coordinates of flat index k, the inverse of Offset. */
  function Coordinates(sh: Shape, k: nat): (nat, nat, nat)
    requires k < sh.Numel()
  {
    ExtentsPositive(sh, k);
    (k / sh.image / sh.channels, (k / sh.image) % sh.channels, k % sh.image)
  }

  /** The feature (channel) that flat index k belongs to. */
  function ChannelOf(sh: Shape, k: nat): (c: nat)
    requires k < sh.Numel()
    ensures c < sh.channels
  {
    ExtentsPositive(sh, k);
    Coordinates(sh, k).1
  }

  /** Every in-range triple lands inside the buffer. */
  lemma OffsetInRange(sh: Shape, n: nat, c: nat, i: nat)
    requires n < sh.batch && c < sh.channels && i < sh.image
    ensures Offset(sh, n, c, i) < sh.Numel()
  {
    var C, S := sh.channels, sh.image;
    var q := n * C + c;
    assert Offset(sh, n, c, i) == q * S + i;
    MulMonotone(n * C + C - 1, q, S);
    var top := (n + 1) * C;
    assert q + 1 <= top;
    MulMonotone(top, q + 1, S);
    assert (q + 1) * S == q * S + S;
    MulMonotone(sh.batch, n + 1, C);
    MulMonotone(sh.batch * C, top, S);
  }

  /** Offset then Coordinates is the identity: no two triples share an offset. */
  lemma CoordinatesOfOffset(sh: Shape, n: nat, c: nat, i: nat)
    requires n < sh.batch && c < sh.channels && i < sh.image
    ensures Offset(sh, n, c, i) < sh.Numel()
    ensures Coordinates(sh, Offset(sh, n, c, i)) == (n, c, i)
  {
    OffsetInRange(sh, n, c, i);
    var C, S := sh.channels, sh.image;
    var k := Offset(sh, n, c, i);
    assert k == (n * C + c) * S + i;
    DivModUnique(k, S, n * C + c, i);
    DivModUnique(n * C + c, C, n, c);
  }

  /** Coordinates then Offset is the identity: every index is reached. */
  lemma OffsetOfCoordinates(sh: Shape, k: nat)
    requires k < sh.Numel()
    ensures Coordinates(sh, k).0 < sh.batch
    ensures Coordinates(sh, k).1 < sh.channels
    ensures Coordinates(sh, k).2 < sh.image
    ensures Offset(sh, Coordinates(sh, k).0, Coordinates(sh, k).1, Coordinates(sh, k).2) == k
  {
    ExtentsPositive(sh, k);
    BatchCoordinateInRange(sh, k);
    IndexDecomposes(sh, k);
  }

  /** The batch coordinate of an in-range index is below the batch extent. */
  lemma BatchCoordinateInRange(sh: Shape, k: nat)
    requires k < sh.Numel() && sh.channels > 0 && sh.image > 0
    ensures k / sh.image / sh.channels < sh.batch
  {
    var C, S := sh.channels, sh.image;
    var q := k / S;
    assert q * S <= k;
    if q >= sh.batch * C {
      MulMonotone(q, sh.batch * C, S);
    }
    assert q < sh.batch * C;
    assert q / C * C <= q;
    if q / C >= sh.batch {
      MulMonotone(q / C, sh.batch, C);
    }
  }

  /** Two rounds of division with remainder rebuild the index. */
  lemma IndexDecomposes(sh: Shape, k: nat)
    requires sh.channels > 0 && sh.image > 0
    ensures Offset(sh, k / sh.image / sh.channels, (k / sh.image) % sh.channels, k % sh.image) == k
  {
    var C, S := sh.channels, sh.image;
    var q := k / S;
    var n, c, i := q / C, q % C, k % S;
    assert k == q * S + i;
    assert q == n * C + c;
    assert (n * C + c) * S == n * C * S + c * S;
  }

  /** The channel of the element at offset (n, c, i) is c. */
  lemma ChannelOfOffset(sh: Shape, n: nat, c: nat, i: nat)
    requires n < sh.batch && c < sh.channels && i < sh.image
    ensures Offset(sh, n, c, i) < sh.Numel()
    ensures ChannelOf(sh, Offset(sh, n, c, i)) == c
  {
    CoordinatesOfOffset(sh, n, c, i);
  }

  /** The flat index of the j-th element of feature f's slice. */
  function SliceOffset(sh: Shape, f: nat, j: nat): nat
    requires j < sh.PerFeature()
  {
    Offset(sh, j / sh.image, f, j % sh.image)
  }

  /** The j-th element of a feature's slice sits in that feature's channel. */
  lemma SliceOffsetInChannel(sh: Shape, f: nat, j: nat)
    requires f < sh.channels && j < sh.PerFeature()
    ensures SliceOffset(sh, f, j) < sh.Numel()
    ensures ChannelOf(sh, SliceOffset(sh, f, j)) == f
  {
    var S := sh.image;
    assert S > 0;
    var n, i := j / S, j % S;
    assert j == n * S + i;
    if n >= sh.batch {
      MulMonotone(n, sh.batch, S);
      assert false;
    }
    ChannelOfOffset(sh, n, f, i);
  }

  /** `input.select(1, f)`: the N * S elements of feature f, batch-major. */
  function FeatureSlice(x: seq<real>, sh: Shape, f: nat): (r: seq<real>)
    requires |x| == sh.Numel() && f < sh.channels
    ensures |r| == sh.PerFeature()
  {
    seq(sh.PerFeature(), j requires 0 <= j < sh.PerFeature() =>
      SliceOffsetInChannel(sh, f, j); x[SliceOffset(sh, f, j)])
  }

  /** Element (n, i) of feature f's slice is the element at Offset(n, f, i). */
  lemma FeatureSliceAt(x: seq<real>, sh: Shape, f: nat, n: nat, i: nat)
    requires |x| == sh.Numel() && f < sh.channels
    requires n < sh.batch && i < sh.image
    ensures n * sh.image + i < sh.PerFeature()
    ensures Offset(sh, n, f, i) < |x|
    ensures FeatureSlice(x, sh, f)[n * sh.image + i] == x[Offset(sh, n, f, i)]
  {
    var S := sh.image;
    MulMonotone(sh.batch - 1, n, S);
    assert (sh.batch - 1) * S + S == sh.PerFeature();
    DivModUnique(n * S + i, S, n, i);
    OffsetInRange(sh, n, f, i);
  }

  /** Where row f of a buffer of rows of length S starts. */
  function RowStart(f: nat, S: nat): nat { f * S }

  /** Row f of a buffer made of rows of length S. */
  function Row(x: seq<real>, S: nat, f: nat): (row: seq<real>)
    requires RowStart(f, S) + S <= |x|
    ensures |row| == S
  {
    x[RowStart(f, S) .. RowStart(f, S) + S]
  }

  /** With a batch of one, feature f's slice is the f-th run of `image`
      consecutive elements. */
  lemma SingleBatchSlice(x: seq<real>, sh: Shape, f: nat)
    requires sh.batch == 1 && |x| == sh.Numel() && f < sh.channels
    ensures RowStart(f, sh.image) + sh.image <= |x|
    ensures FeatureSlice(x, sh, f) == Row(x, sh.image, f)
  {
    var S := sh.image;
    MulMonotone(sh.channels, f + 1, S);
    forall j | 0 <= j < S
      ensures FeatureSlice(x, sh, f)[j] == x[f * S + j]
    {
      FeatureSliceAt(x, sh, f, 0, j);
    }
  }

  lemma DivModUnique(k: int, d: int, q: int, r: int)
    requires d > 0 && 0 <= r < d && k == q * d + r
    ensures k / d == q && k % d == r
  {
    var q', r' := k / d, k % d;
    assert k == q' * d + r' && 0 <= r' < d;
    assert (q - q') * d == r' - r;
    if q > q' {
      MulMonotone(q - q', 1, d);
      assert false;
    } else if q < q' {
      MulMonotone(q' - q, 1, d);
      assert false;
    }
  }

  lemma MulMonotone(a: int, b: int, d: int)
    requires a >= b && d >= 0
    ensures a * d >= b * d
  {
  }
}
