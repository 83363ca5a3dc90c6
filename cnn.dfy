/** Three-dimensional tensors, the convolution layer and 2-D max pooling (cnn.go). Both layers
    have a forward pass only, and neither is wired into Sequential. */
module Cnn {
  import opened Errors

  // ---------------------------------------------------------------- Go integer division

  function Abs(x: int): nat {
    if x < 0 then -x else x
  }

  /** Go's integer `/`, which truncates toward zero (Dafny's `/` is Euclidean). */
  function GoDiv(a: int, b: int): int
    requires b != 0
  {
    if (a < 0) == (b < 0) then Abs(a) / Abs(b) else -(Abs(a) / Abs(b))
  }

  lemma DivMod(a: nat, b: nat)
    requires b > 0
    ensures a == (a / b) * b + a % b && 0 <= a % b < b
    ensures a == 0 ==> a % b == 0
  {
  }

  /** The remainder of GoDiv as a function of the Euclidean quotient and remainder of the sizes. */
  lemma GoRem(a: int, b: int)
    requires b != 0
    ensures a - GoDiv(a, b) * b == (if a < 0 then -(Abs(a) % Abs(b)) else Abs(a) % Abs(b))
  {
    DivMod(Abs(a), Abs(b));
    var q0: int := Abs(a) / Abs(b);
    var q := GoDiv(a, b);
    if (a < 0) == (b < 0) {
      assert q == q0;
      if b > 0 {
        assert q * b == q0 * Abs(b);
      } else {
        assert q * b == -(q0 * Abs(b));
      }
    } else {
      assert q == -q0;
      if b > 0 {
        assert q * b == -(q0 * Abs(b));
      } else {
        assert q * b == q0 * Abs(b);
      }
    }
  }

  /** GoDiv truncates: the remainder a - q * b is smaller than b in size and is zero or has the
      sign of a; on a non-negative dividend and a positive divisor it is Euclidean division. */
  lemma GoDivTruncates(a: int, b: int)
    requires b != 0
    ensures Abs(a - GoDiv(a, b) * b) < Abs(b)
    ensures a - GoDiv(a, b) * b == 0 || (a - GoDiv(a, b) * b > 0) == (a > 0)
    ensures a >= 0 && b > 0 ==> GoDiv(a, b) == a / b
  {
    GoRem(a, b);
    DivMod(Abs(a), Abs(b));
  }

  // ---------------------------------------------------------------- Tensor3D

  /** A tensor of `channels` planes of `height` rows of `width` reals, indexed
      [channel][row][column]. As in Go, the height and width are plain integers: a tensor
      without planes may have any height, and one without rows any width, as the output sizes
      of a convolution or a pooling too large for its input are. */
  datatype Tensor3D = Tensor3D(channels: nat, height: int, width: int, data: seq<seq<seq<real>>>) {
    predicate Valid() {
      |data| == channels &&
      (forall c | 0 <= c < channels :: |data[c]| == height) &&
      (forall c, h | 0 <= c < channels && 0 <= h < height :: |data[c][h]| == width)
    }
  }

  /** NewTensor3D does not panic: Go's make refuses a negative length, and NewTensor3D makes a
      plane of height rows only for each channel and a row of width cells only for each row. */
  predicate Allocatable(channels: nat, height: int, width: int) {
    channels > 0 ==> height >= 0 && (height > 0 ==> width >= 0)
  }

  /** A well-formed tensor has a shape NewTensor3D can allocate. */
  lemma ValidAllocatable(t: Tensor3D)
    requires t.Valid()
    ensures Allocatable(t.channels, t.height, t.width)
  {
    if t.channels > 0 {
      assert |t.data[0]| == t.height;
      if t.height > 0 {
        assert |t.data[0][0]| == t.width;
      }
    }
  }

  /** The zero tensor of the given shape. */
  function ZeroTensor(channels: nat, height: int, width: int): Tensor3D
    requires Allocatable(channels, height, width)
  {
    Tensor3D(channels, height, width,
             seq(channels, c requires 0 <= c < channels =>
               seq(height, h requires 0 <= h < height => seq(width, _ => 0.0))))
  }

  /** NewTensor3D: a channels x height x width tensor of zeros, one row and one plane at a
      time. */
  method NewTensor3D(channels: nat, height: int, width: int) returns (t: Tensor3D)
    requires Allocatable(channels, height, width)
    ensures t.Valid() && t.channels == channels && t.height == height && t.width == width
    ensures forall c, h, w | 0 <= c < channels && 0 <= h < height && 0 <= w < width :: t.data[c][h][w] == 0.0
    ensures t == ZeroTensor(channels, height, width)
  {
    ghost var z := ZeroTensor(channels, height, width);
    var data: seq<seq<seq<real>>> := [];
    var c := 0;
    while c < channels
      invariant 0 <= c <= channels
      invariant data == z.data[..c]
    {
      var plane: seq<seq<real>> := [];
      var h := 0;
      while h < height
        invariant 0 <= h <= height
        invariant plane == z.data[c][..h]
      {
        plane := plane + [seq(width, _ => 0.0)];
        h := h + 1;
      }
      assert plane == z.data[c];
      data := data + [plane];
      c := c + 1;
    }
    t := Tensor3D(channels, height, width, data);
  }

  // ---------------------------------------------------------------- the convolution layer

  /** A filter bank of n filters, each of c channels of size x size weights. */
  predicate FilterBank(filters: seq<seq<seq<seq<real>>>>, n: nat, c: nat, size: nat) {
    |filters| == n &&
    (forall f | 0 <= f < n :: |filters[f]| == c) &&
    (forall f, ch | 0 <= f < n && 0 <= ch < c :: |filters[f][ch]| == size) &&
    (forall f, ch, i | 0 <= f < n && 0 <= ch < c && 0 <= i < size :: |filters[f][ch][i]| == size)
  }

  datatype ConvLayer = ConvLayer(numFilters: nat, filterSize: nat, stride: int, padding: int, inChannels: nat,
                                 filters: seq<seq<seq<seq<real>>>>, bias: seq<real>)
  {
    /** The filter bank is numFilters x inChannels x filterSize x filterSize, one bias per filter. */
    predicate Valid() {
      FilterBank(filters, numFilters, inChannels, filterSize) && |bias| == numFilters
    }

    /** Forward: fails exactly when the input's channel count is not the layer's; otherwise
        one output plane per filter, of the truncated output size, each cell the bias plus the
        in-bounds terms. */
    method Forward(t: Tensor3D) returns (r: Result<Tensor3D>)
      requires ConvReady(this, t)
      ensures r.Err? <==> t.channels != inChannels
      ensures r.Err? ==> r.error == ChannelMismatch(t.channels, inChannels)
      ensures r.Ok? ==> r.value.Valid() && r.value.channels == numFilters &&
                        r.value.height == ConvOutSize(t.height, filterSize, padding, stride) &&
                        r.value.width == ConvOutSize(t.width, filterSize, padding, stride)
      ensures r.Ok? ==> forall f, h, w | 0 <= f < numFilters && 0 <= h < r.value.height && 0 <= w < r.value.width ::
                          r.value.data[f][h][w] == ConvCell(this, t, f, h, w)
      ensures r == ConvOutput(this, t)
    {
      if t.channels != inChannels {
        return Err(ChannelMismatch(t.channels, inChannels));
      }
      var outHeight := GoDiv(t.height - filterSize + 2 * padding, stride) + 1;
      var outWidth := GoDiv(t.width - filterSize + 2 * padding, stride) + 1;
      ghost var goal := ConvOutput(this, t).value;
      var data: seq<seq<seq<real>>> := [];
      var f := 0;
      while f < numFilters
        invariant 0 <= f <= numFilters
        invariant data == goal.data[..f]
      {
        var plane: seq<seq<real>> := [];
        var oh := 0;
        while oh < outHeight
          invariant 0 <= oh <= outHeight
          invariant plane == goal.data[f][..oh]
        {
          var row: seq<real> := [];
          var ow := 0;
          while ow < outWidth
            invariant 0 <= ow <= outWidth
            invariant row == goal.data[f][oh][..ow]
          {
            var sum := ConvolveAt(this, t, f, oh, ow);
            row := row + [sum];
            ow := ow + 1;
          }
          assert row == goal.data[f][oh];
          plane := plane + [row];
          oh := oh + 1;
        }
        assert plane == goal.data[f];
        data := data + [plane];
        f := f + 1;
      }
      assert data == goal.data;
      r := Ok(Tensor3D(numFilters, outHeight, outWidth, data));
    }
  }

  /** NewConvLayer: the given sizes, the caller's filter weights (the source draws each from
      [-0.1, 0.1) with math/rand), and a zero bias per filter. */
  function NewConvLayer(numFilters: nat, inChannels: nat, filterSize: nat, stride: int, padding: int,
                        filters: seq<seq<seq<seq<real>>>>): (l: ConvLayer)
    requires FilterBank(filters, numFilters, inChannels, filterSize)
    ensures l.Valid() && l.filters == filters
    ensures l.numFilters == numFilters && l.inChannels == inChannels && l.filterSize == filterSize
    ensures l.stride == stride && l.padding == padding
    ensures forall f | 0 <= f < numFilters :: l.bias[f] == 0.0
  {
    ConvLayer(numFilters, filterSize, stride, padding, inChannels, filters, seq(numFilters, _ => 0.0))
  }

  /** The output size along an axis of size n: (n - size + 2 * padding) / stride + 1, with Go's
      truncating division. */
  function ConvOutSize(n: int, size: int, padding: int, stride: int): int
    requires stride != 0
  {
    GoDiv(n - size + 2 * padding, stride) + 1
  }

  /** What Forward needs in order not to panic: once the channels agree, a non-zero stride
      (Go's integer division) and output sizes NewTensor3D can allocate for numFilters planes.
      Every read is guarded by the bounds check, so nothing else can fail. */
  predicate ConvReady(l: ConvLayer, t: Tensor3D) {
    l.Valid() && t.Valid() &&
    (t.channels == l.inChannels ==>
       l.stride != 0 &&
       Allocatable(l.numFilters, ConvOutSize(t.height, l.filterSize, l.padding, l.stride),
                   ConvOutSize(t.width, l.filterSize, l.padding, l.stride)))
  }

  /** The channels agree and the layer is ready to compute output cells. */
  predicate ConvCells(l: ConvLayer, t: Tensor3D) {
    ConvReady(l, t) && t.channels == l.inChannels
  }

  /** The term of weight (c, fh, fw) of filter f at output cell (oh, ow): the input value the
      weight covers times the weight, or no term at all when the covered coordinate is padding. */
  function ConvTerm(l: ConvLayer, t: Tensor3D, f: nat, oh: nat, ow: nat, c: nat, fh: nat, fw: nat): real
    requires ConvCells(l, t) && f < l.numFilters && c < l.inChannels && fh < l.filterSize && fw < l.filterSize
  {
    var inH := oh * l.stride + fh - l.padding;
    var inW := ow * l.stride + fw - l.padding;
    if 0 <= inH < t.height && 0 <= inW < t.width then t.data[c][inH][inW] * l.filters[f][c][fh][fw] else 0.0
  }

  /** The terms of weights (c, fh, 0), ..., (c, fh, k - 1). */
  function ConvRowSum(l: ConvLayer, t: Tensor3D, f: nat, oh: nat, ow: nat, c: nat, fh: nat, k: nat): real
    requires ConvCells(l, t) && f < l.numFilters && c < l.inChannels && fh < l.filterSize && k <= l.filterSize
  {
    if k == 0 then 0.0 else ConvRowSum(l, t, f, oh, ow, c, fh, k - 1) + ConvTerm(l, t, f, oh, ow, c, fh, k - 1)
  }

  /** The terms of filter rows 0, ..., k - 1 of channel c. */
  function ConvChannelSum(l: ConvLayer, t: Tensor3D, f: nat, oh: nat, ow: nat, c: nat, k: nat): real
    requires ConvCells(l, t) && f < l.numFilters && c < l.inChannels && k <= l.filterSize
  {
    if k == 0 then 0.0 else ConvChannelSum(l, t, f, oh, ow, c, k - 1) + ConvRowSum(l, t, f, oh, ow, c, k - 1, l.filterSize)
  }

  /** The terms of channels 0, ..., k - 1. */
  function ConvChannelsSum(l: ConvLayer, t: Tensor3D, f: nat, oh: nat, ow: nat, k: nat): real
    requires ConvCells(l, t) && f < l.numFilters && k <= l.inChannels
  {
    if k == 0 then 0.0 else ConvChannelsSum(l, t, f, oh, ow, k - 1) + ConvChannelSum(l, t, f, oh, ow, k - 1, l.filterSize)
  }

  /** Output cell (oh, ow) of filter f: the filter's bias plus every term of every channel. */
  function ConvCell(l: ConvLayer, t: Tensor3D, f: nat, oh: nat, ow: nat): real
    requires ConvCells(l, t) && f < l.numFilters
  {
    l.bias[f] + ConvChannelsSum(l, t, f, oh, ow, l.inChannels)
  }

  /** ConvLayer.Forward on values: the channel check, then a numFilters x outHeight x outWidth
      tensor of output cells. */
  function ConvOutput(l: ConvLayer, t: Tensor3D): Result<Tensor3D>
    requires ConvReady(l, t)
  {
    if t.channels != l.inChannels then Err(ChannelMismatch(t.channels, l.inChannels))
    else
      var outH := ConvOutSize(t.height, l.filterSize, l.padding, l.stride);
      var outW := ConvOutSize(t.width, l.filterSize, l.padding, l.stride);
      Ok(Tensor3D(l.numFilters, outH, outW,
                  seq(l.numFilters, f requires 0 <= f < l.numFilters =>
                    seq(outH, h requires 0 <= h < outH =>
                      seq(outW, w requires 0 <= w < outW => ConvCell(l, t, f, h, w))))))
  }

  /** Channel c's contribution to one output cell, added filter row by filter row to sum0:
      every in-bounds input value times its weight. */
  method ConvolveChannel(l: ConvLayer, t: Tensor3D, f: nat, oh: nat, ow: nat, c: nat, sum0: real) returns (sum: real)
    requires ConvCells(l, t) && f < l.numFilters && c < l.inChannels
    ensures sum == sum0 + ConvChannelSum(l, t, f, oh, ow, c, l.filterSize)
  {
    sum := sum0;
    var fh := 0;
    while fh < l.filterSize
      invariant 0 <= fh <= l.filterSize
      invariant sum == sum0 + ConvChannelSum(l, t, f, oh, ow, c, fh)
    {
      var fw := 0;
      while fw < l.filterSize
        invariant 0 <= fw <= l.filterSize
        invariant sum == sum0 + ConvChannelSum(l, t, f, oh, ow, c, fh) + ConvRowSum(l, t, f, oh, ow, c, fh, fw)
      {
        var inH := oh * l.stride + fh - l.padding;
        var inW := ow * l.stride + fw - l.padding;
        if inH >= 0 && inH < t.height && inW >= 0 && inW < t.width {
          sum := sum + t.data[c][inH][inW] * l.filters[f][c][fh][fw];
        }
        fw := fw + 1;
      }
      fh := fh + 1;
    }
  }

  /** The sum accumulated for one output cell: the bias, then channel by channel the terms the
      filter's weights contribute. */
  method ConvolveAt(l: ConvLayer, t: Tensor3D, f: nat, oh: nat, ow: nat) returns (sum: real)
    requires ConvCells(l, t) && f < l.numFilters
    ensures sum == ConvCell(l, t, f, oh, ow)
  {
    sum := l.bias[f];
    var c := 0;
    while c < l.inChannels
      invariant 0 <= c <= l.inChannels
      invariant sum == l.bias[f] + ConvChannelsSum(l, t, f, oh, ow, c)
    {
      sum := ConvolveChannel(l, t, f, oh, ow, c, sum);
      c := c + 1;
    }
  }

  // ---------------------------------------------------------------- properties of convolution

  /** t with p rows and columns of zeros around every plane: the input a layer without
      padding sees. Only a tensor of natural sizes has such a border. */
  function PadTensor(t: Tensor3D, p: nat): (r: Tensor3D)
    requires t.Valid() && t.height >= 0 && t.width >= 0
    ensures r.Valid() && r.channels == t.channels && r.height == t.height + 2 * p && r.width == t.width + 2 * p
  {
    Tensor3D(t.channels, t.height + 2 * p, t.width + 2 * p,
             seq(t.channels, c requires 0 <= c < t.channels =>
               seq(t.height + 2 * p, i =>
                 seq(t.width + 2 * p, j =>
                   if p <= i < t.height + p && p <= j < t.width + p then t.data[c][i - p][j - p] else 0.0))))
  }

  /** The layer with its padding taken away. */
  function Unpadded(l: ConvLayer): ConvLayer {
    l.(padding := 0)
  }

  /** Without padding, the zero-padded input has the same output sizes. */
  lemma PadReady(l: ConvLayer, t: Tensor3D)
    requires ConvReady(l, t) && l.padding >= 0 && t.height >= 0 && t.width >= 0
    ensures ConvReady(Unpadded(l), PadTensor(t, l.padding))
    ensures t.channels == l.inChannels ==>
              ConvOutSize(t.height + 2 * l.padding, l.filterSize, 0, l.stride) == ConvOutSize(t.height, l.filterSize, l.padding, l.stride) &&
              ConvOutSize(t.width + 2 * l.padding, l.filterSize, 0, l.stride) == ConvOutSize(t.width, l.filterSize, l.padding, l.stride)
  {
  }

  /** The padding of l reads as zeros of the padded input. */
  lemma TermPadding(l: ConvLayer, t: Tensor3D, f: nat, oh: nat, ow: nat, c: nat, fh: nat, fw: nat)
    requires ConvCells(l, t) && l.padding >= 0 && f < l.numFilters && c < l.inChannels && fh < l.filterSize && fw < l.filterSize
    requires t.height >= 0 && t.width >= 0 && ConvCells(Unpadded(l), PadTensor(t, l.padding))
    ensures ConvTerm(l, t, f, oh, ow, c, fh, fw) == ConvTerm(Unpadded(l), PadTensor(t, l.padding), f, oh, ow, c, fh, fw)
  {
    var p := l.padding;
    var inH := oh * l.stride + fh;
    var inW := ow * l.stride + fw;
    if 0 <= inH < t.height + 2 * p && 0 <= inW < t.width + 2 * p {
      assert PadTensor(t, p).data[c][inH][inW] ==
             if p <= inH < t.height + p && p <= inW < t.width + p then t.data[c][inH - p][inW - p] else 0.0;
    }
  }

  /** Two layers of the same shape whose every term agrees on their inputs. */
  ghost predicate SameTerms(l: ConvLayer, t: Tensor3D, l2: ConvLayer, t2: Tensor3D) {
    ConvCells(l, t) && ConvCells(l2, t2) &&
    l2.numFilters == l.numFilters && l2.inChannels == l.inChannels && l2.filterSize == l.filterSize &&
    forall f: nat, oh: nat, ow: nat, c: nat, fh: nat, fw: nat
      | f < l.numFilters && c < l.inChannels && fh < l.filterSize && fw < l.filterSize ::
      ConvTerm(l, t, f, oh, ow, c, fh, fw) == ConvTerm(l2, t2, f, oh, ow, c, fh, fw)
  }

  lemma {:induction false} RowSumSame(l: ConvLayer, t: Tensor3D, l2: ConvLayer, t2: Tensor3D, f: nat, oh: nat, ow: nat, c: nat, fh: nat, k: nat)
    requires SameTerms(l, t, l2, t2) && f < l.numFilters && c < l.inChannels && fh < l.filterSize && k <= l.filterSize
    ensures ConvRowSum(l, t, f, oh, ow, c, fh, k) == ConvRowSum(l2, t2, f, oh, ow, c, fh, k)
  {
    if k > 0 {
      RowSumSame(l, t, l2, t2, f, oh, ow, c, fh, k - 1);
    }
  }

  lemma {:induction false} ChannelSumSame(l: ConvLayer, t: Tensor3D, l2: ConvLayer, t2: Tensor3D, f: nat, oh: nat, ow: nat, c: nat, k: nat)
    requires SameTerms(l, t, l2, t2) && f < l.numFilters && c < l.inChannels && k <= l.filterSize
    ensures ConvChannelSum(l, t, f, oh, ow, c, k) == ConvChannelSum(l2, t2, f, oh, ow, c, k)
  {
    if k > 0 {
      ChannelSumSame(l, t, l2, t2, f, oh, ow, c, k - 1);
      RowSumSame(l, t, l2, t2, f, oh, ow, c, k - 1, l.filterSize);
    }
  }

  lemma {:induction false} ChannelsSumSame(l: ConvLayer, t: Tensor3D, l2: ConvLayer, t2: Tensor3D, f: nat, oh: nat, ow: nat, k: nat)
    requires SameTerms(l, t, l2, t2) && f < l.numFilters && k <= l.inChannels
    ensures ConvChannelsSum(l, t, f, oh, ow, k) == ConvChannelsSum(l2, t2, f, oh, ow, k)
  {
    if k > 0 {
      ChannelsSumSame(l, t, l2, t2, f, oh, ow, k - 1);
      ChannelSumSame(l, t, l2, t2, f, oh, ow, k - 1, l.filterSize);
    }
  }

  /** Padding is zero padding: a layer with padding p computes what the same layer without
      padding computes on the input surrounded by p rows and columns of zeros. */
  lemma ConvPaddingIsZeroPadding(l: ConvLayer, t: Tensor3D)
    requires ConvReady(l, t) && l.padding >= 0 && t.height >= 0 && t.width >= 0
    ensures ConvReady(Unpadded(l), PadTensor(t, l.padding))
    ensures ConvOutput(l, t) == ConvOutput(Unpadded(l), PadTensor(t, l.padding))
  {
    PadReady(l, t);
    if t.channels == l.inChannels {
      var l2, t2 := Unpadded(l), PadTensor(t, l.padding);
      forall f: nat, oh: nat, ow: nat, c: nat, fh: nat, fw: nat
        | f < l.numFilters && c < l.inChannels && fh < l.filterSize && fw < l.filterSize
        ensures ConvTerm(l, t, f, oh, ow, c, fh, fw) == ConvTerm(l2, t2, f, oh, ow, c, fh, fw)
      {
        TermPadding(l, t, f, oh, ow, c, fh, fw);
      }
      assert SameTerms(l, t, l2, t2);
      var a, b := ConvOutput(l, t).value, ConvOutput(l2, t2).value;
      assert a.height == b.height && a.width == b.width;
      forall f | 0 <= f < l.numFilters
        ensures a.data[f] == b.data[f]
      {
        forall h | 0 <= h < a.height
          ensures a.data[f][h] == b.data[f][h]
        {
          forall w | 0 <= w < a.width
            ensures a.data[f][h][w] == b.data[f][h][w]
          {
            ChannelsSumSame(l, t, l2, t2, f, h, w, l.inChannels);
          }
        }
      }
      assert a.data == b.data;
    }
  }

  /** The sum of the 2x2 window of plane 0 whose top left corner is (h, w). */
  function Window2Sum(t: Tensor3D, h: nat, w: nat): real
    requires t.Valid() && t.channels >= 1 && h + 1 < t.height && w + 1 < t.width
  {
    t.data[0][h][w] + t.data[0][h][w + 1] + t.data[0][h + 1][w] + t.data[0][h + 1][w + 1]
  }

  /** One 2x2 filter of ones over one channel, stride 1, no padding. */
  function OnesLayer(bias: real): ConvLayer {
    ConvLayer(1, 2, 1, 0, 1, [[[[1.0, 1.0], [1.0, 1.0]]]], [bias])
  }

  /** A 1-channel 4x4 input, one 2x2 filter of ones, stride 1, no padding: the 3x3 tensor of the
      sums of the 2x2 windows, each plus the bias. */
  lemma ConvOnesExample(t: Tensor3D, bias: real)
    requires t.Valid() && t.channels == 1 && t.height == 4 && t.width == 4
    ensures ConvReady(OnesLayer(bias), t) && ConvOutput(OnesLayer(bias), t).Ok?
    ensures ConvOutput(OnesLayer(bias), t).value.channels == 1
    ensures ConvOutput(OnesLayer(bias), t).value.height == 3 && ConvOutput(OnesLayer(bias), t).value.width == 3
    ensures forall h, w | 0 <= h < 3 && 0 <= w < 3 ::
              ConvOutput(OnesLayer(bias), t).value.data[0][h][w] == bias + Window2Sum(t, h, w)
  {
    var l := OnesLayer(bias);
    assert ConvOutSize(4, 2, 0, 1) == 3;
    assert ConvCells(l, t);
    forall h: nat, w: nat | h < 3 && w < 3
      ensures ConvCell(l, t, 0, h, w) == bias + Window2Sum(t, h, w)
    {
      OnesCell(t, bias, h, w);
    }
  }

  lemma OnesCell(t: Tensor3D, bias: real, h: nat, w: nat)
    requires ConvCells(OnesLayer(bias), t) && t.height == 4 && t.width == 4 && h < 3 && w < 3
    ensures ConvCell(OnesLayer(bias), t, 0, h, w) == bias + Window2Sum(t, h, w)
  {
    var l := OnesLayer(bias);
    assert ConvTerm(l, t, 0, h, w, 0, 0, 0) == t.data[0][h][w];
    assert ConvTerm(l, t, 0, h, w, 0, 0, 1) == t.data[0][h][w + 1];
    assert ConvTerm(l, t, 0, h, w, 0, 1, 0) == t.data[0][h + 1][w];
    assert ConvTerm(l, t, 0, h, w, 0, 1, 1) == t.data[0][h + 1][w + 1];
    assert ConvRowSum(l, t, 0, h, w, 0, 0, 1) == ConvTerm(l, t, 0, h, w, 0, 0, 0);
    assert ConvRowSum(l, t, 0, h, w, 0, 1, 1) == ConvTerm(l, t, 0, h, w, 0, 1, 0);
    assert ConvRowSum(l, t, 0, h, w, 0, 0, 2) == t.data[0][h][w] + t.data[0][h][w + 1];
    assert ConvRowSum(l, t, 0, h, w, 0, 1, 2) == t.data[0][h + 1][w] + t.data[0][h + 1][w + 1];
    assert ConvChannelSum(l, t, 0, h, w, 0, 1) == ConvRowSum(l, t, 0, h, w, 0, 0, 2);
    assert ConvChannelSum(l, t, 0, h, w, 0, 2) == ConvChannelSum(l, t, 0, h, w, 0, 1) + ConvRowSum(l, t, 0, h, w, 0, 1, 2);
    assert ConvChannelsSum(l, t, 0, h, w, 1) == ConvChannelSum(l, t, 0, h, w, 0, 2);
    assert ConvCell(l, t, 0, h, w) == bias + ConvChannelsSum(l, t, 0, h, w, 1);
  }

  /** The output size truncates: a 3-wide filter with stride 2 over 2 rows and no padding gives
      one output row, (2 - 3) / 2 + 1 = 0 + 1, where flooring would give none. */
  lemma ConvOutSizeTruncates()
    ensures ConvOutSize(2, 3, 0, 2) == 1
    ensures (2 - 3 + 2 * 0) / 2 + 1 == 0
  {
  }

  /** A filter too large for its input is no error: a 3x3 filter with stride 1 and no padding
      over a 1-channel 2x1 input gives the output sizes 0 and -1, and Forward returns one plane
      without rows. */
  lemma ConvFilterLargerThanInput(l: ConvLayer, t: Tensor3D)
    requires l.Valid() && l.numFilters == 1 && l.inChannels == 1 && l.filterSize == 3
    requires l.stride == 1 && l.padding == 0
    requires t.Valid() && t.channels == 1 && t.height == 2 && t.width == 1
    ensures ConvReady(l, t) && ConvOutput(l, t) == Ok(Tensor3D(1, 0, -1, [[]]))
  {
    assert ConvOutSize(2, 3, 0, 1) == 0 && ConvOutSize(1, 3, 0, 1) == -1;
    assert ConvOutput(l, t).value.data == [[]];
  }

  /** A layer without filters accepts every input of its channel count and any output sizes,
      and returns a tensor without planes. */
  lemma ConvWithoutFilters(l: ConvLayer, t: Tensor3D)
    requires l.Valid() && l.numFilters == 0 && l.stride != 0 && t.Valid() && t.channels == l.inChannels
    ensures ConvReady(l, t) && ConvOutput(l, t).Ok?
    ensures ConvOutput(l, t).value.channels == 0 && ConvOutput(l, t).value.data == []
    ensures ConvOutput(l, t).value.height == ConvOutSize(t.height, l.filterSize, l.padding, l.stride)
    ensures ConvOutput(l, t).value.width == ConvOutSize(t.width, l.filterSize, l.padding, l.stride)
  {
  }

  // ---------------------------------------------------------------- max pooling

  datatype MaxPool2D = MaxPool2D(poolSize: int, stride: int)
  {
    /** Forward: as many channels as the input, of the truncated output size, each cell
        the running maximum of its window. */
    method Forward(t: Tensor3D) returns (r: Tensor3D)
      requires PoolReady(this, t)
      ensures r.Valid() && r.channels == t.channels
      ensures r.height == PoolOutSize(t.height, poolSize, stride)
      ensures r.width == PoolOutSize(t.width, poolSize, stride)
      ensures forall c, h, w | 0 <= c < r.channels && 0 <= h < r.height && 0 <= w < r.width ::
                r.data[c][h][w] == PoolCell(this, t, c, h, w)
      ensures r == PoolOutput(this, t)
    {
      var outHeight := GoDiv(t.height - poolSize, stride) + 1;
      var outWidth := GoDiv(t.width - poolSize, stride) + 1;
      ghost var goal := PoolOutput(this, t);
      var data: seq<seq<seq<real>>> := [];
      var c := 0;
      while c < t.channels
        invariant 0 <= c <= t.channels
        invariant data == goal.data[..c]
      {
        var plane: seq<seq<real>> := [];
        var oh := 0;
        while oh < outHeight
          invariant 0 <= oh <= outHeight
          invariant plane == goal.data[c][..oh]
        {
          var row: seq<real> := [];
          var ow := 0;
          while ow < outWidth
            invariant 0 <= ow <= outWidth
            invariant row == goal.data[c][oh][..ow]
          {
            var maxVal := PoolMax(this, t, c, oh, ow);
            row := row + [maxVal];
            ow := ow + 1;
          }
          assert row == goal.data[c][oh];
          plane := plane + [row];
          oh := oh + 1;
        }
        assert plane == goal.data[c];
        data := data + [plane];
        c := c + 1;
      }
      assert data == goal.data;
      r := Tensor3D(t.channels, outHeight, outWidth, data);
    }
  }

  /** NewMaxPool2D. */
  function NewMaxPool2D(poolSize: int, stride: int): (p: MaxPool2D)
    ensures p.poolSize == poolSize && p.stride == stride
  {
    MaxPool2D(poolSize, stride)
  }

  /** The output size along an axis of size n: (n - poolSize) / stride + 1, truncating. */
  function PoolOutSize(n: int, poolSize: int, stride: int): int
    requires stride != 0
  {
    GoDiv(n - poolSize, stride) + 1
  }

  /** The number of window offsets Forward's loops visit along an axis. */
  function Span(poolSize: int): nat {
    if poolSize > 0 then poolSize else 0
  }

  /** The input index read for output index o at window offset k. */
  function WindowIndex(o: int, stride: int, k: int): int {
    o * stride + k
  }

  /** The number of window offsets Forward reads along an axis: those its loops visit, and at
      least offset 0, the cell's first value. */
  function Reach(poolSize: int): nat {
    if poolSize > 0 then poolSize else 1
  }

  /** Every index Forward reads along an axis of size n is inside it. */
  predicate AxisReadable(n: int, poolSize: int, stride: int)
    requires stride != 0
  {
    forall o, k | 0 <= o < PoolOutSize(n, poolSize, stride) && 0 <= k < Reach(poolSize) ::
      0 <= WindowIndex(o, stride, k) < n
  }

  /** What MaxPool2D.Forward needs in order not to panic: a non-zero stride, output sizes
      NewTensor3D can allocate for the input's channels, and, when there is any output cell,
      only in-bounds reads. */
  predicate PoolReady(pool: MaxPool2D, t: Tensor3D) {
    t.Valid() && pool.stride != 0 &&
    Allocatable(t.channels, PoolOutSize(t.height, pool.poolSize, pool.stride), PoolOutSize(t.width, pool.poolSize, pool.stride)) &&
    (t.channels > 0 && PoolOutSize(t.height, pool.poolSize, pool.stride) > 0 && PoolOutSize(t.width, pool.poolSize, pool.stride) > 0 ==>
       AxisReadable(t.height, pool.poolSize, pool.stride) && AxisReadable(t.width, pool.poolSize, pool.stride))
  }

  /** Output cell (oh, ow) of channel c exists. */
  predicate PoolCellAt(pool: MaxPool2D, t: Tensor3D, c: nat, oh: nat, ow: nat) {
    PoolReady(pool, t) && c < t.channels &&
    oh < PoolOutSize(t.height, pool.poolSize, pool.stride) && ow < PoolOutSize(t.width, pool.poolSize, pool.stride)
  }

  /** The input value at window offset (ph, pw) of output cell (oh, ow) of channel c. */
  function WindowValue(pool: MaxPool2D, t: Tensor3D, c: nat, oh: nat, ow: nat, ph: nat, pw: nat): real
    requires PoolCellAt(pool, t, c, oh, ow)
    requires ph < Reach(pool.poolSize) && pw < Reach(pool.poolSize)
  {
    assert 0 <= WindowIndex(oh, pool.stride, ph) < t.height;
    assert 0 <= WindowIndex(ow, pool.stride, pw) < t.width;
    t.data[c][WindowIndex(oh, pool.stride, ph)][WindowIndex(ow, pool.stride, pw)]
  }

  function Larger(acc: real, v: real): real {
    if v > acc then v else acc
  }

  /** The running maximum after offsets (ph, 0), ..., (ph, k - 1), from acc. */
  function PoolRowMax(pool: MaxPool2D, t: Tensor3D, c: nat, oh: nat, ow: nat, ph: nat, k: nat, acc: real): real
    requires PoolCellAt(pool, t, c, oh, ow) && ph < Span(pool.poolSize) && k <= Span(pool.poolSize)
  {
    if k == 0 then acc else Larger(PoolRowMax(pool, t, c, oh, ow, ph, k - 1, acc), WindowValue(pool, t, c, oh, ow, ph, k - 1))
  }

  /** The running maximum after window rows 0, ..., k - 1, from acc. */
  function PoolWindowMax(pool: MaxPool2D, t: Tensor3D, c: nat, oh: nat, ow: nat, k: nat, acc: real): real
    requires PoolCellAt(pool, t, c, oh, ow) && k <= Span(pool.poolSize)
  {
    if k == 0 then acc
    else PoolRowMax(pool, t, c, oh, ow, k - 1, Span(pool.poolSize), PoolWindowMax(pool, t, c, oh, ow, k - 1, acc))
  }

  /** Output cell (oh, ow) of channel c: the running maximum over the window, started at the
      window's corner value. */
  function PoolCell(pool: MaxPool2D, t: Tensor3D, c: nat, oh: nat, ow: nat): real
    requires PoolCellAt(pool, t, c, oh, ow)
  {
    PoolWindowMax(pool, t, c, oh, ow, Span(pool.poolSize), WindowValue(pool, t, c, oh, ow, 0, 0))
  }

  /** MaxPool2D.Forward on values: channels x outHeight x outWidth cells. */
  function PoolOutput(pool: MaxPool2D, t: Tensor3D): Tensor3D
    requires PoolReady(pool, t)
  {
    var outH := PoolOutSize(t.height, pool.poolSize, pool.stride);
    var outW := PoolOutSize(t.width, pool.poolSize, pool.stride);
    Tensor3D(t.channels, outH, outW,
             seq(t.channels, c requires 0 <= c < t.channels =>
               seq(outH, h requires 0 <= h < outH =>
                 seq(outW, w requires 0 <= w < outW => PoolCell(pool, t, c, h, w)))))
  }

  lemma {:induction false} RowMaxBounds(pool: MaxPool2D, t: Tensor3D, c: nat, oh: nat, ow: nat, ph: nat, k: nat, acc: real)
    requires PoolCellAt(pool, t, c, oh, ow) && ph < Span(pool.poolSize) && k <= Span(pool.poolSize)
    ensures acc <= PoolRowMax(pool, t, c, oh, ow, ph, k, acc)
    ensures forall pw | 0 <= pw < k :: WindowValue(pool, t, c, oh, ow, ph, pw) <= PoolRowMax(pool, t, c, oh, ow, ph, k, acc)
    ensures PoolRowMax(pool, t, c, oh, ow, ph, k, acc) == acc ||
            exists pw | 0 <= pw < k :: PoolRowMax(pool, t, c, oh, ow, ph, k, acc) == WindowValue(pool, t, c, oh, ow, ph, pw)
  {
    if k > 0 {
      RowMaxBounds(pool, t, c, oh, ow, ph, k - 1, acc);
    }
  }

  lemma {:induction false} WindowMaxBounds(pool: MaxPool2D, t: Tensor3D, c: nat, oh: nat, ow: nat, k: nat, acc: real)
    requires PoolCellAt(pool, t, c, oh, ow) && k <= Span(pool.poolSize)
    ensures acc <= PoolWindowMax(pool, t, c, oh, ow, k, acc)
    ensures forall ph, pw | 0 <= ph < k && 0 <= pw < Span(pool.poolSize) ::
              WindowValue(pool, t, c, oh, ow, ph, pw) <= PoolWindowMax(pool, t, c, oh, ow, k, acc)
    ensures PoolWindowMax(pool, t, c, oh, ow, k, acc) == acc ||
            exists ph, pw | 0 <= ph < k && 0 <= pw < Span(pool.poolSize) ::
              PoolWindowMax(pool, t, c, oh, ow, k, acc) == WindowValue(pool, t, c, oh, ow, ph, pw)
  {
    if k > 0 {
      var prev := PoolWindowMax(pool, t, c, oh, ow, k - 1, acc);
      WindowMaxBounds(pool, t, c, oh, ow, k - 1, acc);
      RowMaxBounds(pool, t, c, oh, ow, k - 1, Span(pool.poolSize), prev);
    }
  }

  /** Each output cell is at least every value of its poolSize x poolSize window; it is one of
      them when the window is not empty, and the first value read otherwise. */
  lemma PoolCellIsWindowMax(pool: MaxPool2D, t: Tensor3D, c: nat, oh: nat, ow: nat)
    requires PoolCellAt(pool, t, c, oh, ow)
    ensures forall ph, pw | 0 <= ph < Span(pool.poolSize) && 0 <= pw < Span(pool.poolSize) ::
              WindowValue(pool, t, c, oh, ow, ph, pw) <= PoolCell(pool, t, c, oh, ow)
    ensures pool.poolSize >= 1 ==>
              exists ph, pw | 0 <= ph < pool.poolSize && 0 <= pw < pool.poolSize ::
                PoolCell(pool, t, c, oh, ow) == WindowValue(pool, t, c, oh, ow, ph, pw)
    ensures pool.poolSize < 1 ==> PoolCell(pool, t, c, oh, ow) == WindowValue(pool, t, c, oh, ow, 0, 0)
  {
    WindowMaxBounds(pool, t, c, oh, ow, Span(pool.poolSize), WindowValue(pool, t, c, oh, ow, 0, 0));
  }

  lemma MulMono(x: int, y: int, s: int)
    requires 0 <= x <= y && 0 <= s
    ensures 0 <= x * s <= y * s
  {
  }

  /** With stride and pool size at least 1 and every axis at least the pool size, every read
      Forward makes along an axis is in bounds. */
  lemma AxisInBounds(n: int, poolSize: int, stride: int)
    requires stride >= 1 && poolSize >= 1 && n >= poolSize
    ensures PoolOutSize(n, poolSize, stride) >= 1 && AxisReadable(n, poolSize, stride)
  {
    GoDivTruncates(n - poolSize, stride);
    var q := (n - poolSize) / stride;
    DivMod(n - poolSize, stride);
    forall o, k | 0 <= o < PoolOutSize(n, poolSize, stride) && 0 <= k < Reach(poolSize)
      ensures 0 <= WindowIndex(o, stride, k) < n
    {
      MulMono(o, q, stride);
    }
  }

  /** Given stride >= 1, pool size >= 1, and height and width at least the pool size, Forward
      can run: its output sizes are positive and every index it reads is in bounds. */
  lemma PoolInBounds(pool: MaxPool2D, t: Tensor3D)
    requires t.Valid() && pool.stride >= 1 && pool.poolSize >= 1
    requires t.height >= pool.poolSize && t.width >= pool.poolSize
    ensures PoolReady(pool, t)
    ensures PoolOutSize(t.height, pool.poolSize, pool.stride) >= 1 && PoolOutSize(t.width, pool.poolSize, pool.stride) >= 1
  {
    AxisInBounds(t.height, pool.poolSize, pool.stride);
    AxisInBounds(t.width, pool.poolSize, pool.stride);
  }

  /** The pool size matters: with an empty window (pool size 0) and stride 2, a 4-row axis has
      three output rows, and the last reads row 4. */
  lemma EmptyPoolReadsPastEnd(t: Tensor3D)
    requires t.Valid() && t.channels == 1 && t.height == 4 && t.width == 4
    ensures PoolOutSize(4, 0, 2) == 3 && WindowIndex(2, 2, 0) == 4
    ensures !PoolReady(MaxPool2D(0, 2), t)
  {
    assert PoolOutSize(4, 0, 2) == 3;
    assert !(0 <= WindowIndex(2, 2, 0) < 4);
  }

  /** A 1x1 pool with stride 1 is the identity. */
  lemma PoolIdentity(t: Tensor3D)
    requires t.Valid()
    ensures PoolReady(MaxPool2D(1, 1), t) && PoolOutput(MaxPool2D(1, 1), t) == t
  {
    var pool := MaxPool2D(1, 1);
    assert PoolOutSize(t.height, 1, 1) == t.height;
    assert PoolOutSize(t.width, 1, 1) == t.width;
    ValidAllocatable(t);
    var r := PoolOutput(pool, t);
    forall c | 0 <= c < t.channels
      ensures r.data[c] == t.data[c]
    {
      forall h | 0 <= h < t.height
        ensures r.data[c][h] == t.data[c][h]
      {
        forall w | 0 <= w < t.width
          ensures r.data[c][h][w] == t.data[c][h][w]
        {
          var v := WindowValue(pool, t, c, h, w, 0, 0);
          assert WindowIndex(h, 1, 0) == h && WindowIndex(w, 1, 0) == w;
          assert PoolRowMax(pool, t, c, h, w, 0, 1, v) == v;
          assert PoolWindowMax(pool, t, c, h, w, 0, v) == v;
          assert PoolCell(pool, t, c, h, w) == PoolWindowMax(pool, t, c, h, w, 1, v);
        }
      }
    }
  }

  /** A pool larger than its input reads nothing: a 3x3 pool with stride 1 over a 1-channel
      2x1 input gives the output sizes 0 and -1, and Forward returns one plane without rows. */
  lemma PoolLargerThanInput(t: Tensor3D)
    requires t.Valid() && t.channels == 1 && t.height == 2 && t.width == 1
    ensures PoolReady(MaxPool2D(3, 1), t) && PoolOutput(MaxPool2D(3, 1), t) == Tensor3D(1, 0, -1, [[]])
  {
    assert PoolOutSize(2, 3, 1) == 0 && PoolOutSize(1, 3, 1) == -1;
    assert PoolOutput(MaxPool2D(3, 1), t).data == [[]];
  }

  /** An input without channels can be pooled with any non-zero stride and any pool size, into a
      tensor without planes. */
  lemma PoolWithoutChannels(pool: MaxPool2D, t: Tensor3D)
    requires t.Valid() && t.channels == 0 && pool.stride != 0
    ensures PoolReady(pool, t) && PoolOutput(pool, t).channels == 0 && PoolOutput(pool, t).data == []
    ensures PoolOutput(pool, t).height == PoolOutSize(t.height, pool.poolSize, pool.stride)
    ensures PoolOutput(pool, t).width == PoolOutSize(t.width, pool.poolSize, pool.stride)
  {
  }

  /** The maximum accumulated for one output cell: the window's corner value, then each window
      value that exceeds the maximum so far, row by row. */
  method PoolMax(pool: MaxPool2D, t: Tensor3D, c: nat, oh: nat, ow: nat) returns (maxVal: real)
    requires PoolCellAt(pool, t, c, oh, ow)
    ensures maxVal == PoolCell(pool, t, c, oh, ow)
  {
    ghost var first := WindowValue(pool, t, c, oh, ow, 0, 0);
    maxVal := t.data[c][oh * pool.stride][ow * pool.stride];
    var ph := 0;
    while ph < pool.poolSize
      invariant 0 <= ph <= Span(pool.poolSize)
      invariant maxVal == PoolWindowMax(pool, t, c, oh, ow, ph, first)
    {
      var pw := 0;
      while pw < pool.poolSize
        invariant 0 <= pw <= Span(pool.poolSize)
        invariant maxVal == PoolRowMax(pool, t, c, oh, ow, ph, pw, PoolWindowMax(pool, t, c, oh, ow, ph, first))
      {
        var inH := oh * pool.stride + ph;
        var inW := ow * pool.stride + pw;
        assert t.data[c][inH][inW] == WindowValue(pool, t, c, oh, ow, ph, pw);
        if t.data[c][inH][inW] > maxVal {
          maxVal := t.data[c][inH][inW];
        }
        pw := pw + 1;
      }
      ph := ph + 1;
    }
  }
}
