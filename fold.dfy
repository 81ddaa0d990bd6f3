/** Batch-norm folding (`QConvBNReLU.fold_bn`). A convolution followed by a
    batch norm in inference mode is, channel by channel, one affine map of
    the convolution's input patch; folding rewrites the convolution's weight
    and bias so that the batch norm disappears. The weight is modelled as one
    row per output channel (that channel's kernel flattened), so the
    convolution's output for channel `c` on an input patch `x` is
    `Dot(weight[c], x) + bias[c]`. */
module Fold {
  import opened Wrappers
  import opened Numeric

  /** The parameters of a `BatchNorm2d` module: `affine`, its per-channel
      `weight` (gamma) and `bias` (beta), its running statistics and `eps`. */
  datatype BatchNorm = BatchNorm(affine: bool, gamma: seq<real>, beta: seq<real>,
                                 runningMean: seq<real>, runningVar: seq<real>, eps: real)

  /** The folded convolution weight (one row per output channel) and bias. */
  datatype Folded = Folded(weight: seq<seq<real>>, bias: seq<real>)

  /** The shapes agree channel by channel and no `std` entry is zero. */
  predicate FoldFits(weight: seq<seq<real>>, convBias: Option<seq<real>>, bn: BatchNorm, mean: seq<real>, std: seq<real>)
  {
    && |mean| == |weight| && |std| == |weight|
    && (forall c :: 0 <= c < |std| ==> std[c] != 0.0)
    && (bn.affine ==> |bn.gamma| == |weight| && |bn.beta| == |weight|)
    && (convBias.Some? ==> |convBias.value| == |weight|)
  }

  /** gamma of channel `c`, or 1 without affine parameters. */
  function Gamma(bn: BatchNorm, c: nat): (g: real)
    requires bn.affine ==> c < |bn.gamma|
  {
    if bn.affine then bn.gamma[c] else 1.0
  }

  /** beta of channel `c`, or 0 without affine parameters. */
  function Beta(bn: BatchNorm, c: nat): (b: real)
    requires bn.affine ==> c < |bn.beta|
  {
    if bn.affine then bn.beta[c] else 0.0
  }

  /** `gamma_`: gamma divided by std, channel by channel. */
  function GammaOver(bn: BatchNorm, std: seq<real>): (g: seq<real>)
    requires bn.affine ==> |bn.gamma| == |std|
    requires forall c :: 0 <= c < |std| ==> std[c] != 0.0
    ensures |g| == |std|
    ensures forall c :: 0 <= c < |std| ==> g[c] * std[c] == Gamma(bn, c)
  {
    seq(|std|, c requires 0 <= c < |std| => Gamma(bn, c) / std[c])
  }

  /** Every element of `row` multiplied by `k`. */
  function ScaleRow(row: seq<real>, k: real): (r: seq<real>)
    ensures |r| == |row|
    ensures forall j :: 0 <= j < |row| ==> r[j] == row[j] * k
  {
    seq(|row|, j requires 0 <= j < |row| => row[j] * k)
  }

  /** The convolution bias of channel `c`, zero when the convolution has none. */
  function BiasOrZero(convBias: Option<seq<real>>, c: nat): (b: real)
    requires convBias.Some? ==> c < |convBias.value|
  {
    if convBias.Some? then convBias.value[c] else 0.0
  }

  /** The folded bias of channel `c`, by the branch of fold_bn that applies:
      with or without affine parameters, with or without a convolution bias. */
  function BiasBranch(g: real, convBias: Option<seq<real>>, bn: BatchNorm, mean: seq<real>, c: nat): (r: real)
    requires c < |mean| && (convBias.Some? ==> c < |convBias.value|) && (bn.affine ==> c < |bn.beta|)
    ensures r == g * BiasOrZero(convBias, c) - g * mean[c] + Beta(bn, c)
  {
    if bn.affine then
      if convBias.Some? then g * convBias.value[c] - g * mean[c] + bn.beta[c]
      else bn.beta[c] - g * mean[c]
    else
      if convBias.Some? then g * convBias.value[c] - g * mean[c]
      else -g * mean[c]
  }

  /** The per-channel fold: each output channel's kernel is scaled by its
      own `gamma_`, and each channel's bias is folded by the branch that
      applies. This is fold_bn(mean, std) with affine parameters, where the
      `.view(out_channels, 1, 1, 1)` broadcast does exactly this, and the
      evidently intended non-affine fold; the non-affine weight as written
      is NonAffineWeightAsWritten. The folded bias is as written in all four
      branches. */
  function FoldBN(weight: seq<seq<real>>, convBias: Option<seq<real>>, bn: BatchNorm,
                  mean: seq<real>, std: seq<real>): (f: Folded)
    requires FoldFits(weight, convBias, bn, mean, std)
    ensures |f.weight| == |weight| && |f.bias| == |weight|
    ensures forall c :: 0 <= c < |weight| ==> |f.weight[c]| == |weight[c]|
  {
    var g := GammaOver(bn, std);
    Folded(seq(|weight|, c requires 0 <= c < |weight| => ScaleRow(weight[c], g[c])),
           seq(|weight|, c requires 0 <= c < |weight| => BiasBranch(g[c], convBias, bn, mean, c)))
  }

  function Dot(a: seq<real>, b: seq<real>): (d: real)
    requires |a| == |b|
  {
    if |a| == 0 then 0.0 else a[0] * b[0] + Dot(a[1..], b[1..])
  }

  /** Scaling one side of a dot product scales the product. */
  lemma {:induction false} DotScale(a: seq<real>, k: real, x: seq<real>)
    requires |a| == |x|
    ensures Dot(ScaleRow(a, k), x) == k * Dot(a, x)
  {
    if |a| > 0 {
      var s := ScaleRow(a, k);
      ScaleRowTail(a, k);
      DotScale(a[1..], k, x[1..]);
      DotStep(s[0] * x[0], Dot(s[1..], x[1..]), a[0], x[0], k, Dot(a[1..], x[1..]));
    }
  }

  /** Dropping the first element commutes with scaling. */
  lemma ScaleRowTail(a: seq<real>, k: real)
    requires |a| > 0
    ensures ScaleRow(a, k)[1..] == ScaleRow(a[1..], k)
  {
    var s := ScaleRow(a, k);
    forall j | 0 <= j < |a| - 1 ensures s[1..][j] == ScaleRow(a[1..], k)[j] {
      assert s[1..][j] == s[j + 1];
    }
  }

  /** The scalar step of DotScale. */
  lemma DotStep(head: real, rest: real, a0: real, x0: real, k: real, r: real)
    requires head == a0 * k * x0 && rest == k * r
    ensures head + rest == k * (a0 * x0 + r)
  {
  }

  /** The convolution's output for channel `c` on patch `x`, a missing bias
      counting as zero. */
  function ConvOut(weight: seq<seq<real>>, convBias: Option<seq<real>>, c: nat, x: seq<real>): (y: real)
    requires c < |weight| && |x| == |weight[c]|
    requires convBias.Some? ==> c < |convBias.value|
  {
    Dot(weight[c], x) + BiasOrZero(convBias, c)
  }

  /** Inference-mode batch norm of channel `c` applied to `y`. */
  function BatchNormOut(bn: BatchNorm, mean: seq<real>, std: seq<real>, c: nat, y: real): (z: real)
    requires c < |mean| && c < |std| && std[c] != 0.0
    requires bn.affine ==> c < |bn.gamma| && c < |bn.beta|
  {
    Gamma(bn, c) * (y - mean[c]) / std[c] + Beta(bn, c)
  }

  /** The folding identity: on every channel and every input patch, the
      folded convolution computes exactly convolution-then-batch-norm, in
      all four branches (with or without affine parameters, with or without
      a convolution bias). */
  lemma FoldBNIdentity(weight: seq<seq<real>>, convBias: Option<seq<real>>, bn: BatchNorm,
                       mean: seq<real>, std: seq<real>, c: nat, x: seq<real>)
    requires FoldFits(weight, convBias, bn, mean, std)
    requires c < |weight| && |x| == |weight[c]|
    ensures var f := FoldBN(weight, convBias, bn, mean, std);
            Dot(f.weight[c], x) + f.bias[c] == BatchNormOut(bn, mean, std, c, ConvOut(weight, convBias, c, x))
  {
    var f := FoldBN(weight, convBias, bn, mean, std);
    var g := GammaOver(bn, std)[c];
    assert f.weight[c] == ScaleRow(weight[c], g);
    assert f.bias[c] == BiasBranch(g, convBias, bn, mean, c);
    ScaledRowDot(weight[c], g, x, f.weight[c]);
    FoldedChannel(bn, mean, std, c, convBias, g, Dot(weight[c], x), Dot(f.weight[c], x));
  }

  /** A row equal to `w` scaled by `g` has `g` times its dot product. */
  lemma ScaledRowDot(w: seq<real>, g: real, x: seq<real>, row: seq<real>)
    requires |w| == |x| && row == ScaleRow(w, g)
    ensures Dot(row, x) == g * Dot(w, x)
  {
    DotScale(w, g, x);
  }

  /** One channel of the identity, for any `g` with `g * std == gamma`:
      when the scaled kernel's output `p` is `g` times the kernel's output
      `d`, adding the bias folded with `g` gives batch norm of the
      convolution's output. */
  lemma FoldedChannel(bn: BatchNorm, mean: seq<real>, std: seq<real>, c: nat,
                      convBias: Option<seq<real>>, g: real, d: real, p: real)
    requires c < |mean| && c < |std| && std[c] != 0.0
    requires bn.affine ==> c < |bn.gamma| && c < |bn.beta|
    requires convBias.Some? ==> c < |convBias.value|
    requires g * std[c] == Gamma(bn, c) && p == g * d
    ensures p + BiasBranch(g, convBias, bn, mean, c) == BatchNormOut(bn, mean, std, c, d + BiasOrZero(convBias, c))
  {
    var b := BiasOrZero(convBias, c);
    BatchNormScaled(bn, mean, std, c, g, d, b);
    FoldedSum(p, BiasBranch(g, convBias, bn, mean, c), g, d, b, mean[c], Beta(bn, c), BatchNormOut(bn, mean, std, c, d + b));
  }

  /** The scalar algebra of the identity, kept apart from the dot product:
      the scaled kernel's output `p` plus the folded bias `q` is the batch
      norm's output. */
  lemma FoldedSum(p: real, q: real, g: real, d: real, b: real, mean: real, beta: real, out: real)
    requires p == g * d && q == g * b - g * mean + beta
    requires out == g * d + g * (b - mean) + beta
    ensures p + q == out
  {
  }

  /** Batch norm of `d + b` is `g * d + g * (b - mean) + beta` when
      `g * std == gamma`. */
  lemma BatchNormScaled(bn: BatchNorm, mean: seq<real>, std: seq<real>, c: nat, g: real, d: real, b: real)
    requires c < |mean| && c < |std| && std[c] != 0.0
    requires bn.affine ==> c < |bn.gamma| && c < |bn.beta|
    requires g * std[c] == Gamma(bn, c)
    ensures BatchNormOut(bn, mean, std, c, d + b) == g * d + g * (b - mean[c]) + Beta(bn, c)
  {
    var e := d + b - mean[c];
    assert Gamma(bn, c) * e == g * e * std[c];
    assert Gamma(bn, c) * e / std[c] == g * e;
  }

  /** A convolution weight with at least one output channel, flattened row
      by row, whose last axis has `width` elements. */
  predicate KernelRows(weight: seq<seq<real>>, width: nat)
  {
    width >= 1 && |weight| >= 1 && forall c :: 0 <= c < |weight| ==> |weight[c]| / width * width == |weight[c]|
  }

  /** A vector of `channels` entries broadcasts against a last axis of
      `width` elements when the two agree or one of them is 1. */
  predicate Broadcasts(width: nat, channels: nat)
  {
    width == channels || width == 1 || channels == 1
  }

  /** The size of the broadcast last axis: the larger of the two. */
  function BroadcastWidth(width: nat, channels: nat): (b: nat)
    requires Broadcasts(width, channels)
    ensures b == width || b == channels
    ensures width >= 1 && channels >= 1 ==> b >= width && b >= channels
  {
    if width == 1 then channels else width
  }

  /** `k / b < n` and the column taken from a `width`-wide axis together
      stay inside `n` rows of `width` elements. */
  lemma BroadcastSourceBound(k: nat, b: nat, width: nat, n: nat)
    requires width >= 1 && b >= 1 && k < n * b
    ensures (k / b) * width + (k % b) % width < n * width
  {
    var p := k / b;
    assert p * b <= k;
    assert p < n;
    assert (p + 1) * width <= n * width;
    assert (k % b) % width < width;
  }

  /** The element of a flattened row (last axis `width`) that feeds element
      `k` of the broadcast row (last axis `b`): same leading position, and
      column `k % b` taken modulo `width`, so a last axis of 1 repeats. */
  function BroadcastSource(k: nat, b: nat, width: nat, len: nat): (i: nat)
    requires width >= 1 && b >= 1 && len / width * width == len && k < len / width * b
    ensures i < len
  {
    BroadcastSourceBound(k, b, width, len / width);
    (k / b) * width + (k % b) % width
  }

  /** The non-affine branch as written, on one flattened kernel row whose
      last axis has `width` elements: `weight * gamma_` without `.view`
      broadcasts `gamma_ = 1 / std` against that last axis, not against the
      output-channel axis. Element `k` of the broadcast row is the element
      BroadcastSource picks, divided by the std at column `k % b` taken
      modulo the channel count (a single channel repeats). */
  function BroadcastRow(row: seq<real>, std: seq<real>, width: nat): (r: seq<real>)
    requires width >= 1 && |std| >= 1 && Broadcasts(width, |std|)
    requires forall c :: 0 <= c < |std| ==> std[c] != 0.0
    requires |row| / width * width == |row|
    ensures |r| == |row| / width * BroadcastWidth(width, |std|)
  {
    var b := BroadcastWidth(width, |std|);
    seq(|row| / width * b, k requires 0 <= k < |row| / width * b =>
      row[BroadcastSource(k, b, width, |row|)] * (1.0 / std[(k % b) % |std|]))
  }

  /** The non-affine weight as written: every row broadcast against the
      kernel-width axis. When the kernel width equals the channel count,
      element `k` of every row is divided by the std of channel `k % width`
      rather than of its own output channel; a kernel width of 1 widens
      every row to the channel count; any other mismatch raises (see
      Broadcasts). */
  function NonAffineWeightAsWritten(weight: seq<seq<real>>, std: seq<real>, width: nat): (w: seq<seq<real>>)
    requires width >= 1 && |std| >= 1 && Broadcasts(width, |std|)
    requires forall c :: 0 <= c < |std| ==> std[c] != 0.0
    requires forall c :: 0 <= c < |weight| ==> |weight[c]| / width * width == |weight[c]|
    ensures |w| == |weight|
    ensures forall c :: 0 <= c < |weight| ==> |w[c]| == |weight[c]| / width * BroadcastWidth(width, |std|)
  {
    seq(|weight|, c requires 0 <= c < |weight| => BroadcastRow(weight[c], std, width))
  }

  /** The as-written rows are again whole rows of the broadcast width, and
      keep their length when that width is the kernel width. */
  lemma NonAffineRows(weight: seq<seq<real>>, std: seq<real>, width: nat)
    requires width >= 1 && |std| >= 1 && Broadcasts(width, |std|)
    requires forall c :: 0 <= c < |std| ==> std[c] != 0.0
    requires forall c :: 0 <= c < |weight| ==> |weight[c]| / width * width == |weight[c]|
    ensures var w := NonAffineWeightAsWritten(weight, std, width);
            var b := BroadcastWidth(width, |std|);
            && (forall c :: 0 <= c < |weight| ==> |w[c]| / b * b == |w[c]|)
            && (b == width ==> forall c :: 0 <= c < |weight| ==> |w[c]| == |weight[c]|)
  {
    var w := NonAffineWeightAsWritten(weight, std, width);
    var b := BroadcastWidth(width, |std|);
    forall c | 0 <= c < |weight|
      ensures |w[c]| / b * b == |w[c]| && (b == width ==> |w[c]| == |weight[c]|)
    {
      var n := |weight[c]| / width;
      assert |w[c]| == n * b;
      DivOfMultiple(b, n);
      assert b * n == n * b;
    }
  }

  /** Broadcasting against an axis of its own width reads every element in place. */
  lemma SameWidthSource(k: nat, width: nat, len: nat)
    requires width >= 1 && len / width * width == len && k < len
    ensures k < len / width * width && BroadcastSource(k, width, width, len) == k
  {
    assert (k / width) * width + k % width == k;
  }

  /** When the kernel width equals the channel count, the as-written row
      keeps its length and its element `k` is divided by the std of channel
      `k % width`, the column it sits in, whatever its own output channel. */
  lemma BroadcastByColumn(row: seq<real>, std: seq<real>, width: nat)
    requires width >= 1 && |std| == width
    requires forall c :: 0 <= c < |std| ==> std[c] != 0.0
    requires |row| / width * width == |row|
    ensures var r := BroadcastRow(row, std, width);
            && |r| == |row|
            && forall k :: 0 <= k < |row| ==> r[k] == row[k] / std[k % width]
  {
    var r := BroadcastRow(row, std, width);
    forall k | 0 <= k < |row| ensures r[k] == row[k] / std[k % width] {
      SameWidthSource(k, width, |row|);
      var m := k % width;
      DivModOf(0, m, width);
      assert r[k] == row[k] * (1.0 / std[m]);
    }
  }

  /** A kernel width of 1 against several channels widens the row: every
      element is repeated once per channel, copy `j` divided by `std[j]`. */
  lemma BroadcastWidens(row: seq<real>, std: seq<real>)
    requires |std| >= 1
    requires forall c :: 0 <= c < |std| ==> std[c] != 0.0
    ensures var r := BroadcastRow(row, std, 1);
            && |r| == |row| * |std|
            && forall p, j :: 0 <= p < |row| && 0 <= j < |std| ==>
                 p * |std| + j < |r| && r[p * |std| + j] == row[p] / std[j]
  {
    var r := BroadcastRow(row, std, 1);
    DivModOf(|row|, 0, 1);
    forall p, j | 0 <= p < |row| && 0 <= j < |std|
      ensures p * |std| + j < |r| && r[p * |std| + j] == row[p] / std[j]
    {
      WidenedElement(row, std, p, j);
    }
  }

  /** One element of BroadcastWidens. */
  lemma WidenedElement(row: seq<real>, std: seq<real>, p: nat, j: nat)
    requires |std| >= 1 && p < |row| && j < |std|
    requires forall c :: 0 <= c < |std| ==> std[c] != 0.0
    ensures p * |std| + j < |BroadcastRow(row, std, 1)|
    ensures BroadcastRow(row, std, 1)[p * |std| + j] == row[p] / std[j]
  {
    var n := |std|;
    var k := p * n + j;
    DivModOf(p, j, n);
    DivModOf(0, j, n);
    DivModOf(j, 0, 1);
    DivModOf(|row|, 0, 1);
    assert k < (p + 1) * n;
    var d := |row| - (p + 1);
    assert |row| * n == (p + 1) * n + d * n;
    assert BroadcastSource(k, n, 1, |row|) == p;
    assert BroadcastRow(row, std, 1)[k] == row[p] * (1.0 / std[j]);
  }

  /** `(p * n + j) / n == p` and the remainder is `j` for `j < n`. */
  lemma DivModOf(p: nat, j: nat, n: nat)
    requires j < n
    ensures (p * n + j) / n == p && (p * n + j) % n == j
  {
    var k := p * n + j;
    var q, r := k / n, k % n;
    assert k == n * q + r && 0 <= r < n;
    var c := q - p;
    assert n * c == n * q - n * p;
    assert n * c == j - r;
  }

  /** With a single output channel the broadcast is harmless: the as-written
      non-affine weight is the per-channel fold. */
  lemma NonAffineSingleChannel(weight: seq<seq<real>>, convBias: Option<seq<real>>, bn: BatchNorm,
                               mean: seq<real>, std: seq<real>, width: nat)
    requires FoldFits(weight, convBias, bn, mean, std) && !bn.affine
    requires |weight| == 1 && width >= 1 && |weight[0]| / width * width == |weight[0]|
    ensures NonAffineWeightAsWritten(weight, std, width) == FoldBN(weight, convBias, bn, mean, std).weight
  {
    var aw := NonAffineWeightAsWritten(weight, std, width);
    var f := FoldBN(weight, convBias, bn, mean, std).weight;
    var len := |weight[0]|;
    assert BroadcastWidth(width, |std|) == width;
    var g := GammaOver(bn, std)[0];
    assert f[0] == ScaleRow(weight[0], g);
    assert g == 1.0 / std[0];
    assert aw[0] == BroadcastRow(weight[0], std, width);
    forall k | 0 <= k < len ensures aw[0][k] == f[0][k] {
      SameWidthSource(k, width, len);
    }
    assert aw[0] == f[0];
  }

  /** Two output channels, a 1x2 kernel of ones, std `[1, 0.5]`, zero mean and
      the patch `[0, 1]`: batch norm of channel 0 gives 1, the as-written
      non-affine fold gives 2. */
  lemma NonAffineBroadcastCounterexample()
    ensures var w := [[1.0, 1.0], [1.0, 1.0]];
            var std := [1.0, 0.5];
            var mean := [0.0, 0.0];
            var bn := BatchNorm(false, [], [], mean, [1.0, 0.25], 0.0);
            var x := [0.0, 1.0];
            && Dot(NonAffineWeightAsWritten(w, std, 2)[0], x) + FoldBN(w, None, bn, mean, std).bias[0] == 2.0
            && BatchNormOut(bn, mean, std, 0, ConvOut(w, None, 0, x)) == 1.0
  {
    var w := [[1.0, 1.0], [1.0, 1.0]];
    var std := [1.0, 0.5];
    var x := [0.0, 1.0];
    var aw := NonAffineWeightAsWritten(w, std, 2);
    assert aw[0] == [1.0, 2.0];
    assert aw[0][1..] == [2.0] && x[1..] == [1.0];
    assert Dot([2.0], [1.0]) == 2.0;
    assert Dot(w[0], x) == 1.0;
  }

  /** `std` holds the standard deviations belonging to `bn`'s running
      variance: `std[c]` is positive and squares to `runningVar[c] + eps`. */
  predicate IsStd(bn: BatchNorm, std: seq<real>)
  {
    && |std| == |bn.runningVar|
    && forall c :: 0 <= c < |std| ==> std[c] > 0.0 && std[c] * std[c] == bn.runningVar[c] + bn.eps
  }

  /** `QConvBNReLU.freeze` folds with the running variance in the place of
      std. A single channel with weight 1, variance 4 and `eps` 0 (so std 2)
      shows that this is not the batch norm: on the patch `[1]` batch norm
      gives 0.5, the fold used by freeze gives 0.25. */
  lemma FoldWithVarianceIsNotBatchNorm()
    ensures var w := [[1.0]];
            var bn := BatchNorm(false, [], [], [0.0], [4.0], 0.0);
            var std := [2.0];
            var x := [1.0];
            var f := FoldBN(w, None, bn, bn.runningMean, bn.runningVar);
            && IsStd(bn, std)
            && BatchNormOut(bn, bn.runningMean, std, 0, ConvOut(w, None, 0, x)) == 0.5
            && Dot(f.weight[0], x) + f.bias[0] == 0.25
  {
    var w := [[1.0]];
    var bn := BatchNorm(false, [], [], [0.0], [4.0], 0.0);
    var x := [1.0];
    var f := FoldBN(w, None, bn, bn.runningMean, bn.runningVar);
    assert f.weight[0] == [0.25];
    assert Dot(f.weight[0], x) == 0.25;
    assert Dot(w[0], x) == 1.0;
  }
}
