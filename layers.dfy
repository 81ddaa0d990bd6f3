/** The quantized layers (`QConv2d`, `QLinear`, `QReLU`, `QMaxPooling2d`,
    `QConvBNReLU`). Each layer owns observers for its input (`qi`), output
    (`qo`) and weight (`qw`); `freeze` binds the observers it does not own,
    derives the multiplier `M = s_w * s_i / s_o` and replaces the float
    weight and bias by their integer codes; `quantize_inference` then runs
    the layer on integer codes only. Tensors are flattened to sequences and
    a weight is one row per output channel. The convolution or linear map
    itself is a parameter `op` of inference. */
module Layers {
  import opened Wrappers
  import opened Errors
  import opened Numeric
  import opened Affine
  import opened Observer
  import opened Pooling
  import opened Fold

  /** Which layer this is, with the hyper-parameters inference needs. */
  datatype Kind =
    | Conv2d
    | Linear
    | ReLU
    | MaxPool2d(kernelSize: nat, stride: nat, padding: nat)
    | ConvBNReLU(bn: BatchNorm)
  {
    /** The layers with a weight observer `qw`, an output observer and `M`. */
    predicate HasWeights()
    {
      Conv2d? || Linear? || ConvBNReLU?
    }
  }

  /** The role checks at the head of every `freeze`: an observer must come
      either from construction or from the caller, never both and never
      neither. `QReLU` and `QMaxPooling2d` check the input role only. */
  function RoleCheck(weighted: bool, ownsQi: bool, givenQi: bool, ownsQo: bool, givenQo: bool): (r: Outcome<Error>)
    ensures r.Pass? <==> ownsQi != givenQi && (weighted ==> ownsQo != givenQo)
    ensures ownsQi && givenQi ==> r == Fail(QiAlreadyProvided)
    ensures !ownsQi && !givenQi ==> r == Fail(QiNotProvided)
    ensures ownsQi != givenQi && weighted && ownsQo && givenQo ==> r == Fail(QoAlreadyProvided)
    ensures ownsQi != givenQi && weighted && !ownsQo && !givenQo ==> r == Fail(QoNotProvided)
  {
    if ownsQi && givenQi then Fail(QiAlreadyProvided)
    else if !ownsQi && !givenQi then Fail(QiNotProvided)
    else if weighted && ownsQo && givenQo then Fail(QoAlreadyProvided)
    else if weighted && !ownsQo && !givenQo then Fail(QoNotProvided)
    else Pass
  }

  /** `x - zero_point`: codes moved so that zero is the real value 0. */
  function Shift(x: seq<real>, zeroPoint: int): (r: seq<real>)
    ensures |r| == |x|
    ensures forall i :: 0 <= i < |x| ==> r[i] + zeroPoint as real == x[i]
  {
    seq(|x|, i requires 0 <= i < |x| => x[i] - zeroPoint as real)
  }

  /** An integer minus an integer has no fractional part. */
  lemma IntegerShift(k: int, z: int)
    ensures IsInteger(k as real - z as real)
  {
    assert k as real - z as real == (k - z) as real;
  }

  /** `qw.quantize_tensor(weight) - qw.zero_point`, row by row: integer
      codes centred on the weight's zero point. */
  function WeightCodes(weight: seq<seq<real>>, scale: real, zeroPoint: int, numBits: nat): (codes: seq<seq<real>>)
    requires numBits >= 1 && scale != 0.0
    ensures |codes| == |weight|
    ensures forall c :: 0 <= c < |weight| ==> |codes[c]| == |weight[c]|
    ensures forall c, j :: 0 <= c < |weight| && 0 <= j < |weight[c]| ==>
              IsInteger(codes[c][j])
              && -zeroPoint as real <= codes[c][j] <= (QMax(numBits, false) - zeroPoint) as real
  {
    var codes := seq(|weight|, c requires 0 <= c < |weight| =>
                       Shift(QuantizeSeq(weight[c], scale, zeroPoint, numBits, false), zeroPoint));
    assert forall c, j :: 0 <= c < |weight| && 0 <= j < |weight[c]| ==>
             IsInteger(codes[c][j]) by {
      forall c, j | 0 <= c < |weight| && 0 <= j < |weight[c]| ensures IsInteger(codes[c][j]) {
        IntegerShift(QuantizeValue(weight[c][j], scale, zeroPoint, numBits, false), zeroPoint);
      }
    }
    codes
  }

  /** Dequantizing a weight code gives the float weight back within half a
      step, whenever the weight lies inside the range the observer saw. */
  lemma WeightCodesRoundTrip(weight: seq<seq<real>>, scale: real, zeroPoint: int, numBits: nat, c: nat, j: nat)
    requires numBits >= 1 && scale > 0.0
    requires c < |weight| && j < |weight[c]|
    requires 0.0 <= zeroPoint as real + weight[c][j] / scale <= QMax(numBits, false) as real
    ensures -scale / 2.0 <= scale * WeightCodes(weight, scale, zeroPoint, numBits)[c][j] - weight[c][j] <= scale / 2.0
  {
    RoundTripValue(weight[c][j], scale, zeroPoint, numBits, false);
  }

  /** `quantize_tensor(bias, s_i * s_w, 0, 32, signed=True)`: the bias
      as 32-bit signed codes with zero point 0, so that it adds directly to
      the integer accumulator. */
  function BiasCodes(bias: seq<real>, scale: real): (codes: seq<real>)
    requires scale != 0.0
    ensures |codes| == |bias|
    ensures forall i :: 0 <= i < |bias| ==>
              IsInteger(codes[i]) && QMin(32, true) as real <= codes[i] <= QMax(32, true) as real
  {
    QuantizeSeq(bias, scale, 0, 32, true)
  }

  /** The shape a `QConvBNReLU` needs: the batch norm fits the convolution
      and the weight's rows are whole rows of its kernel width `width`. */
  predicate ConvFits(kind: Kind, weight: seq<seq<real>>, bias: Option<seq<real>>, width: nat)
  {
    kind.ConvBNReLU? ==>
      FoldFits(weight, bias, kind.bn, kind.bn.runningMean, kind.bn.runningVar) && KernelRows(weight, width)
  }

  /** `fold_bn`, as `freeze` calls it, raises: without affine parameters
      `1 / running_var` does not broadcast against the kernel width. */
  predicate FoldRaises(kind: Kind, width: nat, channels: nat)
  {
    kind.ConvBNReLU? && !kind.bn.affine && !Broadcasts(width, channels)
  }

  /** The kernel width of the weight `freeze` quantizes: the broadcast width
      for a `QConvBNReLU` without affine parameters, unchanged otherwise. */
  function FoldedWidth(kind: Kind, width: nat, channels: nat): (w: nat)
    requires !FoldRaises(kind, width, channels)
    ensures !(kind.ConvBNReLU? && !kind.bn.affine) ==> w == width
    ensures w == width || (width == 1 && w == channels)
  {
    if kind.ConvBNReLU? && !kind.bn.affine then BroadcastWidth(width, channels) else width
  }

  /** The float weight `freeze` quantizes: for `QConvBNReLU` the one fold_bn
      returns on the running mean and, as written, the running variance:
      the per-channel fold with affine parameters, the kernel-width
      broadcast without; the module's own weight otherwise. */
  function FloatWeight(kind: Kind, width: nat, weight: seq<seq<real>>, bias: Option<seq<real>>): (w: seq<seq<real>>)
    requires ConvFits(kind, weight, bias, width) && !FoldRaises(kind, width, |weight|)
    ensures |w| == |weight|
    ensures FoldedWidth(kind, width, |weight|) == width ==> forall c :: 0 <= c < |weight| ==> |w[c]| == |weight[c]|
    ensures kind.ConvBNReLU? ==> KernelRows(w, FoldedWidth(kind, width, |weight|))
    ensures kind.ConvBNReLU? && (kind.bn.affine || |weight| == 1) ==>
              w == FoldBN(weight, bias, kind.bn, kind.bn.runningMean, kind.bn.runningVar).weight
    ensures !kind.ConvBNReLU? ==> w == weight
  {
    if kind.ConvBNReLU? then
      var bn := kind.bn;
      if bn.affine then FoldBN(weight, bias, bn, bn.runningMean, bn.runningVar).weight
      else
        var w := NonAffineWeightAsWritten(weight, bn.runningVar, width);
        NonAffineRows(weight, bn.runningVar, width);
        assert |weight| == 1 ==> w == FoldBN(weight, bias, bn, bn.runningMean, bn.runningVar).weight by {
          if |weight| == 1 {
            NonAffineSingleChannel(weight, bias, bn, bn.runningMean, bn.runningVar, width);
          }
        }
        w
    else weight
  }

  /** Without affine parameters, `freeze` of `QConvBNReLU` divides by the
      running variance of the kernel column, not of the output channel:
      when the kernel width equals the channel count, element `k` of every
      kernel is divided by `running_var[k % width]`. */
  lemma FloatWeightByColumn(kind: Kind, width: nat, weight: seq<seq<real>>, bias: Option<seq<real>>)
    requires ConvFits(kind, weight, bias, width) && !FoldRaises(kind, width, |weight|)
    requires kind.ConvBNReLU? && !kind.bn.affine && width == |weight|
    ensures var w := FloatWeight(kind, width, weight, bias);
            forall c, k :: 0 <= c < |weight| && 0 <= k < |weight[c]| ==>
              |w[c]| == |weight[c]| && w[c][k] == weight[c][k] / kind.bn.runningVar[k % width]
  {
    var v := kind.bn.runningVar;
    var w := FloatWeight(kind, width, weight, bias);
    assert w == NonAffineWeightAsWritten(weight, v, width);
    forall c | 0 <= c < |weight|
      ensures |w[c]| == |weight[c]|
      ensures forall k :: 0 <= k < |weight[c]| ==> w[c][k] == weight[c][k] / v[k % width]
    {
      assert w[c] == BroadcastRow(weight[c], v, width);
      BroadcastByColumn(weight[c], v, width);
    }
  }

  /** Without affine parameters and with kernel width 1, `freeze` of
      `QConvBNReLU` widens every kernel: element `p` is repeated once per
      channel, copy `j` divided by `running_var[j]`. */
  lemma FloatWeightWidens(kind: Kind, width: nat, weight: seq<seq<real>>, bias: Option<seq<real>>)
    requires ConvFits(kind, weight, bias, width) && !FoldRaises(kind, width, |weight|)
    requires kind.ConvBNReLU? && !kind.bn.affine && width == 1
    ensures var w := FloatWeight(kind, width, weight, bias);
            forall c, p, j :: 0 <= c < |weight| && 0 <= p < |weight[c]| && 0 <= j < |weight| ==>
              p * |weight| + j < |w[c]| && w[c][p * |weight| + j] == weight[c][p] / kind.bn.runningVar[j]
  {
    var v := kind.bn.runningVar;
    var w := FloatWeight(kind, width, weight, bias);
    assert w == NonAffineWeightAsWritten(weight, v, width);
    forall c | 0 <= c < |weight|
      ensures forall p, j :: 0 <= p < |weight[c]| && 0 <= j < |weight| ==>
                p * |weight| + j < |w[c]| && w[c][p * |weight| + j] == weight[c][p] / v[j]
    {
      assert w[c] == BroadcastRow(weight[c], v, 1);
      BroadcastWidens(weight[c], v);
    }
  }

  /** The float bias `freeze` quantizes: fold_bn's bias for `QConvBNReLU`,
      which is per channel in every branch, the module's own otherwise. */
  function FloatBias(kind: Kind, weight: seq<seq<real>>, bias: Option<seq<real>>): (b: Option<seq<real>>)
    requires kind.ConvBNReLU? ==> FoldFits(weight, bias, kind.bn, kind.bn.runningMean, kind.bn.runningVar)
    ensures kind.ConvBNReLU? ==> b.Some? && |b.value| == |weight|
    ensures !kind.ConvBNReLU? ==> b == bias
  {
    if kind.ConvBNReLU? then Some(FoldBN(weight, bias, kind.bn, kind.bn.runningMean, kind.bn.runningVar).bias)
    else bias
  }

  /** The weight `QConvBNReLU.freeze` quantizes without affine parameters,
      for two channels with running variance `[1, 0.5]`, zero mean and
      kernels of ones: with kernel width 2 the first channel's kernel
      becomes `[1, 2]` (its second column divided by the second channel's
      variance); with kernel width 1 each kernel widens to two columns; with
      kernel width 3 the fold raises. */
  lemma FreezeFoldExamples()
    ensures var bn := BatchNorm(false, [], [], [0.0, 0.0], [1.0, 0.5], 0.0);
            && FloatWeight(ConvBNReLU(bn), 2, [[1.0, 1.0], [1.0, 1.0]], None)[0] == [1.0, 2.0]
            && FloatWeight(ConvBNReLU(bn), 1, [[1.0], [1.0]], None)[0] == [1.0, 2.0]
            && FoldRaises(ConvBNReLU(bn), 3, 2)
  {
    var bn := BatchNorm(false, [], [], [0.0, 0.0], [1.0, 0.5], 0.0);
    var std := [1.0, 0.5];
    assert FloatWeight(ConvBNReLU(bn), 2, [[1.0, 1.0], [1.0, 1.0]], None)
           == NonAffineWeightAsWritten([[1.0, 1.0], [1.0, 1.0]], std, 2);
    BroadcastRowSameWidth();
    assert FloatWeight(ConvBNReLU(bn), 1, [[1.0], [1.0]], None)
           == NonAffineWeightAsWritten([[1.0], [1.0]], std, 1);
    BroadcastRowWidened();
  }

  /** Kernel width equal to the channel count: column `k` is divided by the
      variance of channel `k`. */
  lemma BroadcastRowSameWidth()
    ensures BroadcastRow([1.0, 1.0], [1.0, 0.5], 2) == [1.0, 2.0]
  {
    var r := BroadcastRow([1.0, 1.0], [1.0, 0.5], 2);
    assert BroadcastSource(0, 2, 2, 2) == 0 && BroadcastSource(1, 2, 2, 2) == 1;
    assert r[0] == 1.0 * (1.0 / 1.0);
    assert r[1] == 1.0 * (1.0 / 0.5);
  }

  /** Kernel width 1: the single column is repeated once per channel. */
  lemma BroadcastRowWidened()
    ensures BroadcastRow([1.0], [1.0, 0.5], 1) == [1.0, 2.0]
  {
    var r := BroadcastRow([1.0], [1.0, 0.5], 1);
    assert BroadcastSource(0, 2, 1, 1) == 0 && BroadcastSource(1, 2, 1, 1) == 0;
    assert r[0] == 1.0 * (1.0 / 1.0);
    assert r[1] == 1.0 * (1.0 / 0.5);
  }

  /** What `freeze` leaves behind after its role checks: the outcome, `M`,
      the weight and bias the layer then holds, and that weight's kernel
      width. */
  datatype Frozen = Frozen(outcome: Outcome<Error>, m: Option<real>, weight: seq<seq<real>>, bias: Option<seq<real>>,
                           width: nat)

  /** The arithmetic half of `freeze` for a layer with weights, from the
      scales and zero point of its observers (`sw`, `zw`, `si`, `so`) and its
      current `M`, weight, bias and kernel width. Each step either raises,
      leaving the state the earlier steps produced, or goes on: `M` (a
      missing scale, a zero output scale), fold_bn for `QConvBNReLU` (a
      broadcast mismatch), the weight codes (a zero weight scale), the
      32-bit signed bias codes at scale `s_i * s_w` with zero point 0 (no
      bias; a zero bias scale), the two bias checks in the order each layer
      meets them. */
  function FreezeArith(kind: Kind, numBits: nat, sw: Option<real>, zw: Option<int>, si: Option<real>, so: Option<real>,
                       m: Option<real>, weight: seq<seq<real>>, bias: Option<seq<real>>, width: nat): (r: Frozen)
    requires kind.HasWeights() && numBits >= 1
    requires sw.Some? <==> zw.Some?
    requires ConvFits(kind, weight, bias, width)
    ensures sw.None? || si.None? || so.None? ==> r == Frozen(Fail(Uninitialized), m, weight, bias, width)
    ensures sw.Some? && si.Some? && so == Some(0.0) ==> r == Frozen(Fail(DivisionByZero), m, weight, bias, width)
    ensures sw.Some? && si.Some? && so.Some? && so.value != 0.0 ==>
              var raises := FoldRaises(kind, width, |weight|);
              && r.m.Some? && so.value * r.m.value == sw.value * si.value
              && (raises ==> r == Frozen(Fail(BroadcastMismatch), r.m, weight, bias, width))
              && (!raises && sw.value == 0.0 ==> r == Frozen(Fail(ZeroScale), r.m, weight, bias, width))
              && (!raises && sw.value != 0.0 ==>
                    && r.weight == WeightCodes(FloatWeight(kind, width, weight, bias), sw.value, zw.value, numBits)
                    && r.width == FoldedWidth(kind, width, |weight|))
              && (!raises && sw.value != 0.0 && bias.None? && (kind.ConvBNReLU? ==> si.value != 0.0) ==>
                    r.outcome == Fail(MissingBias) && r.bias == bias)
              && (!raises && sw.value != 0.0 && si.value == 0.0 && (kind.ConvBNReLU? || bias.Some?) ==>
                    r.outcome == Fail(ZeroScale) && r.bias == bias)
    ensures r.outcome.Pass? <==>
              && sw.Some? && si.Some? && so.Some? && so.value != 0.0 && !FoldRaises(kind, width, |weight|)
              && sw.value != 0.0 && si.value != 0.0 && bias.Some?
    ensures r.outcome.Pass? ==>
              r.bias == Some(BiasCodes(FloatBias(kind, weight, bias).value, si.value * sw.value))
    ensures |r.weight| == |weight|
    ensures r.width == width ==> forall c :: 0 <= c < |weight| ==> |r.weight[c]| == |weight[c]|
    ensures ConvFits(kind, r.weight, r.bias, r.width)
    ensures r.bias.Some? <==> bias.Some?
    ensures r.bias.Some? ==> |r.bias.value| == |bias.value|
  {
    if sw.None? || si.None? || so.None? then Frozen(Fail(Uninitialized), m, weight, bias, width)
    else if so.value == 0.0 then Frozen(Fail(DivisionByZero), m, weight, bias, width)
    else
      var newM := Some(sw.value * si.value / so.value);
      if FoldRaises(kind, width, |weight|) then Frozen(Fail(BroadcastMismatch), newM, weight, bias, width)
      else
        var w := FloatWeight(kind, width, weight, bias);
        var b := FloatBias(kind, weight, bias);
        var newWidth := FoldedWidth(kind, width, |weight|);
        if sw.value == 0.0 then Frozen(Fail(ZeroScale), newM, weight, bias, width)
        else
          var codes := WeightCodes(w, sw.value, zw.value, numBits);
          var biasScale := si.value * sw.value;
          if kind.ConvBNReLU? then
            if biasScale == 0.0 then Frozen(Fail(ZeroScale), newM, codes, bias, newWidth)
            else if bias.None? then Frozen(Fail(MissingBias), newM, codes, bias, newWidth)
            else Frozen(Pass, newM, codes, Some(BiasCodes(b.value, biasScale)), newWidth)
          else if bias.None? then Frozen(Fail(MissingBias), newM, codes, bias, newWidth)
          else if biasScale == 0.0 then Frozen(Fail(ZeroScale), newM, codes, bias, newWidth)
          else Frozen(Pass, newM, codes, Some(BiasCodes(bias.value, biasScale)), newWidth)
  }

  /** Dequantizing a bias code gives the float bias back within half a
      step, whenever it fits the 32-bit signed range at that scale. */
  lemma BiasCodesRoundTrip(bias: seq<real>, scale: real, c: nat)
    requires scale > 0.0 && c < |bias|
    requires QMin(32, true) as real <= bias[c] / scale <= QMax(32, true) as real
    ensures -scale / 2.0 <= scale * BiasCodes(bias, scale)[c] - bias[c] <= scale / 2.0
  {
    assert 0.0 + bias[c] / scale == bias[c] / scale;
    RoundTripValue(bias[c], scale, 0, 32, true);
  }

  /** The tail of `quantize_inference` on one accumulator `v`:
      `M * v`, rounded, plus the output zero point, clamped to the unsigned
      code range and rounded again. */
  function TailValue(v: real, m: real, zo: int, numBits: nat): (r: real)
    requires numBits >= 1
    ensures IsInteger(r) && 0.0 <= r <= QMax(numBits, false) as real
    ensures var t := RoundHalfEven(m * v) + zo;
            && (0 <= t <= QMax(numBits, false) ==> r == t as real)
            && (t < 0 ==> r == 0.0)
            && (t > QMax(numBits, false) ==> r == QMax(numBits, false) as real)
  {
    var t := RoundHalfEven(m * v) + zo;
    var c := Clamp(t as real, 0.0, QMax(numBits, false) as real);
    assert c == 0.0 || c == t as real || c == QMax(numBits, false) as real;
    RoundOfInteger(t);
    RoundOfInteger(0);
    RoundOfInteger(QMax(numBits, false));
    RoundHalfEven(c) as real
  }

  /** TailValue step by step, as the tensor operations run it. */
  lemma TailFromSteps(v: real, m: real, zo: int, numBits: nat,
                      scaled: real, rounded: real, shifted: real, clamped: real, out: real)
    requires numBits >= 1
    requires scaled == m * v && rounded == RoundHalfEven(scaled) as real && shifted == rounded + zo as real
    requires clamped == Clamp(shifted, 0.0, QMax(numBits, false) as real) && out == RoundHalfEven(clamped) as real
    ensures out == TailValue(v, m, zo, numBits)
  {
    var k := RoundHalfEven(m * v);
    assert (k + zo) as real == k as real + zo as real;
  }

  /** The tail applied to every accumulator: unsigned codes of the output. */
  function InferenceTail(acc: seq<real>, m: real, zo: int, numBits: nat): (r: seq<real>)
    requires numBits >= 1
    ensures |r| == |acc|
    ensures forall i :: 0 <= i < |acc| ==> r[i] == TailValue(acc[i], m, zo, numBits)
  {
    seq(|acc|, i requires 0 <= i < |acc| => TailValue(acc[i], m, zo, numBits))
  }

  /** Rounding to nearest picks the integer strictly within half of `x`. */
  lemma RoundUnique(x: real, k: int)
    requires -0.5 < k as real - x < 0.5
    ensures RoundHalfEven(x) == k
  {
  }

  /** The integer tail of an accumulator whose scaled value `M * acc` is
      `y / s_o` is the output observer's quantization of `y`, except on an
      exact tie, where rounding before adding an odd zero point can differ
      by one. */
  lemma TailIsQuantize(acc: real, m: real, y: real, so: real, zo: int, numBits: nat)
    requires numBits >= 1 && so > 0.0
    requires y / so == m * acc
    requires m * acc - (m * acc).Floor as real != 0.5
    ensures TailValue(acc, m, zo, numBits) == QuantizeValue(y, so, zo, numBits, false) as real
  {
    var v := m * acc;
    var qmax := QMax(numBits, false);
    var k := RoundHalfEven(v);
    var t := k + zo;
    var u := zo as real + v;
    var q := QuantizeValue(y, so, zo, numBits, false);
    assert -0.5 < k as real - v < 0.5;
    assert QMin(numBits, false) == 0;
    if u < 0.0 {
      RoundMonotone(v, (-zo) as real);
      RoundOfInteger(-zo);
      assert t <= 0 && q == 0;
    } else if u > qmax as real {
      RoundMonotone((qmax - zo) as real, v);
      RoundOfInteger(qmax - zo);
      assert t >= qmax && q == qmax;
    } else {
      assert -0.5 <= q as real - u <= 0.5;
      assert -0.5 < t as real - u < 0.5;
      RoundUnique(u, t);
      RoundWithin(u, 0, qmax);
      assert Clamp(u, 0.0, qmax as real) == u;
      assert q == t;
    }
  }

  /** With `M = s_w * s_i / s_o`, the integer tail computes the output
      observer's quantization of the real accumulator `s_w * s_i * acc`
      (the product of the dequantized input and weight), off ties. */
  lemma TailQuantizesOutput(acc: real, sw: real, si: real, so: real, zo: int, numBits: nat)
    requires numBits >= 1 && so > 0.0
    requires var v := sw * si / so * acc; v - v.Floor as real != 0.5
    ensures TailValue(acc, sw * si / so, zo, numBits) == QuantizeValue(sw * si * acc, so, zo, numBits, false) as real
  {
    assert (sw * si * acc) / so == sw * si / so * acc;
    TailIsQuantize(acc, sw * si / so, sw * si * acc, so, zo, numBits);
  }

  /** The tail as the source runs it on tensors: `M * x` into a new
      tensor, `round_()` in place, `+ zero_point` into a new tensor, then
      `clamp_()` and `round_()` in place. */
  method RunTail(acc: seq<real>, m: real, zo: int, numBits: nat) returns (out: seq<real>)
    requires numBits >= 1
    ensures out == InferenceTail(acc, m, zo, numBits)
  {
    var t := new real[|acc|](i requires 0 <= i < |acc| => m * acc[i]);
    ghost var scaled := t[..];
    RoundInPlace(t);
    var u := new real[t.Length](i requires 0 <= i < t.Length reads t => t[i] + zo as real);
    ghost var shifted := u[..];
    var qmax := QMax(numBits, false) as real;
    ClampInPlace(u, 0.0, qmax);
    ghost var clamped := u[..];
    RoundInPlace(u);
    forall i | 0 <= i < u.Length ensures u[i] == TailValue(acc[i], m, zo, numBits) {
      TailFromSteps(acc[i], m, zo, numBits, scaled[i], t[i], shifted[i], clamped[i], u[i]);
    }
    out := u[..];
  }

  /** `x[x < zero_point] = zero_point`: ReLU on codes. */
  function ReLUCodes(q: seq<real>, zeroPoint: int): (r: seq<real>)
    ensures |r| == |q|
    ensures forall i :: 0 <= i < |q| ==>
              zeroPoint as real <= r[i] && (r[i] == q[i] || r[i] == zeroPoint as real) && q[i] <= r[i]
  {
    seq(|q|, i requires 0 <= i < |q| => Max(q[i], zeroPoint as real))
  }

  /** Clipping codes at the input zero point is ReLU on the real values the
      codes stand for, which is why `QReLU` can reuse its input's scale. */
  lemma ReLUCommutesWithDequantize(q: seq<real>, scale: real, zeroPoint: int)
    requires scale > 0.0
    ensures DequantizeSeq(ReLUCodes(q, zeroPoint), scale, zeroPoint)
            == Map(v => Max(v, 0.0), DequantizeSeq(q, scale, zeroPoint))
  {
    var lhs := DequantizeSeq(ReLUCodes(q, zeroPoint), scale, zeroPoint);
    var rhs := Map(v => Max(v, 0.0), DequantizeSeq(q, scale, zeroPoint));
    forall i | 0 <= i < |q| ensures lhs[i] == rhs[i] {
      var d := q[i] - zeroPoint as real;
      if d < 0.0 {
        assert scale * d < 0.0;
      } else {
        assert scale * d >= 0.0;
      }
    }
  }

  /** One quantized layer. `qi`, `qo` are absent while neither construction
      nor `freeze` has given them; `m` is absent until `freeze` computes it. */
  class QLayer {
    const kind: Kind
    const numBits: nat
    const qw: Option<QParam>
    var qi: Option<QParam>
    var qo: Option<QParam>
    var m: Option<real>
    var weight: seq<seq<real>>
    var bias: Option<seq<real>>
    /** The last axis of the weight: the kernel width of a convolution.
        Only the batch-norm fold of `QConvBNReLU` reads it. */
    var width: nat

    /** Only layers with weights own a weight observer, of the layer's
        bit width; the batch norm fits the convolution, whose rows are whole
        rows of its kernel width; layers without weights
        hold no parameters and always own their output observer; `M` is
        only ever computed after both observers are bound. */
    ghost predicate Valid()
      reads this
    {
      && numBits >= 1
      && (qw.Some? <==> kind.HasWeights())
      && (qw.Some? ==> qw.value.numBits == numBits)
      && ConvFits(kind, weight, bias, width)
      && (!kind.HasWeights() ==> weight == [] && bias.None? && m.None? && qo.Some?)
      && (m.Some? ==> qi.Some? && qo.Some?)
    }

    /** `QModule.__init__` and the layer constructors: fresh observers for
        the roles the layer owns. `QReLU` and `QMaxPooling2d` always own an
        output observer (the `qo` default of `QModule`). */
    constructor (kind: Kind, numBits: nat, ownsQi: bool, ownsQo: bool, weight: seq<seq<real>>, bias: Option<seq<real>>,
                 width: nat)
      requires numBits >= 1
      requires ConvFits(kind, weight, bias, width)
      requires !kind.HasWeights() ==> weight == [] && bias.None?
      ensures Valid()
      ensures this.kind == kind && this.numBits == numBits && this.weight == weight && this.bias == bias && m.None?
      ensures this.width == width
      ensures qi.Some? <==> ownsQi
      ensures qo.Some? <==> ownsQo || !kind.HasWeights()
      ensures qi.Some? ==> fresh(qi.value) && qi.value.Valid() && qi.value.observed == []
      ensures qo.Some? ==> fresh(qo.value) && qo.value.Valid() && qo.value.observed == []
      ensures qw.Some? ==> fresh(qw.value) && qw.value.Valid() && qw.value.observed == []
    {
      this.kind := kind;
      this.numBits := numBits;
      if kind.HasWeights() {
        var p := new QParam(numBits);
        qw := Some(p);
      } else {
        qw := None;
      }
      if ownsQi {
        var p := new QParam(numBits);
        qi := Some(p);
      } else {
        qi := None;
      }
      if ownsQo || !kind.HasWeights() {
        var p := new QParam(numBits);
        qo := Some(p);
      } else {
        qo := None;
      }
      m := None;
      this.weight := weight;
      this.bias := bias;
      this.width := width;
    }

    /** `freeze(qi, qo)` (`QReLU` and `QMaxPooling2d` take no `qo`): the
        role checks leave the layer untouched when they raise; otherwise
        the given observers are bound and, for a layer with weights, `M`,
        weight, bias and kernel width become what FreezeArith derives from
        the observers. */
    method Freeze(qiArg: Option<QParam>, qoArg: Option<QParam>) returns (res: Outcome<Error>)
      requires Valid()
      requires qw.Some? ==> qw.value.Valid()
      requires !kind.HasWeights() ==> qoArg.None?
      modifies this
      ensures Valid()
      ensures var check := RoleCheck(kind.HasWeights(), old(qi).Some?, qiArg.Some?, old(qo).Some?, qoArg.Some?);
              && (check.Fail? ==> res == check && unchanged(this))
              && (check.Pass? ==>
                    && qi == (if qiArg.Some? then qiArg else old(qi))
                    && qo == (if qoArg.Some? then qoArg else old(qo)))
              && (check.Pass? && !kind.HasWeights() ==>
                    res == Pass && m == old(m) && weight == old(weight) && bias == old(bias) && width == old(width))
              && (check.Pass? && kind.HasWeights() ==>
                    var fr := FreezeArith(kind, numBits, qw.value.scale, qw.value.zeroPoint,
                                          qi.value.scale, qo.value.scale, old(m), old(weight), old(bias), old(width));
                    res == fr.outcome && m == fr.m && weight == fr.weight && bias == fr.bias && width == fr.width)
    {
      var check := RoleCheck(kind.HasWeights(), qi.Some?, qiArg.Some?, qo.Some?, qoArg.Some?);
      if check.Fail? {
        return check;
      }
      if qiArg.Some? {
        qi := qiArg;
      }
      if qoArg.Some? {
        qo := qoArg;
      }
      if !kind.HasWeights() {
        return Pass;
      }
      var fr := FreezeArith(kind, numBits, qw.value.scale, qw.value.zeroPoint, qi.value.scale, qo.value.scale,
                            m, weight, bias, width);
      m, weight, bias, width := fr.m, fr.weight, fr.bias, fr.width;
      res := fr.outcome;
    }

    /** `quantize_inference(x)` on a tensor of input codes; `op` is the
        layer's convolution or linear map, applied with the weight and bias
        the layer holds. Layers with weights shift by the input zero point,
        apply `op`, and run the tail (each step raising when what it reads
        is absent); `QReLU` clips at the input zero point; `QMaxPooling2d`
        pools. The input tensor is left unchanged. */
    method QuantizeInference(x: array<real>, op: (seq<seq<real>>, Option<seq<real>>, seq<real>) -> seq<real>)
      returns (res: Result<seq<real>, Error>)
      requires Valid()
      ensures !kind.MaxPool2d? && qi.None? ==> res == Failure(MissingQParam)
      ensures !kind.MaxPool2d? && qi.Some? && qi.value.zeroPoint.None? ==> res == Failure(Uninitialized)
      ensures kind.HasWeights() && qi.Some? && qi.value.zeroPoint.Some? ==>
                var acc := op(weight, bias, Shift(x[..], qi.value.zeroPoint.value));
                && (m.None? ==> res == Failure(NotFrozen))
                && (m.Some? && qo.value.zeroPoint.None? ==> res == Failure(Uninitialized))
                && (m.Some? && qo.value.zeroPoint.Some? ==>
                      res == Success(InferenceTail(acc, m.value, qo.value.zeroPoint.value, numBits)))
      ensures kind.ReLU? && qi.Some? && qi.value.zeroPoint.Some? ==>
                res == Success(ReLUCodes(x[..], qi.value.zeroPoint.value))
      ensures kind.MaxPool2d? ==>
                res == if PoolFits(x.Length, kind.kernelSize, kind.stride, kind.padding)
                       then Success(MaxPool(x[..], kind.kernelSize, kind.stride, kind.padding))
                       else Failure(InvalidPoolGeometry)
    {
      if kind.MaxPool2d? {
        if !PoolFits(x.Length, kind.kernelSize, kind.stride, kind.padding) {
          return Failure(InvalidPoolGeometry);
        }
        return Success(MaxPool(x[..], kind.kernelSize, kind.stride, kind.padding));
      }
      if qi.None? {
        return Failure(MissingQParam);
      }
      if qi.value.zeroPoint.None? {
        return Failure(Uninitialized);
      }
      var zi := qi.value.zeroPoint.value;
      if kind.ReLU? {
        var y := new real[x.Length](i requires 0 <= i < x.Length reads x => x[i]);
        var i := 0;
        while i < y.Length
          invariant 0 <= i <= y.Length == x.Length
          invariant forall k :: 0 <= k < i ==> y[k] == Max(x[k], zi as real)
          invariant forall k :: i <= k < y.Length ==> y[k] == x[k]
        {
          if y[i] < zi as real {
            y[i] := zi as real;
          }
          i := i + 1;
        }
        assert y[..] == ReLUCodes(x[..], zi);
        return Success(y[..]);
      }
      var acc := op(weight, bias, Shift(x[..], zi));
      if m.None? {
        return Failure(NotFrozen);
      }
      if qo.value.zeroPoint.None? {
        return Failure(Uninitialized);
      }
      var out := RunTail(acc, m.value, qo.value.zeroPoint.value, numBits);
      res := Success(out);
    }
  }
}
