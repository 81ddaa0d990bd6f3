/** Affine quantization math of module.py: deriving a scale and zero point
    from an observed range, quantizing a real tensor to integer codes and
    mapping codes back to reals, `real = scale * (q - zero_point)`. */
module Affine {
  import opened Wrappers
  import opened Errors
  import opened Numeric

  datatype ScaleZeroPoint = ScaleZeroPoint(scale: real, zeroPoint: int)

  /** Lowest code: 0 unsigned, `-2^(b-1)` signed. */
  function QMin(numBits: nat, signed: bool): (q: int)
    requires numBits >= 1
  {
    if signed then -(Pow2(numBits - 1) as int) else 0
  }

  /** Highest code: `2^b - 1` unsigned, `2^(b-1) - 1` signed. */
  function QMax(numBits: nat, signed: bool): (r: int)
    requires numBits >= 1
    ensures QMin(numBits, signed) < r
  {
    if signed then Pow2(numBits - 1) - 1 else Pow2(numBits) - 1
  }

  /** calcScaleZeroPoint. The bounds are the 0-d tensors `tensor.min()` and
      `tensor.max()`, so when `min == max` the division `max / 0.0` follows
      IEEE: +inf clamps the zero point to 0, -inf clamps it to qmax, and
      0/0 is NaN, on which `int()` raises. The zero point is truncated, not
      rounded. */
  function CalcScaleZeroPoint(minVal: real, maxVal: real, numBits: nat): (r: Result<ScaleZeroPoint, Error>)
    requires numBits >= 1
    ensures r.Failure? <==> minVal == maxVal == 0.0
    ensures r.Failure? ==> r.error == NaNZeroPoint
    ensures r.Success? ==> r.value.scale * QMax(numBits, false) as real == maxVal - minVal
    ensures minVal < maxVal ==> r.Success? && r.value.scale > 0.0
    ensures r.Success? ==> 0 <= r.value.zeroPoint <= QMax(numBits, false)
    ensures r.Success? && minVal != maxVal ==>
              var qmax := QMax(numBits, false) as real;
              r.value.zeroPoint == Clamp(qmax - maxVal / r.value.scale, 0.0, qmax).Floor
    ensures minVal == maxVal && maxVal > 0.0 ==> r == Success(ScaleZeroPoint(0.0, 0))
    ensures minVal == maxVal && maxVal < 0.0 ==> r == Success(ScaleZeroPoint(0.0, QMax(numBits, false)))
  {
    var qmin := 0.0;
    var qmax := QMax(numBits, false) as real;
    var scale := (maxVal - minVal) / (qmax - qmin);
    if scale == 0.0 then
      if maxVal > 0.0 then Success(ScaleZeroPoint(scale, Trunc(qmin)))
      else if maxVal < 0.0 then Success(ScaleZeroPoint(scale, Trunc(qmax)))
      else Failure(NaNZeroPoint)
    else
      var zeroPoint := qmax - maxVal / scale;
      var clamped := if zeroPoint < qmin then qmin else if zeroPoint > qmax then qmax else zeroPoint;
      Success(ScaleZeroPoint(scale, Trunc(clamped)))
  }

  /** When the observed range contains 0, no clamping happens and the
      derived grid covers it to within one step: `max` lands in
      `(qmax - 1, qmax]` and `min` in `(-1, 0]`. */
  lemma CalcCoversRange(minVal: real, maxVal: real, numBits: nat)
    requires numBits >= 1 && minVal < maxVal && minVal <= 0.0 <= maxVal
    ensures var p := CalcScaleZeroPoint(minVal, maxVal, numBits).value;
            var qmax := QMax(numBits, false) as real;
            && qmax - 1.0 < p.zeroPoint as real + maxVal / p.scale <= qmax
            && -1.0 < p.zeroPoint as real + minVal / p.scale <= 0.0
  {
    var p := CalcScaleZeroPoint(minVal, maxVal, numBits).value;
    var qmax := QMax(numBits, false) as real;
    var s := p.scale;
    assert s == (maxVal - minVal) / qmax;
    var ratio := maxVal / s;
    assert ratio == maxVal * qmax / (maxVal - minVal);
    assert 0.0 <= ratio <= qmax by {
      assert maxVal <= maxVal - minVal;
      assert maxVal * qmax <= (maxVal - minVal) * qmax;
    }
    var z := qmax - ratio;
    assert p.zeroPoint == z.Floor;
    assert minVal / s == ratio - (maxVal - minVal) / s;
    assert (maxVal - minVal) / s == qmax;
  }

  /** When every observed value is positive (the range excludes 0), the zero
      point is clamped to 0 and the top of the range lies above qmax, so it
      saturates when quantized: the range `[1, 2]` maps 2.0 to code 510. */
  lemma CalcPositiveRangeSaturates(numBits: nat)
    requires numBits >= 1
    ensures var p := CalcScaleZeroPoint(1.0, 2.0, numBits).value;
            var qmax := QMax(numBits, false) as real;
            p.zeroPoint == 0 && p.zeroPoint as real + 2.0 / p.scale == 2.0 * qmax
  {
    var qmax := QMax(numBits, false) as real;
    var p := CalcScaleZeroPoint(1.0, 2.0, numBits).value;
    assert p.scale == 1.0 / qmax;
    assert 2.0 / p.scale == 2.0 * qmax;
    assert qmax - 2.0 / p.scale < 0.0;
  }

  /** Deriving fails only for the range `[0, 0]`, which no widening reaches
      from a range that derives successfully. */
  lemma CalcFailsOnlyOnZero(oldMin: real, oldMax: real, newMin: real, newMax: real, numBits: nat)
    requires numBits >= 1 && oldMin <= oldMax && newMin <= oldMin && oldMax <= newMax
    ensures CalcScaleZeroPoint(newMin, newMax, numBits).Failure? ==> CalcScaleZeroPoint(oldMin, oldMax, numBits).Failure?
  {
  }

  /** Widening the observed range never shrinks the derived scale. */
  lemma ScaleGrowsWithRange(oldMin: real, oldMax: real, newMin: real, newMax: real, numBits: nat)
    requires numBits >= 1 && oldMin <= oldMax && newMin <= oldMin && oldMax <= newMax
    requires CalcScaleZeroPoint(oldMin, oldMax, numBits).Success?
    ensures CalcScaleZeroPoint(newMin, newMax, numBits).Success?
    ensures CalcScaleZeroPoint(oldMin, oldMax, numBits).value.scale <= CalcScaleZeroPoint(newMin, newMax, numBits).value.scale
  {
    var qmax := QMax(numBits, false) as real;
    CalcFailsOnlyOnZero(oldMin, oldMax, newMin, newMax, numBits);
    DivMonotone(oldMax - oldMin, newMax - newMin, qmax - 0.0);
  }

  /** Dividing by a positive number keeps the order. */
  lemma DivMonotone(a: real, b: real, d: real)
    requires a <= b && d > 0.0
    ensures a / d <= b / d
  {
    assert (b - a) / d >= 0.0;
  }

  /** The two concrete ranges: `[0, 1]` gives scale 1/255 and zero point 0;
      `[-1, 1]` gives scale 2/255 and zero point 127 (`int(127.5)`). */
  lemma CalcExamples()
    ensures CalcScaleZeroPoint(0.0, 1.0, 8) == Success(ScaleZeroPoint(1.0 / 255.0, 0))
    ensures CalcScaleZeroPoint(-1.0, 1.0, 8) == Success(ScaleZeroPoint(2.0 / 255.0, 127))
  {
    assert Pow2(8) == 256 by {
      assert Pow2(4) == 16;
    }
    assert 1.0 / (2.0 / 255.0) == 127.5;
    assert (127.5).Floor == 127;
  }

  /** One element of quantize_tensor: `zero_point + x / scale`, clamped to the
      code range, then rounded (clamp before round, as `clamp_().round_()`). */
  function QuantizeValue(x: real, scale: real, zeroPoint: int, numBits: nat, signed: bool): (q: int)
    requires numBits >= 1 && scale != 0.0
    ensures QMin(numBits, signed) <= q <= QMax(numBits, signed)
    ensures var v := zeroPoint as real + x / scale;
            && (QMin(numBits, signed) as real <= v <= QMax(numBits, signed) as real ==> -0.5 <= q as real - v <= 0.5)
            && (v >= QMax(numBits, signed) as real ==> q == QMax(numBits, signed))
            && (v <= QMin(numBits, signed) as real ==> q == QMin(numBits, signed))
  {
    var lo := QMin(numBits, signed) as real;
    var hi := QMax(numBits, signed) as real;
    var c := Clamp(zeroPoint as real + x / scale, lo, hi);
    RoundWithin(c, QMin(numBits, signed), QMax(numBits, signed));
    RoundOfInteger(QMin(numBits, signed));
    RoundOfInteger(QMax(numBits, signed));
    RoundHalfEven(c)
  }

  /** quantize_tensor, element by element. */
  function QuantizeSeq(x: seq<real>, scale: real, zeroPoint: int, numBits: nat, signed: bool): (q: seq<real>)
    requires numBits >= 1 && scale != 0.0
    ensures |q| == |x|
    ensures forall i :: 0 <= i < |x| ==> q[i] == QuantizeValue(x[i], scale, zeroPoint, numBits, signed) as real
  {
    seq(|x|, i requires 0 <= i < |x| => QuantizeValue(x[i], scale, zeroPoint, numBits, signed) as real)
  }

  /** Every code quantize_tensor returns is an integer inside the unsigned
      or signed range. */
  lemma QuantizeSeqRange(x: seq<real>, scale: real, zeroPoint: int, numBits: nat, signed: bool)
    requires numBits >= 1 && scale != 0.0
    ensures forall i :: 0 <= i < |x| ==>
              var q := QuantizeSeq(x, scale, zeroPoint, numBits, signed)[i];
              IsInteger(q) && QMin(numBits, signed) as real <= q <= QMax(numBits, signed) as real
  {
    forall i | 0 <= i < |x|
      ensures var q := QuantizeSeq(x, scale, zeroPoint, numBits, signed)[i];
              IsInteger(q) && QMin(numBits, signed) as real <= q <= QMax(numBits, signed) as real
    {
      var k := QuantizeValue(x[i], scale, zeroPoint, numBits, signed);
      assert (k as real).Floor == k;
    }
  }

  /** quantize_tensor never reverses the order of two values (positive scale). */
  lemma QuantizeMonotone(x: real, y: real, scale: real, zeroPoint: int, numBits: nat, signed: bool)
    requires numBits >= 1 && scale > 0.0 && x <= y
    ensures QuantizeValue(x, scale, zeroPoint, numBits, signed) <= QuantizeValue(y, scale, zeroPoint, numBits, signed)
  {
    assert x / scale <= y / scale;
    var lo := QMin(numBits, signed) as real;
    var hi := QMax(numBits, signed) as real;
    RoundMonotone(Clamp(zeroPoint as real + x / scale, lo, hi), Clamp(zeroPoint as real + y / scale, lo, hi));
  }

  /** dequantize_tensor: `scale * (q - zero_point)`, element by element. */
  function DequantizeSeq(q: seq<real>, scale: real, zeroPoint: int): (r: seq<real>)
    ensures |r| == |q|
    ensures forall i :: 0 <= i < |q| ==> r[i] == scale * (q[i] - zeroPoint as real)
  {
    seq(|q|, i requires 0 <= i < |q| => scale * (q[i] - zeroPoint as real))
  }

  /** Dequantizing undoes the affine step of quantizing exactly; only the
      clamp and the rounding lose information. */
  lemma DequantizeInvertsAffine(x: seq<real>, scale: real, zeroPoint: int)
    requires scale != 0.0
    ensures DequantizeSeq(seq(|x|, i requires 0 <= i < |x| => zeroPoint as real + x[i] / scale), scale, zeroPoint) == x
  {
    var v := seq(|x|, i requires 0 <= i < |x| => zeroPoint as real + x[i] / scale);
    forall i | 0 <= i < |x| ensures DequantizeSeq(v, scale, zeroPoint)[i] == x[i] {
      assert scale * (x[i] / scale) == x[i];
    }
  }

  /** Round trip of one value: inside the representable range the error of
      dequantize(quantize(x)) is at most half a quantization step. */
  lemma RoundTripValue(x: real, scale: real, zeroPoint: int, numBits: nat, signed: bool)
    requires numBits >= 1 && scale > 0.0
    requires QMin(numBits, signed) as real <= zeroPoint as real + x / scale <= QMax(numBits, signed) as real
    ensures var q := QuantizeValue(x, scale, zeroPoint, numBits, signed);
            -scale / 2.0 <= scale * (q as real - zeroPoint as real) - x <= scale / 2.0
  {
    var k := QuantizeValue(x, scale, zeroPoint, numBits, signed);
    var q := k as real;
    var v := zeroPoint as real + x / scale;
    var d := q - v;
    assert -0.5 <= d <= 0.5;
    assert scale * (x / scale) == x;
    var e := scale * (q - zeroPoint as real) - x;
    assert e == scale * d;
    assert -0.5 * scale <= scale * d <= 0.5 * scale;
    assert -scale / 2.0 <= e <= scale / 2.0;
  }

  /** Round trip of a tensor whose affine image lies inside the code range:
      every element comes back within `scale / 2`. */
  lemma RoundTrip(x: seq<real>, scale: real, zeroPoint: int, numBits: nat, signed: bool)
    requires numBits >= 1 && scale > 0.0
    requires forall i :: 0 <= i < |x| ==>
               QMin(numBits, signed) as real <= zeroPoint as real + x[i] / scale <= QMax(numBits, signed) as real
    ensures var y := DequantizeSeq(QuantizeSeq(x, scale, zeroPoint, numBits, signed), scale, zeroPoint);
            |y| == |x| && forall i :: 0 <= i < |x| ==> -scale / 2.0 <= y[i] - x[i] <= scale / 2.0
  {
    forall i | 0 <= i < |x|
      ensures -scale / 2.0 <= DequantizeSeq(QuantizeSeq(x, scale, zeroPoint, numBits, signed), scale, zeroPoint)[i] - x[i] <= scale / 2.0
    {
      RoundTripAt(x, scale, zeroPoint, numBits, signed, i);
    }
  }

  /** One element of RoundTrip. */
  lemma RoundTripAt(x: seq<real>, scale: real, zeroPoint: int, numBits: nat, signed: bool, i: nat)
    requires numBits >= 1 && scale > 0.0 && i < |x|
    requires QMin(numBits, signed) as real <= zeroPoint as real + x[i] / scale <= QMax(numBits, signed) as real
    ensures -scale / 2.0 <= DequantizeSeq(QuantizeSeq(x, scale, zeroPoint, numBits, signed), scale, zeroPoint)[i] - x[i] <= scale / 2.0
  {
    var q := QuantizeSeq(x, scale, zeroPoint, numBits, signed);
    var y := DequantizeSeq(q, scale, zeroPoint);
    RoundTripValue(x[i], scale, zeroPoint, numBits, signed);
    HalfStepAt(y[i], q[i], QuantizeValue(x[i], scale, zeroPoint, numBits, signed), x[i], scale, zeroPoint);
  }

  /** The scalar step of RoundTrip, kept apart from the sequences. */
  lemma HalfStepAt(y: real, q: real, k: int, x: real, scale: real, zeroPoint: int)
    requires y == scale * (q - zeroPoint as real) && q == k as real
    requires -scale / 2.0 <= scale * (k as real - zeroPoint as real) - x <= scale / 2.0
    ensures -scale / 2.0 <= y - x <= scale / 2.0
  {
  }

  /** Codes that are integers in range survive dequantize-then-quantize unchanged. */
  lemma RequantizeCode(q: int, scale: real, zeroPoint: int, numBits: nat, signed: bool)
    requires numBits >= 1 && scale != 0.0
    requires QMin(numBits, signed) <= q <= QMax(numBits, signed)
    ensures QuantizeValue(scale * (q as real - zeroPoint as real), scale, zeroPoint, numBits, signed) == q
  {
    var x := scale * (q as real - zeroPoint as real);
    assert x / scale == q as real - zeroPoint as real;
    RoundOfInteger(q);
  }

  /** `tensor.clamp_(lo, hi)`: clamps every element in place. */
  method ClampInPlace(a: array<real>, lo: real, hi: real)
    modifies a
    ensures forall i :: 0 <= i < a.Length ==> a[i] == Clamp(old(a[i]), lo, hi)
  {
    var i := 0;
    while i < a.Length
      invariant 0 <= i <= a.Length
      invariant forall j :: 0 <= j < i ==> a[j] == Clamp(old(a[j]), lo, hi)
      invariant forall j :: i <= j < a.Length ==> a[j] == old(a[j])
    {
      a[i] := Clamp(a[i], lo, hi);
      i := i + 1;
    }
  }

  /** `tensor.round_()`: rounds every element in place, ties to even. */
  method RoundInPlace(a: array<real>)
    modifies a
    ensures forall i :: 0 <= i < a.Length ==> a[i] == RoundHalfEven(old(a[i])) as real
  {
    var i := 0;
    while i < a.Length
      invariant 0 <= i <= a.Length
      invariant forall j :: 0 <= j < i ==> a[j] == RoundHalfEven(old(a[j])) as real
      invariant forall j :: i <= j < a.Length ==> a[j] == old(a[j])
    {
      a[i] := RoundHalfEven(a[i]) as real;
      i := i + 1;
    }
  }

  /** quantize_tensor as the source runs it: a new tensor
      `zero_point + x / scale`, clamped in place, then rounded in place. */
  method QuantizeTensor(x: seq<real>, scale: real, zeroPoint: int, numBits: nat, signed: bool) returns (qx: seq<real>)
    requires numBits >= 1 && scale != 0.0
    ensures qx == QuantizeSeq(x, scale, zeroPoint, numBits, signed)
  {
    var a := new real[|x|](i requires 0 <= i < |x| => zeroPoint as real + x[i] / scale);
    ClampInPlace(a, QMin(numBits, signed) as real, QMax(numBits, signed) as real);
    RoundInPlace(a);
    qx := a[..];
  }
}
