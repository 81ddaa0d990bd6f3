/** QParam: the running observer of one tensor role (input, weight or
    output). It keeps the smallest and largest value seen so far and
    re-derives its scale and zero point from them on every update. */
module Observer {
  import opened Wrappers
  import opened Errors
  import opened Numeric
  import opened Affine

  class QParam {
    const numBits: nat
    var min: Option<real>
    var max: Option<real>
    var scale: Option<real>
    var zeroPoint: Option<int>
    /** Every value passed to `Update`, in order (not kept by the source). */
    ghost var observed: seq<real>

    /** `min`/`max` are the extremes of everything observed; `scale` and
        `zeroPoint` are exactly what calcScaleZeroPoint derives from the
        current `min`/`max`, and absent while that derivation fails. */
    ghost predicate Valid()
      reads this
    {
      Tracks(numBits, min, max, scale, zeroPoint, observed)
    }

    /** Valid, over the values of the fields. */
    static ghost predicate Tracks(numBits: nat, min: Option<real>, max: Option<real>, scale: Option<real>,
                                 zeroPoint: Option<int>, observed: seq<real>)
    {
      && numBits >= 1
      && (min.Some? <==> |observed| > 0)
      && (max.Some? <==> |observed| > 0)
      && (|observed| > 0 ==> min.value == SeqMin(observed) && max.value == SeqMax(observed))
      && (scale.Some? <==> zeroPoint.Some?)
      && (scale.Some? <==> |observed| > 0 && CalcScaleZeroPoint(min.value, max.value, numBits).Success?)
      && (scale.Some? ==>
            CalcScaleZeroPoint(min.value, max.value, numBits).value == ScaleZeroPoint(scale.value, zeroPoint.value))
    }

    constructor (numBits: nat)
      requires numBits >= 1
      ensures Valid() && this.numBits == numBits
      ensures min.None? && max.None? && scale.None? && zeroPoint.None? && observed == []
    {
      this.numBits := numBits;
      min, max, scale, zeroPoint := None, None, None, None;
      observed := [];
    }

    /** update(tensor). `tensor.max()` raises on an empty tensor before any
        field changes. When calcScaleZeroPoint raises, `min` and `max` have
        already been widened and `scale`/`zeroPoint` keep their old values,
        which can then only be absent. */
    method Update(tensor: seq<real>) returns (res: Outcome<Error>)
      requires Valid()
      modifies this
      ensures Valid()
      ensures tensor == [] ==> res == Fail(EmptyTensor) && unchanged(this)
      ensures tensor != [] ==> observed == old(observed) + tensor
      ensures tensor != [] ==> forall i :: 0 <= i < |tensor| ==> min.value <= tensor[i] <= max.value
      ensures tensor != [] && old(min).None? ==> min == Some(SeqMin(tensor)) && max == Some(SeqMax(tensor))
      ensures old(min).Some? ==> min.Some? && min.value <= old(min).value
      ensures old(max).Some? ==> max.Some? && max.value >= old(max).value
      ensures old(scale).Some? ==> scale.Some? && scale.value >= old(scale).value
      ensures tensor != [] ==> (res.Pass? <==> scale.Some?)
      ensures tensor != [] && res.Fail? ==> res.error == NaNZeroPoint && scale.None?
    {
      if tensor == [] {
        return Fail(EmptyTensor);
      }
      ghost var lo := if min.Some? then min.value else 0.0;
      ghost var hi := if max.Some? then max.value else 0.0;
      Widen(tensor, lo, hi);
      res := Rederive(lo, hi);
    }

    /** Between the two halves of `update`: `min`/`max` are the extremes of
        everything observed, and a scale still held from before is the one
        derived from an earlier range `[lo, hi]` inside the current one. */
    ghost predicate Widened(lo: real, hi: real)
      reads this
    {
      && numBits >= 1
      && |observed| > 0 && min.Some? && max.Some?
      && min.value == SeqMin(observed) && max.value == SeqMax(observed)
      && (scale.Some? <==> zeroPoint.Some?)
      && (scale.Some? ==>
            && min.value <= lo <= hi <= max.value
            && CalcScaleZeroPoint(lo, hi, numBits) == Success(ScaleZeroPoint(scale.value, zeroPoint.value)))
    }

    /** The first half of `update`: `max` and `min` widen to cover the
        tensor (`tensor.max()`/`tensor.min()` on the first call); the scale
        and zero point, derived from the old range `[lo, hi]`, are not
        touched yet. */
    method Widen(tensor: seq<real>, ghost lo: real, ghost hi: real)
      requires Valid() && tensor != []
      requires min.Some? ==> lo == min.value && hi == max.value
      modifies this
      ensures Widened(lo, hi)
      ensures scale == old(scale) && zeroPoint == old(zeroPoint)
      ensures observed == old(observed) + tensor
      ensures forall i :: 0 <= i < |tensor| ==> min.value <= tensor[i] <= max.value
      ensures old(min).None? ==> min == Some(SeqMin(tensor)) && max == Some(SeqMax(tensor))
      ensures old(min).Some? ==> min.value <= old(min).value
      ensures old(max).Some? ==> max.value >= old(max).value
    {
      var tensorMax := SeqMax(tensor);
      var tensorMin := SeqMin(tensor);
      var newMax := if max.None? || max.value < tensorMax then tensorMax else max.value;
      var newMin := if min.None? || min.value > tensorMin then tensorMin else min.value;
      ExtremesOfHistory(observed, tensor, min, max, newMin, newMax);
      max, min, observed := Some(newMax), Some(newMin), observed + tensor;
    }

    /** The second half of `update`: scale and zero point re-derived from
        the widened range. When the derivation raises, they keep their old
        values, which were then already absent. */
    method Rederive(ghost lo: real, ghost hi: real) returns (res: Outcome<Error>)
      requires Widened(lo, hi)
      modifies this
      ensures Valid()
      ensures min == old(min) && max == old(max) && observed == old(observed)
      ensures old(scale).Some? ==> scale.Some? && scale.value >= old(scale).value
      ensures res.Pass? <==> scale.Some?
      ensures res.Fail? ==> res.error == NaNZeroPoint && scale.None?
    {
      if scale.Some? {
        ScaleGrowsWithRange(lo, hi, min.value, max.value, numBits);
      }
      var derived := CalcScaleZeroPoint(min.value, max.value, numBits);
      if derived.Failure? {
        return Fail(derived.error);
      }
      scale, zeroPoint := Some(derived.value.scale), Some(derived.value.zeroPoint);
      res := Pass;
    }

    /** Helper for Update: the widened bounds are the extremes of the
        extended history, and a failed derivation after the update means
        the old derivation failed too. */
    static lemma ExtremesOfHistory(history: seq<real>, tensor: seq<real>, oldMin: Option<real>, oldMax: Option<real>,
                                   newMin: real, newMax: real)
      requires |tensor| > 0
      requires oldMin.Some? <==> |history| > 0
      requires oldMax.Some? <==> |history| > 0
      requires |history| > 0 ==> oldMin.value == SeqMin(history) && oldMax.value == SeqMax(history)
      requires newMin == if oldMin.None? || oldMin.value > SeqMin(tensor) then SeqMin(tensor) else oldMin.value
      requires newMax == if oldMax.None? || oldMax.value < SeqMax(tensor) then SeqMax(tensor) else oldMax.value
      ensures newMin == SeqMin(history + tensor) && newMax == SeqMax(history + tensor)
      ensures forall i :: 0 <= i < |tensor| ==> newMin <= tensor[i] <= newMax
      ensures |history| > 0 ==> newMin <= oldMin.value && oldMax.value <= newMax && oldMin.value <= oldMax.value
    {
      if history == [] {
        assert history + tensor == tensor;
      } else {
        SeqMaxAppend(history, tensor);
        SeqMinAppend(history, tensor);
        SeqMinLeMax(history);
      }
    }

    /** QParam.quantize_tensor: unsigned quantization with the current scale
        and zero point. Fails while no observation has produced a scale. */
    method QuantizeTensor(x: seq<real>) returns (res: Result<seq<real>, Error>)
      requires Valid()
      ensures scale.None? ==> res == Failure(Uninitialized)
      ensures scale == Some(0.0) ==> res == Failure(ZeroScale)
      ensures scale.Some? && scale.value != 0.0 ==>
                res == Success(QuantizeSeq(x, scale.value, zeroPoint.value, numBits, false))
    {
      if scale.None? {
        return Failure(Uninitialized);
      }
      if scale.value == 0.0 {
        return Failure(ZeroScale);
      }
      var q := Affine.QuantizeTensor(x, scale.value, zeroPoint.value, numBits, false);
      res := Success(q);
    }

    /** QParam.dequantize_tensor. Fails while no observation has produced a scale. */
    method DequantizeTensor(q: seq<real>) returns (res: Result<seq<real>, Error>)
      requires Valid()
      ensures scale.None? ==> res == Failure(Uninitialized)
      ensures scale.Some? ==> res == Success(DequantizeSeq(q, scale.value, zeroPoint.value))
    {
      if scale.None? {
        return Failure(Uninitialized);
      }
      res := Success(DequantizeSeq(q, scale.value, zeroPoint.value));
    }
  }
}
