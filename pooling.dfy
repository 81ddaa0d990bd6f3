/** Max pooling, modelled along one axis: windows of `kernel` elements taken
    every `stride` elements over the input padded by `padding` on each side,
    padding never winning the maximum (as in `F.max_pool2d`). Because
    taking a maximum commutes with any order-preserving map, pooling can run
    directly on quantized codes. */
module Pooling {
  import opened Numeric
  import opened Affine

  /** The window fits: the geometry `F.max_pool2d` accepts (a non-empty
      input, padding at most half the kernel) and at least one output. */
  predicate PoolFits(n: nat, kernel: nat, stride: nat, padding: nat)
  {
    n >= 1 && kernel >= 1 && stride >= 1 && 2 * padding <= kernel && n + 2 * padding >= kernel
  }

  /** Number of windows, `(n + 2 * padding - kernel) / stride + 1`. */
  function PoolLen(n: nat, kernel: nat, stride: nat, padding: nat): (len: nat)
    requires PoolFits(n, kernel, stride, padding)
  {
    (n + 2 * padding - kernel) / stride + 1
  }

  lemma MulBelowQuotient(i: nat, s: nat, total: nat)
    requires s >= 1 && i <= total / s
    ensures i * s <= total
  {
    var q := total / s;
    assert q * s <= total;
    assert i * s <= q * s;
  }

  /** The real elements of window `i`, clipped to the input. */
  function Window(x: seq<real>, i: nat, kernel: nat, stride: nat, padding: nat): (w: seq<real>)
    requires PoolFits(|x|, kernel, stride, padding) && i < PoolLen(|x|, kernel, stride, padding)
    ensures |w| > 0
  {
    MulBelowQuotient(i, stride, |x| + 2 * padding - kernel);
    var start := i * stride - padding;
    assert start <= |x| + padding - kernel && padding - kernel <= -1;
    var lo := if start < 0 then 0 else start;
    var hi := if start + kernel > |x| then |x| else start + kernel;
    assert start < |x| && 0 < start + kernel;
    x[lo..hi]
  }

  /** Max pooling: the largest element of each window. */
  function MaxPool(x: seq<real>, kernel: nat, stride: nat, padding: nat): (r: seq<real>)
    requires PoolFits(|x|, kernel, stride, padding)
    ensures |r| == PoolLen(|x|, kernel, stride, padding)
    ensures forall i :: 0 <= i < |r| ==>
              var w := Window(x, i, kernel, stride, padding);
              r[i] in w && forall j :: 0 <= j < |w| ==> w[j] <= r[i]
  {
    seq(PoolLen(|x|, kernel, stride, padding),
        i requires 0 <= i < PoolLen(|x|, kernel, stride, padding) => SeqMax(Window(x, i, kernel, stride, padding)))
  }

  /** Applies `f` to every element. */
  function Map(f: real -> real, s: seq<real>): (r: seq<real>)
    ensures |r| == |s|
    ensures forall i :: 0 <= i < |s| ==> r[i] == f(s[i])
  {
    seq(|s|, i requires 0 <= i < |s| => f(s[i]))
  }

  ghost predicate Monotone(f: real -> real)
  {
    forall a, b :: a <= b ==> f(a) <= f(b)
  }

  /** The maximum of the mapped tensor is the mapped maximum. */
  lemma SeqMaxOfMonotoneMap(f: real -> real, s: seq<real>)
    requires Monotone(f) && |s| > 0
    ensures SeqMax(Map(f, s)) == f(SeqMax(s))
  {
    var m := SeqMax(s);
    var k :| 0 <= k < |s| && s[k] == m;
    assert Map(f, s)[k] == f(m);
    SeqMaxUnique(Map(f, s), f(m));
  }

  /** Max pooling commutes with every order-preserving map. */
  lemma MaxPoolCommutes(f: real -> real, x: seq<real>, kernel: nat, stride: nat, padding: nat)
    requires Monotone(f) && PoolFits(|x|, kernel, stride, padding)
    ensures MaxPool(Map(f, x), kernel, stride, padding) == Map(f, MaxPool(x, kernel, stride, padding))
  {
    var lhs := MaxPool(Map(f, x), kernel, stride, padding);
    var rhs := Map(f, MaxPool(x, kernel, stride, padding));
    forall i | 0 <= i < |lhs| ensures lhs[i] == rhs[i] {
      var w := Window(x, i, kernel, stride, padding);
      assert Window(Map(f, x), i, kernel, stride, padding) == Map(f, w);
      SeqMaxOfMonotoneMap(f, w);
    }
  }

  lemma DequantizeIsMap(q: seq<real>, scale: real, zeroPoint: int, f: real -> real)
    requires forall v :: f(v) == scale * (v - zeroPoint as real)
    ensures DequantizeSeq(q, scale, zeroPoint) == Map(f, q)
  {
  }

  lemma QuantizeIsMap(x: seq<real>, scale: real, zeroPoint: int, numBits: nat, f: real -> real)
    requires numBits >= 1 && scale != 0.0
    requires forall v :: f(v) == QuantizeValue(v, scale, zeroPoint, numBits, false) as real
    ensures QuantizeSeq(x, scale, zeroPoint, numBits, false) == Map(f, x)
  {
  }

  /** Pooling the codes and then dequantizing equals dequantizing and then
      pooling: the inference path may pool integers directly. */
  lemma MaxPoolCommutesWithDequantize(q: seq<real>, scale: real, zeroPoint: int, kernel: nat, stride: nat, padding: nat)
    requires scale > 0.0 && PoolFits(|q|, kernel, stride, padding)
    ensures MaxPool(DequantizeSeq(q, scale, zeroPoint), kernel, stride, padding)
            == DequantizeSeq(MaxPool(q, kernel, stride, padding), scale, zeroPoint)
  {
    var f := (v: real) => scale * (v - zeroPoint as real);
    assert Monotone(f) by {
      forall a: real, b: real | a <= b ensures f(a) <= f(b) {
        assert f(b) - f(a) == scale * (b - a);
      }
    }
    DequantizeIsMap(q, scale, zeroPoint, f);
    MaxPoolCommutes(f, q, kernel, stride, padding);
    DequantizeIsMap(MaxPool(q, kernel, stride, padding), scale, zeroPoint, f);
  }

  /** Quantizing then pooling equals pooling then quantizing. */
  lemma MaxPoolCommutesWithQuantize(x: seq<real>, scale: real, zeroPoint: int, numBits: nat, kernel: nat, stride: nat, padding: nat)
    requires numBits >= 1 && scale > 0.0 && PoolFits(|x|, kernel, stride, padding)
    ensures MaxPool(QuantizeSeq(x, scale, zeroPoint, numBits, false), kernel, stride, padding)
            == QuantizeSeq(MaxPool(x, kernel, stride, padding), scale, zeroPoint, numBits, false)
  {
    var f := (v: real) => QuantizeValue(v, scale, zeroPoint, numBits, false) as real;
    assert Monotone(f) by {
      forall a: real, b: real | a <= b ensures f(a) <= f(b) {
        QuantizeMonotone(a, b, scale, zeroPoint, numBits, false);
      }
    }
    QuantizeIsMap(x, scale, zeroPoint, numBits, f);
    MaxPoolCommutes(f, x, kernel, stride, padding);
    QuantizeIsMap(MaxPool(x, kernel, stride, padding), scale, zeroPoint, numBits, f);
  }

  /** Dequantize-then-quantize gives back codes that are integers in range. */
  lemma RequantizeCodes(q: seq<real>, scale: real, zeroPoint: int, numBits: nat)
    requires numBits >= 1 && scale > 0.0
    requires forall i :: 0 <= i < |q| ==> IsInteger(q[i]) && 0.0 <= q[i] <= QMax(numBits, false) as real
    ensures QuantizeSeq(DequantizeSeq(q, scale, zeroPoint), scale, zeroPoint, numBits, false) == q
  {
    var d := DequantizeSeq(q, scale, zeroPoint);
    forall i | 0 <= i < |q| ensures QuantizeSeq(d, scale, zeroPoint, numBits, false)[i] == q[i] {
      var k := q[i].Floor;
      assert q[i] == k as real;
      assert d[i] == scale * (k as real - zeroPoint as real);
      RequantizeCode(k, scale, zeroPoint, numBits, false);
    }
  }

  /** Integer-domain pooling is exact: for codes already in range,
      pooling them equals quantizing the pooled dequantized tensor. */
  lemma MaxPoolOnCodes(q: seq<real>, scale: real, zeroPoint: int, numBits: nat, kernel: nat, stride: nat, padding: nat)
    requires numBits >= 1 && scale > 0.0 && PoolFits(|q|, kernel, stride, padding)
    requires forall i :: 0 <= i < |q| ==> IsInteger(q[i]) && 0.0 <= q[i] <= QMax(numBits, false) as real
    ensures MaxPool(q, kernel, stride, padding)
            == QuantizeSeq(MaxPool(DequantizeSeq(q, scale, zeroPoint), kernel, stride, padding), scale, zeroPoint, numBits, false)
  {
    var d := DequantizeSeq(q, scale, zeroPoint);
    MaxPoolCommutesWithQuantize(d, scale, zeroPoint, numBits, kernel, stride, padding);
    RequantizeCodes(q, scale, zeroPoint, numBits);
  }
}
