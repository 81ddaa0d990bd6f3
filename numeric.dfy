/** Real-number building blocks shared by the model: powers of two, the
    rounding and truncation of the host numerics, clamping, and the minimum
    and maximum of a non-empty tensor (flattened to a sequence). */
module Numeric {

  /** `2 ** n`. */
  function Pow2(n: nat): (r: nat)
    ensures r >= 1
  {
    if n == 0 then 1 else 2 * Pow2(n - 1)
  }

  function Min(a: real, b: real): (m: real) { if a <= b then a else b }

  function Max(a: real, b: real): (m: real) { if a >= b then a else b }

  /** True when `x` has no fractional part. */
  predicate IsInteger(x: real) { x.Floor as real == x }

  /** `torch.round` and Python's `round`: nearest integer, ties to even. */
  function RoundHalfEven(x: real): (r: int)
    ensures -0.5 <= r as real - x <= 0.5
    ensures x - x.Floor as real != 0.5 ==> -0.5 < r as real - x < 0.5
    ensures x - x.Floor as real == 0.5 ==> r % 2 == 0
  {
    var f := x.Floor;
    var d := x - f as real;
    if d < 0.5 then f
    else if d > 0.5 then f + 1
    else if f % 2 == 0 then f
    else f + 1
  }

  /** Python's `int(x)` on a float: truncation toward zero. */
  function Trunc(x: real): (r: int)
    ensures x >= 0.0 ==> r == x.Floor
    ensures x < 0.0 ==> r == -((-x).Floor)
  {
    if x >= 0.0 then x.Floor else -((-x).Floor)
  }

  /** `torch.clamp(x, lo, hi)`, that is `min(max(x, lo), hi)`. */
  function Clamp(x: real, lo: real, hi: real): (r: real)
    ensures lo <= hi ==> lo <= r <= hi
    ensures lo <= x <= hi ==> r == x
    ensures x <= lo && lo <= hi ==> r == lo
    ensures hi <= x ==> r == hi
  {
    Min(Max(x, lo), hi)
  }

  /** `tensor.max()`: the largest element of a non-empty tensor. */
  function SeqMax(s: seq<real>): (m: real)
    requires |s| > 0
    ensures m in s
    ensures forall i :: 0 <= i < |s| ==> s[i] <= m
  {
    if |s| == 1 then s[0] else Max(s[0], SeqMax(s[1..]))
  }

  /** `tensor.min()`: the smallest element of a non-empty tensor. */
  function SeqMin(s: seq<real>): (m: real)
    requires |s| > 0
    ensures m in s
    ensures forall i :: 0 <= i < |s| ==> m <= s[i]
  {
    if |s| == 1 then s[0] else Min(s[0], SeqMin(s[1..]))
  }

  /** An integer is left alone by rounding. */
  lemma RoundOfInteger(k: int)
    ensures RoundHalfEven(k as real) == k
  {
  }

  /** Rounding to nearest keeps an integer-bounded interval. */
  lemma RoundWithin(x: real, lo: int, hi: int)
    requires lo as real <= x <= hi as real
    ensures lo <= RoundHalfEven(x) <= hi
  {
  }

  /** Rounding to nearest (ties to even) never reverses the order of two values. */
  lemma RoundMonotone(x: real, y: real)
    requires x <= y
    ensures RoundHalfEven(x) <= RoundHalfEven(y)
  {
  }

  /** A value that is in `s` and bounds it from above is `SeqMax(s)`. */
  lemma SeqMaxUnique(s: seq<real>, m: real)
    requires m in s
    requires forall i :: 0 <= i < |s| ==> s[i] <= m
    ensures SeqMax(s) == m
  {
    var k :| 0 <= k < |s| && s[k] == m;
    assert s[k] <= SeqMax(s);
  }

  /** A value that is in `s` and bounds it from below is `SeqMin(s)`. */
  lemma SeqMinUnique(s: seq<real>, m: real)
    requires m in s
    requires forall i :: 0 <= i < |s| ==> m <= s[i]
    ensures SeqMin(s) == m
  {
    var k :| 0 <= k < |s| && s[k] == m;
    assert SeqMin(s) <= s[k];
  }

  /** The maximum of a concatenation is the larger of the two maxima. */
  lemma SeqMaxAppend(a: seq<real>, b: seq<real>)
    requires |a| > 0 && |b| > 0
    ensures SeqMax(a + b) == Max(SeqMax(a), SeqMax(b))
  {
    var m := Max(SeqMax(a), SeqMax(b));
    forall i | 0 <= i < |a + b| ensures (a + b)[i] <= m {
      if i < |a| { assert (a + b)[i] == a[i]; } else { assert (a + b)[i] == b[i - |a|]; }
    }
    SeqMaxUnique(a + b, m);
  }

  /** The minimum of a concatenation is the smaller of the two minima. */
  lemma SeqMinAppend(a: seq<real>, b: seq<real>)
    requires |a| > 0 && |b| > 0
    ensures SeqMin(a + b) == Min(SeqMin(a), SeqMin(b))
  {
    var m := Min(SeqMin(a), SeqMin(b));
    forall i | 0 <= i < |a + b| ensures m <= (a + b)[i] {
      if i < |a| { assert (a + b)[i] == a[i]; } else { assert (a + b)[i] == b[i - |a|]; }
    }
    SeqMinUnique(a + b, m);
  }

  /** The minimum of a tensor never exceeds its maximum. */
  lemma SeqMinLeMax(s: seq<real>)
    requires |s| > 0
    ensures SeqMin(s) <= SeqMax(s)
  {
    assert SeqMin(s) <= s[0] <= SeqMax(s);
  }

  /** Dividing a multiple of a positive number by it gives the factor back. */
  lemma DivOfMultiple(a: int, b: int)
    requires a > 0
    ensures (a * b) / a == b
  {
    var q, r := (a * b) / a, (a * b) % a;
    assert a * b == a * q + r && 0 <= r < a;
    var c := b - q;
    assert a * c == a * b - a * q;
  }

}
