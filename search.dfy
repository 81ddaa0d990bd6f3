/** The diagnostic `search` utility of module.py: it looks for a shift `n`
    and an integer multiplier `Mo = round(2^n * M)` such that
    `(Mo * P) >> n` reproduces `round(M * P)` for the probe value `P = 7000`,
    giving up at `n = 22`. */
module Search {
  import opened Numeric

  /** The fixed probe value `P`. */
  const PROBE: int := 7000

  /** The last shift tried. */
  const MAX_SHIFT: nat := 22

  /** `Mo = int(round(2 ** n * M))`. */
  function Multiplier(m: real, n: nat): (q: int)
  {
    RoundHalfEven(Pow2(n) as real * m)
  }

  /** `approx_result - result`, where `approx_result = Mo * P >> n` (an
      arithmetic shift, so a floor division by `2^n`) and
      `result = int(round(M * P))`. */
  function ShiftError(m: real, n: nat): (e: int)
  {
    Multiplier(m, n) * PROBE / Pow2(n) - RoundHalfEven(m * PROBE as real)
  }

  function Abs(x: real): (a: real) { if x < 0.0 then -x else x }

  /** An integer closer to 0 than `1e-9` is 0. */
  lemma TinyIntegerIsZero(e: int)
    ensures Abs(e as real) < 0.000000001 <==> e == 0
  {
  }

  /** search(M): returns the first shift `n` in `1..22` whose approximation is
      exact, or 22 if none is, together with its multiplier `Mo`. */
  method Search(m: real) returns (mo: int, n: nat)
    ensures 1 <= n <= MAX_SHIFT
    ensures mo == Multiplier(m, n)
    ensures n == MAX_SHIFT || ShiftError(m, n) == 0
    ensures forall k: nat :: 1 <= k < n ==> ShiftError(m, k) != 0
  {
    n := 1;
    while true
      invariant 1 <= n <= MAX_SHIFT
      invariant forall k: nat :: 1 <= k < n ==> ShiftError(m, k) != 0
      decreases MAX_SHIFT - n
    {
      mo := RoundHalfEven(Pow2(n) as real * m);
      var approxResult := mo * PROBE / Pow2(n);
      var result := RoundHalfEven(m * PROBE as real);
      var error := approxResult - result;
      assert error == ShiftError(m, n);
      TinyIntegerIsZero(error);
      if Abs(error as real) < 0.000000001 || n >= MAX_SHIFT {
        return;
      }
      n := n + 1;
    }
  }

  /** When `2^n * M` and `M * P` are both integers (a dyadic `M` such as 0.5
      or 0.25), the shift approximation at `n` is exact, so `search` stops
      at that shift or earlier. */
  lemma ExactWhenDyadic(m: real, n: nat)
    requires IsInteger(Pow2(n) as real * m) && IsInteger(m * PROBE as real)
    ensures ShiftError(m, n) == 0
  {
    var p := Pow2(n);
    var k := (p as real * m).Floor;
    var j := (m * PROBE as real).Floor;
    RoundOfInteger(k);
    RoundOfInteger(j);
    assert Multiplier(m, n) == k;
    calc {
      (k * PROBE) as real;
      (p as real * m) * PROBE as real;
      p as real * (m * PROBE as real);
      (p * j) as real;
    }
    DivOfMultiple(p, j);
  }
}
