/** The small numeric helpers the scoring code uses, over exact reals. */
module Numbers {

  function Min(a: real, b: real): real {
    if a <= b then a else b
  }

  function Max(a: real, b: real): real {
    if a >= b then a else b
  }

  function MinNat(a: nat, b: nat): nat {
    if a <= b then a else b
  }

  function MaxNat(a: nat, b: nat): nat {
    if a >= b then a else b
  }

  function Abs(a: real): real {
    if a < 0.0 then -a else a
  }

  function Clamp(value: real, low: real, high: real): real {
    Min(high, Max(low, value))
  }

  /** `Math.round`: the nearest integer, halves going up. */
  function RoundToInt(x: real): int {
    (x + 0.5).Floor
  }

  function Round2(x: real): real {
    RoundToInt(x * 100.0) as real / 100.0
  }

  function Round4(x: real): real {
    RoundToInt(x * 10000.0) as real / 10000.0
  }

  lemma Round2Monotone(x: real, y: real)
    requires x <= y
    ensures Round2(x) <= Round2(y)
  {
    assert (x * 100.0 + 0.5).Floor <= (y * 100.0 + 0.5).Floor;
  }

  lemma Round4Monotone(x: real, y: real)
    requires x <= y
    ensures Round4(x) <= Round4(y)
  {
    assert (x * 10000.0 + 0.5).Floor <= (y * 10000.0 + 0.5).Floor;
  }

  /** Rounding keeps a value inside a range whose ends are whole numbers. */
  lemma Round2Between(x: real, low: int, high: int)
    requires low as real <= x <= high as real
    ensures low as real <= Round2(x) <= high as real
  {
    var n := RoundToInt(x * 100.0);
    assert 100 * low <= n <= 100 * high;
  }

  lemma Round4NonNegative(x: real)
    requires 0.0 <= x
    ensures 0.0 <= Round4(x)
  {
    Round4Monotone(0.0, x);
  }

  lemma ScaleMonotone(a: real, x: real, y: real)
    requires 0.0 <= a && x <= y
    ensures a * x <= a * y
  {
  }

  lemma ProductNonNegative(a: real, b: real)
    requires 0.0 <= a && 0.0 <= b
    ensures 0.0 <= a * b
  {
  }

  lemma TimesMonotone(a: real, b: real, c: real)
    requires a <= b && 0.0 <= c
    ensures a * c <= b * c
  {
  }

  lemma OverMonotone(a: real, b: real, c: real)
    requires 0.0 <= a <= b && 0.0 < c
    ensures 0.0 <= a / c <= b / c
  {
  }
}
