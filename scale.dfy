/**
 * Scaling (ADC_calc): maps a raw sample of a given bit width linearly onto a
 * caller-chosen range [valMin, valMax]. Misuse is reported by the sentinel
 * 0xFF (255.0). Arithmetic is exact (`real`), not the target's float.
 */
module AdcScale {

  /** The value returned when ADC_calc is used improperly. */
  const Sentinel: real := 255.0

  /** The bit counts ADC_calc accepts. */
  predicate Supported(bitCount: bv8) {
    bitCount == 8 || bitCount == 10 || bitCount == 12
  }

  function Pow2(n: nat): nat
  {
    if n == 0 then 1 else 2 * Pow2(n - 1)
  }

  lemma Pow2OfWidths()
    ensures Pow2(8) == 256 && Pow2(10) == 1024 && Pow2(12) == 4096
  {
  }

  /** The largest raw sample of each supported width: 255, 1023 or 4095. */
  function FullScale(bitCount: bv8): (m: nat)
    requires Supported(bitCount)
    ensures m + 1 == Pow2(bitCount as nat)
  {
    Pow2OfWidths();
    if bitCount == 12 then 4095
    else if bitCount == 10 then 1023
    else 255
  }

  /**
   * ADC_calc(read, bitCount, valMin, valMax). The range check comes first,
   * then the bit-count check; both failures yield the sentinel.
   */
  function Calc(read: int, bitCount: bv8, valMin: real, valMax: real): (r: real)
    ensures valMin > valMax ==> r == Sentinel
    ensures !Supported(bitCount) ==> r == Sentinel
  {
    if valMin > valMax then Sentinel
    else if !Supported(bitCount) then Sentinel
    else
      var resolution := FullScale(bitCount) as real;
      var range := valMax - valMin;
      (read as real / resolution) * range + valMin
  }

  /** A raw sample of 0 maps to valMin and the full-scale sample to valMax. */
  lemma CalcEndpoints(bitCount: bv8, valMin: real, valMax: real)
    requires Supported(bitCount) && valMin <= valMax
    ensures Calc(0, bitCount, valMin, valMax) == valMin
    ensures Calc(FullScale(bitCount) as int, bitCount, valMin, valMax) == valMax
  {
  }

  /** A degenerate range [v, v] maps every sample to v. */
  lemma CalcDegenerate(read: int, bitCount: bv8, v: real)
    requires Supported(bitCount)
    ensures Calc(read, bitCount, v, v) == v
  {
  }

  /** Scaling onto [0, full scale] gives the raw sample back. */
  lemma CalcIdentity(read: int, bitCount: bv8)
    requires Supported(bitCount)
    ensures Calc(read, bitCount, 0.0, FullScale(bitCount) as real) == read as real
  {
  }

  /** A larger raw sample never scales to a smaller value. */
  lemma CalcMonotone(read1: int, read2: int, bitCount: bv8, valMin: real, valMax: real)
    requires Supported(bitCount) && valMin <= valMax
    requires read1 <= read2
    ensures Calc(read1, bitCount, valMin, valMax) <= Calc(read2, bitCount, valMin, valMax)
  {
    var m := FullScale(bitCount) as real;
    var d := valMax - valMin;
    var step := (read2 - read1) as real / m;
    assert step >= 0.0;
    MulNonNegative(step, d);
    assert (read2 as real / m) * d - (read1 as real / m) * d == step * d;
  }

  /** A sample inside [0, full scale] scales to a value inside [valMin, valMax]. */
  lemma CalcWithinRange(read: int, bitCount: bv8, valMin: real, valMax: real)
    requires Supported(bitCount) && valMin <= valMax
    requires 0 <= read <= FullScale(bitCount)
    ensures valMin <= Calc(read, bitCount, valMin, valMax) <= valMax
  {
    CalcEndpoints(bitCount, valMin, valMax);
    CalcMonotone(0, read, bitCount, valMin, valMax);
    CalcMonotone(read, FullScale(bitCount), bitCount, valMin, valMax);
  }

  /**
   * On a proper range the rescale can be undone: the raw sample is recovered
   * from the scaled value, so distinct samples scale to distinct values.
   */
  lemma CalcInverse(read: int, bitCount: bv8, valMin: real, valMax: real)
    requires Supported(bitCount) && valMin < valMax
    ensures (Calc(read, bitCount, valMin, valMax) - valMin) / (valMax - valMin) * FullScale(bitCount) as real
            == read as real
  {
    var m := FullScale(bitCount) as real;
    var d := valMax - valMin;
    var q := read as real / m;
    assert Calc(read, bitCount, valMin, valMax) - valMin == q * d;
    assert q * d / d == q;
    assert q * m == read as real;
  }

  /**
   * The sentinel is not a reliable error signal: for every supported width a
   * valid call returns 255.0 as well (the full-scale sample on [0, 255]).
   */
  lemma SentinelIsAlsoAValidResult(bitCount: bv8)
    requires Supported(bitCount)
    ensures Calc(FullScale(bitCount) as int, bitCount, 0.0, Sentinel) == Sentinel
  {
  }

  /**
   * The usage shown in the header: a 12-bit sample of 2048 on the scale
   * [0, 99] is 2048 * 99 / 4095, about 49.51.
   */
  lemma HeaderExample()
    ensures Calc(2048, 12, 0.0, 99.0) == 202752.0 / 4095.0
    ensures 49.51 < Calc(2048, 12, 0.0, 99.0) < 49.52
  {
  }

  lemma MulNonNegative(a: real, b: real)
    requires a >= 0.0 && b >= 0.0
    ensures a * b >= 0.0
  {
  }
}
