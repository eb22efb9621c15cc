/**
 * Result assembly: the raw sample is the concatenation of the two 8-bit result
 * registers, high byte first.
 *
 * The driver returns it as a C `int`, which is 16 bits wide on the PIC16
 * compiler; `ADRESH << 8` therefore wraps into the negative range when the
 * high byte is 0x80 or more (two's complement, as the compiler does it).
 */
module AdcResult {

  /** An 8-bit result register read as a number. */
  type byte = x: int | 0 <= x < 256

  /** The raw sample as a mathematical number: `(high << 8) + low`. */
  function Sample(high: byte, low: byte): (s: nat)
    ensures s < 65536
  {
    high * 256 + low
  }

  /** A 16-bit two's-complement `int` holding the value congruent to `x`. */
  function ToInt16(x: int): (r: int)
    ensures -32768 <= r < 32768
    ensures r % 65536 == x % 65536
  {
    var m := x % 65536;
    if m < 32768 then m else m - 65536
  }

  /** The value ADC_int_read / ADC_poll_read return for the given result registers. */
  function ReadValue(high: byte, low: byte): (r: int)
    ensures -32768 <= r < 32768
    ensures r % 65536 == Sample(high, low)
  {
    ToInt16(Sample(high, low))
  }

  /** Splitting the sample into bytes gives back the two registers. */
  lemma SampleRoundTrip(high: byte, low: byte)
    ensures Sample(high, low) / 256 == high
    ensures Sample(high, low) % 256 == low
  {
    var h: int, l: int := high, low;
    assert Sample(high, low) == h * 256 + l;
    DivModUnique(h * 256 + l, h, l);
  }

  /** Every 16-bit sample is assembled from exactly one pair of bytes. */
  lemma SampleOnto(s: nat)
    requires s < 65536
    ensures Sample((s / 256) as byte, (s % 256) as byte) == s
  {
  }

  /** Different register pairs give different samples. */
  lemma SampleInjective(h1: byte, l1: byte, h2: byte, l2: byte)
    requires Sample(h1, l1) == Sample(h2, l2)
    ensures h1 == h2 && l1 == l2
  {
    SampleRoundTrip(h1, l1);
    SampleRoundTrip(h2, l2);
  }

  /**
   * The returned `int` gives back both registers: reduced modulo 2^16 its
   * high byte is ADRESH, and its low byte is ADRESL.
   */
  lemma ReadValueRoundTrip(high: byte, low: byte)
    ensures (ReadValue(high, low) % 65536) / 256 == high
    ensures ReadValue(high, low) % 256 == low
  {
    SampleRoundTrip(high, low);
    ReadValueSign(high, low);
    if high >= 0x80 {
      // r is the sample minus 2^16, which keeps the low byte.
      DivModUnique(ReadValue(high, low), high - 256, low);
    }
  }

  /**
   * The returned value is the plain sample, in [0, 32767], exactly when the
   * high byte is below 0x80; otherwise it is the sample minus 2^16, a negative
   * number. In particular a 12-bit right-justified result (high byte below
   * 0x10) comes back unchanged, below 4096 and not negative.
   */
  lemma ReadValueSign(high: byte, low: byte)
    ensures high < 0x80 ==> ReadValue(high, low) == Sample(high, low)
    ensures high >= 0x80 ==> ReadValue(high, low) == Sample(high, low) - 65536 < 0
    ensures high < 0x10 ==> 0 <= ReadValue(high, low) < 4096
  {
    var s := Sample(high, low);
    assert s % 65536 == s;
  }

  /** Division with remainder by 256 is unique. */
  lemma DivModUnique(n: int, q: int, r: int)
    requires n == q * 256 + r && 0 <= r < 256
    ensures n / 256 == q && n % 256 == r
  {
  }
}
