/**
 * Bit-level view of the PIC16F1787 ADC control registers touched by the driver.
 *
 * Every special-function register is an 8-bit value (`bv8`). ADCON0 is written
 * both as a whole byte (ADC_init) and through its bit-fields CHS and ADGO
 * (ADC_poll_read, ADC_int_start), so the bit-fields are views of that one byte.
 * Their positions follow the PIC16F1787 data sheet:
 *   bit 7 ADRMD (1 = 10-bit result, 0 = 12-bit result),
 *   bits 6..2 CHS<4:0> (positive channel select),
 *   bit 1 GO/nDONE (ADGO: write 1 to start, hardware clears it when done),
 *   bit 0 ADON (converter enabled).
 */
module AdcRegisters {

  const AdonMask: bv8 := 0x01
  const GoMask: bv8 := 0x02
  const ChsMask: bv8 := 0x7C
  const AdrmdMask: bv8 := 0x80

  /** The two lowest pins of port A (RA0, RA1) used as analog inputs. */
  const AnalogPinsMask: bv8 := 0x03

  /** Fixed ADCON1 value: two's complement format, Fosc/16, references Vdd/Vss. */
  const Adcon1Config: bv8 := 0xD0

  /** Fixed ADCON2 value: negative channel is the negative reference (single-ended). */
  const Adcon2Config: bv8 := 0x0F

  predicate Adon(reg: bv8) { reg & AdonMask != 0 }

  predicate Go(reg: bv8) { reg & GoMask != 0 }

  /** ADRMD set selects 10-bit results; clear selects 12-bit results. */
  predicate TenBitMode(reg: bv8) { reg & AdrmdMask != 0 }

  /** The 5-bit channel-select field CHS of ADCON0. */
  function Chs(reg: bv8): (c: bv8)
    ensures c < 32
  {
    (reg & ChsMask) >> 2
  }

  /** `TRISA |= 0b11` and `ANSELA |= 0b11`: sets bits 0 and 1, keeps the rest. */
  function SetAnalogPins(reg: bv8): (r: bv8)
    ensures r & AnalogPinsMask == AnalogPinsMask
    ensures r & !AnalogPinsMask == reg & !AnalogPinsMask
    ensures reg & AnalogPinsMask == AnalogPinsMask ==> r == reg
  {
    reg | AnalogPinsMask
  }

  /**
   * The ADCON0 byte written by ADC_init: `0b00000101 + (mode << 7)` where mode
   * is 1 exactly when the requested resolution is 10.
   */
  function InitAdcon0(resolution: bv8): (r: bv8)
    ensures Adon(r) && !Go(r)
    ensures TenBitMode(r) <==> resolution == 10
    ensures Chs(r) == 1
  {
    var mode: bv8 := if resolution == 10 then 1 else 0;
    0x05 + (mode << 7)
  }

  /**
   * `ADCON0bits.CHS = input`: a C bit-field assignment keeps only the low five
   * bits of `input` and leaves every other bit of ADCON0 as it was.
   */
  function WithChs(reg: bv8, input: bv8): (r: bv8)
    ensures Chs(r) == input & 0x1F
    ensures r & !ChsMask == reg & !ChsMask
  {
    (reg & !ChsMask) | ((input & 0x1F) << 2)
  }

  /** `ADCON0bits.ADGO = go`: only the GO/nDONE bit changes. */
  function WithGo(reg: bv8, go: bool): (r: bv8)
    ensures Go(r) == go
    ensures r & !GoMask == reg & !GoMask
  {
    if go then reg | GoMask else reg & !GoMask
  }

  /** Selecting a channel preserves the enable and resolution bits and the GO bit. */
  lemma WithChsKeepsControlBits(reg: bv8, input: bv8)
    ensures Adon(WithChs(reg, input)) == Adon(reg)
    ensures TenBitMode(WithChs(reg, input)) == TenBitMode(reg)
    ensures Go(WithChs(reg, input)) == Go(reg)
  {
  }

  /** Setting GO preserves the enable bit, the resolution bit and the channel. */
  lemma WithGoKeepsFields(reg: bv8, go: bool)
    ensures Adon(WithGo(reg, go)) == Adon(reg)
    ensures TenBitMode(WithGo(reg, go)) == TenBitMode(reg)
    ensures Chs(WithGo(reg, go)) == Chs(reg)
  {
  }
}
