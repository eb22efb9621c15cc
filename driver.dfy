/**
 * The ADC driver over a simulated register file.
 *
 * `Peripheral` holds the registers the driver touches; each driver routine is
 * a method that updates them in place. `Regs` is a value snapshot of the same
 * registers, and the functions on it (InitRegs, EnableInterrupts,
 * StartConversion, FinishConversion) say what each routine leaves behind; the
 * methods are proved to follow them and the lemmas below state what the
 * routines promise.
 *
 * The acquisition delay and the busy-wait on ADGO are hardware timing: the
 * first has no effect on the registers, the second is replaced by
 * FinishConversion, the hardware's completion of a conversion.
 */
module AdcDriver {
  import opened AdcRegisters
  import opened AdcResult

  datatype Regs = Regs(
    trisa: bv8, ansela: bv8,
    adcon0: bv8, adcon1: bv8, adcon2: bv8,
    adresh: byte, adresl: byte,
    adie: bool, peie: bool, gie: bool)

  /** Registers after ADC_init(resolution). */
  function InitRegs(s: Regs, resolution: bv8): Regs {
    s.(trisa := SetAnalogPins(s.trisa), ansela := SetAnalogPins(s.ansela),
       adcon2 := Adcon2Config, adcon1 := Adcon1Config,
       adcon0 := InitAdcon0(resolution))
  }

  /** Registers after ADC_int_init(). */
  function EnableInterrupts(s: Regs): Regs {
    s.(adie := true, peie := true, gie := true)
  }

  /** Registers after ADC_int_start(input): channel selected, then GO set. */
  function StartConversion(s: Regs, input: bv8): Regs {
    s.(adcon0 := WithGo(WithChs(s.adcon0, input), true))
  }

  /** The hardware finishing a conversion: result registers written, GO cleared. */
  function FinishConversion(s: Regs, high: byte, low: byte): Regs {
    s.(adcon0 := WithGo(s.adcon0, false), adresh := high, adresl := low)
  }

  /**
   * ADC_init: the result depends on the argument only through "is it 10";
   * every other argument configures exactly as a request for 12 bits does.
   */
  lemma InitFallback(s: Regs, resolution: bv8)
    requires resolution != 10
    ensures InitRegs(s, resolution) == InitRegs(s, 12)
    ensures InitRegs(s, resolution).adcon0 == 0x05
    ensures InitRegs(s, 10).adcon0 == 0x85
  {
  }

  /**
   * ADC_init sets bits 0 and 1 of TRISA and ANSELA and keeps their other bits,
   * writes the fixed ADCON1/ADCON2 values, enables the converter with GO clear
   * and selects 10-bit results exactly for a request of 10. The result
   * registers and interrupt flags are untouched.
   */
  lemma InitEffect(s: Regs, resolution: bv8)
    ensures var t := InitRegs(s, resolution);
      && t.trisa & AnalogPinsMask == AnalogPinsMask
      && t.trisa & !AnalogPinsMask == s.trisa & !AnalogPinsMask
      && t.ansela & AnalogPinsMask == AnalogPinsMask
      && t.ansela & !AnalogPinsMask == s.ansela & !AnalogPinsMask
      && t.adcon1 == 0xD0 && t.adcon2 == 0x0F
      && Adon(t.adcon0) && !Go(t.adcon0)
      && (TenBitMode(t.adcon0) <==> resolution == 10)
      && t.adresh == s.adresh && t.adresl == s.adresl
      && t.adie == s.adie && t.peie == s.peie && t.gie == s.gie
  {
  }

  /** Running ADC_init twice with the same argument is the same as once. */
  lemma InitIdempotent(s: Regs, resolution: bv8)
    ensures InitRegs(InitRegs(s, resolution), resolution) == InitRegs(s, resolution)
  {
  }

  /** ADC_int_init sets the three enables, and a second call changes nothing. */
  lemma EnableInterruptsIdempotent(s: Regs)
    ensures var t := EnableInterrupts(s);
      && t.adie && t.peie && t.gie
      && t == s.(adie := t.adie, peie := t.peie, gie := t.gie)
      && EnableInterrupts(t) == t
  {
  }

  /**
   * ADC_int_start writes only ADCON0, and in ADCON0 only the channel field
   * (to the low five bits of the argument) and the GO bit (to 1).
   */
  lemma StartConversionEffect(s: Regs, input: bv8)
    ensures var t := StartConversion(s, input);
      && t == s.(adcon0 := t.adcon0)
      && Chs(t.adcon0) == input & 0x1F
      && Go(t.adcon0)
      && t.adcon0 & !(ChsMask | GoMask) == s.adcon0 & !(ChsMask | GoMask)
  {
    var c := WithChs(s.adcon0, input);
    WithGoKeepsFields(c, true);
  }

  /** A started conversion of a configured converter is one the hardware can finish. */
  lemma StartAfterInit(s: Regs, resolution: bv8, input: bv8)
    ensures var t := StartConversion(InitRegs(s, resolution), input);
      && Adon(t.adcon0) && Go(t.adcon0)
      && (TenBitMode(t.adcon0) <==> resolution == 10)
  {
    var c := WithChs(InitAdcon0(resolution), input);
    WithChsKeepsControlBits(InitAdcon0(resolution), input);
    WithGoKeepsFields(c, true);
  }

  /**
   * After the hardware finishes, the conversion is no longer busy and the
   * value read back is the one assembled from the bytes it delivered.
   */
  lemma FinishThenRead(s: Regs, high: byte, low: byte)
    ensures var t := FinishConversion(s, high, low);
      && !Go(t.adcon0)
      && ReadValue(t.adresh, t.adresl) % 65536 / 256 == high
      && ReadValue(t.adresh, t.adresl) % 256 == low
  {
    ReadValueRoundTrip(high, low);
  }

  class Peripheral {
    var trisa: bv8
    var ansela: bv8
    var adcon0: bv8
    var adcon1: bv8
    var adcon2: bv8
    var adresh: byte
    var adresl: byte
    var adie: bool
    var peie: bool
    var gie: bool

    function Snapshot(): Regs
      reads this
    {
      Regs(trisa, ansela, adcon0, adcon1, adcon2, adresh, adresl, adie, peie, gie)
    }

    /** The register file in an arbitrary (power-on or leftover) state. */
    constructor (s: Regs)
      ensures Snapshot() == s
    {
      trisa, ansela := s.trisa, s.ansela;
      adcon0, adcon1, adcon2 := s.adcon0, s.adcon1, s.adcon2;
      adresh, adresl := s.adresh, s.adresl;
      adie, peie, gie := s.adie, s.peie, s.gie;
    }

    /** ADC_init(resolution). */
    method Init(resolution: bv8)
      modifies this
      ensures Snapshot() == InitRegs(old(Snapshot()), resolution)
    {
      var mode: bv8 := if resolution == 10 then 1 else 0;
      trisa := trisa | 0x03;
      ansela := ansela | 0x03;
      adcon2 := 0x0F;
      adcon1 := 0xD0;
      adcon0 := 0x05 + (mode << 7);
    }

    /** ADC_int_init(). */
    method IntInit()
      modifies this
      ensures Snapshot() == EnableInterrupts(old(Snapshot()))
    {
      adie := true;
      peie := true;
      gie := true;
    }

    /** ADC_int_start(input); the acquisition delay changes no register. */
    method IntStart(input: bv8)
      modifies this
      ensures Snapshot() == StartConversion(old(Snapshot()), input)
    {
      adcon0 := WithChs(adcon0, input);
      adcon0 := WithGo(adcon0, true);
    }

    /** The hardware completing the conversion in progress. */
    method Finish(high: byte, low: byte)
      modifies this
      ensures Snapshot() == FinishConversion(old(Snapshot()), high, low)
    {
      adresh, adresl := high, low;
      adcon0 := WithGo(adcon0, false);
    }

    /**
     * ADC_int_read(): the high byte shifted up by eight, plus the low byte, in
     * a 16-bit `int`; the shift wraps when ADRESH is 0x80 or more.
     */
    method IntRead() returns (r: int)
      ensures r == ReadValue(adresh, adresl)
      ensures r % 65536 / 256 == adresh && r % 256 == adresl
      ensures adresh < 0x10 ==> 0 <= r < 4096
    {
      var result := ToInt16(adresh * 256);
      result := result + adresl;
      r := result;
      assert r == ReadValue(adresh, adresl) by {
        if adresh >= 0x80 {
          assert result == adresh * 256 - 65536 + adresl;
        }
      }
      ReadValueRoundTrip(adresh, adresl);
      ReadValueSign(adresh, adresl);
    }

    /**
     * ADC_poll_read(input): select the channel and start, wait until the
     * hardware finishes (it delivers `high` and `low`), then assemble.
     */
    method PollRead(input: bv8, high: byte, low: byte) returns (r: int)
      modifies this
      ensures Snapshot() == FinishConversion(StartConversion(old(Snapshot()), input), high, low)
      ensures r == ReadValue(high, low)
    {
      adcon0 := WithChs(adcon0, input);
      adcon0 := WithGo(adcon0, true);
      Finish(high, low);
      r := IntRead();
    }
  }

  /**
   * The interrupt path as the header describes it: configure, enable the
   * interrupt, start a conversion, and read after completion. The value read
   * is the one assembled from the delivered bytes, and the registers left
   * behind (`final`) show the converter enabled and idle, in the resolution
   * mode chosen by the configuration, with all three interrupt enables set.
   */
  method InterruptPath(s: Regs, resolution: bv8, input: bv8, high: byte, low: byte)
    returns (r: int, final: Regs)
    ensures r == ReadValue(high, low)
    ensures high < 0x10 ==> r == Sample(high, low) < 4096
    ensures final.adie && final.peie && final.gie
    ensures Adon(final.adcon0) && !Go(final.adcon0)
    ensures TenBitMode(final.adcon0) <==> resolution == 10
    ensures final.adresh == high && final.adresl == low
  {
    var adc := new Peripheral(s);
    adc.Init(resolution);
    adc.IntInit();
    adc.IntStart(input);
    adc.Finish(high, low);
    r := adc.IntRead();
    final := adc.Snapshot();
    StartAfterInit(s, resolution, input);
    WithGoKeepsFields(StartConversion(InitRegs(s, resolution), input).adcon0, false);
    ReadValueSign(high, low);
  }
}
