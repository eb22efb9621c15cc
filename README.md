# PIC16F1787 ADC driver — Dafny model

A model of the register-level ADC driver in `lib/ADC.c` (PIC16F1787,
compiled with the 8-bit PIC C compiler). The peripheral is a simulated
register file: class `AdcDriver.Peripheral` with the fields TRISA, ANSELA,
ADCON0, ADCON1, ADCON2 (each a `bv8`, since the driver works on their bits),
ADRESH, ADRESL (each a `byte`, a number in [0, 255], since the driver only
does arithmetic on them) and the interrupt enables ADIE, PEIE, GIE (each a
`bool`). Each driver routine is a method on
that class; its postcondition ties the new register state to a function of
the old one over the value snapshot `AdcDriver.Regs`, and lemmas about those
functions state what the driver promises.

- `registers.dfy` (`AdcRegisters`): the ADCON0 bit layout, the fixed
  ADCON1/ADCON2 values, the "set bits 0 and 1" update of TRISA/ANSELA, the
  ADCON0 value written by `ADC_init`, and the CHS and ADGO bit-field writes.
- `result.dfy` (`AdcResult`): result assembly, `(ADRESH << 8) + ADRESL`, as
  a number in [0, 65535] and as the 16-bit C `int` the routines return.
- `scale.dfy` (`AdcScale`): `ADC_calc`, the linear rescale with its two
  sentinel checks, over exact `real` arithmetic.
- `driver.dfy` (`AdcDriver`): the register file, `ADC_init`, `ADC_int_init`,
  `ADC_int_start`, `ADC_int_read`, `ADC_poll_read`, and the hardware's
  completion of a conversion.

Modelling choices:

- ADCON0 is one byte, because `ADC_init` writes it whole and the conversion
  routines write its CHS and ADGO bit-fields. The bit-field positions come
  from the device header `<xc.h>`, which is not part of this model; the model
  uses the PIC16F1787 data-sheet layout (ADRMD bit 7, CHS<4:0> bits 6..2,
  GO/nDONE bit 1, ADON bit 0), which agrees with `resolution << 7` at
  lib/ADC.c:25. A bit-field write keeps only the low five bits of the
  channel argument.
- The comment at lib/ADC.c:25 names input AN0, but the value written,
  `0b00000101`, sets bit 2, so CHS = 1 (AN1) under this layout;
  `AdcRegisters.InitAdcon0` states `Chs(r) == 1`. This has no effect on any
  conversion: `ADC_poll_read` and `ADC_int_start` both write CHS before they
  start one.
- `char` arguments are bytes (`bv8`). The resolution and bit-count
  arguments are only compared for equality, and the channel argument is
  stored into the 5-bit CHS field, which keeps its low five bits; in neither
  use does it matter whether `char` is signed. A caller's wider argument is
  truncated to eight bits on the call (`ADC_init(266)` requests 10 bits);
  that conversion happens in the caller and is not modelled.
- C `int` is 16 bits wide on this target. `ADRESH << 8` therefore wraps to a
  negative value when ADRESH is 0x80 or more; the model returns that 16-bit
  value (`AdcResult.ReadValue`) and states the round trip modulo 2^16. The
  header's promise of a value below 4096 holds when ADRESH is below 0x10.
- ADRMD = 1 selects 10-bit results (PIC16F1787 data sheet), so
  `ADC_init(10)` sets bit 7 of ADCON0 (0x85) and every other argument clears
  it (0x05, 12-bit).
- The busy-wait on ADGO in `ADC_poll_read` becomes `Peripheral.Finish(high,
  low)`: the hardware writes the result registers and clears ADGO. The
  bytes it delivers are parameters of `PollRead`.

## Model

| member | source | states |
|---|---|---|
| `AdcRegisters.SetAnalogPins` | lib/ADC.c:20-21 | bits 0 and 1 of the port register are set and every other bit is kept; a register with both bits already set is unchanged |
| `AdcRegisters.InitAdcon0` | lib/ADC.c:15-25 | the ADCON0 byte of `ADC_init` has the enable bit set and GO clear, selects channel field 1, and has the 10-bit mode bit set exactly when the requested resolution is 10 |
| `AdcRegisters.WithChs` | lib/ADC.c:103 | the channel bit-field becomes the low five bits of the argument and every other ADCON0 bit is kept |
| `AdcRegisters.WithGo` | lib/ADC.c:107 | the GO bit takes the given value and every other ADCON0 bit is kept |
| `AdcRegisters.WithChsKeepsControlBits` | lib/ADC.c:103 | selecting a channel keeps the enable, resolution and GO bits |
| `AdcRegisters.WithGoKeepsFields` | lib/ADC.c:107 | setting or clearing GO keeps the enable bit, the resolution bit and the channel |
| `AdcResult.Sample` | lib/ADC.c:118-119 | the byte concatenation of ADRESH and ADRESL lies in [0, 65535] |
| `AdcResult.ToInt16` | lib/ADC.c:118 | the 16-bit `int` holding a value lies in [-32768, 32767] and is congruent to it modulo 2^16 |
| `AdcResult.ReadValue` | lib/ADC.c:114-121 | the returned `int` is a 16-bit value congruent to the assembled sample modulo 2^16 |
| `AdcResult.SampleRoundTrip` | lib/ADC.c:118-119 | the sample divided by 256 is ADRESH and its remainder is ADRESL |
| `AdcResult.SampleOnto` | lib/ADC.c:118-119 | every value in [0, 65535] is the sample of its own high and low byte |
| `AdcResult.SampleInjective` | lib/ADC.c:118-119 | two register pairs with the same sample are the same pair |
| `AdcResult.ReadValueRoundTrip` | lib/ADC.c:114-121 | the returned `int`, reduced modulo 2^16, gives back ADRESH as its high byte and ADRESL as its low byte |
| `AdcResult.ReadValueSign` | lib/ADC.c:110-121 | the returned value equals the sample when ADRESH < 0x80, is the sample minus 2^16 (negative) otherwise, and lies in [0, 4096) when ADRESH < 0x10 |
| `AdcScale.FullScale` | lib/ADC.c:44-49 | the maximum value chosen for 8, 10 and 12 bits is 2^bitCount - 1 |
| `AdcScale.Calc` | lib/ADC.c:36-58 | `ADC_calc` returns the sentinel 255.0 when min > max (whatever the other arguments) and when the bit count is not 8, 10 or 12; otherwise the linear rescale |
| `AdcScale.CalcEndpoints` | lib/ADC.c:54-57 | a sample of 0 scales to min and the full-scale sample to max |
| `AdcScale.CalcDegenerate` | lib/ADC.c:54-57 | with min == max every sample scales to min |
| `AdcScale.CalcIdentity` | lib/ADC.c:54-57 | scaling onto [0, full scale] returns the sample itself |
| `AdcScale.CalcMonotone` | lib/ADC.c:54-57 | a larger sample never scales to a smaller value |
| `AdcScale.CalcWithinRange` | lib/ADC.c:54-57 | a sample in [0, full scale] scales into [min, max] |
| `AdcScale.CalcInverse` | lib/ADC.c:54-57 | on a range with min < max the sample is recovered from the scaled value |
| `AdcScale.SentinelIsAlsoAValidResult` | lib/ADC.c:34-39 | for every supported bit count, a valid call (the full-scale sample on the range [0, 255]) also returns 255.0, so the sentinel is ambiguous |
| `AdcScale.HeaderExample` | lib/ADC.h:15-19 | `ADC_calc(2048, 12, 0.0, 99.0)` is 2048 * 99 / 4095, between 49.51 and 49.52 |
| `AdcDriver.InitFallback` | lib/ADC.c:9-25 | every argument other than 10 gives the same registers as 12, with ADCON0 = 0x05; 10 gives ADCON0 = 0x85 |
| `AdcDriver.InitEffect` | lib/ADC.c:13-26 | `ADC_init` sets bits 0-1 of TRISA and ANSELA keeping the others, writes ADCON1 = 0xD0 and ADCON2 = 0x0F, enables the converter with GO clear, selects 10-bit mode iff the argument is 10, and leaves result registers and interrupt enables alone |
| `AdcDriver.InitIdempotent` | lib/ADC.c:13-26 | a second `ADC_init` with the same argument changes nothing |
| `AdcDriver.EnableInterruptsIdempotent` | lib/ADC.c:90-95 | `ADC_int_init` sets ADIE, PEIE and GIE, changes nothing else, and a second call changes nothing |
| `AdcDriver.StartConversionEffect` | lib/ADC.c:101-108 | `ADC_int_start` changes only ADCON0, and in it only the channel field (to the low five bits of the argument) and GO (to 1) |
| `AdcDriver.StartAfterInit` | lib/ADC.c:25 | a conversion started after `ADC_init` runs on an enabled converter, in the resolution mode `ADC_init` chose |
| `AdcDriver.FinishThenRead` | lib/ADC.c:73-80 | once the hardware finishes, GO is clear and the assembled value gives back the delivered bytes |
| `AdcDriver.Peripheral.Init` | lib/ADC.c:13-26 | the registers after `ADC_init` are `InitRegs` of the registers before |
| `AdcDriver.Peripheral.IntInit` | lib/ADC.c:90-95 | the registers after `ADC_int_init` are `EnableInterrupts` of the registers before |
| `AdcDriver.Peripheral.IntStart` | lib/ADC.c:101-108 | the registers after `ADC_int_start` are `StartConversion` of the registers before |
| `AdcDriver.Peripheral.Finish` | lib/ADC.c:75 | the wait ends when the hardware has written ADRESH/ADRESL and cleared GO |
| `AdcDriver.Peripheral.IntRead` | lib/ADC.c:114-121 | `ADC_int_read` changes no register and returns a value whose high and low bytes (modulo 2^16) are ADRESH and ADRESL, in [0, 4096) when ADRESH < 0x10 |
| `AdcDriver.Peripheral.PollRead` | lib/ADC.c:67-83 | `ADC_poll_read` selects the channel, starts, lets the hardware finish, and returns the value assembled from the delivered bytes |
| `AdcDriver.InterruptPath` | lib/ADC.h:27-35 | configure, enable interrupts, start, complete, read: the value read is assembled from the delivered bytes, and is the plain sample below 4096 when the high byte is below 0x10; the registers left behind show the converter enabled and idle in the configured resolution mode, all three interrupt enables set, and the delivered bytes in ADRESH/ADRESL |

## Left out

- The acquisition delay (lib/ADC.c:5, 71, 105): timing only, no register changes.
- The busy-wait on ADGO (lib/ADC.c:75): replaced by the hardware completion `Finish`; a conversion that never completes (the hang) is not modelled.
- Interrupt delivery and any race between the interrupt handler and the main line: only the enable flags are modelled.
- Calc: computes over exact `real` numbers, not the target's `float`; rounding, and NaN arguments (for which the range check is false), are not modelled, so the endpoint and inverse lemmas hold only in exact arithmetic.
- The physical meaning of channels, pins and reference voltages, and of the ADCON1/ADCON2 constants beyond their values.
- lib/ADC.h holds only prototypes and documentation; it is cited for the documented behaviour.
