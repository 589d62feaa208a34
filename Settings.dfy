/**
 * The two lookup tables behind `init`: the gain code selects the full-scale
 * voltage of the programmable gain amplifier, and the data-rate code selects
 * how long a single-shot read waits before fetching its conversion.
 * Codes arrive as whatever number the caller passed, so they are `int`s here.
 */
module Settings {
  import opened Wrappers
  import opened Registers

  /** The gain codes `init` accepts. */
  predicate IsGainCode(code: int) {
    code in {0x00, 0x02, 0x04, 0x06, 0x08, 0x0A}
  }

  /** The data-rate codes `init` accepts. */
  predicate IsDataRateCode(code: int) {
    code in {0x00, 0x20, 0x40, 0x60, 0x80, 0xA0, 0xC0}
  }

  /** Full-scale range in volts for a gain code, or None for a code `init` rejects. */
  function GainVolts(code: int): (v: Option<real>)
    ensures v.Some? <==> IsGainCode(code)
    ensures v.Some? ==> 0.256 <= v.value <= 6.144
  {
    if code == CR1_PGA_6144 as int then Some(6.144)
    else if code == CR1_PGA_4096 as int then Some(4.096)
    else if code == CR1_PGA_2048 as int then Some(2.048)
    else if code == CR1_PGA_1024 as int then Some(1.024)
    else if code == CR1_PGA_0512 as int then Some(0.512)
    else if code == CR1_PGA_0256 as int then Some(0.256)
    else None
  }

  /** Milliseconds a single-shot read waits at a data rate, or None for a code `init` rejects. */
  function WaitTime(code: int): (w: Option<nat>)
    ensures w.Some? <==> IsDataRateCode(code)
    ensures w.Some? ==> 1 <= w.value <= 8
  {
    if code == CR0_DR_128 as int then Some(8)
    else if code == CR0_DR_250 as int then Some(5)
    else if code == CR0_DR_490 as int || code == CR0_DR_920 as int then Some(2)
    else if code == CR0_DR_1600 as int || code == CR0_DR_2400 as int || code == CR0_DR_3300 as int then Some(1)
    else None
  }

  /** Nominal samples per second of a data-rate code, as its register name gives it. */
  function SamplesPerSecond(code: int): (sps: nat)
    requires IsDataRateCode(code)
    ensures 128 <= sps <= 3300
  {
    if code == 0x00 then 128
    else if code == 0x20 then 250
    else if code == 0x40 then 490
    else if code == 0x60 then 920
    else if code == 0x80 then 1600
    else if code == 0xA0 then 2400
    else 3300
  }

  /** The gain code whose range is `volts`: the inverse of the gain table. */
  function GainCodeOf(volts: real): (code: Option<int>)
    ensures code.Some? ==> IsGainCode(code.value)
  {
    if volts == 6.144 then Some(0x00)
    else if volts == 4.096 then Some(0x02)
    else if volts == 2.048 then Some(0x04)
    else if volts == 1.024 then Some(0x06)
    else if volts == 0.512 then Some(0x08)
    else if volts == 0.256 then Some(0x0A)
    else None
  }

  /**
   * The gain table is one-to-one: a stored range determines the stored code
   * and the other way round.
   */
  lemma GainTableInvertible(code: int, volts: real)
    ensures GainVolts(code) == Some(volts) <==> GainCodeOf(volts) == Some(code)
  {
  }

  /**
   * A larger gain code selects a strictly smaller range: each step of the
   * field narrows the window the converter measures against.
   */
  lemma GainVoltsDecreasing(a: int, b: int)
    requires IsGainCode(a) && IsGainCode(b) && a < b
    ensures GainVolts(b).value < GainVolts(a).value
  {
  }

  /** Every range below the widest is 4.096 V halved once per step of the code past 0x02. */
  lemma GainVoltsHalving(code: int)
    requires IsGainCode(code) && code >= 0x04
    ensures GainVolts(code).value * 2.0 == GainVolts(code - 2).value
  {
  }

  /** An accepted gain code as the byte it is OR-ed into: it lies inside the PGA field (bits 3:1). */
  function PgaBits(code: int): (b: bv8)
    requires IsGainCode(code)
    ensures b as int == code && b & PGA_MASK == b
  {
    if code == 0x00 then CR1_PGA_6144
    else if code == 0x02 then CR1_PGA_4096
    else if code == 0x04 then CR1_PGA_2048
    else if code == 0x06 then CR1_PGA_1024
    else if code == 0x08 then CR1_PGA_0512
    else CR1_PGA_0256
  }

  /** An accepted data-rate code as a byte: it lies inside the data-rate field (bits 7:5). */
  function DataRateBits(code: int): (b: bv8)
    requires IsDataRateCode(code)
    ensures b as int == code && b & DR_MASK == b
  {
    if code == 0x00 then CR0_DR_128
    else if code == 0x20 then CR0_DR_250
    else if code == 0x40 then CR0_DR_490
    else if code == 0x60 then CR0_DR_920
    else if code == 0x80 then CR0_DR_1600
    else if code == 0xA0 then CR0_DR_2400
    else CR0_DR_3300
  }

  /** A faster data rate never waits longer. */
  lemma WaitTimeNonIncreasing(a: int, b: int)
    requires IsDataRateCode(a) && IsDataRateCode(b) && a <= b
    ensures SamplesPerSecond(a) <= SamplesPerSecond(b)
    ensures WaitTime(b).value <= WaitTime(a).value
  {
  }

  /**
   * The wait covers one nominal conversion period (1000 / SPS ms) at every
   * data rate except 490 SPS, where 2 ms falls short of 1000 / 490 ms.
   */
  lemma WaitCoversConversionPeriod(code: int)
    requires IsDataRateCode(code)
    ensures WaitTime(code).value * SamplesPerSecond(code) >= 1000 <==> code != 0x40
  {
  }
}
