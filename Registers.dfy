/**
 * The ADS1015 register map and the bit codes of the configuration fields,
 * and the eight input-multiplexer selections as a channel enumeration.
 */
module Registers {
  import opened Wrappers

  // Register address pointer values.
  const AP_CONVERSION: bv8 := 0x00
  const AP_CONFIG: bv8 := 0x01

  // Byte 1 of the config register: comparator queue (bits 1:0).
  const CR0_COMP_QUE_0: bv8 := 0x03

  // Byte 1: data rate (bits 7:5).
  const CR0_DR_128: bv8 := 0x00
  const CR0_DR_250: bv8 := 0x20
  const CR0_DR_490: bv8 := 0x40
  const CR0_DR_920: bv8 := 0x60
  const CR0_DR_1600: bv8 := 0x80
  const CR0_DR_2400: bv8 := 0xA0
  const CR0_DR_3300: bv8 := 0xC0

  // Byte 0: operating mode (bit 0).
  const CR1_MODE_CONT: bv8 := 0x00
  const CR1_MODE_SING: bv8 := 0x01

  // Byte 0: operational status / start conversion (bit 7).
  const CR1_OS_START: bv8 := 0x80

  // Byte 0: programmable gain amplifier (bits 3:1).
  const CR1_PGA_6144: bv8 := 0x00
  const CR1_PGA_4096: bv8 := 0x02
  const CR1_PGA_2048: bv8 := 0x04
  const CR1_PGA_1024: bv8 := 0x06
  const CR1_PGA_0512: bv8 := 0x08
  const CR1_PGA_0256: bv8 := 0x0A

  // Byte 0: input multiplexer (bits 6:4).
  const CR1_MUX_01: bv8 := 0x00
  const CR1_MUX_03: bv8 := 0x10
  const CR1_MUX_13: bv8 := 0x20
  const CR1_MUX_23: bv8 := 0x30
  const CR1_MUX_0G: bv8 := 0x40
  const CR1_MUX_1G: bv8 := 0x50
  const CR1_MUX_2G: bv8 := 0x60
  const CR1_MUX_3G: bv8 := 0x70

  // Masks of the fields of the two config bytes.
  const OS_MASK: bv8 := 0x80
  const MUX_MASK: bv8 := 0x70
  const PGA_MASK: bv8 := 0x0E
  const MODE_MASK: bv8 := 0x01
  const DR_MASK: bv8 := 0xE0
  const COMP_MASK: bv8 := 0x1F

  /**
   * The input routed to the converter: four differential pairs and four
   * single-ended inputs against ground. The driver's eight `read…` and
   * eight `startStreaming…` entry points each fix one of these.
   */
  datatype Channel =
    | Differential01 | Differential03 | Differential13 | Differential23
    | Single0 | Single1 | Single2 | Single3

  /** The multiplexer code that selects a channel. */
  function MuxCode(ch: Channel): (m: bv8)
    ensures m & MUX_MASK == m
  {
    match ch
    case Differential01 => CR1_MUX_01
    case Differential03 => CR1_MUX_03
    case Differential13 => CR1_MUX_13
    case Differential23 => CR1_MUX_23
    case Single0 => CR1_MUX_0G
    case Single1 => CR1_MUX_1G
    case Single2 => CR1_MUX_2G
    case Single3 => CR1_MUX_3G
  }

  /** The channel a multiplexer field selects; every code of bits 6:4 names one. */
  function ChannelOfMux(m: bv8): (r: Option<Channel>)
    ensures r.Some? <==> m & MUX_MASK == m
  {
    if m == CR1_MUX_01 then Some(Differential01)
    else if m == CR1_MUX_03 then Some(Differential03)
    else if m == CR1_MUX_13 then Some(Differential13)
    else if m == CR1_MUX_23 then Some(Differential23)
    else if m == CR1_MUX_0G then Some(Single0)
    else if m == CR1_MUX_1G then Some(Single1)
    else if m == CR1_MUX_2G then Some(Single2)
    else if m == CR1_MUX_3G then Some(Single3)
    else None
  }

  /** Channels and multiplexer codes are in one-to-one correspondence. */
  lemma MuxCodeRoundTrip(ch: Channel, m: bv8)
    ensures ChannelOfMux(MuxCode(ch)) == Some(ch)
    ensures ChannelOfMux(m) == Some(ch) <==> MuxCode(ch) == m
  {
  }
}
