/**
 * The two bytes written to the config register. Byte 0 is the OR of the
 * multiplexer, gain, mode and start fields; byte 1 is the data-rate field OR
 * the "comparator disabled" queue setting. The fields occupy disjoint bits, so
 * the word can be parsed back into them.
 */
module ConfigWord {
  import opened Wrappers
  import opened Registers
  import opened Settings

  /** Single-shot or continuous conversion (bit 0 of byte 0). */
  datatype Mode = Continuous | SingleShot

  function ModeBit(mode: Mode): (b: bv8)
    ensures b & MODE_MASK == b
  {
    match mode
    case Continuous => CR1_MODE_CONT
    case SingleShot => CR1_MODE_SING
  }

  /** The fields of a config word, each still in its own bit positions. */
  datatype Fields = Fields(os: bv8, mux: bv8, pga: bv8, mode: bv8, dataRate: bv8, comp: bv8)

  /** The config word `_startStreaming` and `_readSingle` write, as a two-byte buffer. */
  function ConfigBytes(mux: bv8, pga: bv8, mode: Mode, dataRate: bv8): (buf: seq<bv8>)
    ensures |buf| == 2
    ensures buf[0] & OS_MASK == CR1_OS_START
  {
    [mux | pga | ModeBit(mode) | CR1_OS_START, dataRate | CR0_COMP_QUE_0]
  }

  /** Split a two-byte config word into its fields by the register's bit masks. */
  function ParseConfig(buf: seq<bv8>): (f: Fields)
    requires |buf| == 2
    ensures f.os & OS_MASK == f.os && f.mux & MUX_MASK == f.mux
    ensures f.pga & PGA_MASK == f.pga && f.mode & MODE_MASK == f.mode
    ensures f.dataRate & DR_MASK == f.dataRate && f.comp & COMP_MASK == f.comp
  {
    Fields(buf[0] & OS_MASK, buf[0] & MUX_MASK, buf[0] & PGA_MASK, buf[0] & MODE_MASK,
           buf[1] & DR_MASK, buf[1] & COMP_MASK)
  }

  /** Whether each field value lies inside its own bits. */
  predicate InFields(mux: bv8, pga: bv8, dataRate: bv8) {
    mux & MUX_MASK == mux && pga & PGA_MASK == pga && dataRate & DR_MASK == dataRate
  }

  /**
   * Building then parsing recovers every field: the multiplexer from bits 6:4,
   * the gain from bits 3:1, the mode from bit 0, the start bit from bit 7, the
   * data rate from bits 7:5 of byte 1 and queue setting 0b11 with the other
   * comparator bits clear.
   */
  lemma ParseConfigBytes(mux: bv8, pga: bv8, mode: Mode, dataRate: bv8)
    requires InFields(mux, pga, dataRate)
    ensures ParseConfig(ConfigBytes(mux, pga, mode, dataRate))
         == Fields(CR1_OS_START, mux, pga, ModeBit(mode), dataRate, CR0_COMP_QUE_0)
  {
    var buf := ConfigBytes(mux, pga, mode, dataRate);
    var m := ModeBit(mode);
    assert buf[0] & MUX_MASK == mux by {
      assert buf[0] == mux | pga | m | CR1_OS_START;
    }
    assert buf[0] & PGA_MASK == pga by {
      assert buf[0] == mux | pga | m | CR1_OS_START;
    }
    assert buf[0] & MODE_MASK == m by {
      assert buf[0] == mux | pga | m | CR1_OS_START;
    }
  }

  /**
   * The converse: every word with the start bit set, a valid mode bit and the
   * comparator fields as the driver writes them is built from its parsed fields.
   */
  lemma ConfigBytesOfParse(buf: seq<bv8>)
    requires |buf| == 2 && buf[0] & OS_MASK == CR1_OS_START && buf[1] & COMP_MASK == CR0_COMP_QUE_0
    ensures var f := ParseConfig(buf);
            var mode := if f.mode == CR1_MODE_SING then SingleShot else Continuous;
            ConfigBytes(f.mux, f.pga, mode, f.dataRate) == buf
  {
    var f := ParseConfig(buf);
    var mode := if f.mode == CR1_MODE_SING then SingleShot else Continuous;
    assert ModeBit(mode) == buf[0] & MODE_MASK;
    assert f.mux | f.pga | ModeBit(mode) | CR1_OS_START == buf[0];
    assert f.dataRate | CR0_COMP_QUE_0 == buf[1];
  }

  /**
   * The config word the driver writes for a channel, a mode and the gain and
   * data-rate codes of a consistent configuration. It decodes to exactly those
   * settings, with the start bit set and the comparator disabled.
   */
  function ConfigWordFor(ch: Channel, gain: int, mode: Mode, dataRate: int): (buf: seq<bv8>)
    requires IsGainCode(gain) && IsDataRateCode(dataRate)
    ensures |buf| == 2
    ensures var f := ParseConfig(buf);
            f.os == CR1_OS_START && f.comp == CR0_COMP_QUE_0
            && ChannelOfMux(f.mux) == Some(ch) && f.pga as int == gain && f.dataRate as int == dataRate
            && (f.mode == CR1_MODE_SING <==> mode == SingleShot)
  {
    var mux, pga, dr := MuxCode(ch), PgaBits(gain), DataRateBits(dataRate);
    ParseConfigBytes(mux, pga, mode, dr);
    MuxCodeRoundTrip(ch, mux);
    ConfigBytes(mux, pga, mode, dr)
  }
}
