/**
 * Decoding of a conversion-register reading: the two bytes hold a 12-bit
 * two's-complement sample left-justified in 16 bits; the sample is scaled to
 * the configured full-scale range, dividing by 2047 above zero and by 2048 at
 * or below zero. Voltages are exact reals.
 */
module Sample {

  /** `(buffer[0] << 4) | (buffer[1] >>> 4)`: the top twelve bits of the reading. */
  function Raw12(b0: bv8, b1: bv8): (raw: int)
    ensures 0 <= raw < 4096
  {
    (((b0 as bv16) << 4) | ((b1 as bv16) >> 4)) as int
  }

  /** The shift-and-or is plain place-value arithmetic on the two bytes. */
  lemma Raw12Value(b0: bv8, b1: bv8)
    ensures Raw12(b0, b1) == b0 as int * 16 + b1 as int / 16
  {
  }

  /** `if (raw > 2047) raw -= 4096`: the 12-bit sign correction. */
  function Signed12(raw: int): (s: int)
    requires 0 <= raw < 4096
    ensures -2048 <= s <= 2047
    ensures s == raw || s == raw - 4096
  {
    if raw > 2047 then raw - 4096 else raw
  }

  /** The whole 16-bit reading read as a two's-complement integer. */
  function Signed16(b0: bv8, b1: bv8): (w: int)
    ensures -32768 <= w < 32768
  {
    TwosComplement16(b0 as int * 256 + b1 as int)
  }

  /** An unsigned 16-bit value read as two's complement. */
  function TwosComplement16(u: int): (w: int)
    requires 0 <= u < 65536
    ensures -32768 <= w < 32768
    ensures w == u || w == u - 65536
  {
    if u >= 32768 then u - 65536 else u
  }

  /** The signed sample the driver computes from a reading. */
  function SampleOf(b0: bv8, b1: bv8): (s: int)
    ensures -2048 <= s <= 2047
  {
    Signed12(Raw12(b0, b1))
  }

  /**
   * The sample is the 16-bit two's-complement reading with its low four bits
   * shifted out arithmetically (rounded toward minus infinity): the value of
   * the left-justified 12-bit field.
   */
  lemma SampleIsArithmeticShift(b0: bv8, b1: bv8)
    ensures SampleOf(b0, b1) == Signed16(b0, b1) / 16
  {
    var x, y := b0 as int, b1 as int;
    assert Signed16(b0, b1) == TwosComplement16(x * 256 + y);
    SampleValue(b0, b1);
    ShiftOfParts(x, y);
  }

  /** The sample from the integer values of the two bytes. */
  lemma SampleValue(b0: bv8, b1: bv8)
    ensures SampleOf(b0, b1) == Signed12(16 * (b0 as int) + (b1 as int) / 16)
  {
    Raw12Value(b0, b1);
  }

  /** The same fact on the integer values of the two bytes. */
  lemma ShiftOfParts(x: int, y: int)
    requires 0 <= x < 256 && 0 <= y < 256
    ensures Signed12(16 * x + y / 16) == TwosComplement16(x * 256 + y) / 16
  {
    var k := if x >= 128 then 16 * x - 4096 else 16 * x;
    assert 0 <= y / 16 < 16;
    assert Signed12(16 * x + y / 16) == k + y / 16;
    DivShift(k, y);
  }

  /** Removing a multiple of 16 commutes with floor division by 16. */
  lemma DivShift(k: int, y: int)
    requires 0 <= y < 256
    ensures (16 * k + y) / 16 == k + y / 16
  {
    var q, r := y / 16, y % 16;
    assert y == 16 * q + r && 0 <= r < 16;
    assert 16 * k + y == 16 * (k + q) + r;
  }

  /** The low nibble of the second byte never affects the sample. */
  lemma LowNibbleIgnored(b0: bv8, b1: bv8, b1': bv8)
    requires b1 >> 4 == b1' >> 4
    ensures SampleOf(b0, b1) == SampleOf(b0, b1')
  {
    Raw12Value(b0, b1);
    Raw12Value(b0, b1');
    assert b1 as int / 16 == b1' as int / 16;
  }

  /** The sample is negative exactly when the sign bit (bit 7 of the first byte) is set. */
  lemma SampleSign(b0: bv8, b1: bv8)
    ensures SampleOf(b0, b1) < 0 <==> b0 & 0x80 != 0
  {
    Raw12Value(b0, b1);
    assert b0 & 0x80 != 0 <==> b0 as int >= 128;
  }

  /**
   * The sample as a fraction of full scale: 2047 steps above zero, 2048 at or
   * below. It has the sample's sign, and a 12-bit sample gives a fraction in
   * [-1, 1].
   */
  function Fraction(s: int): (f: real)
    ensures f > 0.0 <==> s > 0
    ensures f == 0.0 <==> s == 0
    ensures -2048 <= s <= 2047 ==> -1.0 <= f <= 1.0
  {
    if s > 0 then s as real / 2047.0 else s as real / 2048.0
  }

  /**
   * The voltage of a sample at a full-scale range: its fraction of full scale
   * times the range. For a positive range it has the sample's sign, and a
   * 12-bit sample stays within plus or minus the range.
   */
  function Scale(s: int, gainVal: real): (v: real)
    ensures gainVal > 0.0 ==> (v > 0.0 <==> s > 0) && (v == 0.0 <==> s == 0)
    ensures -2048 <= s <= 2047 && gainVal >= 0.0 ==> -gainVal <= v <= gainVal
  {
    FractionOfRange(Fraction(s), gainVal);
    Fraction(s) * gainVal
  }

  /**
   * A positive range keeps a fraction's sign, and a fraction in [-1, 1] of a
   * non-negative range stays within that range.
   */
  lemma FractionOfRange(fraction: real, gainVal: real)
    ensures gainVal > 0.0 ==> (fraction * gainVal > 0.0 <==> fraction > 0.0)
    ensures gainVal > 0.0 ==> (fraction * gainVal == 0.0 <==> fraction == 0.0)
    ensures -1.0 <= fraction <= 1.0 && gainVal >= 0.0 ==> -gainVal <= fraction * gainVal <= gainVal
  {
    if -1.0 <= fraction <= 1.0 && gainVal >= 0.0 {
      assert (1.0 - fraction) * gainVal >= 0.0;
      assert (1.0 + fraction) * gainVal >= 0.0;
    }
  }

  /** `_decodeValue`: the voltage a two-byte reading stands for at a full-scale range. */
  function DecodeValue(buffer: seq<bv8>, gainVal: real): (v: real)
    requires |buffer| == 2
    requires gainVal >= 0.0
    ensures -gainVal <= v <= gainVal
  {
    Scale(SampleOf(buffer[0], buffer[1]), gainVal)
  }

  /** Scaling is strictly increasing in the sample for a positive range, so it loses no information. */
  lemma ScaleMonotonic(s: int, t: int, gainVal: real)
    requires s < t && gainVal > 0.0
    ensures Scale(s, gainVal) < Scale(t, gainVal)
  {
    calc {
      Scale(s, gainVal);
    ==
      Fraction(s) * gainVal;
    < { FractionsOrdered(Fraction(s), Fraction(t), gainVal); }
      Fraction(t) * gainVal;
    ==
      Scale(t, gainVal);
    }
  }

  /** Multiplying by a positive range keeps two fractions in order. */
  lemma FractionsOrdered(fs: real, ft: real, gainVal: real)
    requires fs < ft && gainVal > 0.0
    ensures fs * gainVal < ft * gainVal
  {
    assert (ft - fs) * gainVal > 0.0;
  }

  /** The extreme and zero readings decode to exactly +range, -range and 0. */
  lemma DecodeExtremes(gainVal: real)
    requires gainVal >= 0.0
    ensures DecodeValue([0x7F, 0xF0], gainVal) == gainVal
    ensures DecodeValue([0x80, 0x00], gainVal) == -gainVal
    ensures DecodeValue([0x00, 0x00], gainVal) == 0.0
  {
    Raw12Value(0x7F, 0xF0);
    Raw12Value(0x80, 0x00);
    Raw12Value(0x00, 0x00);
  }

  /** Only the extreme readings reach the ends of the range. */
  lemma DecodeReachesRangeOnlyAtExtremes(buffer: seq<bv8>, gainVal: real)
    requires |buffer| == 2 && gainVal > 0.0
    ensures DecodeValue(buffer, gainVal) == gainVal <==> SampleOf(buffer[0], buffer[1]) == 2047
    ensures DecodeValue(buffer, gainVal) == -gainVal <==> SampleOf(buffer[0], buffer[1]) == -2048
  {
    var s := SampleOf(buffer[0], buffer[1]);
    if s < 2047 { ScaleMonotonic(s, 2047, gainVal); }
    if s > -2048 { ScaleMonotonic(-2048, s, gainVal); }
  }
}
