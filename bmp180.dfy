/** The Bosch BMP180 driver (pressure, temperature): the eleven calibration
    words read in one block, the raw readouts, the datasheet's integer
    compensation with the driver's own shifts, floor divisions and
    branch on `B7`, and the sensor object with its oversampling setting.

    Temperature is in tenths of a degree Celsius, pressure in Pa.  The
    driver's divisions are Python 2 floor divisions, and a zero divisor
    raises a ZeroDivisionError that no caller catches. */
module BMP180 {
  import opened Bits
  import opened Wrappers

  const REG_AC1_H := 0xAA
  const REG_CTRL_MEAS := 0xF4
  const REG_OUT_MSB := 0xF6
  const CTRL_TMP := 0x2E
  const CHIP_ID := 0x55

  const PRE_OSS_LOW := 0
  const PRE_OSS_STANDARD := 1
  const PRE_OSS_HIGH := 2
  const PRE_OSS_ULTRA_HIGH := 3

  const CTRL_PRE_OSS_LOW := 0x34
  const CTRL_PRE_OSS_STANDARD := 0x74
  const CTRL_PRE_OSS_HIGH := 0xB4
  const CTRL_PRE_OSS_ULTRA_HIGH := 0xF4

  /** The `_eprom` record, after the ctypes reinterpretation. */
  datatype Calibration = Calibration(
    ac1: int, ac2: int, ac3: int, ac4: int, ac5: int, ac6: int,
    b1: int, b2: int, mb: int, mc: int, md: int)

  /** `ac4`, `ac5` and `ac6` are unsigned 16-bit, the others signed. */
  predicate CalibrationInRange(c: Calibration)
  {
    (forall w :: w in [c.ac1, c.ac2, c.ac3, c.b1, c.b2, c.mb, c.mc, c.md] ==> -0x8000 <= w < 0x8000) &&
    0 <= c.ac4 < 0x1_0000 && 0 <= c.ac5 < 0x1_0000 && 0 <= c.ac6 < 0x1_0000
  }

  /** The `i`-th big-endian word of the calibration block: bytes `2i` and
      `2i + 1` read back from it. */
  function WordAt(data: seq<byte>, i: nat): (r: word)
    requires 2 * i + 1 < |data|
    ensures r / 256 == data[2 * i] && r % 256 == data[2 * i + 1]
  {
    BigEndian(data[2 * i], data[2 * i + 1])
  }

  /** `_read_eprom`: one 22-byte block read from 0xAA, cut into eleven
      big-endian words in the order ac1, ac2, ac3, ac4, ac5, ac6, b1, b2, mb,
      mc, md; `ac4` .. `ac6` are kept unsigned and the others read as signed
      16-bit.  A failed block read (`None`) cannot be indexed: TypeError. */
  method ReadEprom(block: Option<seq<byte>>) returns (c: Outcome<Calibration>)
    requires block.Some? ==> |block.value| == 22
    ensures c.Raised? <==> block.None?
    ensures c.Raised? ==> c.fault == TypeError
    ensures c.Returned? ==>
      var d, k := block.value, c.value;
      CalibrationInRange(k) &&
      k.ac1 == Signed16(WordAt(d, 0)) && k.ac2 == Signed16(WordAt(d, 1)) &&
      k.ac3 == Signed16(WordAt(d, 2)) && k.ac4 == WordAt(d, 3) &&
      k.ac5 == WordAt(d, 4) && k.ac6 == WordAt(d, 5) &&
      k.b1 == Signed16(WordAt(d, 6)) && k.b2 == Signed16(WordAt(d, 7)) &&
      k.mb == Signed16(WordAt(d, 8)) && k.mc == Signed16(WordAt(d, 9)) &&
      k.md == Signed16(WordAt(d, 10))
  {
    if block.None? {
      return Raised(TypeError);   // `None[0]`
    }
    var data := block.value;
    var words: seq<word> := [];
    for i := 0 to 11
      invariant |words| == i
      invariant forall j :: 0 <= j < i ==> words[j] == WordAt(data, j)
    {
      words := words + [WordAt(data, i)];
    }
    c := Returned(Calibration(
      Signed16(words[0]), Signed16(words[1]), Signed16(words[2]),
      Unsigned16(words[3]), Unsigned16(words[4]), Unsigned16(words[5]),
      Signed16(words[6]), Signed16(words[7]), Signed16(words[8]),
      Signed16(words[9]), Signed16(words[10])));
  }

  // ---------------------------------------------------------------------
  // Raw readouts

  /** `_read_raw_temperature`: the big-endian word of a two-byte block. */
  function RawTemperature(block: seq<byte>): (r: word)
    requires |block| == 2
    ensures r == block[0] as int * 256 + block[1]
    ensures r / 256 == block[0] && r % 256 == block[1]
  {
    BigEndian(block[0], block[1])
  }

  /** `_read_raw_pressure`: the 24-bit value `msb << 16 | lsb << 8 | xlsb`
      shifted right by `8 - oss`, so that `16 + oss` bits remain. */
  function RawPressure(block: seq<byte>, oss: nat): (r: nat)
    requires |block| == 3 && oss <= 3
    ensures r == (block[0] as int * 0x1_0000 + block[1] as int * 256 + block[2]) / Pow2(8 - oss)
    ensures r < Pow2(16 + oss)
  {
    var msb, lsb, xlsb := block[0], block[1], block[2];
    var full := BitOr(BitOr(Shl(msb, 16), Shl(lsb, 8)), xlsb);
    RawPressureBound(msb, lsb, xlsb, oss);
    Shr(full, 8 - oss)
  }

  lemma PackedPressure(msb: byte, lsb: byte, xlsb: byte)
    ensures BitOr(BitOr(Shl(msb, 16), Shl(lsb, 8)), xlsb) == msb as int * 0x1_0000 + lsb as int * 256 + xlsb
  {
    Pack3(msb, lsb, xlsb, 8, 8);
    var p := Pow2(8);
    assert p == 256;
    assert (msb as int * p + lsb) * p + xlsb == msb as int * 0x1_0000 + lsb as int * 256 + xlsb;
  }

  lemma RawPressureBound(msb: byte, lsb: byte, xlsb: byte, oss: nat)
    requires oss <= 3
    ensures var full := msb as int * 0x1_0000 + lsb as int * 256 + xlsb;
      Shr(BitOr(BitOr(Shl(msb, 16), Shl(lsb, 8)), xlsb), 8 - oss) == full / Pow2(8 - oss) < Pow2(16 + oss)
  {
    PackedPressure(msb, lsb, xlsb);
    var full := msb as int * 0x1_0000 + lsb as int * 256 + xlsb;
    ShrIsDiv(full, 8 - oss);
    PressureScale(oss);
    DivBelow(full, Pow2(8 - oss), Pow2(16 + oss));
  }

  lemma PressureScale(oss: nat)
    requires oss <= 3
    ensures Pow2(8 - oss) * Pow2(16 + oss) == 0x100_0000
  {
    var n := (16 + oss) + (8 - oss);
    assert Pow2(8 - oss) * Pow2(16 + oss) == Pow2(n) by {
      Pow2Add(16 + oss, 8 - oss);
    }
    assert n == 24;
    assert Pow2(n) == 0x100_0000 by {
      Pow2Add(16, 8);
      Pow2Table();
    }
  }

  // ---------------------------------------------------------------------
  // Compensation

  /** `X1 = ((UT - ac6) * ac5) >> 15`: the floor of `(UT - ac6) * ac5 / 2^15`. */
  function TemperatureX1(c: Calibration, ut: int): (r: int)
    ensures 32768 * r <= (ut - c.ac6) * c.ac5 < 32768 * r + 32768
  {
    Pow2Table();
    Shr((ut - c.ac6) * c.ac5, 15)
  }

  /** `B5 = X1 + (mc << 11) / (X1 + md)`; the division raises when
      `X1 + md == 0`. */
  function B5(c: Calibration, ut: int): (r: Outcome<int>)
    ensures r.Raised? <==> TemperatureX1(c, ut) + c.md == 0
    ensures r.Raised? ==> r.fault == ZeroDivisionError
  {
    var x1 := TemperatureX1(c, ut);
    if x1 + c.md == 0 then Raised(ZeroDivisionError)
    else Returned(x1 + FloorDiv(Shl(c.mc, 11), x1 + c.md))
  }

  /** Temperature in tenths of a degree: `(B5 + 8) >> 4`, the nearest integer
      to `B5 / 16`, halves rounded up. */
  function Temperature(c: Calibration, ut: int): (r: Outcome<int>)
    ensures r.Raised? <==> TemperatureX1(c, ut) + c.md == 0
    ensures r.Raised? ==> r.fault == ZeroDivisionError
    ensures r.Returned? ==> -8 <= B5(c, ut).value - 16 * r.value < 8
  {
    match B5(c, ut)
    case Raised(f) => Raised(f)
    case Returned(b5) => Returned(Shr(b5 + 8, 4))
  }

  /** `B4 = ac4 * (X3 + 32768) >> 15`, the divisor of the pressure step.
      For a calibration in range and `|B6| <= 2^14` (a temperature between
      about -77 °C and 127 °C), `X3 + 32768` is at least 8192, so `B4` is at
      least `ac4 / 4`: the division by `B4` can fail only for `ac4 < 4`. */
  function B4(c: Calibration, b6: int): (r: int)
    ensures CalibrationInRange(c) && -0x4000 <= b6 <= 0x4000 ==> r >= c.ac4 / 4
    ensures c.ac4 == 0 ==> r == 0
  {
    var x1 := Shr(c.ac3 * b6, 13);
    var x2 := Shr(c.b1 * Shr(b6 * b6, 12), 16);
    var x3 := Shr(x1 + x2 + 2, 2);
    if CalibrationInRange(c) && -0x4000 <= b6 <= 0x4000 then
      B4Bound(c, b6);
      Shr(c.ac4 * (x3 + 32768), 15)
    else
      Shr(c.ac4 * (x3 + 32768), 15)
  }

  lemma B4Bound(c: Calibration, b6: int)
    requires CalibrationInRange(c) && -0x4000 <= b6 <= 0x4000
    ensures var x1 := Shr(c.ac3 * b6, 13);
      var x2 := Shr(c.b1 * Shr(b6 * b6, 12), 16);
      var x3 := Shr(x1 + x2 + 2, 2);
      Shr(c.ac4 * (x3 + 32768), 15) >= c.ac4 / 4
  {
    assert c.ac3 in [c.ac1, c.ac2, c.ac3, c.b1, c.b2, c.mb, c.mc, c.md];
    assert c.b1 in [c.ac1, c.ac2, c.ac3, c.b1, c.b2, c.mb, c.mc, c.md];
    var x1 := Shr(c.ac3 * b6, 13);
    var x2 := Shr(c.b1 * Shr(b6 * b6, 12), 16);
    X3Terms(c.ac3, c.b1, b6);
    LowerBoundedQuarter(c.ac4, Shr(x1 + x2 + 2, 2) + 32768);
  }

  /** The two terms of `X3` are at least -2^16 and -2^15, so `X3` is at least -24576. */
  lemma X3Terms(ac3: int, b1: int, b6: int)
    requires -0x8000 <= ac3 < 0x8000 && -0x8000 <= b1 < 0x8000 && -0x4000 <= b6 <= 0x4000
    ensures var x1 := Shr(ac3 * b6, 13);
      var x2 := Shr(b1 * Shr(b6 * b6, 12), 16);
      Shr(x1 + x2 + 2, 2) >= -24576
  {
    Pow2Table();
    assert Pow2(2) == 4;
    ProductBound(ac3, b6, 0x8000, 0x4000);
    var x1 := Shr(ac3 * b6, 13);
    assert -0x1_0000 <= x1;
    SquareBound(b6, 0x4000);
    var sq := Shr(b6 * b6, 12);
    assert 0 <= sq <= 0x1_0000;
    ProductBound(b1, sq, 0x8000, 0x1_0000);
    var x2 := Shr(b1 * sq, 16);
    assert -0x8000 <= x2;
  }

  /** `(a * m) >> 15` is at least `a / 4` for `m >= 8192`. */
  lemma LowerBoundedQuarter(a: int, m: int)
    requires a >= 0 && m >= 8192
    ensures Shr(a * m, 15) >= a / 4
  {
    Pow2Table();
    var r := Shr(a * m, 15);
    assert a * m >= a * 8192 by {
      assert a * (m - 8192) >= 0;
    }
    assert 32768 * r > a * 8192 - 32768;
    DivModUnique(a, 4, a / 4, a % 4);
  }

  /** `B3 = (((ac1 * 4 + X3) << oss) + 2) / 4`: the nearest integer to
      `(4 * ac1 + X3) * 2^oss / 4`, halves rounded up. */
  function B3(c: Calibration, b6: int, oss: nat): (r: int)
    ensures var x3 := Shr(Shr(c.b2 * (b6 * b6), 12), 11) + Shr(c.ac2 * b6, 11);
      -2 <= (c.ac1 * 4 + x3) * Pow2(oss) - 4 * r < 2
  {
    var x1 := Shr(Shr(c.b2 * (b6 * b6), 12), 11);
    var x2 := Shr(c.ac2 * b6, 11);
    FloorDiv(Shl(c.ac1 * 4 + x1 + x2, oss) + 2, 4)
  }

  /** The branch on `B7`: `B7 * 2 / B4` below 2^31, `(B7 / B4) * 2` from
      there on.  For a positive `B4` and a non-negative `B7` either branch is
      the floor of `2 * B7 / B4` or one less. */
  function Quotient(b7: int, b4: int): (r: int)
    requires b4 != 0
    ensures b4 > 0 && b7 >= 0 ==> FloorDiv(b7 * 2, b4) - 1 <= r <= FloorDiv(b7 * 2, b4)
  {
    if b7 < 0x8000_0000 then FloorDiv(b7 * 2, b4)
    else if b4 > 0 then
      QuotientBranches(b7, b4);
      FloorDiv(b7, b4) * 2
    else
      FloorDiv(b7, b4) * 2
  }

  /** The final correction `p + ((X1 + X2 + 3791) >> 4)`.  For any quotient
      up to 2^17 Pa it moves the pressure by less than 1000 Pa. */
  function Corrected(p: int): (r: int)
    ensures 0 <= p <= 0x2_0000 ==> -1000 < r - p < 1000
  {
    var x1 := Shr(Shr(p, 8) * Shr(p, 8) * 3038, 16);
    var x2 := Shr(-7357 * p, 16);
    if 0 <= p <= 0x2_0000 then
      CorrectionBound(p);
      p + Shr(x1 + x2 + 3791, 4)
    else
      p + Shr(x1 + x2 + 3791, 4)
  }

  lemma CorrectionBound(p: int)
    requires 0 <= p <= 0x2_0000
    ensures var x1 := Shr(Shr(p, 8) * Shr(p, 8) * 3038, 16);
      var x2 := Shr(-7357 * p, 16);
      -1000 < Shr(x1 + x2 + 3791, 4) < 1000
  {
    Pow2Table();
    var q := Shr(p, 8);
    assert 0 <= q <= 512;
    assert 0 <= q * q <= 512 * 512 by {
      SquareBound(q, 512);
    }
    var x1 := Shr(q * q * 3038, 16);
    assert 0 <= x1 <= 12152;
    var x2 := Shr(-7357 * p, 16);
    assert -14714 <= x2 <= 0;
  }

  /** Pressure in Pa from the raw temperature and pressure at oversampling
      `oss`.  It raises a ZeroDivisionError exactly when the temperature
      step's divisor or `B4` is zero. */
  function Pressure(c: Calibration, ut: int, up: int, oss: nat): (r: Outcome<int>)
    requires oss <= 3
    ensures r.Raised? ==> r.fault == ZeroDivisionError
    ensures r.Raised? <==> B5(c, ut).Raised? || B4(c, B5(c, ut).value - 4000) == 0
    ensures r.Returned? ==>
      var b6 := B5(c, ut).value - 4000;
      r.value == Corrected(Quotient((up - B3(c, b6, oss)) * Shr(50000, oss), B4(c, b6)))
  {
    match B5(c, ut)
    case Raised(f) => Raised(f)
    case Returned(b5) =>
      var b6 := b5 - 4000;
      var b4 := B4(c, b6);
      if b4 == 0 then Raised(ZeroDivisionError)
      else
        var b7 := (up - B3(c, b6, oss)) * Shr(50000, oss);
        Returned(Corrected(Quotient(b7, b4)))
  }

  /** The headline bound of the pressure chain: whenever `B4` is positive,
      `B7` non-negative and the quotient within 0..2^17 Pa, the pressure
      returned is within about 1000 Pa of the exact quotient `2 * B7 / B4`. */
  lemma PressureNearQuotient(c: Calibration, ut: int, up: int, oss: nat)
    requires oss <= 3
    ensures Pressure(c, ut, up, oss).Returned? ==>
      var b6 := B5(c, ut).value - 4000;
      var b4 := B4(c, b6);
      var b7 := (up - B3(c, b6, oss)) * Shr(50000, oss);
      b4 > 0 && b7 >= 0 && 0 <= Quotient(b7, b4) <= 0x2_0000 ==>
        -1001 < Pressure(c, ut, up, oss).value - FloorDiv(b7 * 2, b4) < 1000
  {
    if Pressure(c, ut, up, oss).Returned? {
      var b6 := B5(c, ut).value - 4000;
      var b4 := B4(c, b6);
      var b7 := (up - B3(c, b6, oss)) * Shr(50000, oss);
      if b4 > 0 && b7 >= 0 && 0 <= Quotient(b7, b4) <= 0x2_0000 {
        QuotientCorrected(b7, b4);
      }
    }
  }

  /** `Quotient` loses at most one and `Corrected` moves by less than 1000. */
  lemma QuotientCorrected(b7: int, b4: int)
    requires b4 > 0 && b7 >= 0 && 0 <= Quotient(b7, b4) <= 0x2_0000
    ensures -1001 < Corrected(Quotient(b7, b4)) - FloorDiv(b7 * 2, b4) < 1000
  {
    var q := Quotient(b7, b4);
    assert FloorDiv(b7 * 2, b4) - 1 <= q <= FloorDiv(b7 * 2, b4);
    assert -1000 < Corrected(q) - q < 1000;
  }

  /** The two branches on `B7` agree up to the last bit: for a positive `B4`
      and a non-negative `B7`, `(B7 / B4) * 2` is `B7 * 2 / B4` or one less. */
  lemma QuotientBranches(b7: int, b4: int)
    requires b4 > 0 && b7 >= 0
    ensures FloorDiv(b7, b4) * 2 <= FloorDiv(b7 * 2, b4) <= FloorDiv(b7, b4) * 2 + 1
  {
    var q, m := b7 / b4, b7 % b4;
    assert b7 * 2 == b4 * (2 * q) + 2 * m;
    if 2 * m < b4 {
      DivModUnique(b7 * 2, b4, 2 * q, 2 * m);
    } else {
      DivModUnique(b7 * 2, b4, 2 * q + 1, 2 * m - b4);
    }
  }

  /** The calibration of the BMP180 datasheet's worked example. */
  function DatasheetCalibration(): Calibration
  {
    Calibration(408, -72, -14383, 32741, 32757, 23153, 6190, 4, -32768, -8711, 2868)
  }

  /** The formulas reproduce the datasheet's example at `oss` 0: UT 27898
      gives 15.0 °C and UP 23843 gives 69964 Pa. */
  lemma DatasheetExample()
    ensures Temperature(DatasheetCalibration(), 27898) == Returned(150)
    ensures Pressure(DatasheetCalibration(), 27898, 23843, 0) == Returned(69964)
  {
    Pow2Table();
    var c := DatasheetCalibration();
    assert TemperatureX1(c, 27898) == Shr(4745 * 32757, 15) == 4743;
    assert FloorDiv(Shl(-8711, 11), 7611) == FloorDiv(-17840128, 7611) == -2344;
    assert B5(c, 27898) == Returned(2399);
    assert Shr(2399 + 8, 4) == 150;
    var b6 := -1601;
    assert Shr(4 * (b6 * b6), 12) == 2503;
    assert Shr(2503, 11) == 1;
    assert Shr(-72 * b6, 11) == 56;
    assert Pow2(0) == 1;
    assert B3(c, b6, 0) == FloorDiv(1632 + 57 + 2, 4) == 422;
    assert Shr(-14383 * b6, 13) == 2810;
    assert Shr(b6 * b6, 12) == 625;
    assert Shr(6190 * 625, 16) == 59;
    assert Shr(2810 + 59 + 2, 2) == 717;
    assert B4(c, b6) == Shr(32741 * (717 + 32768), 15) == 33457;
    assert Shr(50000, 0) == 50000;
    assert Quotient((23843 - 422) * 50000, 33457) == FloorDiv(1171050000 * 2, 33457) == 70003;
    assert Shr(70003, 8) == 273;
    assert Shr(273 * 273 * 3038, 16) == 3454;
    assert Shr(-7357 * 70003, 16) == -7859;
    assert Shr(3454 - 7859 + 3791, 4) == -39;
  }

  /** With the example's calibration and UT, a pressure block of zeros
      compensates to a negative pressure, -1017 Pa. */
  lemma NegativePressureExample()
    ensures RawPressure([0, 0, 0], 0) == 0
    ensures Pressure(DatasheetCalibration(), 27898, 0, 0) == Returned(-1017)
  {
    assert RawPressure([0, 0, 0], 0) == 0 by {
      var block: seq<byte> := [0, 0, 0];
      assert block[0] == 0 && block[1] == 0 && block[2] == 0;
      assert RawPressure(block, 0) * Pow2(8) <= 0;
    }
    Pow2Table();
    var c := DatasheetCalibration();
    assert TemperatureX1(c, 27898) == Shr(4745 * 32757, 15) == 4743;
    assert FloorDiv(Shl(-8711, 11), 7611) == FloorDiv(-17840128, 7611) == -2344;
    assert B5(c, 27898) == Returned(2399);
    var b6 := -1601;
    assert Shr(4 * (b6 * b6), 12) == 2503;
    assert Shr(2503, 11) == 1;
    assert Shr(-72 * b6, 11) == 56;
    assert Pow2(0) == 1;
    assert B3(c, b6, 0) == FloorDiv(1632 + 57 + 2, 4) == 422;
    assert Shr(-14383 * b6, 13) == 2810;
    assert Shr(b6 * b6, 12) == 625;
    assert Shr(6190 * 625, 16) == 59;
    assert Shr(2810 + 59 + 2, 2) == 717;
    assert B4(c, b6) == Shr(32741 * (717 + 32768), 15) == 33457;
    assert Shr(50000, 0) == 50000;
    assert Quotient((0 - 422) * 50000, 33457) == FloorDiv(-42200000, 33457) == -1262;
    assert Shr(-1262, 8) == -5;
    assert Shr(-5 * -5 * 3038, 16) == 1;
    assert Shr(-7357 * -1262, 16) == 141;
    assert Shr(1 + 141 + 3791, 4) == 245;
  }


  // ---------------------------------------------------------------------
  // The oversampling command

  /** `_get_pressure_cmd`: the control byte for `oss` and the setting after
      the call.  An `oss` outside 0 .. 3 is reset to the standard setting. */
  function PressureCommand(oss: int): (r: (int, int))
    ensures 0 <= r.1 <= 3
    ensures 0 <= oss <= 3 ==> r.1 == oss
    ensures !(0 <= oss <= 3) ==> r == (CTRL_PRE_OSS_STANDARD, PRE_OSS_STANDARD)
    ensures r.0 == CTRL_PRE_OSS_LOW + 64 * r.1
  {
    if oss == PRE_OSS_LOW then (CTRL_PRE_OSS_LOW, oss)
    else if oss == PRE_OSS_STANDARD then (CTRL_PRE_OSS_STANDARD, oss)
    else if oss == PRE_OSS_HIGH then (CTRL_PRE_OSS_HIGH, oss)
    else if oss == PRE_OSS_ULTRA_HIGH then (CTRL_PRE_OSS_ULTRA_HIGH, oss)
    else (CTRL_PRE_OSS_STANDARD, PRE_OSS_STANDARD)
  }

  /** The pressure command carries `oss` in bits 6 and 7 of 0x34. */
  lemma PressureCommandBits(oss: int)
    requires 0 <= oss <= 3
    ensures PressureCommand(oss).0 == BitOr(CTRL_PRE_OSS_LOW, Shl(oss, 6))
    ensures PressureCommand(oss).0 / 64 == oss && PressureCommand(oss).0 % 64 == CTRL_PRE_OSS_LOW
  {
    Pow2Table();
    assert Pow2(6) == 64;
    OrFields(oss, CTRL_PRE_OSS_LOW, 6);
    DivModUnique(PressureCommand(oss).0, 64, oss, CTRL_PRE_OSS_LOW);
  }

  /** What one `measure()` call returns, absent altitude. */
  datatype Measurement = Measurement(temperature: Option<int>, pressure: Option<int>)

  class Sensor {
    const calibration: Calibration
    const chipId: Option<byte>
    var oss: int

    ghost predicate Valid()
      reads this
    {
      0 <= oss <= 3
    }

    /** The object after `__init__`: oversampling low. */
    constructor (chipId: Option<byte>, calibration: Calibration)
      ensures Valid()
      ensures this.chipId == chipId && this.calibration == calibration && oss == PRE_OSS_LOW
    {
      this.chipId := chipId;
      this.calibration := calibration;
      oss := PRE_OSS_LOW;
    }

    /** `ok()`: the identity register read back the BMP180 chip id. */
    predicate Ok()
      reads this
    {
      chipId == Some(CHIP_ID)
    }

    /** The `oss` setter: only 0 .. 3 is accepted. */
    method SetOss(value: int)
      requires Valid()
      modifies this`oss
      ensures Valid()
      ensures oss == if 0 <= value <= 3 then value else old(oss)
    {
      if 0 <= value <= 3 {
        oss := value;
      }
    }

    method GetPressureCmd() returns (cmd: int)
      modifies this`oss
      ensures Valid()
      ensures (cmd, oss) == PressureCommand(old(oss))
    {
      if oss == PRE_OSS_LOW {
        cmd := CTRL_PRE_OSS_LOW;
      } else if oss == PRE_OSS_STANDARD {
        cmd := CTRL_PRE_OSS_STANDARD;
      } else if oss == PRE_OSS_HIGH {
        cmd := CTRL_PRE_OSS_HIGH;
      } else if oss == PRE_OSS_ULTRA_HIGH {
        cmd := CTRL_PRE_OSS_ULTRA_HIGH;
      } else {
        oss := PRE_OSS_STANDARD;
        cmd := CTRL_PRE_OSS_STANDARD;
      }
    }

    /** `_get_temperature`, given what the two-byte block read at 0xF6
        returned: `None` when the read fails, the exception when the
        temperature step divides by zero. */
    method GetTemperature(tempBlock: Option<seq<byte>>) returns (t: Outcome<Option<int>>)
      requires tempBlock.Some? ==> |tempBlock.value| == 2
      ensures tempBlock.None? ==> t == Returned(None)
      ensures tempBlock.Some? ==>
        var r := Temperature(calibration, RawTemperature(tempBlock.value));
        t == if r.Raised? then Raised(r.fault) else Returned(Some(r.value))
    {
      if tempBlock.None? {
        return Returned(None);   // RuntimeError, caught
      }
      var r := Temperature(calibration, RawTemperature(tempBlock.value));
      if r.Raised? {
        return Raised(r.fault);
      }
      t := Returned(Some(r.value));
    }

    /** `_get_pressure`: the temperature block first (a failed read returns
        `None` before the oversampling command is chosen), then the command,
        which may reset `oss`, then the three-byte pressure block. */
    method GetPressure(tempBlock: Option<seq<byte>>, presBlock: Option<seq<byte>>)
      returns (p: Outcome<Option<int>>)
      requires tempBlock.Some? ==> |tempBlock.value| == 2
      requires presBlock.Some? ==> |presBlock.value| == 3
      modifies this`oss
      ensures oss == if tempBlock.Some? then PressureCommand(old(oss)).1 else old(oss)
      ensures tempBlock.None? || presBlock.None? ==> p == Returned(None)
      ensures tempBlock.Some? && presBlock.Some? ==>
        Valid() &&
        var r := Pressure(calibration, RawTemperature(tempBlock.value),
                          RawPressure(presBlock.value, oss), oss);
        p == if r.Raised? then Raised(r.fault) else Returned(Some(r.value))
    {
      if tempBlock.None? {
        return Returned(None);   // RuntimeError, caught
      }
      var ut := RawTemperature(tempBlock.value);
      var _ := GetPressureCmd();
      if presBlock.None? {
        return Returned(None);   // RuntimeError, caught
      }
      var up := RawPressure(presBlock.value, oss);
      var r := Pressure(calibration, ut, up, oss);
      if r.Raised? {
        return Raised(r.fault);
      }
      p := Returned(Some(r.value));
    }

    /** `measure()`.  Every read of one register within the call returns the
        same block.  A ZeroDivisionError of either step escapes; otherwise a
        missing pressure escapes as a TypeError from `float(None)` in
        `_get_altitude`, and a negative one as a ValueError from its
        fractional power `1 / 5.255`. */
    method Measure(tempBlock: Option<seq<byte>>, presBlock: Option<seq<byte>>)
      returns (m: Outcome<Measurement>)
      requires Valid()
      requires tempBlock.Some? ==> |tempBlock.value| == 2
      requires presBlock.Some? ==> |presBlock.value| == 3
      modifies this`oss
      ensures Valid() && oss == old(oss)
      ensures tempBlock.None? ==> m == Raised(TypeError)
      ensures tempBlock.Some? && presBlock.None? ==>
        m == Raised(if Temperature(calibration, RawTemperature(tempBlock.value)).Raised?
                    then ZeroDivisionError else TypeError)
      ensures tempBlock.Some? && presBlock.Some? ==>
        var ut := RawTemperature(tempBlock.value);
        var r := Pressure(calibration, ut, RawPressure(presBlock.value, oss), oss);
        if r.Raised? then m == Raised(r.fault)
        else if r.value < 0 then m == Raised(ValueError)
        else m == Returned(Measurement(Some(Temperature(calibration, ut).value), Some(r.value)))
    {
      var temperature := GetTemperature(tempBlock);
      if temperature.Raised? {
        return Raised(temperature.fault);
      }
      var pressure := GetPressure(tempBlock, presBlock);
      if pressure.Raised? {
        return Raised(pressure.fault);
      }
      if pressure.value.None? {
        return Raised(TypeError);   // float(None) in _get_altitude
      }
      if pressure.value.value < 0 {
        return Raised(ValueError);  // pow of a negative float in _get_altitude
      }
      m := Returned(Measurement(temperature.value, pressure.value));
    }
  }
}
