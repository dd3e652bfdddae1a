/** What the BME280 and BMP280 drivers share, statement for statement: the
    twelve temperature and pressure trimming words, the 20-bit raw ADC
    readout, the integer compensation formulas of Bosch's datasheets (32-bit
    temperature, 64-bit pressure) and the `ctrl_meas` and `config` register
    layouts.  Both drivers compute with unbounded Python integers, so the
    formulas have no overflow.

    Results are the scaled integers the drivers compute before their final
    float division: temperature in hundredths of a degree Celsius and
    pressure in Pa as Q24.8 (1/256 Pa). */
module Bosch {
  import opened Bits
  import opened Wrappers

  const REG_T1_L := 0x88   // first of the twelve temperature/pressure words
  const REG_CTRL_MEAS := 0xF4
  const REG_CONFIG := 0xF5
  const REG_PRE := 0xF7
  const REG_TMP := 0xFA

  const OSRS_MIN := 0      // OSRS_*0, measurement skipped
  const OSRS_MAX := 5      // OSRS_*16
  const POWER_SLEEP := 0
  const POWER_FORCED := 1
  const POWER_NORMAL := 3

  /** The `t1` .. `p9` entries of `_eprom`, after the ctypes reinterpretation. */
  datatype Coefficients = Coefficients(
    t1: int, t2: int, t3: int,
    p1: int, p2: int, p3: int, p4: int, p5: int, p6: int, p7: int, p8: int, p9: int)

  /** A signed 16-bit value. */
  predicate Word16(w: int)
  {
    -0x8000 <= w < 0x8000
  }

  /** The widths and signedness the datasheets give the coefficients:
      `dig_T1` and `dig_P1` unsigned, the others signed 16-bit. */
  predicate CoefficientsInRange(c: Coefficients)
  {
    0 <= c.t1 < 0x1_0000 && 0 <= c.p1 < 0x1_0000 &&
    Word16(c.t2) && Word16(c.t3) && Word16(c.p2) && Word16(c.p3) && Word16(c.p4) &&
    Word16(c.p5) && Word16(c.p6) && Word16(c.p7) && Word16(c.p8) && Word16(c.p9)
  }

  /** The register of the `i`-th of the twelve coefficient words. */
  function WordAddress(i: nat): int
  {
    REG_T1_L + 2 * i
  }

  /** Every one of the twelve coefficient word reads succeeded. */
  ghost predicate CoefficientWordsRead(readWord: int -> Option<word>)
  {
    forall i :: 0 <= i < 12 ==> readWord(WordAddress(i)).Some?
  }

  /** `k` holds the words `readWord` gives at the twelve addresses, t1 and p1
      as unsigned and the other ten as signed 16-bit values. */
  ghost predicate CoefficientsRead(readWord: int -> Option<word>, k: Coefficients)
  {
    CoefficientWordsRead(readWord) &&
    k.t1 == readWord(WordAddress(0)).value && k.t2 == Signed16(readWord(WordAddress(1)).value) &&
    k.t3 == Signed16(readWord(WordAddress(2)).value) && k.p1 == readWord(WordAddress(3)).value &&
    k.p2 == Signed16(readWord(WordAddress(4)).value) && k.p3 == Signed16(readWord(WordAddress(5)).value) &&
    k.p4 == Signed16(readWord(WordAddress(6)).value) && k.p5 == Signed16(readWord(WordAddress(7)).value) &&
    k.p6 == Signed16(readWord(WordAddress(8)).value) && k.p7 == Signed16(readWord(WordAddress(9)).value) &&
    k.p8 == Signed16(readWord(WordAddress(10)).value) && k.p9 == Signed16(readWord(WordAddress(11)).value)
  }

  /** The loop over the twelve words at 0x88, 0x8A, .., 0x9E, in the order
      t1, t2, t3, p1 .. p9, followed by the ctypes pass: t1 and p1 through
      `c_ushort`, the rest through `c_short`.  A failed read stores `None`,
      which the ctypes pass rejects with a TypeError, so either every
      coefficient is produced or none. */
  method ReadCoefficients(readWord: int -> Option<word>) returns (c: Outcome<Coefficients>)
    ensures c.Raised? ==> c.fault == TypeError
    ensures c.Returned? <==> CoefficientWordsRead(readWord)
    ensures c.Returned? ==> CoefficientsInRange(c.value) && CoefficientsRead(readWord, c.value)
  {
    var words: seq<Option<word>> := [];
    for i := 0 to 12
      invariant |words| == i
      invariant forall j :: 0 <= j < i ==> words[j] == readWord(WordAddress(j))
    {
      words := words + [readWord(WordAddress(i))];
    }
    if exists j :: 0 <= j < 12 && words[j].None? {
      return Raised(TypeError);   // `c_ushort(None)` or `c_short(None)`
    }
    c := Returned(Coefficients(
      Unsigned16(words[0].value), Signed16(words[1].value), Signed16(words[2].value),
      Unsigned16(words[3].value), Signed16(words[4].value), Signed16(words[5].value),
      Signed16(words[6].value), Signed16(words[7].value), Signed16(words[8].value),
      Signed16(words[9].value), Signed16(words[10].value), Signed16(words[11].value)));
  }

  // ---------------------------------------------------------------------
  // Raw readout

  /** `_read_raw_temperature` and `_read_raw_pressure`: the 20-bit ADC value
      `(msb << 12) | (lsb << 4) | (xlsb >> 4)` of a three-byte block.  The
      three fields do not overlap, so each byte's contribution can be read
      back from the result. */
  function RawAdc20(block: seq<byte>): (r: nat)
    requires |block| == 3
    ensures r == block[0] as int * 4096 + block[1] as int * 16 + block[2] as int / 16
    ensures r < 0x10_0000
    ensures r / 4096 == block[0] && r / 16 % 256 == block[1] && r % 16 == block[2] / 16
  {
    var msb, lsb, xlsb := block[0], block[1], block[2];
    Adc20Fields(msb, lsb, xlsb);
    BitOr(BitOr(Shl(msb, 12), Shl(lsb, 4)), Shr(xlsb, 4))
  }

  lemma Adc20Fields(msb: byte, lsb: byte, xlsb: byte)
    ensures var r := BitOr(BitOr(Shl(msb, 12), Shl(lsb, 4)), Shr(xlsb, 4));
      r == msb as int * 4096 + lsb as int * 16 + xlsb as int / 16 &&
      r / 4096 == msb && r / 16 % 256 == lsb && r % 16 == xlsb / 16
  {
    Pow2Table();
    Pack3(msb, lsb, Shr(xlsb, 4), 8, 4);
    var r := msb as int * 4096 + lsb as int * 16 + xlsb as int / 16;
    DivModUnique(r, 4096, msb, lsb as int * 16 + xlsb as int / 16);
    DivModUnique(r, 16, msb as int * 256 + lsb, xlsb as int / 16);
    DivModUnique(msb as int * 256 + lsb, 256, msb, lsb);
  }

  // ---------------------------------------------------------------------
  // Compensation formulas

  /** The datasheet's floating-point fine temperature
      `(adc_T / 16384 - dig_T1 / 1024) * dig_T2 + (adc_T / 131072 - dig_T1 / 8192)^2 * dig_T3`,
      multiplied by 2^34 so that it is an integer. */
  function FineTemperatureExact(c: Coefficients, adcT: int): int
  {
    var d := adcT - 16 * c.t1;
    d * c.t2 * 0x10_0000 + d * d * c.t3
  }

  /** `t_fine`, the fine temperature the pressure (and humidity) formulas
      use.  For coefficients in their ranges and a 20-bit reading, the
      integer formula's truncating shifts keep it within 80 of the
      datasheet's exact formula. */
  function FineTemperature(c: Coefficients, adcT: int): (r: int)
    ensures CoefficientsInRange(c) && 0 <= adcT < 0x10_0000 ==>
      -80 * 0x4_0000_0000 < 0x4_0000_0000 * r - FineTemperatureExact(c, adcT) < 80 * 0x4_0000_0000
  {
    var var1 := Shr((Shr(adcT, 3) - Shl(c.t1, 1)) * c.t2, 11);
    var d := Shr(adcT, 4) - c.t1;
    var var2 := Shr(Shr(d * d, 12) * c.t3, 14);
    if CoefficientsInRange(c) && 0 <= adcT < 0x10_0000 then
      FineLinearTerm(c.t1, c.t2, adcT);
      FineQuadraticTerm(c.t1, c.t3, adcT);
      var1 + var2
    else
      var1 + var2
  }

  /** `var1` is the datasheet's linear term to within 15. */
  lemma FineLinearTerm(t1: int, t2: int, adcT: int)
    requires 0 <= t1 < 0x1_0000 && Word16(t2) && 0 <= adcT < 0x10_0000
    ensures var var1 := Shr((Shr(adcT, 3) - Shl(t1, 1)) * t2, 11);
      -15 * 16384 < 16384 * var1 - (adcT - 16 * t1) * t2 <= 14 * 16384
  {
    Pow2Table();
    assert Pow2(1) == 2;
    var a8 := Shr(adcT, 3);
    var r8 := adcT - 8 * a8;
    assert 0 <= r8 < 8;
    var u := a8 - Shl(t1, 1);
    assert u == a8 - 2 * t1;
    var var1 := Shr(u * t2, 11);
    assert 2048 * var1 <= u * t2 < 2048 * var1 + 2048;
    assert (adcT - 16 * t1) * t2 == 8 * (u * t2) + r8 * t2 by {
      SplitProduct(adcT - 16 * t1, u, r8, t2);
    }
    ProductBound(r8, t2, 7, 0x8000);
    LinearCombine(var1, u * t2, (adcT - 16 * t1) * t2, r8 * t2);
  }

  lemma SplitProduct(x: int, u: int, r: int, t: int)
    requires x == 8 * u + r
    ensures x * t == 8 * (u * t) + r * t
  {
  }

  lemma LinearCombine(v: int, ut: int, dt: int, rt: int)
    requires 2048 * v <= ut < 2048 * v + 2048
    requires dt == 8 * ut + rt && -229376 <= rt <= 229376
    ensures -15 * 16384 < 16384 * v - dt <= 14 * 16384
  {
  }

  /** `var2` is the datasheet's quadratic term to within 64, at the scale of 2^34. */
  lemma FineQuadraticTerm(t1: int, t3: int, adcT: int)
    requires 0 <= t1 < 0x1_0000 && Word16(t3) && 0 <= adcT < 0x10_0000
    ensures var e := Shr(adcT, 4) - t1;
      var var2 := Shr(Shr(e * e, 12) * t3, 14);
      var d := adcT - 16 * t1;
      -64 * 0x4_0000_0000 < 0x4_0000_0000 * var2 - d * d * t3 < 64 * 0x4_0000_0000
  {
    Pow2Table();
    var a16 := Shr(adcT, 4);
    var R := adcT - 16 * a16;
    assert 0 <= R < 16 && 0 <= a16 < 0x1_0000;
    var e := a16 - t1;
    assert -983040 <= e * R <= 983040 && 0 <= R * R <= 225 by {
      assert -0x1_0000 <= e <= 0x1_0000 && 0 <= R <= 15;
      ProductBound(e, R, 0x1_0000, 15);
      ProductBound(R, R, 15, 15);
      MulNonNegative(R, R);
    }
    var d := adcT - 16 * t1;
    var sq := Shr(e * e, 12);
    var var2 := Shr(sq * t3, 14);
    var F := e * e - 4096 * sq;
    var G := sq * t3 - 16384 * var2;
    var W := 32 * (e * R) + R * R;
    assert d * d * t3 == 256 * ((e * e) * t3) + W * t3 by {
      SquareSplit(d, e, R, t3);
    }
    assert 0x4_0000_0000 * var2 == 256 * ((e * e) * t3) - 256 * (t3 * F) - 0x10_0000 * G by {
      ShiftedProduct(e * e, sq, F, t3, var2, G);
    }
    ProductBound(t3, F, 0x8000, 4096);
    ProductBound(W, t3, 31457505, 0x8000);
    QuadraticCombine(d * d * t3, (e * e) * t3, W * t3, t3 * F, G, var2);
  }

  lemma SquareSplit(d: int, e: int, R: int, t: int)
    requires d == 16 * e + R
    ensures d * d * t == 256 * ((e * e) * t) + (32 * (e * R) + R * R) * t
  {
    assert d * d == 256 * (e * e) + 32 * (e * R) + R * R;
  }

  lemma ShiftedProduct(ee: int, sq: int, F: int, t: int, v: int, G: int)
    requires F == ee - 4096 * sq && G == sq * t - 16384 * v
    ensures 0x4_0000_0000 * v == 256 * (ee * t) - 256 * (t * F) - 0x10_0000 * G
  {
    assert 4096 * (sq * t) == ee * t - t * F;
  }

  lemma QuadraticCombine(dd: int, ee: int, w: int, tf: int, G: int, v: int)
    requires dd == 256 * ee + w
    requires 0x4_0000_0000 * v == 256 * ee - 256 * tf - 0x10_0000 * G
    requires -0x800_0000 <= tf <= 0x800_0000 && 0 <= G < 16384
    requires -1030799523840 <= w <= 1030799523840
    ensures -64 * 0x4_0000_0000 < 0x4_0000_0000 * v - dd < 64 * 0x4_0000_0000
  {
  }

  /** `_t_fine` after a call that reads temperature only when nothing is
      cached: a cached value is kept, and otherwise the temperature block
      gives it if that read succeeded. */
  function CachedFine(c: Coefficients, cached: Option<int>, tempBlock: Option<seq<byte>>): (r: Option<int>)
    requires tempBlock.Some? ==> |tempBlock.value| == 3
    ensures cached.Some? ==> r == cached
    ensures r.None? <==> cached.None? && tempBlock.None?
    ensures cached.None? && tempBlock.Some? ==> r == Some(FineTemperature(c, RawAdc20(tempBlock.value)))
  {
    if cached.Some? then cached
    else if tempBlock.Some? then Some(FineTemperature(c, RawAdc20(tempBlock.value)))
    else None
  }

  /** Temperature is read at most once per cache: once a lookup has produced
      `t_fine`, every later lookup returns that value and ignores its block,
      and a lookup that found nothing leaves the next one to read afresh. */
  lemma CachedFineStable(c: Coefficients, cached: Option<int>,
                         first: Option<seq<byte>>, later: Option<seq<byte>>)
    requires first.Some? ==> |first.value| == 3
    requires later.Some? ==> |later.value| == 3
    ensures var once := CachedFine(c, cached, first);
      CachedFine(c, once, later) == if once.Some? then once else CachedFine(c, None, later)
  {
  }

  /** Temperature in hundredths of a degree, `(t_fine * 5 + 128) >> 8`: the
      nearest integer to `t_fine * 5 / 256`, halves rounded up. */
  function TemperatureFromFine(tFine: int): (r: int)
    ensures -128 <= 5 * tFine - 256 * r < 128
  {
    Shr(tFine * 5 + 128, 8)
  }

  /** The divisor of the pressure formula, `((1 << 47) + var1) * p1 >> 33`.
      It is 0 when `p1` is; `PressureDivisorPositive` gives the converse. */
  function PressureDivisor(c: Coefficients, tFine: int): (r: int)
    ensures c.p1 == 0 ==> r == 0
  {
    var v := tFine - 128000;
    var var1 := Shr(v * v * c.p3, 8) + Shl(v * c.p2, 12);
    Shr((Shl(1, 47) + var1) * c.p1, 33)
  }

  /** Pressure in Q24.8 Pa.  A zero divisor returns 0 instead of dividing;
      otherwise the quotient is Python's floor division. */
  function Pressure(c: Coefficients, tFine: int, adcP: int): (r: int)
    ensures PressureDivisor(c, tFine) == 0 ==> r == 0
  {
    var v := tFine - 128000;
    var var2 := v * v * c.p6 + Shl(v * c.p5, 17) + Shl(c.p4, 35);
    var divisor := PressureDivisor(c, tFine);
    if divisor == 0 then 0
    else
      var p := 1048576 - adcP;
      var p' := FloorDiv((Shl(p, 31) - var2) * 3125, divisor);
      var var1' := Shr(c.p9 * Shr(p', 13) * Shr(p', 13), 25);
      var var2' := Shr(c.p8 * p', 19);
      Shr(p' + var1' + var2', 8) + Shl(c.p7, 4)
  }

  /** For every calibration within the datasheet's ranges whose `p1` is not
      zero, and every fine temperature within 2^19 of 25 °C (about -77 °C to
      127 °C, more than the chip's operating range), the divisor is positive:
      the guard against a division by zero fires only for `p1 == 0`. */
  lemma PressureDivisorPositive(c: Coefficients, tFine: int)
    requires CoefficientsInRange(c)
    requires -0x8_0000 <= tFine - 128000 <= 0x8_0000
    ensures PressureDivisor(c, tFine) == 0 <==> c.p1 == 0
    ensures c.p1 != 0 ==> PressureDivisor(c, tFine) > 0
  {
    Pow2Table();
    var v := tFine - 128000;
    var sq := v * v;
    assert 0 <= sq <= 0x40_0000_0000 by {
      SquareBound(v, 0x8_0000);
    }
    var a := sq * c.p3;
    ProductBound(sq, c.p3, 0x40_0000_0000, 0x8000);
    var b := v * c.p2;
    ProductBound(v, c.p2, 0x8_0000, 0x8000);
    var var1 := Shr(a, 8) + Shl(b, 12);
    assert -0x6000_0000_0000 <= var1 <= 0x6000_0000_0000;
    var m := Shl(1, 47) + var1;
    assert m >= 0x2000_0000_0000;
    if c.p1 != 0 {
      MulAtLeast(m, c.p1);
    }
    assert Shr(m * c.p1, 33) == PressureDivisor(c, tFine);
  }

  // ---------------------------------------------------------------------
  // Acquisition settings

  /** The range check every oversampling setter applies. */
  predicate OsrsAccepted(value: int)
  {
    OSRS_MIN <= value <= OSRS_MAX
  }

  /** The range check of the `power_mode` setter. */
  predicate PowerModeAccepted(value: int)
  {
    POWER_SLEEP <= value <= POWER_NORMAL
  }

  /** `_set_meas`: `osrs_t << 5 | osrs_p << 2 | power_mode`.  For settings the
      setters accept it fits in a byte and every field reads back. */
  function CtrlMeas(osrsT: nat, osrsP: nat, mode: nat): (r: nat)
    requires OsrsAccepted(osrsT) && OsrsAccepted(osrsP) && PowerModeAccepted(mode)
    ensures r < 0x100
    ensures r / 32 == osrsT && r / 4 % 8 == osrsP && r % 4 == mode
  {
    PackedFields(osrsT, osrsP, mode);
    BitOr(BitOr(BitOr(0, Shl(osrsT, 5)), Shl(osrsP, 2)), mode)
  }

  lemma PackedFields(hi: nat, mid: nat, lo: nat)
    requires hi < 8 && mid < 8 && lo < 4
    ensures var r := BitOr(BitOr(BitOr(0, Shl(hi, 5)), Shl(mid, 2)), lo);
      r == hi * 32 + mid * 4 + lo &&
      r / 32 == hi && r / 4 % 8 == mid && r % 4 == lo
  {
    Pow2Table();
    assert Pow2(2) == 4;
    Pack3(hi, mid, lo, 3, 2);
    assert BitOr(0, Shl(hi, 5)) == Shl(hi, 5) == hi * 32;
    var r := hi * 32 + mid * 4 + lo;
    assert (hi * Pow2(3) + mid) * Pow2(2) + lo == r;
    DivModUnique(r, 32, hi, mid * 4 + lo);
    DivModUnique(r, 4, hi * 8 + mid, lo);
    DivModUnique(hi * 8 + mid, 8, hi, mid);
  }

  /** `_set_config`: `t_sb << 5 | filter << 2`. */
  function ConfigByte(tSb: nat, filter: nat): (r: nat)
    requires tSb < 8 && filter < 8
    ensures r < 0x100 && r / 32 == tSb && r / 4 % 8 == filter && r % 4 == 0
  {
    PackedFields(tSb, filter, 0);
    BitOr(BitOr(0, Shl(tSb, 5)), Shl(filter, 2))
  }

  /** The settings both drivers start with: standby time 5 (1000 ms) and the
      filter off give `config` 0xA0; `osrs_t` and `osrs_p` 1 in normal mode
      give `ctrl_meas` 0x27. */
  lemma DefaultSettings()
    ensures ConfigByte(5, 0) == 0xA0
    ensures CtrlMeas(1, 1, POWER_NORMAL) == 0x27
  {
    PackedFields(5, 0, 0);
    PackedFields(1, 1, POWER_NORMAL);
  }

  datatype RegisterWrite = RegisterWrite(register: int, value: int)

  // ---------------------------------------------------------------------
  // The datasheet's worked example

  /** The calibration of the BMP280 datasheet's worked example. */
  function DatasheetCoefficients(): Coefficients
  {
    Coefficients(27504, 26435, -1000, 36477, -10685, 3024, 2855, 140, -7, 15500, -14600, 6000)
  }

  /** The formulas reproduce the datasheet's example: `adc_T` 519888 gives
      `t_fine` 128422 and 25.08 °C, and `adc_P` 415148 then gives 25767233 in
      Q24.8, that is 100653.25 Pa. */
  lemma DatasheetExample()
    ensures FineTemperature(DatasheetCoefficients(), 519888) == 128422
    ensures TemperatureFromFine(128422) == 2508
    ensures PressureDivisor(DatasheetCoefficients(), 128422) == 597560748
    ensures Pressure(DatasheetCoefficients(), 128422, 415148) == 25767233
  {
    Pow2Table();
    var c := DatasheetCoefficients();
    assert Shr(519888, 3) == 64986;
    assert Shr(519888, 4) == 32493;
    assert Shr((64986 - 55008) * 26435, 11) == 128793;
    assert Shr(4989 * 4989, 12) == 6076;
    assert Shr(6076 * -1000, 14) == -371;
    assert Shr(128422 * 5 + 128, 8) == 2508;
    var v := 422;
    assert Shr(v * v * 3024, 8) == 2103617;
    assert Shl(v * -10685, 12) == -18469150720;
    assert Shr((0x8000_0000_0000 + 2103617 - 18469150720) * 36477, 33) == 597560748;
    var var2 := v * v * -7 + Shl(v * 140, 17) + Shl(2855, 35);
    assert var2 == 98104795527812;
    var p := 1048576 - 415148;
    assert FloorDiv((Shl(p, 31) - var2) * 3125, 597560748) == 6600644165;
    assert Shr(6600644165, 13) == 805742;
    assert Shr(6000 * 805742 * 805742, 25) == 116089612;
    assert Shr(-14600 * 6600644165, 19) == -183810053;
    assert Shr(6600644165 + 116089612 - 183810053, 8) == 25519233;
  }

  /** With the example's calibration and `t_fine`, the largest raw reading
      (block `[0xFF, 0xFF, 0xFF]`) compensates to a negative pressure. */
  lemma NegativePressureExample()
    ensures RawAdc20([0xFF, 0xFF, 0xFF]) == 1048575
    ensures Pressure(DatasheetCoefficients(), 128422, 1048575) == -1697504
  {
    Pow2Table();
    DatasheetExample();
    var v := 422;
    var var2 := v * v * -7 + Shl(v * 140, 17) + Shl(2855, 35);
    assert var2 == 98104795527812;
    assert FloorDiv((Shl(1, 31) - var2) * 3125, 597560748) == -513037003;
    assert Shr(-513037003, 13) == -62627;
    assert Shr(6000 * -62627 * -62627, 25) == 701333;
    assert Shr(-14600 * -513037003, 19) == 14286690;
    assert Shr(-513037003 + 701333 + 14286690, 8) == -1945504;
  }
}
