/** The Bosch BME280 driver (humidity, pressure, temperature): the humidity
    trimming values, the humidity readout and integer compensation formula,
    and the sensor object, which caches the fine temperature, validates its
    acquisition settings and assembles a measurement.  Temperature and
    pressure are those of module `Bosch`, which this driver shares with the
    BMP280's.

    Humidity is the scaled integer the driver computes before its final float
    division: %RH as Q22.10 (1/1024 %RH). */
module BME280 {
  import opened Bits
  import opened Wrappers
  import opened Bosch

  const REG_H1_L := 0xA1
  const REG_H2_L := 0xE1
  const REG_H3_L := 0xE3
  const REG_H4_L := 0xE4
  const REG_H5_L := 0xE5
  const REG_H6_L := 0xE7
  const REG_CTRL_HUM := 0xF2
  const REG_HUM := 0xFD

  const CHIP_ID := 0x60

  /** Upper clamp of the humidity intermediate: 100 %RH in Q22.10, shifted left by 12. */
  const HUMIDITY_CLAMP := 419430400

  /** The `_eprom` record: the twelve shared coefficients and `h1` .. `h6`. */
  datatype Calibration = Calibration(
    tp: Coefficients, h1: int, h2: int, h3: int, h4: int, h5: int, h6: int)

  /** The widths and signedness the datasheet gives each coefficient. */
  predicate CalibrationInRange(c: Calibration)
  {
    CoefficientsInRange(c.tp) &&
    0 <= c.h1 < 0x100 && Word16(c.h2) && 0 <= c.h3 < 0x100 &&
    0 <= c.h4 < 0x1000 && 0 <= c.h5 < 0x1000 && -0x80 <= c.h6 < 0x80
  }

  // ---------------------------------------------------------------------
  // Calibration store

  /** `h4`: the byte at 0xE4 shifted left by 4, or'ed with the low nibble of 0xE5. */
  function MergeH4(e4: byte, e5: byte): (r: int)
    ensures r == e4 * 16 + e5 % 16
    ensures 0 <= r < 0x1000 && Signed16(r) == r
  {
    Pow2Table();
    AndLowMask(e5, 4);
    OrFields(e4, BitAnd(e5, 0x0F), 4);
    BitOr(Shl(e4, 4), BitAnd(e5, 0x0F))
  }

  /** `h5`: the high nibble of 0xE5, or'ed with the byte at 0xE6 shifted left by 4. */
  function MergeH5(e5: byte, e6: byte): (r: int)
    ensures r == e6 * 16 + e5 / 16
    ensures 0 <= r < 0x1000 && Signed16(r) == r
  {
    Pow2Table();
    OrFields(e6, Shr(e5, 4), 4);
    BitOr(Shr(e5, 4), Shl(e6, 4))
  }

  /** Every read of a humidity trimming value succeeded. */
  ghost predicate TrimReadsSucceed(readWord: int -> Option<word>, readByte: int -> Option<byte>)
  {
    readWord(REG_H2_L).Some? &&
    readByte(REG_H1_L).Some? && readByte(REG_H3_L).Some? && readByte(REG_H4_L).Some? &&
    readByte(REG_H5_L).Some? && readByte(REG_H5_L + 1).Some? && readByte(REG_H6_L).Some?
  }

  /** The humidity trimming values of `k` hold what the reads returned. */
  ghost predicate TrimRead(readWord: int -> Option<word>, readByte: int -> Option<byte>, k: Calibration)
  {
    TrimReadsSucceed(readWord, readByte) &&
    k.h1 == readByte(REG_H1_L).value && k.h2 == Signed16(readWord(REG_H2_L).value) &&
    k.h3 == readByte(REG_H3_L).value &&
    k.h4 == readByte(REG_H4_L).value * 16 + readByte(REG_H5_L).value % 16 &&
    k.h5 == readByte(REG_H5_L + 1).value * 16 + readByte(REG_H5_L).value / 16 &&
    k.h6 == Signed8(readByte(REG_H6_L).value)
  }

  /** `_read_eprom`: the twelve shared coefficient words, then `h1` .. `h6`
      from single bytes and one word.  `h1` and `h3` are unsigned bytes, `h2`
      and the merged `h4` and `h5` signed 16-bit, `h6` a signed byte.  A
      failed read (`None`) makes the driver raise a TypeError while it builds
      the record: no partial calibration is ever produced. */
  method ReadEprom(readWord: int -> Option<word>, readByte: int -> Option<byte>)
    returns (c: Outcome<Calibration>)
    ensures c.Raised? ==> c.fault == TypeError
    ensures c.Returned? <==> CoefficientWordsRead(readWord) && TrimReadsSucceed(readWord, readByte)
    ensures c.Returned? ==>
      CalibrationInRange(c.value) && CoefficientsRead(readWord, c.value.tp) &&
      TrimRead(readWord, readByte, c.value)
  {
    var tp := ReadCoefficients(readWord);
    var h1, h2, h3 := readByte(REG_H1_L), readWord(REG_H2_L), readByte(REG_H3_L);
    var e4 := readByte(REG_H4_L);
    if e4.None? {
      return Raised(TypeError);   // `None << 4`
    }
    var e5 := readByte(REG_H4_L + 1);
    if e5.None? {
      return Raised(TypeError);   // `None & 0x0F`
    }
    var h4 := MergeH4(e4.value, e5.value);
    var e5again := readByte(REG_H5_L);
    var e6 := readByte(REG_H5_L + 1);
    if e6.None? {
      return Raised(TypeError);   // `None << 4`
    }
    var h5 := MergeH5(e5again.value, e6.value);
    var h6 := readByte(REG_H6_L);
    if tp.Raised? {
      return Raised(tp.fault);    // `c_ushort(None)` or `c_short(None)`
    }
    if h2.None? || h1.None? || h3.None? || h6.None? {
      return Raised(TypeError);   // ctypes conversion of `None`
    }
    c := Returned(Calibration(tp.value, Unsigned8(h1.value), Signed16(h2.value), Unsigned8(h3.value),
                              Signed16(h4), Signed16(h5), Signed8(h6.value)));
  }

  // ---------------------------------------------------------------------
  // Raw readouts

  /** `_read_raw_humidity`: a big-endian 16-bit word from a two-byte block. */
  function RawHumidity(block: seq<byte>): (r: nat)
    requires |block| == 2
    ensures r == block[0] as int * 256 + block[1] && r < 0x1_0000
    ensures r / 256 == block[0] && r % 256 == block[1]
  {
    BigEndian(block[0], block[1])
  }

  // ---------------------------------------------------------------------
  // Compensation formulas

  /** The second factor of the humidity formula as the driver groups it:
      `(... >> 10) + 2097152 * h2 + 8192) >> 14`, the nearest integer to
      `(curve + 2^21 * h2) / 2^14`. */
  function HumidityFactor(c: Calibration, v: int): (r: int)
    ensures -8192 <= HumidityCurve(c, v) + 2097152 * c.h2 - 16384 * r < 8192
  {
    Pow2Table();
    Shr(HumidityCurve(c, v) + 2097152 * c.h2 + 8192, 14)
  }

  /** The same factor as Bosch's reference code groups it:
      `((... >> 10) + 2097152) * h2 + 8192) >> 14`, the nearest integer to
      `(curve + 2^21) * h2 / 2^14`. */
  function HumidityFactorBosch(c: Calibration, v: int): (r: int)
    ensures -8192 <= (HumidityCurve(c, v) + 2097152) * c.h2 - 16384 * r < 8192
  {
    Pow2Table();
    Shr((HumidityCurve(c, v) + 2097152) * c.h2 + 8192, 14)
  }

  /** `((v * h6 >> 10) * ((v * h3 >> 11) + 32768)) >> 10`, shared by both
      groupings.  It vanishes at `t_fine == 76800` and when `h6` is 0, so
      there the two groupings agree for every `h2`. */
  function HumidityCurve(c: Calibration, v: int): (r: int)
    ensures v == 0 || c.h6 == 0 ==> r == 0
  {
    Pow2Table();
    Shr(Shr(v * c.h6, 10) * (Shr(v * c.h3, 11) + 32768), 10)
  }

  /** `v_x1_u32r` just before the clamp: the product of the two factors,
      less the `h1` correction, which never raises it and vanishes for
      `h1 == 0`. */
  function HumidityIntermediate(c: Calibration, tFine: int, adcH: int): (r: int)
    ensures var v := tFine - 76800;
      var x := Shr(Shl(adcH, 14) - Shl(c.h4, 20) - c.h5 * v + 16384, 15) * HumidityFactor(c, v);
      (c.h1 >= 0 ==> r <= x) && (c.h1 == 0 ==> r == x)
  {
    var v := tFine - 76800;
    var x := Shr(Shl(adcH, 14) - Shl(c.h4, 20) - c.h5 * v + 16384, 15) * HumidityFactor(c, v);
    var y := Shr(x, 15);
    CorrectionSign(y, c.h1);
    x - Shr(Shr(y * y, 7) * c.h1, 4)
  }

  lemma CorrectionSign(y: int, h1: int)
    ensures h1 >= 0 ==> Shr(Shr(y * y, 7) * h1, 4) >= 0
    ensures h1 == 0 ==> Shr(Shr(y * y, 7) * h1, 4) == 0
  {
    var s := Shr(y * y, 7);
    assert s >= 0 by {
      if y < 0 {
        MulNonNegative(-y, -y);
        assert y * y == (-y) * (-y);
      } else {
        MulNonNegative(y, y);
      }
    }
    if h1 >= 0 {
      MulNonNegative(s, h1);
    }
    if h1 == 0 {
      assert s * h1 == 0;
      assert Pow2(4) == 16 by {
        Pow2Table();
      }
    }
  }

  /** Humidity in Q22.10 %RH: the intermediate clamped to `[0, 419430400]`,
      shifted right by 12, so always within 0 .. 100 %RH. */
  function Humidity(c: Calibration, tFine: int, adcH: int): (r: int)
    ensures 0 <= r <= 102400
    ensures var x := HumidityIntermediate(c, tFine, adcH);
      (x < 0 ==> r == 0) &&
      (x > HUMIDITY_CLAMP ==> r == 102400) &&
      (0 <= x <= HUMIDITY_CLAMP ==> 4096 * r <= x < 4096 * r + 4096)
  {
    Pow2Table();
    var x := HumidityIntermediate(c, tFine, adcH);
    var clamped := if x < 0 then 0 else if x > HUMIDITY_CLAMP then HUMIDITY_CLAMP else x;
    Shr(clamped, 12)
  }

  /** The driver's grouping and Bosch's give the same factor sum exactly when
      `h2 == 1` or the curve term is zero. */
  lemma HumidityGroupingDiffers(c: Calibration, v: int)
    ensures var a := HumidityCurve(c, v);
      (a + 2097152 * c.h2 + 8192 == (a + 2097152) * c.h2 + 8192) <==> (c.h2 == 1 || a == 0)
    ensures c.h2 == 1 ==> HumidityFactor(c, v) == HumidityFactorBosch(c, v)
  {
    GroupingDiffers(HumidityCurve(c, v), c.h2);
  }

  lemma GroupingDiffers(a: int, h2: int)
    ensures (a + 2097152 * h2 + 8192 == (a + 2097152) * h2 + 8192) <==> (h2 == 1 || a == 0)
  {
    assert (a + 2097152) * h2 == a * h2 + 2097152 * h2;
    if a * h2 == a && a != 0 {
      assert a * (h2 - 1) == 0;
      ProductZero(a, h2 - 1);
    }
  }

  lemma ProductZero(a: int, b: int)
    requires a * b == 0 && a != 0
    ensures b == 0
  {
    if b > 0 {
      if a > 0 { MulAtLeast(a, b); } else { MulAtLeast(-a, b); }
    } else if b < 0 {
      if a > 0 { MulAtLeast(a, -b); } else { MulAtLeast(-a, -b); }
    }
  }

  /** What one `measure()` call returns, absent altitude. */
  datatype Measurement = Measurement(temperature: Option<int>, pressure: Option<int>, humidity: Option<int>)

  // ---------------------------------------------------------------------
  // The sensor object

  class Sensor {
    const calibration: Calibration
    const chipId: Option<byte>
    const tSb: nat
    const filter: nat
    var osrsH: int
    var osrsT: int
    var osrsP: int
    var powerMode: int
    /** `_t_fine`: the fine temperature of the last successful temperature read. */
    var tFine: Option<int>

    ghost predicate Valid()
      reads this
    {
      OsrsAccepted(osrsH) && OsrsAccepted(osrsT) && OsrsAccepted(osrsP) &&
      PowerModeAccepted(powerMode) && tSb < 8 && filter < 8
    }

    /** The object after `__init__`: given the identity byte read and the
        calibration `ReadEprom` produced. */
    constructor (chipId: Option<byte>, calibration: Calibration)
      ensures Valid()
      ensures this.chipId == chipId && this.calibration == calibration
      ensures osrsH == 1 && osrsT == 1 && osrsP == 1 && powerMode == POWER_NORMAL
      ensures tSb == 5 && filter == 0 && tFine == None
    {
      this.chipId := chipId;
      this.calibration := calibration;
      osrsH, osrsT, osrsP := 1, 1, 1;
      powerMode := POWER_NORMAL;
      tSb, filter := 5, 0;
      tFine := None;
    }

    /** `ok()`: the identity register read back the BME280 chip id. */
    predicate Ok()
      reads this
    {
      chipId == Some(CHIP_ID)
    }

    method SetOsrsH(value: int)
      requires Valid()
      modifies this`osrsH
      ensures Valid()
      ensures osrsH == if OsrsAccepted(value) then value else old(osrsH)
    {
      if OSRS_MIN <= value <= OSRS_MAX {
        osrsH := value;
      }
    }

    method SetOsrsT(value: int)
      requires Valid()
      modifies this`osrsT
      ensures Valid()
      ensures osrsT == if OsrsAccepted(value) then value else old(osrsT)
    {
      if OSRS_MIN <= value <= OSRS_MAX {
        osrsT := value;
      }
    }

    method SetOsrsP(value: int)
      requires Valid()
      modifies this`osrsP
      ensures Valid()
      ensures osrsP == if OsrsAccepted(value) then value else old(osrsP)
    {
      if OSRS_MIN <= value <= OSRS_MAX {
        osrsP := value;
      }
    }

    method SetPowerMode(value: int)
      requires Valid()
      modifies this`powerMode
      ensures Valid()
      ensures powerMode == if PowerModeAccepted(value) then value else old(powerMode)
    {
      if POWER_SLEEP <= value <= POWER_NORMAL {
        powerMode := value;
      }
    }

    /** `update()` (and the tail of `__init__`): `_set_hum`, `_set_meas`,
        `_set_config`, in that order. */
    method Update() returns (writes: seq<RegisterWrite>)
      requires Valid()
      ensures |writes| == 3
      ensures writes[0] == RegisterWrite(REG_CTRL_HUM, osrsH)
      ensures writes[1].register == REG_CTRL_MEAS && writes[1].value < 0x100 &&
              writes[1].value / 32 == osrsT && writes[1].value / 4 % 8 == osrsP &&
              writes[1].value % 4 == powerMode
      ensures writes[2].register == REG_CONFIG && writes[2].value < 0x100 &&
              writes[2].value / 32 == tSb && writes[2].value / 4 % 8 == filter &&
              writes[2].value % 4 == 0
    {
      var hum := BitOr(0, osrsH);
      var meas := CtrlMeas(osrsT, osrsP, powerMode);
      var config := ConfigByte(tSb, filter);
      writes := [RegisterWrite(REG_CTRL_HUM, hum), RegisterWrite(REG_CTRL_MEAS, meas),
                 RegisterWrite(REG_CONFIG, config)];
    }

    /** `_get_temperature`, given what the three-byte block read at 0xFA
        returned.  A failed read returns `None` and keeps the cached `t_fine`. */
    method GetTemperature(block: Option<seq<byte>>) returns (t: Option<int>)
      requires block.Some? ==> |block.value| == 3
      modifies this`tFine
      ensures block.None? ==> t == None && tFine == old(tFine)
      ensures block.Some? ==>
        tFine == Some(FineTemperature(calibration.tp, RawAdc20(block.value))) &&
        t == Some(TemperatureFromFine(tFine.value))
    {
      if block.None? {
        return None;   // RuntimeError, caught
      }
      var adcT := RawAdc20(block.value);
      var fine := FineTemperature(calibration.tp, adcT);
      tFine := Some(fine);
      t := Some(TemperatureFromFine(fine));
    }

    /** `_get_pressure`.  The temperature block is read only if no `t_fine`
        is cached; a failed pressure read returns `None`; a pressure read
        that succeeds with no `t_fine` at all raises a TypeError
        (`None - 128000`). */
    method GetPressure(tempBlock: Option<seq<byte>>, presBlock: Option<seq<byte>>)
      returns (p: Outcome<Option<int>>)
      requires tempBlock.Some? ==> |tempBlock.value| == 3
      requires presBlock.Some? ==> |presBlock.value| == 3
      modifies this`tFine
      ensures tFine == CachedFine(calibration.tp, old(tFine), tempBlock)
      ensures presBlock.None? ==> p == Returned(None)
      ensures presBlock.Some? && tFine.None? ==> p == Raised(TypeError)
      ensures presBlock.Some? && tFine.Some? ==>
        p == Returned(Some(Pressure(calibration.tp, tFine.value, RawAdc20(presBlock.value))))
    {
      if tFine.None? {
        var _ := GetTemperature(tempBlock);
      }
      if presBlock.None? {
        return Returned(None);   // RuntimeError, caught
      }
      var adcP := RawAdc20(presBlock.value);
      if tFine.None? {
        return Raised(TypeError);
      }
      p := Returned(Some(Pressure(calibration.tp, tFine.value, adcP)));
    }

    /** `_get_humidity`, with the same caching and failure behaviour as
        `GetPressure`. */
    method GetHumidity(tempBlock: Option<seq<byte>>, humBlock: Option<seq<byte>>)
      returns (h: Outcome<Option<int>>)
      requires tempBlock.Some? ==> |tempBlock.value| == 3
      requires humBlock.Some? ==> |humBlock.value| == 2
      modifies this`tFine
      ensures tFine == CachedFine(calibration.tp, old(tFine), tempBlock)
      ensures humBlock.None? ==> h == Returned(None)
      ensures humBlock.Some? && tFine.None? ==> h == Raised(TypeError)
      ensures humBlock.Some? && tFine.Some? ==>
        h == Returned(Some(Humidity(calibration, tFine.value, RawHumidity(humBlock.value))))
      ensures h.Returned? && h.value.Some? ==> 0 <= h.value.value <= 102400
    {
      if tFine.None? {
        var _ := GetTemperature(tempBlock);
      }
      if humBlock.None? {
        return Returned(None);   // RuntimeError, caught
      }
      var adcH := RawHumidity(humBlock.value);
      if tFine.None? {
        return Raised(TypeError);
      }
      h := Returned(Some(Humidity(calibration, tFine.value, adcH)));
    }

    /** `measure()`.  Every read of one register within the call returns the
        same block.  The call escapes with a TypeError whenever pressure is
        unavailable, because `_get_altitude` applies `float()` to it, and
        whenever no fine temperature exists.  A negative pressure escapes as
        a ValueError: `_get_altitude` raises it to the fractional power
        `1 / 5.255`. */
    method Measure(tempBlock: Option<seq<byte>>, presBlock: Option<seq<byte>>,
                   humBlock: Option<seq<byte>>)
      returns (m: Outcome<Measurement>)
      requires tempBlock.Some? ==> |tempBlock.value| == 3
      requires presBlock.Some? ==> |presBlock.value| == 3
      requires humBlock.Some? ==> |humBlock.value| == 2
      modifies this`tFine
      ensures tempBlock.Some? ==> tFine == Some(FineTemperature(calibration.tp, RawAdc20(tempBlock.value)))
      ensures tempBlock.None? ==> tFine == old(tFine)
      ensures m.Raised? <==>
        tFine.None? || presBlock.None? || Pressure(calibration.tp, tFine.value, RawAdc20(presBlock.value)) < 0
      ensures tFine.None? || presBlock.None? ==> m == Raised(TypeError)
      ensures tFine.Some? && presBlock.Some? && Pressure(calibration.tp, tFine.value, RawAdc20(presBlock.value)) < 0 ==>
        m == Raised(ValueError)
      ensures m.Returned? ==>
        m.value.temperature == (if tempBlock.Some? then Some(TemperatureFromFine(tFine.value)) else None) &&
        m.value.pressure == Some(Pressure(calibration.tp, tFine.value, RawAdc20(presBlock.value))) &&
        m.value.humidity == (if humBlock.Some?
                             then Some(Humidity(calibration, tFine.value, RawHumidity(humBlock.value)))
                             else None)
    {
      var temperature := GetTemperature(tempBlock);
      var pressure := GetPressure(tempBlock, presBlock);
      if pressure.Raised? {
        return Raised(pressure.fault);
      }
      var humidity := GetHumidity(tempBlock, humBlock);
      if humidity.Raised? {
        return Raised(humidity.fault);
      }
      if pressure.value.None? {
        return Raised(TypeError);   // float(None) in _get_altitude
      }
      if pressure.value.value < 0 {
        return Raised(ValueError);  // pow of a negative float in _get_altitude
      }
      m := Returned(Measurement(temperature, pressure.value, humidity.value));
    }
  }
}
