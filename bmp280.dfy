/** The Bosch BMP280 driver (pressure, temperature): the BME280's driver
    without humidity.  Calibration, readouts and formulas are those of module
    `Bosch`; this module holds the sensor object, which caches the fine
    temperature, validates its acquisition settings and assembles a
    measurement. */
module BMP280 {
  import opened Bits
  import opened Wrappers
  import opened Bosch

  const CHIP_ID := 0x58

  /** What one `measure()` call returns, absent altitude. */
  datatype Measurement = Measurement(temperature: Option<int>, pressure: Option<int>)

  class Sensor {
    const calibration: Coefficients
    const chipId: Option<byte>
    const tSb: nat
    const filter: nat
    var osrsT: int
    var osrsP: int
    var powerMode: int
    /** `_t_fine`: the fine temperature of the last successful temperature read. */
    var tFine: Option<int>

    ghost predicate Valid()
      reads this
    {
      OsrsAccepted(osrsT) && OsrsAccepted(osrsP) && PowerModeAccepted(powerMode) &&
      tSb < 8 && filter < 8
    }

    /** The object after `__init__`: given the identity byte read and the
        coefficients `ReadCoefficients` produced. */
    constructor (chipId: Option<byte>, calibration: Coefficients)
      ensures Valid()
      ensures this.chipId == chipId && this.calibration == calibration
      ensures osrsT == 1 && osrsP == 1 && powerMode == POWER_NORMAL
      ensures tSb == 5 && filter == 0 && tFine == None
    {
      this.chipId := chipId;
      this.calibration := calibration;
      osrsT, osrsP := 1, 1;
      powerMode := POWER_NORMAL;
      tSb, filter := 5, 0;
      tFine := None;
    }

    /** `ok()`: the identity register read back the BMP280 chip id. */
    predicate Ok()
      reads this
    {
      chipId == Some(CHIP_ID)
    }

    method SetOsrsT(value: int)
      requires Valid()
      modifies this`osrsT
      ensures Valid()
      ensures osrsT == if OsrsAccepted(value) then value else old(osrsT)
    {
      if OSRS_MIN <= value <= OSRS_MAX {
        osrsT := value;
      }
    }

    method SetOsrsP(value: int)
      requires Valid()
      modifies this`osrsP
      ensures Valid()
      ensures osrsP == if OsrsAccepted(value) then value else old(osrsP)
    {
      if OSRS_MIN <= value <= OSRS_MAX {
        osrsP := value;
      }
    }

    method SetPowerMode(value: int)
      requires Valid()
      modifies this`powerMode
      ensures Valid()
      ensures powerMode == if PowerModeAccepted(value) then value else old(powerMode)
    {
      if POWER_SLEEP <= value <= POWER_NORMAL {
        powerMode := value;
      }
    }

    /** `update()` (and the tail of `__init__`): `_set_meas`, then `_set_config`. */
    method Update() returns (writes: seq<RegisterWrite>)
      requires Valid()
      ensures |writes| == 2
      ensures writes[0].register == REG_CTRL_MEAS && writes[0].value < 0x100 &&
              writes[0].value / 32 == osrsT && writes[0].value / 4 % 8 == osrsP &&
              writes[0].value % 4 == powerMode
      ensures writes[1].register == REG_CONFIG && writes[1].value < 0x100 &&
              writes[1].value / 32 == tSb && writes[1].value / 4 % 8 == filter &&
              writes[1].value % 4 == 0
    {
      var meas := CtrlMeas(osrsT, osrsP, powerMode);
      var config := ConfigByte(tSb, filter);
      writes := [RegisterWrite(REG_CTRL_MEAS, meas), RegisterWrite(REG_CONFIG, config)];
    }

    /** `_get_temperature`, given what the three-byte block read at 0xFA
        returned.  A failed read returns `None` and keeps the cached `t_fine`. */
    method GetTemperature(block: Option<seq<byte>>) returns (t: Option<int>)
      requires block.Some? ==> |block.value| == 3
      modifies this`tFine
      ensures block.None? ==> t == None && tFine == old(tFine)
      ensures block.Some? ==>
        tFine == Some(FineTemperature(calibration, RawAdc20(block.value))) &&
        t == Some(TemperatureFromFine(tFine.value))
    {
      if block.None? {
        return None;   // RuntimeError, caught
      }
      var adcT := RawAdc20(block.value);
      var fine := FineTemperature(calibration, adcT);
      tFine := Some(fine);
      t := Some(TemperatureFromFine(fine));
    }

    /** `_get_pressure`.  The temperature block is read only if no `t_fine`
        is cached; a failed pressure read returns `None`; a pressure read
        that succeeds with no `t_fine` at all raises a TypeError
        (`None - 128000`). */
    method GetPressure(tempBlock: Option<seq<byte>>, presBlock: Option<seq<byte>>)
      returns (p: Outcome<Option<int>>)
      requires tempBlock.Some? ==> |tempBlock.value| == 3
      requires presBlock.Some? ==> |presBlock.value| == 3
      modifies this`tFine
      ensures tFine == CachedFine(calibration, old(tFine), tempBlock)
      ensures presBlock.None? ==> p == Returned(None)
      ensures presBlock.Some? && tFine.None? ==> p == Raised(TypeError)
      ensures presBlock.Some? && tFine.Some? ==>
        p == Returned(Some(Pressure(calibration, tFine.value, RawAdc20(presBlock.value))))
    {
      if tFine.None? {
        var _ := GetTemperature(tempBlock);
      }
      if presBlock.None? {
        return Returned(None);   // RuntimeError, caught
      }
      var adcP := RawAdc20(presBlock.value);
      if tFine.None? {
        return Raised(TypeError);
      }
      p := Returned(Some(Pressure(calibration, tFine.value, adcP)));
    }

    /** `measure()`.  Every read of one register within the call returns the
        same block.  The call escapes with a TypeError whenever pressure is
        unavailable, because `_get_altitude` applies `float()` to it, and
        whenever no fine temperature exists.  A negative pressure escapes as
        a ValueError: `_get_altitude` raises it to the fractional power
        `1 / 5.255`. */
    method Measure(tempBlock: Option<seq<byte>>, presBlock: Option<seq<byte>>)
      returns (m: Outcome<Measurement>)
      requires tempBlock.Some? ==> |tempBlock.value| == 3
      requires presBlock.Some? ==> |presBlock.value| == 3
      modifies this`tFine
      ensures tempBlock.Some? ==> tFine == Some(FineTemperature(calibration, RawAdc20(tempBlock.value)))
      ensures tempBlock.None? ==> tFine == old(tFine)
      ensures m.Raised? <==>
        tFine.None? || presBlock.None? || Pressure(calibration, tFine.value, RawAdc20(presBlock.value)) < 0
      ensures tFine.None? || presBlock.None? ==> m == Raised(TypeError)
      ensures tFine.Some? && presBlock.Some? && Pressure(calibration, tFine.value, RawAdc20(presBlock.value)) < 0 ==>
        m == Raised(ValueError)
      ensures m.Returned? ==>
        m.value.temperature == (if tempBlock.Some? then Some(TemperatureFromFine(tFine.value)) else None) &&
        m.value.pressure == Some(Pressure(calibration, tFine.value, RawAdc20(presBlock.value)))
    {
      var temperature := GetTemperature(tempBlock);
      var pressure := GetPressure(tempBlock, presBlock);
      if pressure.Raised? {
        return Raised(pressure.fault);
      }
      if pressure.value.None? {
        return Raised(TypeError);   // float(None) in _get_altitude
      }
      if pressure.value.value < 0 {
        return Raised(ValueError);  // pow of a negative float in _get_altitude
      }
      m := Returned(Measurement(temperature, pressure.value));
    }
  }
}
