# tentacle_pi sensor compensation, in Dafny

A model of the integer decoding and compensation logic of the tentacle_pi
I2C sensor drivers, with proofs of what each decoder promises.  Each driver
reads raw register bytes from a sensor and turns them into calibrated
readings:

- Bosch BME280 and BMP280: calibration words, 20-bit raw readouts, the
  datasheets' integer temperature, pressure and humidity compensation, the
  cached fine temperature `t_fine`, validated settings and the `ctrl_meas`,
  `ctrl_hum` and `config` bytes;
- Bosch BMP180: the calibration block and the B5/B6/B3/B4/B7 chain with its
  oversampling-dependent shifts;
- TAOS TSL2561: the clipping guard and the fixed-point lux calculation with
  its coefficient tables;
- MCP9808, AM2315, LM75 and HDC1008: fixed-format temperature, humidity and
  identity decoders.

The drivers are Python 2.  The model follows its integer semantics:

- `/` on integers is floor division (`Bits.FloorDiv`);
- `>>` is a floor shift (`Bits.Shr`);
- `|` and `&` are defined on naturals (`Bits.BitOr`, `Bits.BitAnd`), and
  lemmas give them their arithmetic meaning on non-overlapping fields;
- the `ctypes` conversions are `Bits.Unsigned16`, `Bits.Signed16`,
  `Bits.Unsigned8` and `Bits.Signed8`.

Each result is the driver's value times a fixed scale (100, 256, 1024, 10,
16 or 2):

- Bosch temperature in hundredths of a degree;
- Bosch pressure in Q24.8 Pa;
- BME280 humidity in Q22.10 %RH;
- BMP180 temperature in tenths of a degree and pressure in Pa;
- AM2315 values in tenths;
- MCP9808 temperature in sixteenths of a degree;
- LM75 temperature in half degrees.

A bus read is an input:

- a transfer that the driver's SMBus wrapper reports as failed is `None`
  (`Option`);
- the calibration loaders take a snapshot function from register to read
  result;
- an exception that escapes a driver is `Outcome.Raised`: a TypeError from
  arithmetic on `None`, a ZeroDivisionError, or the ValueError that `pow`
  raises for a negative float and a fractional exponent;
- a `RuntimeError` that a driver catches becomes a `None` result.

Modules:

- `Wrappers`: `Option`, `Fault` and `Outcome`;
- `Bits`: integer semantics;
- `Bosch`: what the BME280 and BMP280 drivers share.  Their calibration
  loops, raw readouts, temperature and pressure formulas and register
  layouts are the same statement for statement, so they are defined once
  and both drivers use them.  For the same inputs, both drivers give the
  same temperature and pressure by construction;
- `BME280`, `BMP280`, `BMP180`, `TSL2561`, `MCP9808`, `AM2315`, `LM75` and
  `HDC1008`: one module per driver.

Where a driver object changes its own fields, it is a `class` whose methods
state the new state:

- the Bosch setters and `t_fine` cache;
- the BMP180 `oss`, which `_get_pressure_cmd` also resets;
- the TSL2561 gain and integration time.

The `ok()` identity checks of the BME280, BMP280 and BMP180 are predicates
on the stored chip id (`Sensor.Ok`).

The BME280, BMP280 and BMP180 drivers catch the `RuntimeError` of a failed
read and return `None`, so that a failed read only makes that one reading
unavailable.  The TSL2561, MCP9808, LM75, AM2315 and HDC1008 drivers catch
nothing.  In MCP9808 and LM75 a failed read reaches `data & 0x00ff` and
raises a TypeError, which `MCP9808.GetTemperature` and
`LM75.GetTemperature` return as `Raised(TypeError)`.  `measure()` of the
three pressure drivers can still raise, and the model follows the code:

- BME280, BMP280 and BMP180 `measure()` pass the pressure to
  `_get_altitude`, which applies `float()` to it and raises the quotient by
  101325 to the power `1 / 5.255`.  A failed pressure read therefore ends
  the call with a TypeError, and a negative compensated pressure with a
  ValueError.  `Bosch.NegativePressureExample` and
  `BMP180.NegativePressureExample` give readings that compensate to a
  negative pressure.
- A Bosch pressure or humidity read with no fine temperature at all raises
  a TypeError.
- A BMP180 division by zero is not caught.
- A failed calibration read raises during construction.

## Model

| member | source | states |
|---|---|---|
| Bits.FloorDiv | tentacle_pi/twi/sensor/bmp180.py:132 | the result of Python 2 integer `/` is the floor of the quotient for either sign of the divisor |
| Bits.Shr | tentacle_pi/twi/sensor/bme280.py:210-211 | `x >> k` is the floor of `x / 2^k`, and it is non-negative for non-negative `x` |
| Bits.Unsigned16 | tentacle_pi/twi/sensor/bme280.py:137-139 | `c_ushort` gives a value in `[0, 2^16)`, and an in-range word is unchanged |
| Bits.Signed16 | tentacle_pi/twi/sensor/bme280.py:141-143 | `c_short` gives a value in `[-2^15, 2^15)`; a 16-bit word `w` becomes `w` or `w - 2^16` |
| Bits.Unsigned8 | tentacle_pi/twi/sensor/bme280.py:145-147 | `c_ubyte` gives a value in `[0, 256)`, and a byte is unchanged |
| Bits.Signed8 | tentacle_pi/twi/sensor/bme280.py:149-151 | `c_byte` gives a value in `[-128, 128)`; a byte `b` becomes `b` or `b - 256` |
| Bits.ConversionsWrap | tentacle_pi/twi/sensor/bme280.py:137-151 | each ctypes conversion keeps its argument's value modulo 2^16 (or 2^8) |
| Bits.BigEndian | tentacle_pi/twi/sensor/hdc1008.py:84-85 | a big-endian word, `msb` shifted left by 8 and or'ed with `lsb`, is `msb * 256 + lsb`, and both bytes can be read back from it |
| Bosch.ReadCoefficients | tentacle_pi/twi/sensor/bmp280.py:104-115 | it returns exactly when all twelve word reads at `0x88 + 2i` succeed and raises a TypeError otherwise; t1 and p1 hold the words unsigned and t2 .. p9 hold them as signed 16-bit, in name order |
| Bosch.RawAdc20 | tentacle_pi/twi/sensor/bme280.py:180-192 | the raw temperature or pressure is `msb*4096 + lsb*16 + xlsb/16`, below 2^20, and each byte's field can be read back |
| Bosch.FineTemperature | tentacle_pi/twi/sensor/bme280.py:210-212 | for coefficients in their datasheet ranges and a 20-bit reading, `t_fine` is within 80 of the datasheet's floating-point formula `(adc_T / 16384 - T1 / 1024) * T2 + (adc_T / 131072 - T1 / 8192)^2 * T3` |
| Bosch.CachedFine | tentacle_pi/twi/sensor/bme280.py:221-222 | a cached `t_fine` is kept; with nothing cached the temperature block's `t_fine` is taken if that read succeeded; no `t_fine` exists only when neither is there |
| Bosch.CachedFineStable | tentacle_pi/twi/sensor/bme280.py:221-222 | across successive getter calls the temperature is read at most once: once `t_fine` is cached every later lookup returns it whatever block it is given, and an empty cache leaves the next lookup to read afresh |
| Bosch.TemperatureFromFine | tentacle_pi/twi/sensor/bme280.py:214 | the temperature in hundredths is `t_fine * 5 / 256` rounded to the nearest integer |
| Bosch.Pressure | tentacle_pi/twi/sensor/bme280.py:241-244 | when the divisor `((1 << 47) + var1) * p1 >> 33` is 0, the result is 0 without a division |
| Bosch.PressureDivisor | tentacle_pi/twi/sensor/bme280.py:235-241 | the divisor is 0 whenever `p1` is 0 (the converse is `Bosch.PressureDivisorPositive`) |
| Bosch.PressureDivisorPositive | tentacle_pi/twi/sensor/bme280.py:235-243 | for coefficients in their datasheet ranges and `t_fine` within 2^19 of 128000, the divisor is 0 exactly when `p1` is 0, and positive otherwise |
| Bosch.CtrlMeas | tentacle_pi/twi/sensor/bme280.py:153-158 | for accepted settings, `ctrl_meas` fits in a byte, and `osrs_t`, `osrs_p` and the power mode can each be read back from it |
| Bosch.ConfigByte | tentacle_pi/twi/sensor/bme280.py:169-173 | `config` fits in a byte, `t_sb` and `filter` can be read back from it, and its low two bits are clear |
| Bosch.DefaultSettings | tentacle_pi/twi/sensor/bmp280.py:82-87 | the initial settings give `config` 0xA0 and `ctrl_meas` 0x27 |
| Bosch.DatasheetExample | tentacle_pi/twi/sensor/bmp280.py:155-197 | the BMP280 datasheet example: `t_fine` 128422, 25.08 °C, and pressure 25767233 in Q24.8 (100653.25 Pa) |
| Bosch.NegativePressureExample | tentacle_pi/twi/sensor/bme280.py:246-250 | with the datasheet calibration and `t_fine` 128422, the block `[0xFF, 0xFF, 0xFF]` compensates to -1697504 in Q24.8, a negative pressure |
| BME280.MergeH4 | tentacle_pi/twi/sensor/bme280.py:131-132 | `h4` is `E4 * 16 + E5 % 16`, below 4096, so `c_short` leaves it unchanged |
| BME280.MergeH5 | tentacle_pi/twi/sensor/bme280.py:133-134 | `h5` is `E6 * 16 + E5 / 16`, below 4096, so `c_short` leaves it unchanged |
| BME280.ReadEprom | tentacle_pi/twi/sensor/bme280.py:123-151 | it returns exactly when every word and byte read succeeds, and otherwise raises a TypeError; the record holds the reads, reinterpreted with each coefficient's width and signedness |
| BME280.RawHumidity | tentacle_pi/twi/sensor/bme280.py:194-201 | the raw humidity is the big-endian word of the block, below 2^16 |
| BME280.HumidityCurve | tentacle_pi/twi/sensor/bme280.py:270-271 | the curve term shared by both groupings vanishes at `t_fine` 76800 and when `h6` is 0 |
| BME280.HumidityFactor | tentacle_pi/twi/sensor/bme280.py:270-271 | the driver's second factor is `(curve + 2^21 * h2) / 2^14` rounded to the nearest integer |
| BME280.HumidityFactorBosch | tentacle_pi/twi/sensor/bme280.py:270-271 | Bosch's reference grouping of the same factor is `(curve + 2^21) * h2 / 2^14` rounded to the nearest integer |
| BME280.HumidityIntermediate | tentacle_pi/twi/sensor/bme280.py:268-273 | the value before the clamp is the product of the two factors less the `h1` correction, which never raises it (`h1` is unsigned) and vanishes for `h1 == 0` |
| BME280.Humidity | tentacle_pi/twi/sensor/bme280.py:268-281 | the result lies in `[0, 102400]` (0 to 100 %RH): 0 below zero, 102400 above the clamp, and otherwise the intermediate divided by 4096 and floored |
| BME280.HumidityGroupingDiffers | tentacle_pi/twi/sensor/bme280.py:269-271 | the driver's grouping `+ 2097152 * h2` and Bosch's `(... + 2097152) * h2` agree exactly when `h2 == 1` or the curve term is 0 |
| BME280.Sensor.constructor | tentacle_pi/twi/sensor/bme280.py:98-104 | the initial settings are osrs 1/1/1, normal mode, `t_sb` 5, filter 0, and nothing is cached |
| BME280.Sensor.Ok | tentacle_pi/twi/sensor/bme280.py:117-118 | `ok()` holds exactly when the identity read returned the BME280 chip id 0x60 |
| BME280.Sensor.SetOsrsH | tentacle_pi/twi/sensor/bme280.py:353-356 | a value in 0 .. 5 is stored, any other value leaves the setting unchanged, and the settings stay valid |
| BME280.Sensor.SetOsrsT | tentacle_pi/twi/sensor/bme280.py:362-365 | a value in 0 .. 5 is stored, and any other value leaves the setting unchanged |
| BME280.Sensor.SetOsrsP | tentacle_pi/twi/sensor/bme280.py:371-374 | a value in 0 .. 5 is stored, and any other value leaves the setting unchanged |
| BME280.Sensor.SetPowerMode | tentacle_pi/twi/sensor/bme280.py:380-383 | a value in 0 .. 3 is stored, and any other value leaves the setting unchanged |
| BME280.Sensor.Update | tentacle_pi/twi/sensor/bme280.py:385-387 | the writes are `ctrl_hum` (the humidity setting), then `ctrl_meas`, then `config`; each byte's fields read back as the current settings, and the low two bits of `config` are 0, so every written value is determined |
| BME280.Sensor.GetTemperature | tentacle_pi/twi/sensor/bme280.py:203-217 | a successful read caches the new `t_fine` and returns its temperature; a failed read returns `None` and keeps the cache |
| BME280.Sensor.GetPressure | tentacle_pi/twi/sensor/bme280.py:219-253 | temperature is read only when nothing is cached; a failed pressure read gives `None`; with no `t_fine` the call raises a TypeError; otherwise it returns the pressure for the cached `t_fine` |
| BME280.Sensor.GetHumidity | tentacle_pi/twi/sensor/bme280.py:255-283 | the same caching and failures as pressure, and a humidity value always in `[0, 102400]` |
| BME280.Sensor.Measure | tentacle_pi/twi/sensor/bme280.py:331-347 | it raises exactly when pressure is unavailable, no `t_fine` exists or the pressure is negative: a TypeError in the first two cases and a ValueError from `_get_altitude` in the third; otherwise the three readings all come from the one `t_fine` |
| BMP280.Sensor.constructor | tentacle_pi/twi/sensor/bmp280.py:82-87 | the initial settings are osrs 1/1, normal mode, `t_sb` 5, filter 0, and nothing is cached |
| BMP280.Sensor.Ok | tentacle_pi/twi/sensor/bmp280.py:98-99 | `ok()` holds exactly when the identity read returned the BMP280 chip id 0x58 |
| BMP280.Sensor.SetOsrsT | tentacle_pi/twi/sensor/bmp280.py:260-263 | a value in 0 .. 5 is stored, and any other value leaves the setting unchanged |
| BMP280.Sensor.SetOsrsP | tentacle_pi/twi/sensor/bmp280.py:269-272 | a value in 0 .. 5 is stored, and any other value leaves the setting unchanged |
| BMP280.Sensor.SetPowerMode | tentacle_pi/twi/sensor/bmp280.py:278-281 | a value in 0 .. 3 is stored, and any other value leaves the setting unchanged |
| BMP280.Sensor.Update | tentacle_pi/twi/sensor/bmp280.py:283-285 | the writes are `ctrl_meas`, then `config`; each byte's fields read back as the current settings, and the low two bits of `config` are 0, so both written values are determined |
| BMP280.Sensor.GetTemperature | tentacle_pi/twi/sensor/bmp280.py:148-163 | a successful read caches the new `t_fine` and returns its temperature; a failed read returns `None` and keeps the cache |
| BMP280.Sensor.GetPressure | tentacle_pi/twi/sensor/bmp280.py:165-200 | temperature is read only when nothing is cached; a failed pressure read gives `None`; with no `t_fine` the call raises a TypeError; otherwise it returns the pressure for the cached `t_fine` |
| BMP280.Sensor.Measure | tentacle_pi/twi/sensor/bmp280.py:240-254 | it raises exactly when pressure is unavailable, no `t_fine` exists or the pressure is negative: a TypeError in the first two cases and a ValueError from `_get_altitude` in the third; otherwise both readings come from the one `t_fine` |
| BMP180.ReadEprom | tentacle_pi/twi/sensor/bmp180.py:83-96 | a failed block read raises a TypeError; otherwise the record holds the eleven big-endian words in name order, with ac4 .. ac6 unsigned and the rest signed 16-bit |
| BMP180.WordAt | tentacle_pi/twi/sensor/bmp180.py:87-88 | the `i`-th calibration word gives back bytes `2i` and `2i + 1` of the block as its high and low byte |
| BMP180.RawTemperature | tentacle_pi/twi/sensor/bmp180.py:105-108 | the raw temperature is the big-endian word of the block |
| BMP180.RawPressure | tentacle_pi/twi/sensor/bmp180.py:118-122 | the raw pressure is the 24-bit block value divided by `2^(8 - oss)` and floored, so it is below `2^(16 + oss)` |
| BMP180.TemperatureX1 | tentacle_pi/twi/sensor/bmp180.py:131 | `X1` is the floor of `(UT - ac6) * ac5 / 2^15` |
| BMP180.B5 | tentacle_pi/twi/sensor/bmp180.py:131-133 | it raises a ZeroDivisionError exactly when `X1 + md == 0` |
| BMP180.Temperature | tentacle_pi/twi/sensor/bmp180.py:131-134 | it raises exactly when B5 does; otherwise the result is `B5 / 16` rounded to the nearest integer |
| BMP180.B3 | tentacle_pi/twi/sensor/bmp180.py:159-163 | `B3` is `(4 * ac1 + X3) * 2^oss / 4` rounded to the nearest integer |
| BMP180.B4 | tentacle_pi/twi/sensor/bmp180.py:164-168 | `B4` is 0 when `ac4` is 0; for a calibration in range and `abs(B6) <= 2^14` it is at least `ac4 / 4`, so the division by `B4` can fail only for `ac4 < 4` |
| BMP180.Quotient | tentacle_pi/twi/sensor/bmp180.py:171-174 | for a positive `B4` and a non-negative `B7`, either branch gives the floor of `2 * B7 / B4` or one less |
| BMP180.Corrected | tentacle_pi/twi/sensor/bmp180.py:176-179 | for a quotient between 0 and 2^17 Pa, the correction moves it by less than 1000 Pa |
| BMP180.Pressure | tentacle_pi/twi/sensor/bmp180.py:155-180 | it raises a ZeroDivisionError exactly when `X1 + md` or `B4` is 0; otherwise the result is the corrected quotient of the branch on `B7` |
| BMP180.QuotientCorrected | tentacle_pi/twi/sensor/bmp180.py:171-179 | for a positive `B4`, a non-negative `B7` and a quotient between 0 and 2^17, the corrected quotient is within 1001 Pa below and 1000 Pa above the floor of `2 * B7 / B4` |
| BMP180.PressureNearQuotient | tentacle_pi/twi/sensor/bmp180.py:168-180 | when the driver returns a pressure, and under the same conditions on the driver's own `B4`, `B7` and quotient, the pressure the driver returns is within that band of the exact quotient `2 * B7 / B4` |
| BMP180.QuotientBranches | tentacle_pi/twi/sensor/bmp180.py:171-174 | for positive `B4` and non-negative `B7`, `(B7 / B4) * 2` is `B7 * 2 / B4` or one less |
| BMP180.DatasheetExample | tentacle_pi/twi/sensor/bmp180.py:155-180 | the BMP180 datasheet example: 150 tenths (15.0 °C) and 69964 Pa |
| BMP180.NegativePressureExample | tentacle_pi/twi/sensor/bmp180.py:169-180 | with the datasheet calibration, UT 27898 and a pressure block of zeros at `oss` 0, the pressure is -1017 Pa |
| BMP180.PressureCommand | tentacle_pi/twi/sensor/bmp180.py:185-196 | the command is `0x34 + 64 * oss`; an `oss` in 0 .. 3 is kept, and any other is reset to 1 with the command 0x74 |
| BMP180.PressureCommandBits | tentacle_pi/twi/sensor/bmp180.py:51-54 | each pressure command is 0x34 or'ed with `oss << 6`, and `oss` can be read back from bits 6 and 7 |
| BMP180.Sensor.constructor | tentacle_pi/twi/sensor/bmp180.py:69-75 | the object starts at the lowest oversampling setting |
| BMP180.Sensor.Ok | tentacle_pi/twi/sensor/bmp180.py:77-78 | `ok()` holds exactly when the identity read returned the BMP180 chip id 0x55 |
| BMP180.Sensor.SetOss | tentacle_pi/twi/sensor/bmp180.py:239-242 | a value in 0 .. 3 is stored, and any other value leaves the setting unchanged |
| BMP180.Sensor.GetPressureCmd | tentacle_pi/twi/sensor/bmp180.py:185-196 | it returns the command for the old setting and leaves `oss` in 0 .. 3, as `PressureCommand` describes |
| BMP180.Sensor.GetTemperature | tentacle_pi/twi/sensor/bmp180.py:124-138 | a failed read gives `None`; a zero divisor raises; otherwise the result is the temperature of the raw word |
| BMP180.Sensor.GetPressure | tentacle_pi/twi/sensor/bmp180.py:140-183 | the temperature is read again, not reused; a failed temperature read returns `None` before `oss` can be reset; a failed pressure read gives `None`; otherwise the result is the pressure at the (possibly reset) `oss` |
| BMP180.Sensor.Measure | tentacle_pi/twi/sensor/bmp180.py:224-233 | a division by zero escapes; a missing pressure raises a TypeError and a negative one a ValueError from `_get_altitude`; otherwise both readings are those of the blocks read |
| TSL2561.ClippingThreshold | tentacle_pi/twi/sensor/tsl2561.py:174-181 | for every integration-time code the threshold is 65000, because the codes are compared with times in seconds |
| TSL2561.ChannelScale | tentacle_pi/twi/sensor/tsl2561.py:189-197 | `ch_scale` is `1 << 10` for every code, shifted left by 4 unless the gain is 16x |
| TSL2561.ScaledChannel | tentacle_pi/twi/sensor/tsl2561.py:199-200 | a channel is 16 times the reading at 1x gain and the reading itself at 16x |
| TSL2561.Ratio | tentacle_pi/twi/sensor/tsl2561.py:201-206 | the ratio is `channel1 * 512 / channel0` rounded to the nearest integer, and 0 when `channel0` is 0 |
| TSL2561.TableT | tentacle_pi/twi/sensor/tsl2561.py:32-55 | the T table has eight rows with non-decreasing thresholds, and its last row's coefficients are 0 |
| TSL2561.TableCS | tentacle_pi/twi/sensor/tsl2561.py:209-225 | the CS table as the chain consults it, with thresholds K5T .. K7T, still has non-decreasing thresholds, and its last row's coefficients are 0 |
| TSL2561.Lookup | tentacle_pi/twi/sensor/tsl2561.py:209-242 | the search gives `(0, 0)` or the `(b, m)` of a row of the table at or after the starting row |
| TSL2561.LookupFirstMatch | tentacle_pi/twi/sensor/tsl2561.py:226-242 | the table search gives the `(b, m)` of the first row whose threshold the ratio does not exceed |
| TSL2561.LookupNoMatch | tentacle_pi/twi/sensor/tsl2561.py:226-242 | a ratio above every threshold gives `(0, 0)` |
| TSL2561.Coefficients | tentacle_pi/twi/sensor/tsl2561.py:207-242 | a ratio above 0x29A leaves `b = m = 0` |
| TSL2561.CoefficientsAreTableSearch | tentacle_pi/twi/sensor/tsl2561.py:209-242 | both if-chains are the first-match search of their package's table |
| TSL2561.CSThresholdDeparture | tentacle_pi/twi/sensor/tsl2561.py:209-225 | the CS chain, which uses K5T .. K7T, differs from a CS table with its own thresholds exactly for ratios in `(K5T, K5C]`, which get row 6 |
| TSL2561.Lux | tentacle_pi/twi/sensor/tsl2561.py:244-250 | the lux is `max(0, channel0*b - channel1*m) / 16384` rounded to the nearest integer, never negative, and 0 when `channel0` is 0 |
| TSL2561.ComputeIlluminance | tentacle_pi/twi/sensor/tsl2561.py:188-250 | a zero channel 0, or a ratio above 0x29A, gives 0 lux |
| TSL2561.TimingByteFields | tentacle_pi/twi/sensor/tsl2561.py:136-140 | for the defined codes, the timing byte (integration time or'ed with gain) is their sum, and the integration time is its low nibble |
| TSL2561.Sensor.constructor | tentacle_pi/twi/sensor/tsl2561.py:129-131 | the object starts at 1x gain, the 402 ms code and the T package |
| TSL2561.Sensor.SetGain | tentacle_pi/twi/sensor/tsl2561.py:158-161 | any value is stored unvalidated, and the timing byte written is the integration time or'ed with the gain |
| TSL2561.Sensor.SetIntegrationTime | tentacle_pi/twi/sensor/tsl2561.py:167-170 | any value is stored unvalidated, and the timing byte written is the integration time or'ed with the gain |
| TSL2561.Sensor.Illuminance | tentacle_pi/twi/sensor/tsl2561.py:172-186 | a reading above 65000 on either channel gives 0; otherwise a failed read raises a TypeError; otherwise the result is the lux of the two readings, channel 0 first |
| MCP9808.SwapBytes | tentacle_pi/twi/sensor/mcp9808.py:64-67 | the result's high byte is the word's low byte, and its low byte is the word's high byte |
| MCP9808.SwapInvolution | tentacle_pi/twi/sensor/mcp9808.py:64-67 | swapping twice gives the word back |
| MCP9808.TemperatureSixteenths | tentacle_pi/twi/sensor/mcp9808.py:68-72 | the temperature is the low 13 bits of the swapped word read in two's complement, so it lies in `[-4096, 4096)` |
| MCP9808.AlertFlagsIgnored | tentacle_pi/twi/sensor/mcp9808.py:68-72 | two words that differ only in bits 13 to 15 (the alert flags) give the same temperature |
| MCP9808.GetTemperature | tentacle_pi/twi/sensor/mcp9808.py:63-73 | a failed read raises a TypeError; otherwise the result is the decoded temperature |
| MCP9808.ManufacturerId | tentacle_pi/twi/sensor/mcp9808.py:59-61 | a failed read raises a TypeError; otherwise the result is the high byte of the word |
| MCP9808.Ok | tentacle_pi/twi/sensor/mcp9808.py:49-54 | construction fails when the manufacturer word read fails; otherwise `ok()` holds exactly when the manufacturer id is 0x54 and the device id is 0x04 |
| AM2315.HumidityTenths | tentacle_pi/twi/sensor/am2315.py:59-63 | the humidity is bytes 2 and 3 read big-endian, below 65536 |
| AM2315.TemperatureTenths | tentacle_pi/twi/sensor/am2315.py:65-74 | the magnitude is bytes 4 and 5 without bit 7 of byte 4, at most 32767; a negative result needs that bit, and with the bit set the result is never positive |
| AM2315.Measure | tentacle_pi/twi/sensor/am2315.py:86-94 | both values come from the one frame: humidity is bytes 2 and 3 read big-endian; the temperature's magnitude is bytes 4 and 5 without bit 7 of byte 4, a negative temperature needs that bit, and with it set the temperature is never positive |
| AM2315.OnlyPayloadBytes | tentacle_pi/twi/sensor/am2315.py:59-74 | frames that agree on bytes 2 to 5 give the same results, so the function code, byte count and CRC are never checked |
| LM75.TemperatureHalvesAsWritten | tentacle_pi/twi/sensor/lm75.py:40-45 | the decoding as written gives twice the low byte, so it never reports a half degree |
| LM75.TemperatureHalves | tentacle_pi/twi/sensor/lm75.py:40-45 | the whole degrees are the low byte, the half degree is bit 15 of the word, and the result is at most 511 (255.5 °C) |
| LM75.HalfDegreeLost | tentacle_pi/twi/sensor/lm75.py:43-44 | the two decodings agree exactly on words below 0x8000; on 0x8019 they give 50 and 51 |
| LM75.GetTemperature | tentacle_pi/twi/sensor/lm75.py:40-45 | a failed read raises a TypeError; otherwise the result is the decoding as written, twice the low byte of the word, so no half degree is ever returned |
| LM75.Ok | tentacle_pi/twi/sensor/lm75.py:37-38 | `ok()` always holds |
| HDC1008.DefaultConfig | tentacle_pi/twi/sensor/hdc1008.py:57 | the default configuration, `TMP_HUM` or'ed with both 14-bit resolution settings, is 0x1000 |
| HDC1008.ConfigureFrame | tentacle_pi/twi/sensor/hdc1008.py:61-62 | the frame is three bytes: the configuration register, then two bytes that recombine to the configuration |
| HDC1008.DefaultFrame | tentacle_pi/twi/sensor/hdc1008.py:57-62 | the frame written at start-up is `[0x02, 0x10, 0x00]` |
| HDC1008.Serial | tentacle_pi/twi/sensor/hdc1008.py:65-79 | the serial is the 48-bit concatenation of the three ids shifted right by 7 and floored; it is below 2^41 and holds `id1`, `id2` and the top nine bits of `id3` side by side |

## Left out

- Altitude (`pow(p / 101325, 1 / 5.255)`) is left out: it is transcendental float arithmetic.  Its failures are kept: `float()` of a missing pressure is a TypeError, and `pow` of a negative pressure a ValueError.  The `altitude` properties, which replace a missing pressure by 0, are not part of this model.
- The final float scaling (`/ 100.0`, `/ 256.0`, `/ 1024.0`, `/ 10.0`, `/ 16.0`, `* 0.5`) is left out: every result is the driver's value times that fixed scale.  MCP9808 subtracts 256 after its `/ 16.0`; the model subtracts the scaled 4096 instead (`TemperatureSixteenths`).
- The HDC1008 temperature and humidity formulas are left out because they are float formulas; only the raw word assembly (`Bits.BigEndian`) is modelled.
- The `htu21d`, `mpl115a2` and `bmp85` drivers are not part of this model.  `bmp85` is a BMP180 with no logic of its own.
- The adapters in `tentacle_pi/util.py` are not part of this model: the SMBus and `/dev/i2c` transport, `ioctl` and file I/O.  A failed SMBus read is `None`.  The raw `read_bytes` transfer, which raises IOError instead, is modelled only as a frame of the expected length.
- A short or over-long block: every raw readout requires the block length the driver reads.  Where the driver tuple-unpacks the block (`msb, lsb, xlsb = data` in the Bosch and BMP180 readouts, and in `hdc1008.py`), a wrong length raises a ValueError.  Where it indexes the block (`data[2]` to `data[5]` in `am2315.py`, `eprom_data[2*i]` in the BMP180 calibration loop), a short block raises an IndexError and an over-long one is accepted, its extra bytes ignored.  The model represents none of these cases.
- Register writes and their failures are left out.  `Update`, `SetGain`, `SetIntegrationTime`, `ConfigureFrame` and `PressureCommand` return the bytes written instead of writing them.
- Sleeps, power enable and disable, the AM2315 wake-up write, `close()` and context managers are left out because they are timing and I/O.
- The construction order of `__init__` (identity read, register writes, calibration read) is left out.  Each `Sensor` constructor takes the identity byte, and the calibration that `ReadEprom` or `ReadCoefficients` produced.
- The `measure()` dictionaries are modelled as a `Measurement` datatype without the altitude entry.
- Within one `measure()` call, each register read is assumed to return the same block every time.  The BME280 and BMP280 `_get_pressure` reads temperature again only when nothing is cached.
- TSL2561.Sensor.SetGain and TSL2561.Sensor.SetIntegrationTime take natural numbers only.  Python would also accept negative or non-integer values, and `|` would reject a non-integer one.
- TSL2561.Sensor: the package type is the constant T package, as `__init__` sets it.  The CS chain is reachable through `ComputeIlluminance` only.
- BME280.Humidity keeps the driver's grouping `+ 2097152 * h2`, which departs from Bosch's reference formula `(... + 2097152) * h2`.  `BME280.HumidityGroupingDiffers` states exactly when the two differ: `h2 != 1` and a non-zero curve term.  `BME280.HumidityFactorBosch` is the reference grouping.  The rest of the model uses the driver's grouping.

## Findings

| source | as written | input that shows it | evidently intended | confidence | as-written member | corrected member |
|---|---|---|---|---|---|---|
| tentacle_pi/twi/sensor/lm75.py:43-44 | `lsb = data & 0xff00`, then `(lsb & 0x80) >> 7`, masks the high byte without shifting it down, so the bit 7 it checks is always 0 | word 0x8019 (25.5 °C: first byte 0x19, second byte 0x80) decodes to 25.0 | `lsb = (data & 0xff00) >> 8`, so that the half-degree bit (bit 7 of the second byte) is reported | not executed | LM75.TemperatureHalvesAsWritten, LM75.HalfDegreeLost | LM75.TemperatureHalves |
