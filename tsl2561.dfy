/** The TAOS TSL2561 light sensor driver: the clipping guard and the
    fixed-point lux calculation of the datasheet (channel scaling, channel
    ratio, a piecewise-linear coefficient table per package, rounding to
    whole lux), and the sensor object with its gain and integration-time
    settings.

    The driver keeps the integration time as a register code (0, 1 or 2)
    but selects the clipping threshold and the channel scale by comparing it
    with integration times in seconds (0.403, 0.101, 0.013).  No code equals
    those, so both always take their 402 ms value; the model computes the
    comparisons as written and proves that outcome. */
module TSL2561 {
  import opened Bits
  import opened Wrappers

  // T, FN and CL package coefficients
  const K1T: nat := 0x0040
  const B1T: nat := 0x01F2
  const M1T: nat := 0x01BE
  const K2T: nat := 0x0080
  const B2T: nat := 0x0214
  const M2T: nat := 0x02D1
  const K3T: nat := 0x00C0
  const B3T: nat := 0x023F
  const M3T: nat := 0x037B
  const K4T: nat := 0x0100
  const B4T: nat := 0x0270
  const M4T: nat := 0x03FE
  const K5T: nat := 0x0138
  const B5T: nat := 0x016F
  const M5T: nat := 0x01FC
  const K6T: nat := 0x019A
  const B6T: nat := 0x00D2
  const M6T: nat := 0x00FB
  const K7T: nat := 0x029A
  const B7T: nat := 0x0018
  const M7T: nat := 0x0012
  const K8T: nat := 0x029A
  const B8T: nat := 0x0000
  const M8T: nat := 0x0000

  // CS package coefficients
  const K1C: nat := 0x0043
  const B1C: nat := 0x0204
  const M1C: nat := 0x01AD
  const K2C: nat := 0x0085
  const B2C: nat := 0x0228
  const M2C: nat := 0x02C1
  const K3C: nat := 0x00C8
  const B3C: nat := 0x0253
  const M3C: nat := 0x0363
  const K4C: nat := 0x010A
  const B4C: nat := 0x0282
  const M4C: nat := 0x03DF
  const K5C: nat := 0x014D
  const B5C: nat := 0x0177
  const M5C: nat := 0x01DD
  const K6C: nat := 0x019A
  const B6C: nat := 0x0101
  const M6C: nat := 0x0127
  const K7C: nat := 0x029A
  const B7C: nat := 0x0037
  const M7C: nat := 0x002B
  const K8C: nat := 0x029A
  const B8C: nat := 0x0000
  const M8C: nat := 0x0000

  const REG_TIMING := 0x01
  const CMD_BIT := 0x80

  const GAIN_0X := 0x00
  const GAIN_16X := 0x10

  const INTEGRATION_TIME_13 := 0x00
  const INTEGRATION_TIME_101 := 0x01
  const INTEGRATION_TIME_402 := 0x02

  const INTEGRATION_TIME_402MS: real := 0.403
  const INTEGRATION_TIME_101MS: real := 0.101
  const INTEGRATION_TIME_13MS: real := 0.013

  const CLIPPING_13MS: nat := 4900
  const CLIPPING_101MS: nat := 37000
  const CLIPPING_402MS: nat := 65000

  const LUX_SCALE := 14
  const RATIO_SCALE := 9
  const CH_SCALE := 10
  const CH_SCALE_TINT0 := 0x7517
  const CH_SCALE_TINT1 := 0x0FE7

  const TYPE_T := 0
  const TYPE_CS := 1

  // ---------------------------------------------------------------------
  // Clipping and channel scale

  /** The clipping threshold `_get_illuminance` selects for an integration
      time code.  Whatever the code, it is the 402 ms threshold. */
  function ClippingThreshold(integrationTime: nat): (r: nat)
    ensures r == CLIPPING_402MS
  {
    var t := integrationTime as real;
    if t == INTEGRATION_TIME_402MS then CLIPPING_402MS
    else if t == INTEGRATION_TIME_101MS then CLIPPING_101MS
    else if t == INTEGRATION_TIME_13MS then CLIPPING_13MS
    else CLIPPING_402MS
  }

  /** `ch_scale` of `_compute_illuminance`.  Whatever the code, the
      integration-time part is `1 << 10`; it is shifted left by 4 unless the
      gain is 16x. */
  function ChannelScale(integrationTime: nat, gain: nat): (r: nat)
    ensures r == if gain != GAIN_16X then 16384 else 1024
  {
    Pow2Table();
    var t := integrationTime as real;
    var scale := if t == INTEGRATION_TIME_101MS then CH_SCALE_TINT1
                 else if t == INTEGRATION_TIME_13MS then CH_SCALE_TINT0
                 else Shl(1, CH_SCALE);
    if gain != GAIN_16X then Shl(scale, 4) else scale
  }

  /** `(ch * ch_scale) >> CH_SCALE`: a channel is multiplied by 16 at 1x
      gain and kept as it is at 16x. */
  function ScaledChannel(ch: nat, integrationTime: nat, gain: nat): (r: nat)
    ensures r == if gain != GAIN_16X then 16 * ch else ch
  {
    Pow2Table();
    var scale := ChannelScale(integrationTime, gain);
    var f := if gain != GAIN_16X then 16 * ch else ch;
    assert ch * scale == f * Pow2(CH_SCALE);
    ShrOfShl(f, CH_SCALE);
    Shr(ch * scale, CH_SCALE)
  }

  // ---------------------------------------------------------------------
  // Ratio and coefficients

  /** `ratio`: `(channel1 << 10) / channel0`, then `(+ 1) >> 1`, that is
      `channel1 / channel0` in units of 1/512, rounded to the nearest
      integer; 0 when `channel0` is 0. */
  function Ratio(channel0: nat, channel1: nat): (r: nat)
    ensures channel0 == 0 ==> r == 0
    ensures channel0 > 0 ==> channel0 * (2 * r - 1) <= channel1 * 1024 < channel0 * (2 * r + 1)
  {
    Pow2Table();
    var ratio1 := if channel0 != 0 then FloorDiv(Shl(channel1, RATIO_SCALE + 1), channel0) else 0;
    var r := Shr(ratio1 + 1, 1);
    assert Pow2(1) == 2;
    assert Shl(channel1, RATIO_SCALE + 1) == channel1 * 1024;
    if channel0 > 0 then
      RatioBounds(channel0, channel1 * 1024, ratio1, r);
      r
    else
      r
  }

  lemma RatioBounds(c0: nat, n: nat, q: int, r: int)
    requires c0 > 0 && c0 * q <= n < c0 * q + c0 && 2 * r <= q + 1 < 2 * r + 2
    ensures c0 * (2 * r - 1) <= n < c0 * (2 * r + 1)
  {
    if q == 2 * r {
      assert c0 * (2 * r - 1) == c0 * q - c0;
      assert c0 * (2 * r + 1) == c0 * q + c0;
    } else {
      assert q == 2 * r - 1;
      assert c0 * (2 * r + 1) == c0 * q + 2 * c0;
    }
  }

  /** One row of a coefficient table: the ratio threshold, then `b` and `m`. */
  datatype Bucket = Bucket(k: nat, b: nat, m: nat)

  /** The T package table.  Its thresholds never decrease, and its last row
      gives 0 lux. */
  function TableT(): (t: seq<Bucket>)
    ensures |t| == 8 && forall i, j :: 0 <= i < j < 8 ==> t[i].k <= t[j].k
    ensures t[7].b == 0 && t[7].m == 0
  {
    [Bucket(K1T, B1T, M1T), Bucket(K2T, B2T, M2T), Bucket(K3T, B3T, M3T), Bucket(K4T, B4T, M4T),
     Bucket(K5T, B5T, M5T), Bucket(K6T, B6T, M6T), Bucket(K7T, B7T, M7T), Bucket(K8T, B8T, M8T)]
  }

  /** The CS package table as the driver consults it: thresholds 5 to 7 are
      the T package's.  Its thresholds still never decrease, and its last row
      gives 0 lux. */
  function TableCS(): (t: seq<Bucket>)
    ensures |t| == 8 && forall i, j :: 0 <= i < j < 8 ==> t[i].k <= t[j].k
    ensures t[7].b == 0 && t[7].m == 0
  {
    [Bucket(K1C, B1C, M1C), Bucket(K2C, B2C, M2C), Bucket(K3C, B3C, M3C), Bucket(K4C, B4C, M4C),
     Bucket(K5T, B5C, M5C), Bucket(K6T, B6C, M6C), Bucket(K7T, B7C, M7C), Bucket(K8C, B8C, M8C)]
  }

  /** The CS package table with its own thresholds. */
  function TableCSDatasheet(): seq<Bucket>
  {
    [Bucket(K1C, B1C, M1C), Bucket(K2C, B2C, M2C), Bucket(K3C, B3C, M3C), Bucket(K4C, B4C, M4C),
     Bucket(K5C, B5C, M5C), Bucket(K6C, B6C, M6C), Bucket(K7C, B7C, M7C), Bucket(K8C, B8C, M8C)]
  }

  /** The `(b, m)` of the first row of `table`, from row `from` on, whose
      threshold is at least `ratio`, or `(0, 0)` past the last row. */
  function Lookup(table: seq<Bucket>, ratio: nat, from: nat): (r: (nat, nat))
    ensures r == (0, 0) || exists j :: from <= j < |table| && r == (table[j].b, table[j].m)
    decreases |table| - from
  {
    if from >= |table| then (0, 0)
    else if ratio <= table[from].k then (table[from].b, table[from].m)
    else Lookup(table, ratio, from + 1)
  }

  /** The search answers the first row whose threshold the ratio does not
      exceed. */
  lemma {:induction false} LookupFirstMatch(table: seq<Bucket>, ratio: nat, from: nat, i: nat)
    requires from <= i < |table| && ratio <= table[i].k
    requires forall j :: from <= j < i ==> ratio > table[j].k
    ensures Lookup(table, ratio, from) == (table[i].b, table[i].m)
    decreases i - from
  {
    if from < i {
      LookupFirstMatch(table, ratio, from + 1, i);
    }
  }

  /** A ratio above every threshold gives `(0, 0)`. */
  lemma {:induction false} LookupNoMatch(table: seq<Bucket>, ratio: nat, from: nat)
    requires forall j :: from <= j < |table| ==> ratio > table[j].k
    ensures Lookup(table, ratio, from) == (0, 0)
    decreases |table| - from
  {
    if from < |table| {
      LookupNoMatch(table, ratio, from + 1);
    }
  }

  /** The if-chains of `_compute_illuminance` that pick `(b, m)`. */
  function Coefficients(packageType: nat, ratio: nat): (bm: (nat, nat))
    ensures ratio > K8T ==> bm == (0, 0)
  {
    if packageType == TYPE_CS then
      if 0 <= ratio <= K1C then (B1C, M1C)
      else if ratio <= K2C then (B2C, M2C)
      else if ratio <= K3C then (B3C, M3C)
      else if ratio <= K4C then (B4C, M4C)
      else if ratio <= K5T then (B5C, M5C)
      else if ratio <= K6T then (B6C, M6C)
      else if ratio <= K7T then (B7C, M7C)
      else if ratio <= K8C then (B8C, M8C)
      else (0, 0)
    else
      if 0 <= ratio <= K1T then (B1T, M1T)
      else if ratio <= K2T then (B2T, M2T)
      else if ratio <= K3T then (B3T, M3T)
      else if ratio <= K4T then (B4T, M4T)
      else if ratio <= K5T then (B5T, M5T)
      else if ratio <= K6T then (B6T, M6T)
      else if ratio <= K7T then (B7T, M7T)
      else if ratio <= K8T then (B8T, M8T)
      else (0, 0)
  }

  /** The search of an eight-row table, written out row by row. */
  lemma LookupEight(t: seq<Bucket>, ratio: nat)
    requires |t| == 8
    ensures Lookup(t, ratio, 0) ==
      if ratio <= t[0].k then (t[0].b, t[0].m)
      else if ratio <= t[1].k then (t[1].b, t[1].m)
      else if ratio <= t[2].k then (t[2].b, t[2].m)
      else if ratio <= t[3].k then (t[3].b, t[3].m)
      else if ratio <= t[4].k then (t[4].b, t[4].m)
      else if ratio <= t[5].k then (t[5].b, t[5].m)
      else if ratio <= t[6].k then (t[6].b, t[6].m)
      else if ratio <= t[7].k then (t[7].b, t[7].m)
      else (0, 0)
  {
    assert Lookup(t, ratio, 8) == (0, 0);
    assert Lookup(t, ratio, 7) == if ratio <= t[7].k then (t[7].b, t[7].m) else Lookup(t, ratio, 8);
    assert Lookup(t, ratio, 6) == if ratio <= t[6].k then (t[6].b, t[6].m) else Lookup(t, ratio, 7);
    assert Lookup(t, ratio, 5) == if ratio <= t[5].k then (t[5].b, t[5].m) else Lookup(t, ratio, 6);
    assert Lookup(t, ratio, 4) == if ratio <= t[4].k then (t[4].b, t[4].m) else Lookup(t, ratio, 5);
    assert Lookup(t, ratio, 3) == if ratio <= t[3].k then (t[3].b, t[3].m) else Lookup(t, ratio, 4);
    assert Lookup(t, ratio, 2) == if ratio <= t[2].k then (t[2].b, t[2].m) else Lookup(t, ratio, 3);
    assert Lookup(t, ratio, 1) == if ratio <= t[1].k then (t[1].b, t[1].m) else Lookup(t, ratio, 2);
  }

  /** The if-chains are a search of the package's table for the first
      threshold the ratio does not exceed. */
  lemma CoefficientsAreTableSearch(packageType: nat, ratio: nat)
    ensures Coefficients(packageType, ratio) ==
            Lookup(if packageType == TYPE_CS then TableCS() else TableT(), ratio, 0)
  {
    LookupEight(if packageType == TYPE_CS then TableCS() else TableT(), ratio);
  }

  /** The CS search departs from the CS package's own thresholds exactly for
      ratios in `(K5T, K5C]`, which get row 6 instead of row 5. */
  lemma CSThresholdDeparture(ratio: nat)
    ensures Lookup(TableCS(), ratio, 0) != Lookup(TableCSDatasheet(), ratio, 0) <==> K5T < ratio <= K5C
    ensures K5T < ratio <= K5C ==> Lookup(TableCS(), ratio, 0) == (B6C, M6C)
  {
    LookupEight(TableCS(), ratio);
    LookupEight(TableCSDatasheet(), ratio);
  }

  // ---------------------------------------------------------------------
  // Lux

  /** `(max(0, channel0 * b - channel1 * m) + (1 << 13)) >> 14`: the
      non-negative part of the linear combination in 1/16384 lux, rounded to
      the nearest integer. */
  function Lux(channel0: nat, channel1: nat, bm: (nat, nat)): (r: nat)
    ensures var t := channel0 * bm.0 - channel1 * bm.1;
      var clamped := if t < 0 then 0 else t;
      16384 * r <= clamped + 8192 < 16384 * r + 16384
    ensures channel0 == 0 ==> r == 0
  {
    Pow2Table();
    var tmp := channel0 * bm.0 - channel1 * bm.1;
    var tmp' := if tmp < 0 then 0 else tmp;
    Shr(tmp' + Shl(1, LUX_SCALE - 1), LUX_SCALE)
  }

  /** `_compute_illuminance(ch0, ch1)` for the sensor's settings. */
  function ComputeIlluminance(integrationTime: nat, gain: nat, packageType: nat, ch0: nat, ch1: nat): (r: nat)
    ensures ch0 == 0 ==> r == 0
    ensures Ratio(ScaledChannel(ch0, integrationTime, gain), ScaledChannel(ch1, integrationTime, gain)) > K8T
            ==> r == 0
  {
    var channel0 := ScaledChannel(ch0, integrationTime, gain);
    var channel1 := ScaledChannel(ch1, integrationTime, gain);
    var ratio := Ratio(channel0, channel1);
    Lux(channel0, channel1, Coefficients(packageType, ratio))
  }

  /** A timing register byte, `integration_time | gain`: for the gain and
      integration-time codes the driver defines the two fields do not
      overlap. */
  lemma TimingByteFields(integrationTime: nat, gain: nat)
    requires integrationTime <= INTEGRATION_TIME_402 && (gain == GAIN_0X || gain == GAIN_16X)
    ensures BitOr(integrationTime, gain) == integrationTime + gain
    ensures BitOr(integrationTime, gain) % 16 == integrationTime
  {
    Pow2Table();
    if gain == GAIN_16X {
      OrFields(1, integrationTime, 4);
    }
  }

  class Sensor {
    var gain: nat
    var integrationTime: nat
    /** `_type`: set once, to the T package. */
    const packageType: nat

    /** The object after `__init__`: 1x gain, 402 ms, T package. */
    constructor ()
      ensures gain == GAIN_0X && integrationTime == INTEGRATION_TIME_402 && packageType == TYPE_T
    {
      gain := GAIN_0X;
      integrationTime := INTEGRATION_TIME_402;
      packageType := TYPE_T;
    }

    /** The `gain` setter: stores the value unvalidated and returns the timing
        byte it writes. */
    method SetGain(value: nat) returns (timing: nat)
      modifies this`gain
      ensures gain == value && timing == BitOr(integrationTime, gain)
    {
      gain := value;
      timing := BitOr(integrationTime, gain);
    }

    /** The `integration_time` setter: stores the value unvalidated and
        returns the timing byte it writes. */
    method SetIntegrationTime(value: nat) returns (timing: nat)
      modifies this`integrationTime
      ensures integrationTime == value && timing == BitOr(integrationTime, gain)
    {
      integrationTime := value;
      timing := BitOr(integrationTime, gain);
    }

    /** `_get_illuminance` (and `measure()`), given the two channel words
        read: `broadband` from channel 0, `ir` from channel 1.  A word beyond
        the clipping threshold on either channel gives 0.  Python 2 orders
        `None` below every number, so a failed read is never clipped; it
        reaches the multiplication and raises a TypeError, unless the other
        channel clips. */
    function Illuminance(broadband: Option<word>, ir: Option<word>): (r: Outcome<nat>)
      reads this
      ensures (broadband.Some? && broadband.value > CLIPPING_402MS) || (ir.Some? && ir.value > CLIPPING_402MS)
              ==> r == Returned(0)
      ensures r.Raised? <==>
        (broadband.None? || ir.None?) &&
        !(broadband.Some? && broadband.value > CLIPPING_402MS) && !(ir.Some? && ir.value > CLIPPING_402MS)
      ensures r.Raised? ==> r.fault == TypeError
      ensures broadband.Some? && ir.Some? && broadband.value <= CLIPPING_402MS && ir.value <= CLIPPING_402MS
              ==> r == Returned(ComputeIlluminance(integrationTime, gain, packageType, broadband.value, ir.value))
    {
      var threshold := ClippingThreshold(integrationTime);
      if (broadband.Some? && broadband.value > threshold) || (ir.Some? && ir.value > threshold) then
        Returned(0)
      else if broadband.None? || ir.None? then
        Raised(TypeError)   // `None * ch_scale`
      else
        Returned(ComputeIlluminance(integrationTime, gain, packageType, broadband.value, ir.value))
    }
  }
}
