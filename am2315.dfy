/** The Aosong AM2315 humidity and temperature sensor driver: decoding the
    8-byte reply frame to a read request for four registers.  The frame is
    the function code, the byte count, humidity (bytes 2 and 3, big endian),
    temperature (bytes 4 and 5, sign and magnitude) and a CRC; values are
    tenths of a percent and tenths of a degree. */
module AM2315 {
  import opened Bits

  /** `_get_humidity`, in tenths of a percent: bytes 2 and 3, big endian. */
  function HumidityTenths(data: seq<byte>): (r: nat)
    requires |data| == 8
    ensures r < 0x1_0000
    ensures r / 256 == data[2] && r % 256 == data[3]
  {
    Pow2Table();
    OrFields(data[2], data[3], 8);
    DivModUnique(data[2] as int * 256 + data[3], 256, data[2], data[3]);
    BitOr(Shl(data[2], 8), data[3])
  }

  lemma Magnitude(hi: byte, lo: byte)
    ensures BitOr(Shl(BitAnd(hi, 0x7F), 8), lo) == hi % 128 * 256 + lo
    ensures BitSet(hi, 7) <==> hi >= 128
  {
    Pow2Table();
    AndLowMask(hi, 7);
    OrFields(BitAnd(hi, 0x7F), lo, 8);
    AndSingleBit(hi, 7);
    DivModUnique(hi, 128, Shr(hi, 7), hi - 128 * Shr(hi, 7));
  }

  /** `_get_temperature`, in tenths of a degree: bit 7 of byte 4 is the
      sign, the other fifteen bits of bytes 4 and 5 the magnitude. */
  function TemperatureTenths(data: seq<byte>): (r: int)
    requires |data| == 8
    ensures -0x7FFF <= r <= 0x7FFF
    ensures (if r < 0 then -r else r) == data[4] as int % 128 * 256 + data[5]
    ensures r < 0 ==> data[4] >= 128
    ensures data[4] >= 128 ==> r <= 0
  {
    Magnitude(data[4], data[5]);
    var temp := BitOr(Shl(BitAnd(data[4], 0x7F), 8), data[5]);
    if BitSet(data[4], 7) then temp * -1 else temp
  }

  /** What `measure()` returns: both values decoded from one frame. */
  datatype Measurement = Measurement(temperature: int, humidity: nat)

  /** `measure()`, given the frame read.  The two values come from the same
      frame rather than from two requests. */
  function Measure(data: seq<byte>): (m: Measurement)
    requires |data| == 8
    ensures m.humidity == data[2] as int * 256 + data[3]
    ensures (if m.temperature < 0 then -m.temperature else m.temperature) == data[4] as int % 128 * 256 + data[5]
    ensures m.temperature < 0 ==> data[4] >= 128
    ensures data[4] >= 128 ==> m.temperature <= 0
  {
    Measurement(TemperatureTenths(data), HumidityTenths(data))
  }

  /** Only bytes 2 to 5 reach the results: the function code, the byte count
      and the CRC are neither checked nor used. */
  lemma OnlyPayloadBytes(data: seq<byte>, data': seq<byte>)
    requires |data| == 8 && |data'| == 8 && data[2..6] == data'[2..6]
    ensures HumidityTenths(data) == HumidityTenths(data')
    ensures TemperatureTenths(data) == TemperatureTenths(data')
    ensures Measure(data) == Measure(data')
  {
    assert data[2] == data[2..6][0] == data'[2];
    assert data[3] == data[2..6][1] == data'[3];
    assert data[4] == data[2..6][2] == data'[4];
    assert data[5] == data[2..6][3] == data'[5];
  }
}
