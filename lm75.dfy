/** The National LM75 temperature sensor driver: decoding the temperature
    register, in half degrees.

    The SMBus word read holds the register's first byte (whole degrees) in
    its low half and the second byte, whose bit 7 is the half degree, in its
    high half.  The driver masks the high half but does not shift it down
    before testing bit 7, so the half degree it reads is always 0.  Both the
    decoding as written and the decoding with the shift are modelled; the
    driver's operations return the first, as the code does, and a lemma
    states where the two part. */
module LM75 {
  import opened Bits
  import opened Wrappers

  const REG_TMP := 0x00

  /** Bit 7 of the masked, unshifted high half is always clear. */
  lemma MaskedHighHalfBit7(data: word)
    ensures BitAnd(BitAnd(data, 0xff00), 0x80) == 0
  {
    var y := data / 256;
    var masked := BitAnd(data, 0xff00);
    assert Pow2(7) == 128;
    assert masked == (2 * y) * Pow2(7) by {
      WordBytes(data);
    }
    assert Shr(masked, 7) % 2 == 0 by {
      ShrOfShl(2 * y, 7);
    }
    AndSingleBit(masked, 7);
  }

  /** Bit 7 of the high byte is bit 15 of the word. */
  lemma HighByteBit7(data: word)
    ensures BitAnd(Shr(BitAnd(data, 0xff00), 8), 0x80) == (if data >= 0x8000 then 0x80 else 0)
  {
    var y := data / 256;
    assert Shr(BitAnd(data, 0xff00), 8) == y by {
      WordBytes(data);
    }
    assert Pow2(7) == 128;
    assert Shr(y, 7) == (if data >= 0x8000 then 1 else 0) by {
      DivModUnique(y, 128, Shr(y, 7), y - 128 * Shr(y, 7));
    }
    AndSingleBit(y, 7);
  }

  /** `_get_temperature` as written, in half degrees: twice the low byte
      plus `((data & 0xff00) & 0x80) >> 7`, which is 0 for every word. */
  function TemperatureHalvesAsWritten(data: word): (r: nat)
    ensures r == 2 * (data % 256)
    ensures r % 2 == 0 && r <= 510
  {
    WordBytes(data);
    MaskedHighHalfBit7(data);
    assert Pow2(7) == 128;
    var msb := BitAnd(data, 0x00ff);
    var lsb := BitAnd(data, 0xff00);
    2 * msb + Shr(BitAnd(lsb, 0x80), 7)
  }

  /** `_get_temperature` with the high byte shifted down, in half degrees:
      twice the low byte (whole degrees) plus bit 7 of the high byte. */
  function TemperatureHalves(data: word): (r: nat)
    ensures r / 2 == data % 256
    ensures r % 2 == (if data >= 0x8000 then 1 else 0)
    ensures r <= 511
  {
    WordBytes(data);
    HighByteBit7(data);
    assert Pow2(7) == 128;
    var msb := BitAnd(data, 0x00ff);
    var lsb := Shr(BitAnd(data, 0xff00), 8);
    assert Shr(0x80, 7) == 1 && Shr(0, 7) == 0;
    2 * msb + Shr(BitAnd(lsb, 0x80), 7)
  }

  /** The two decodings agree exactly on the words whose half-degree bit is
      clear; a word with it set, 0x8019 (25.5 degrees), reads 25.0 as
      written. */
  lemma HalfDegreeLost(data: word)
    ensures TemperatureHalvesAsWritten(data) == TemperatureHalves(data) <==> data < 0x8000
    ensures TemperatureHalvesAsWritten(0x8019) == 50 && TemperatureHalves(0x8019) == 51
  {
    var r := TemperatureHalves(data);
    DivModUnique(r, 2, r / 2, r % 2);
    var e := TemperatureHalves(0x8019);
    DivModUnique(e, 2, e / 2, e % 2);
  }

  /** `_get_temperature` (the `temperature` property and `measure()`) given
      what the word read returned.  A failed read is `None`, and masking it
      raises a TypeError.  A value is the decoding as written: a whole
      number of degrees, the low byte of the word. */
  function GetTemperature(data: Option<word>): (r: Outcome<nat>)
    ensures r.Raised? <==> data.None?
    ensures r.Raised? ==> r.fault == TypeError
    ensures r.Returned? ==> r.value == TemperatureHalvesAsWritten(data.value)
    ensures r.Returned? ==> r.value == 2 * (data.value % 256)
  {
    if data.None? then Raised(TypeError) else Returned(TemperatureHalvesAsWritten(data.value))
  }

  /** `ok()`: no identity check at all. */
  function Ok(): (r: bool)
    ensures r
  {
    true
  }
}
