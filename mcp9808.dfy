/** The Microchip MCP9808 temperature sensor driver: decoding the ambient
    temperature register and checking the device identity.

    The SMBus word read delivers the register's first byte in its low half,
    so the driver swaps the two bytes before decoding.  The decoded register
    holds three alert flags (bits 15 to 13), a sign bit (12) and a 12-bit
    magnitude in sixteenths of a degree. */
module MCP9808 {
  import opened Bits
  import opened Wrappers

  const REG_TMP := 0x05
  const REG_MANUF_ID := 0x06
  const REG_DEVICE_ID := 0x07
  const MANUF_ID := 0x54
  const DEVICE_ID := 0x04

  lemma SwapFields(data: word)
    ensures BitOr(Shl(BitAnd(data, 0x00ff), 8), Shr(BitAnd(data, 0xff00), 8)) == (data % 256) * 256 + data / 256
  {
    Pow2Table();
    WordBytes(data);
    OrFields(data % 256, data / 256, 8);
  }

  /** `(data & 0xff) << 8 | (data & 0xff00) >> 8`: the word with its two
      bytes exchanged. */
  function SwapBytes(data: word): (w: word)
    ensures w / 256 == data % 256 && w % 256 == data / 256
  {
    SwapFields(data);
    DivModUnique((data % 256) * 256 + data / 256, 256, data % 256, data / 256);
    BitOr(Shl(BitAnd(data, 0x00ff), 8), Shr(BitAnd(data, 0xff00), 8))
  }

  /** Swapping twice gives the word back. */
  lemma SwapInvolution(data: word)
    ensures SwapBytes(SwapBytes(data)) == data
  {
    var w := SwapBytes(data);
    var v := SwapBytes(w);
    DivModUnique(v, 256, v / 256, v % 256);
    DivModUnique(data, 256, data / 256, data % 256);
  }

  lemma SignAndMagnitude(w: word)
    ensures BitAnd(w, 0x0fff) == w % 4096
    ensures BitSet(w, 12) <==> w / 4096 % 2 == 1
  {
    Pow2Table();
    AndLowMask(w, 12);
    AndSingleBit(w, 12);
    DivModUnique(w, 4096, Shr(w, 12), w - 4096 * Shr(w, 12));
  }

  /** A 12-bit magnitude with a sign bit above it, minus 4096 when the sign
      bit is set, is the low 13 bits read in two's complement. */
  lemma ThirteenBitSigned(w: word, negative: bool, r: int)
    requires negative <==> w / 4096 % 2 == 1
    requires r == if negative then w % 4096 - 4096 else w % 4096
    ensures r == if w % 8192 < 4096 then w % 8192 else w % 8192 - 8192
  {
    var h := w / 4096;
    DivModUnique(w, 4096, h, w % 4096);
    DivModUnique(h, 2, h / 2, h % 2);
    DivModUnique(w, 8192, h / 2, 4096 * (h % 2) + w % 4096);
  }

  /** The temperature in sixteenths of a degree: the register's low 13 bits
      read as a two's-complement number. */
  function TemperatureSixteenths(data: word): (r: int)
    ensures -4096 <= r < 4096
    ensures var w := SwapBytes(data) % 8192; r == if w < 4096 then w else w - 8192
  {
    var w := SwapBytes(data);
    SignAndMagnitude(w);
    var t := BitAnd(w, 0x0fff);
    var r := if BitSet(w, 12) then t - 256 * 16 else t;
    ThirteenBitSigned(w, BitSet(w, 12), r);
    r
  }

  /** Bits 13 to 15 of the register (the alert flags) never change the
      temperature. */
  lemma AlertFlagsIgnored(data: word, data': word)
    requires SwapBytes(data) % 8192 == SwapBytes(data') % 8192
    ensures TemperatureSixteenths(data) == TemperatureSixteenths(data')
  {
  }

  /** `_get_temperature` (the `temperature` property and `measure()`), in
      sixteenths of a degree, given what the word read returned.  A failed
      read is `None`, and masking it raises a TypeError. */
  function GetTemperature(data: Option<word>): (r: Outcome<int>)
    ensures r.Raised? <==> data.None?
    ensures r.Raised? ==> r.fault == TypeError
    ensures r.Returned? ==> r.value == TemperatureSixteenths(data.value)
  {
    if data.None? then Raised(TypeError) else Returned(TemperatureSixteenths(data.value))
  }

  /** `_read_manuf_id`: the high byte of the word read at 0x06. */
  function ManufacturerId(word: Option<word>): (r: Outcome<byte>)
    ensures r.Raised? <==> word.None?
    ensures r.Raised? ==> r.fault == TypeError
    ensures r.Returned? ==> r.value == word.value / 256
  {
    if word.None? then Raised(TypeError)
    else
      WordBytes(word.value);
      Returned(Shr(BitAnd(word.value, 0xff00), 8))
  }

  /** `__init__` followed by `ok()`, given the device id byte and the
      manufacturer id word read.  The construction fails when the word read
      failed; otherwise `ok()` holds exactly when the manufacturer id is
      0x54 and the device id read back 0x04. */
  function Ok(deviceId: Option<byte>, manufWord: Option<word>): (r: Outcome<bool>)
    ensures r.Raised? <==> manufWord.None?
    ensures r.Returned? ==> (r.value <==> manufWord.value / 256 == MANUF_ID && deviceId == Some(DEVICE_ID))
  {
    var manufId := ManufacturerId(manufWord);
    if manufId.Raised? then Raised(manufId.fault)
    else Returned(manufId.value == MANUF_ID && deviceId == Some(DEVICE_ID))
  }
}
