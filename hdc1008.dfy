/** The Texas Instruments HDC1008 humidity and temperature sensor driver:
    the configuration written at start-up, the serial number assembled from
    three identification registers, and the raw measurement words.  Each
    register is read as two bytes, most significant first, and assembled by
    `Bits.BigEndian`. */
module HDC1008 {
  import opened Bits

  const TMP_HUM := 0x1000      // 1 << 12
  const TMP_RES_14 := 0
  const TMP_RES_11 := 0x0400   // 1 << 10
  const HUM_RES_14 := 0
  const HUM_RES_11 := 0x0100   // 1 << 8
  const HUM_RES_8 := 0x0200    // 2 << 8

  const REG_CONF := 0x02
  const REG_SER_ID1 := 0xfb
  const REG_SER_ID2 := 0xfc
  const REG_SER_ID3 := 0xfd

  /** `_config` as `__init__` sets it: temperature and humidity both
      acquired, 14-bit resolution for each. */
  function DefaultConfig(): (config: word)
    ensures config == 0x1000
  {
    BitOr(BitOr(TMP_HUM, HUM_RES_14), TMP_RES_14)
  }

  /** `_configure`: the bytes written, the configuration register address
      and then the setting, high byte first. */
  function ConfigureFrame(config: word): (frame: seq<byte>)
    ensures |frame| == 3 && frame[0] == REG_CONF
    ensures frame[1] as int * 256 + frame[2] == config
  {
    Pow2Table();
    AndLowMask(config, 8);
    DivModUnique(config, 256, Shr(config, 8), config - 256 * Shr(config, 8));
    [REG_CONF, Shr(config, 8), BitAnd(config, 0xff)]
  }

  /** The frame for the default configuration. */
  lemma DefaultFrame()
    ensures ConfigureFrame(DefaultConfig()) == [0x02, 0x10, 0x00]
  {
    var f := ConfigureFrame(DefaultConfig());
    DivModUnique(0x1000, 256, f[1], f[2]);
  }

  /** `_read_serial`, given the three identification words:
      `((id1 << 32) | (id2 << 16) | id3) >> 7`.  It is below 2^41, and it
      holds `id1`, `id2` and the top nine bits of `id3` side by side. */
  function Serial(id1: word, id2: word, id3: word): (r: nat)
    ensures r == (id1 * 0x1_0000_0000 + id2 * 0x1_0000 + id3) / 128
    ensures r < 0x200_0000_0000
    ensures r / 0x200_0000 == id1 && r / 0x200 % 0x1_0000 == id2 && r % 0x200 == id3 / 128
  {
    Pow2Table();
    Pack3(id1, id2, id3, 16, 16);
    SerialFields(id1, id2, id3);
    Shr(BitOr(BitOr(Shl(id1, 32), Shl(id2, 16)), id3), 7)
  }

  lemma SerialFields(id1: word, id2: word, id3: word)
    ensures var x := id1 * 0x1_0000_0000 + id2 * 0x1_0000 + id3;
      x / 128 < 0x200_0000_0000 &&
      x / 128 / 0x200_0000 == id1 && x / 128 / 0x200 % 0x1_0000 == id2 && x / 128 % 0x200 == id3 / 128
  {
    var x := id1 * 0x1_0000_0000 + id2 * 0x1_0000 + id3;
    var r := id1 * 0x200_0000 + id2 * 0x200 + id3 / 128;
    DivModUnique(id3, 128, id3 / 128, id3 % 128);
    assert x == 128 * r + id3 % 128;
    DivModUnique(x, 128, r, id3 % 128);
    DivModUnique(r, 0x200_0000, id1, id2 * 0x200 + id3 / 128);
    DivModUnique(r, 0x200, id1 * 0x1_0000 + id2, id3 / 128);
    DivModUnique(id1 * 0x1_0000 + id2, 0x1_0000, id1, id2);
  }
}
