/** Integer and bit-level operations with the semantics of Python 2 on
    unbounded integers, which is what every driver in this model computes
    with: `/` on two ints is floor division, `>>` is an arithmetic (floor)
    shift, `<<` multiplies by a power of two, and `|` and `&` act on the
    binary digits.  The lemmas give `|` and `&` their arithmetic meaning in
    the shapes the drivers use (disjoint bit fields, low masks, single bits). */
module Bits {

  /** What an SMBus byte read returns. */
  type byte = x: int | 0 <= x < 0x100

  /** What an SMBus word read returns. */
  type word = x: int | 0 <= x < 0x1_0000

  function Pow2(k: nat): (r: nat)
    ensures r >= 1
  {
    if k == 0 then 1 else 2 * Pow2(k - 1)
  }

  /** Python `x << k`. */
  function Shl(x: int, k: nat): int
  {
    x * Pow2(k)
  }

  /** Python 2 `a / b` on ints: the quotient rounded towards minus infinity.
      Dafny's own `/` is Euclidean and differs when `b` is negative. */
  function FloorDiv(a: int, b: int): (r: int)
    requires b != 0
    ensures b > 0 ==> b * r <= a < b * r + b
    ensures b < 0 ==> b * r + b < a <= b * r
  {
    if b > 0 then a / b else (-a) / (-b)
  }

  /** Python `x >> k`: the floor of `x / 2^k`, also for negative `x`. */
  function Shr(x: int, k: nat): (r: int)
    ensures Pow2(k) * r <= x < Pow2(k) * r + Pow2(k)
    ensures x >= 0 ==> r >= 0
  {
    var q := FloorDiv(x, Pow2(k));
    assert x >= 0 ==> q >= 0 by {
      if q < 0 {
        MulAtLeast(Pow2(k), -q);
      }
    }
    q
  }

  /** Python `a | b` on non-negative ints, digit by digit. */
  function BitOr(a: nat, b: nat): (r: nat)
    ensures a <= r && b <= r && r <= a + b
    decreases a + b
  {
    if a == 0 then b
    else if b == 0 then a
    else 2 * BitOr(a / 2, b / 2) + (if a % 2 == 1 || b % 2 == 1 then 1 else 0)
  }

  /** Python `a & b` on non-negative ints, digit by digit. */
  function BitAnd(a: nat, b: nat): (r: nat)
    ensures r <= a && r <= b
    decreases a + b
  {
    if a == 0 || b == 0 then 0
    else 2 * BitAnd(a / 2, b / 2) + (if a % 2 == 1 && b % 2 == 1 then 1 else 0)
  }

  /** Python truthiness of `x & (1 << k)`: bit `k` of `x`. */
  predicate BitSet(x: nat, k: nat)
  {
    BitAnd(x, Pow2(k)) != 0
  }

  /** `ctypes.c_ushort(w).value`: the low 16 bits of `w`. */
  function Unsigned16(w: int): (r: int)
    ensures 0 <= r < 0x1_0000
    ensures 0 <= w < 0x1_0000 ==> r == w
  {
    w % 0x1_0000
  }

  /** `ctypes.c_short(w).value`: the low 16 bits of `w` read as two's complement. */
  function Signed16(w: int): (r: int)
    ensures -0x8000 <= r < 0x8000
    ensures 0 <= w < 0x1_0000 ==> r == (if w < 0x8000 then w else w - 0x1_0000)
  {
    var u := w % 0x1_0000;
    if u < 0x8000 then u else u - 0x1_0000
  }

  /** `ctypes.c_ubyte(b).value`: the low 8 bits of `b`. */
  function Unsigned8(b: int): (r: int)
    ensures 0 <= r < 0x100
    ensures 0 <= b < 0x100 ==> r == b
  {
    b % 0x100
  }

  /** `ctypes.c_byte(b).value`: the low 8 bits of `b` read as two's complement. */
  function Signed8(b: int): (r: int)
    ensures -0x80 <= r < 0x80
    ensures 0 <= b < 0x100 ==> r == (if b < 0x80 then b else b - 0x100)
  {
    var u := b % 0x100;
    if u < 0x80 then u else u - 0x100
  }

  /** Each conversion keeps its argument's value modulo `2^16` or `2^8`, so
      with its range it is the one value of that width congruent to the
      argument. */
  lemma ConversionsWrap(w: int)
    ensures (Unsigned16(w) - w) % 0x1_0000 == 0 && (Signed16(w) - w) % 0x1_0000 == 0
    ensures (Unsigned8(w) - w) % 0x100 == 0 && (Signed8(w) - w) % 0x100 == 0
  {
    DivModUnique(w, 0x1_0000, w / 0x1_0000, w % 0x1_0000);
    DivModUnique(w, 0x100, w / 0x100, w % 0x100);
    DivModUnique(Unsigned16(w) - w, 0x1_0000, -(w / 0x1_0000), 0);
    DivModUnique(Unsigned8(w) - w, 0x100, -(w / 0x100), 0);
    if w % 0x1_0000 >= 0x8000 {
      DivModUnique(Signed16(w) - w, 0x1_0000, -(w / 0x1_0000) - 1, 0);
    } else {
      DivModUnique(Signed16(w) - w, 0x1_0000, -(w / 0x1_0000), 0);
    }
    if w % 0x100 >= 0x80 {
      DivModUnique(Signed8(w) - w, 0x100, -(w / 0x100) - 1, 0);
    } else {
      DivModUnique(Signed8(w) - w, 0x100, -(w / 0x100), 0);
    }
  }

  /** `(msb << 8) | lsb`: the big-endian word of two bytes, from which both
      bytes can be read back. */
  function BigEndian(msb: byte, lsb: byte): (r: word)
    ensures r == msb as int * 256 + lsb
    ensures r / 256 == msb && r % 256 == lsb
  {
    Pow2Table();
    OrBelow(msb, lsb, 8);
    DivModUnique(msb as int * 256 + lsb, 256, msb, lsb);
    BitOr(Shl(msb, 8), lsb)
  }

  /** The powers of two the drivers shift by, as literals. */
  lemma Pow2Table()
    ensures Pow2(3) == 8 && Pow2(4) == 16 && Pow2(7) == 128 && Pow2(8) == 256
    ensures Pow2(10) == 1024 && Pow2(11) == 2048 && Pow2(12) == 4096
    ensures Pow2(13) == 8192 && Pow2(14) == 16384 && Pow2(15) == 32768
    ensures Pow2(16) == 0x1_0000 && Pow2(17) == 0x2_0000 && Pow2(19) == 0x8_0000
    ensures Pow2(20) == 0x10_0000 && Pow2(25) == 0x200_0000 && Pow2(31) == 0x8000_0000
    ensures Pow2(32) == 0x1_0000_0000 && Pow2(33) == 0x2_0000_0000
    ensures Pow2(35) == 0x8_0000_0000 && Pow2(47) == 0x8000_0000_0000
  {
    assert Pow2(10) == 1024;
    assert Pow2(20) == 0x10_0000;
    assert Pow2(30) == 0x4000_0000;
    assert Pow2(40) == 0x100_0000_0000;
  }

  // ---------------------------------------------------------------------
  // Division facts used by the bit lemmas

  lemma SquareBound(v: int, n: int)
    requires 0 <= n && -n <= v <= n
    ensures 0 <= v * v <= n * n
  {
    ProductBound(v, v, n, n);
    if v < 0 {
      assert v * v == (-v) * (-v);
    }
  }

  /** `|a * b| <= A * B` when `|a| <= A` and `|b| <= B`. */
  lemma ProductBound(a: int, b: int, A: int, B: int)
    requires -A <= a <= A && -B <= b <= B
    ensures -(A * B) <= a * b <= A * B
  {
    var x, y := if a < 0 then -a else a, if b < 0 then -b else b;
    MulNonNegative(A - x, y);
    MulNonNegative(A, B - y);
    assert x * y <= A * B;
    if a < 0 && b < 0 {
      assert a * b == x * y;
    } else if a < 0 {
      assert a * b == -(x * y);
    } else if b < 0 {
      assert a * b == -(x * y);
    } else {
      assert a * b == x * y;
    }
  }

  lemma MulNonNegative(p: int, q: int)
    requires p >= 0 && q >= 0
    ensures p * q >= 0
  {
  }

  lemma MulAtLeast(d: int, n: int)
    requires d > 0 && n >= 1
    ensures d * n >= d
  {
    assert d * n == d + d * (n - 1);
  }

  lemma MulTwice(o: int, p: int)
    ensures o * (2 * p) == 2 * (o * p)
  {
  }

  lemma DivModUnique(x: int, d: int, q: int, m: int)
    requires d > 0 && x == d * q + m && 0 <= m < d
    ensures x / d == q && x % d == m
  {
    var q0, m0 := x / d, x % d;
    assert d * (q0 - q) == m - m0;
    if q0 > q {
      MulAtLeast(d, q0 - q);
    } else if q0 < q {
      MulAtLeast(d, q - q0);
    }
  }

  /** A right shift is a floor division by the power of two. */
  lemma ShrIsDiv(x: int, k: nat)
    ensures Shr(x, k) == x / Pow2(k)
  {
    var r := Shr(x, k);
    DivModUnique(x, Pow2(k), r, x - Pow2(k) * r);
  }

  /** A quotient below the other factor of a bound. */
  lemma DivBelow(x: int, p: int, q: int)
    requires p > 0 && 0 <= x < p * q
    ensures x / p < q
  {
    var d := x / p;
    assert (d - q) * p == p * d - p * q;
    assert (d - q) * p < 0;
  }

  /** `(r << k) >> k == r`. */
  lemma ShrOfShl(r: int, k: nat)
    ensures Shr(r * Pow2(k), k) == r
  {
    DivModUnique(r * Pow2(k), Pow2(k), r, 0);
  }

  /** Halving, then dividing by `2^(k-1)`, is dividing by `2^k`. */
  lemma HalfThenShift(x: nat, k: nat)
    requires k >= 1
    ensures x / 2 / Pow2(k - 1) == x / Pow2(k)
    ensures x % Pow2(k) == 2 * (x / 2 % Pow2(k - 1)) + x % 2
  {
    var p := Pow2(k - 1);
    var h, b := x / 2, x % 2;
    var q, m := h / p, h % p;
    assert h == p * q + m;
    assert x == Pow2(k) * q + (2 * m + b) by {
      assert x == 2 * h + b;
      assert Pow2(k) * q == 2 * (p * q);
    }
    DivModUnique(x, Pow2(k), q, 2 * m + b);
  }

  // ---------------------------------------------------------------------
  // `|` and `&` in the shapes the drivers use

  lemma {:induction false} OrCommutes(a: nat, b: nat)
    ensures BitOr(a, b) == BitOr(b, a)
    decreases a + b
  {
    if a != 0 && b != 0 {
      OrCommutes(a / 2, b / 2);
    }
  }

  /** Or-ing a value that fits below bit `k` into a multiple of `2^k` adds it. */
  lemma {:induction false} OrBelow(a: nat, b: nat, k: nat)
    requires b < Pow2(k)
    ensures BitOr(a * Pow2(k), b) == a * Pow2(k) + b
  {
    if k > 0 && a != 0 && b != 0 {
      var h := a * Pow2(k - 1);
      assert a * Pow2(k) == 2 * h;
      assert (2 * h) / 2 == h && (2 * h) % 2 == 0;
      OrBelow(a, b / 2, k - 1);
    }
  }

  lemma OrDouble(x: nat, y: nat)
    requires x > 0 && y > 0
    ensures BitOr(2 * x, 2 * y) == 2 * BitOr(x, y)
  {
    assert (2 * x) / 2 == x && (2 * x) % 2 == 0;
    assert (2 * y) / 2 == y && (2 * y) % 2 == 0;
  }

  /** Or commutes with a common left shift. */
  lemma {:induction false} OrShifted(a: nat, b: nat, k: nat)
    ensures BitOr(a * Pow2(k), b * Pow2(k)) == BitOr(a, b) * Pow2(k)
  {
    if k == 0 {
      assert Pow2(0) == 1;
    } else if a != 0 && b != 0 {
      var p := Pow2(k - 1);
      assert Pow2(k) == 2 * p;
      MulTwice(a, p);
      MulTwice(b, p);
      MulAtLeast(p, a);
      MulAtLeast(p, b);
      OrDouble(a * p, b * p);
      OrShifted(a, b, k - 1);
      MulTwice(BitOr(a, b), p);
    }
  }

  /** Two fields packed side by side: `(a << k) | b` with `b < 2^k`. */
  lemma OrFields(a: nat, b: nat, k: nat)
    requires b < Pow2(k)
    ensures BitOr(Shl(a, k), b) == a * Pow2(k) + b
    ensures BitOr(b, Shl(a, k)) == a * Pow2(k) + b
  {
    OrBelow(a, b, k);
    OrCommutes(b, Shl(a, k));
  }

  lemma {:induction false} Pow2Add(m: nat, n: nat)
    ensures Pow2(m + n) == Pow2(m) * Pow2(n)
  {
    if m == 0 {
      assert Pow2(0) == 1;
    } else {
      Pow2Add(m - 1, n);
      var a, b := Pow2(m - 1), Pow2(n);
      assert Pow2(m + n) == 2 * Pow2(m - 1 + n);
      assert Pow2(m) == 2 * a;
      MulTwice(b, a);
      assert Pow2(m) * b == b * (2 * a);
    }
  }

  /** Three fields packed side by side: `(a << (kb + kc)) | (b << kc) | c`. */
  lemma Pack3(a: nat, b: nat, c: nat, kb: nat, kc: nat)
    requires b < Pow2(kb) && c < Pow2(kc)
    ensures BitOr(BitOr(Shl(a, kb + kc), Shl(b, kc)), c) == (a * Pow2(kb) + b) * Pow2(kc) + c
  {
    var low := a * Pow2(kb) + b;
    assert BitOr(Shl(a, kb + kc), Shl(b, kc)) == low * Pow2(kc) by {
      ShlAdd(a, kb, kc);
      PackShifted(a, b, kb, kc);
    }
    OrBelow(low, c, kc);
  }

  lemma ShlAdd(a: nat, kb: nat, kc: nat)
    ensures Shl(a, kb + kc) == (a * Pow2(kb)) * Pow2(kc)
  {
    Pow2Add(kb, kc);
    MulAssoc(a, Pow2(kb), Pow2(kc));
  }

  lemma MulAssoc(a: int, b: int, c: int)
    ensures a * (b * c) == (a * b) * c
  {
  }

  lemma PackShifted(a: nat, b: nat, kb: nat, kc: nat)
    requires b < Pow2(kb)
    ensures BitOr((a * Pow2(kb)) * Pow2(kc), b * Pow2(kc)) == (a * Pow2(kb) + b) * Pow2(kc)
  {
    var high := a * Pow2(kb);
    assert BitOr(high, b) == high + b by {
      OrBelow(a, b, kb);
    }
    OrShifted(high, b, kc);
  }

  /** A mask of the `k` low bits keeps the remainder modulo `2^k`. */
  lemma {:induction false} AndLowMask(x: nat, k: nat)
    ensures BitAnd(x, Pow2(k) - 1) == x % Pow2(k)
  {
    if k == 0 {
      assert Pow2(0) == 1 && BitAnd(x, 0) == 0;
      DivModUnique(x, 1, x, 0);
    } else if x == 0 {
      DivModUnique(0, Pow2(k), 0, 0);
    } else {
      var p := Pow2(k - 1);
      var m := Pow2(k) - 1;
      DivModUnique(m, 2, p - 1, 1);
      AndOddMask(x, m);
      AndLowMask(x / 2, k - 1);
      HalfThenShift(x, k);
    }
  }

  /** One step of `&` with an odd mask: the low bit of `x` survives. */
  lemma AndOddMask(x: nat, m: nat)
    requires x > 0 && m % 2 == 1
    ensures BitAnd(x, m) == 2 * BitAnd(x / 2, m / 2) + x % 2
  {
  }

  lemma AndDouble(x: nat, y: nat)
    requires x > 0 && y > 0
    ensures BitAnd(x, 2 * y) == 2 * BitAnd(x / 2, y)
  {
    assert (2 * y) / 2 == y && (2 * y) % 2 == 0;
  }

  /** A mask shifted left by `k` selects from `x >> k`. */
  lemma {:induction false} AndShiftedMask(x: nat, m: nat, k: nat)
    ensures BitAnd(x, m * Pow2(k)) == BitAnd(Shr(x, k), m) * Pow2(k)
  {
    if k == 0 {
      assert Pow2(0) == 1 && Shr(x, 0) == x;
    } else if x == 0 {
      assert Shr(0, k) == 0;
    } else if m != 0 {
      var p := Pow2(k - 1);
      assert Pow2(k) == 2 * p;
      MulTwice(m, p);
      MulAtLeast(p, m);
      AndDouble(x, m * p);
      AndShiftedMask(x / 2, m, k - 1);
      HalfThenShift(x, k);
      assert Shr(x / 2, k - 1) == Shr(x, k);
      MulTwice(BitAnd(Shr(x, k), m), p);
    }
  }

  /** `x & (1 << k)` is `2^k` when bit `k` of `x` is set and `0` otherwise. */
  lemma AndSingleBit(x: nat, k: nat)
    ensures BitAnd(x, Pow2(k)) == (if Shr(x, k) % 2 == 1 then Pow2(k) else 0)
    ensures BitSet(x, k) <==> Shr(x, k) % 2 == 1
  {
    AndShiftedMask(x, 1, k);
    var y := Shr(x, k);
    if y != 0 {
      assert BitAnd(y, 1) == 2 * BitAnd(y / 2, 0) + (if y % 2 == 1 then 1 else 0);
    }
  }

  /** `(x & (m << k)) >> k` is `(x >> k) & m`. */
  lemma AndShiftedMaskShr(x: nat, m: nat, k: nat)
    ensures Shr(BitAnd(x, m * Pow2(k)), k) == BitAnd(Shr(x, k), m)
  {
    AndShiftedMask(x, m, k);
    ShrOfShl(BitAnd(Shr(x, k), m), k);
  }

  /** The two bytes of a word as the drivers mask them out: the low byte,
      the high byte in place, and the high byte shifted down. */
  lemma WordBytes(w: word)
    ensures BitAnd(w, 0x00ff) == w % 256
    ensures BitAnd(w, 0xff00) == w / 256 * 256
    ensures Shr(BitAnd(w, 0xff00), 8) == w / 256
  {
    LowByteMask(w);
    HighByteMask(w);
  }

  lemma LowByteMask(w: word)
    ensures BitAnd(w, 0x00ff) == w % 256
  {
    assert Pow2(8) == 256;
    AndLowMask(w, 8);
  }

  lemma HighByteMask(w: word)
    ensures BitAnd(w, 0xff00) == w / 256 * 256
    ensures Shr(BitAnd(w, 0xff00), 8) == w / 256
  {
    ShrByte(w);
    HighByteInPlace(w);
    assert Pow2(8) == 256;
    ShrOfShl(w / 256, 8);
  }

  lemma ShrByte(x: nat)
    ensures Shr(x, 8) == x / 256
  {
    assert Pow2(8) == 256;
    DivModUnique(x, 256, Shr(x, 8), x - 256 * Shr(x, 8));
  }

  lemma HighByteInPlace(w: word)
    ensures BitAnd(w, 0xff00) == Shr(w, 8) * 256
  {
    var y := Shr(w, 8);
    assert Pow2(8) == 256;
    assert BitAnd(w, 0xff00) == BitAnd(y, 0xff) * 256 by {
      AndShiftedMask(w, 0xff, 8);
    }
    assert BitAnd(y, 0xff) == y by {
      ShrByte(w);
      AndLowMask(y, 8);
      DivModUnique(y, 256, 0, y);
    }
  }
}
