/** Byte and word helpers shared by every component: the 16-bit unsigned
    type of addresses and register pairs, the explicit pack/unpack that
    replaces the register-pair unions of src/sm83.h, 16-bit wrap-around, and
    the signed displacement used by relative jumps and SP arithmetic. */
module Bytes {

  /** A C `u16`: an address, PC, SP or a register pair. */
  newtype u16 = x: int | 0 <= x < 0x10000

  /** High byte of a 16-bit word. */
  function Hi(w: u16): bv8 {
    (w / 256) as bv8
  }

  /** Low byte of a 16-bit word. */
  function Lo(w: u16): bv8 {
    (w % 256) as bv8
  }

  lemma ByteToInt(x: bv8)
    ensures (x as int) as bv8 == x
  {
  }

  lemma IntToByte(x: int)
    requires 0 <= x < 256
    ensures (x as bv8) as int == x
  {
    var y: bv16 := x as bv16;
    assert y < 256;
    assert x as bv8 == y as bv8;
  }

  lemma DivModBytes(h: int, l: int)
    requires 0 <= h < 256 && 0 <= l < 256
    ensures (h * 256 + l) / 256 == h && (h * 256 + l) % 256 == l
  {
  }

  /** The word whose high byte is `hi` and low byte is `lo` (AF = A<<8 | F). */
  function Pack(hi: bv8, lo: bv8): u16 {
    (hi as int * 256 + lo as int) as u16
  }

  /** Packing then unpacking gives the high byte back. */
  lemma HiOfPack(hi: bv8, lo: bv8)
    ensures Hi(Pack(hi, lo)) == hi
  {
    DivModBytes(hi as int, lo as int);
    ByteToInt(hi);
  }

  /** Packing then unpacking gives the low byte back. */
  lemma LoOfPack(hi: bv8, lo: bv8)
    ensures Lo(Pack(hi, lo)) == lo
  {
    DivModBytes(hi as int, lo as int);
    ByteToInt(lo);
  }

  /** Unpacking a word and packing its halves gives the word back. */
  lemma PackOfHalves(w: u16)
    ensures Pack(Hi(w), Lo(w)) == w
  {
    IntToByte(w as int / 256);
    IntToByte(w as int % 256);
  }

  /** The high byte as a number. */
  lemma HiAsInt(x: u16)
    ensures Hi(x) as int == x as int / 256
  {
    IntToByte(x as int / 256);
  }

  /** The low byte as a number. */
  lemma LoAsInt(x: u16)
    ensures Lo(x) as int == x as int % 256
  {
    IntToByte(x as int % 256);
  }

  /** The low nibble of a byte as a number. */
  lemma NibbleAsInt(x: bv8)
    ensures (x & 0x0F) as int == x as int % 16
  {
  }

  /** Unsigned byte comparison agrees with comparison of the numbers. */
  lemma ByteLess(x: bv8, y: bv8)
    ensures (x < y) == (x as int < y as int)
  {
  }

  /** `w + k` in 16-bit arithmetic, wrapping modulo 0x10000 as `u16` does in C. */
  function Add16(w: u16, k: int): (r: u16)
    ensures (r as int - w as int - k) % 0x10000 == 0
  {
    ((w as int + k) % 0x10000) as u16
  }

  /** The value of a byte read as a two's-complement `s8`. */
  function Signed(d: bv8): (r: int)
    ensures -128 <= r < 128
    ensures d < 0x80 <==> r >= 0
    ensures r == d as int || r == d as int - 256
  {
    if d < 0x80 then d as int else d as int - 256
  }

  /** Bit `i` of a byte. */
  predicate BitSet(x: bv8, i: bv8)
    requires i < 8
  {
    x & (1 << i) != 0
  }

  /** The low byte of a 16-bit sum depends only on the low byte of the
      operand: adding `k` moves it by `k` modulo 256. */
  lemma LoOfAdd(w: u16, k: int)
    ensures Lo(Add16(w, k)) as int == (Lo(w) as int + k) % 256
  {
    LoAsInt(w);
    LoAsInt(Add16(w, k));
    var sum := w as int + k;
    var a, r := sum / 256, sum % 256;
    var q := sum / 0x10000;
    ModUnique(sum - 0x10000 * q, 256, a - 256 * q, r);
    ModUnique(w as int % 256 + k, 256, a - w as int / 256, r);
  }

  /** Two 16-bit additions in a row are one addition of the sum. */
  lemma Add16Twice(w: u16, j: int, k: int)
    ensures Add16(Add16(w, j), k) == Add16(w, j + k)
  {
  }

  // ------------------------------------------- bit operations on integers

  /** `1 << k` as a number. */
  function Pow2(k: nat): (r: nat)
    ensures r >= 1
  {
    if k == 0 then 1 else 2 * Pow2(k - 1)
  }

  /** The powers of two up to `1 << 9`. */
  lemma {:induction false} Pow2Table(k: nat)
    requires k <= 9
    ensures Pow2(k) == [1, 2, 4, 8, 16, 32, 64, 128, 256, 512][k]
  {
    if k > 0 {
      Pow2Table(k - 1);
    }
  }

  /** C's `&` on non-negative integers, taken bit by bit from the lowest. */
  function BitAnd(x: nat, y: nat): nat {
    if x == 0 || y == 0 then 0
    else 2 * BitAnd(x / 2, y / 2) + (if x % 2 == 1 && y % 2 == 1 then 1 else 0)
  }

  /** C's `|` on non-negative integers. */
  function BitOr(x: nat, y: nat): nat {
    if x == 0 then y
    else if y == 0 then x
    else 2 * BitOr(x / 2, y / 2) + (if x % 2 == 1 || y % 2 == 1 then 1 else 0)
  }

  /** A non-zero multiple of a positive `d` is at least `d` away from 0. */
  lemma MulBound(d: int, k: int)
    requires d > 0
    ensures k >= 1 ==> d * k >= d
    ensures k <= -1 ==> d * k <= -d
  {
    if k >= 1 {
      MulAtLeast(k, d);
    } else if k <= -1 {
      MulAtLeast(-k, d);
      assert d * k == -((-k) * d);
    }
  }

  /** Multiplying by a positive factor does not shrink a natural number. */
  lemma {:induction false} MulAtLeast(d: int, q: int)
    requires d >= 1 && q >= 0
    ensures d * q >= q
  {
    if d > 1 {
      MulAtLeast(d - 1, q);
      assert d * q == (d - 1) * q + q;
    }
  }

  /** The remainder is determined by any decomposition `x == d * a + m`. */
  lemma ModUnique(x: int, d: int, a: int, m: int)
    requires d > 0 && 0 <= m < d && x == d * a + m
    ensures x % d == m
  {
    var k := x / d - a;
    assert d * k == d * (x / d) - d * a;
    assert d * k == m - x % d;
    MulBound(d, k);
  }

  /** Quotient and remainder are determined by any decomposition
      `x == d * q + r` with `0 <= r < d`. */
  lemma DivModUnique(x: int, d: int, q: int, r: int)
    requires d > 0 && 0 <= r < d && x == d * q + r
    ensures x / d == q && x % d == r
  {
    ModUnique(x, d, q, r);
    var k := x / d - q;
    assert d * k == 0;
    MulBound(d, k);
  }

  lemma DivMod2(x: nat, p: nat)
    requires p >= 1
    ensures x % (2 * p) == 2 * ((x / 2) % p) + x % 2
  {
    var q := x / 2;
    var a := q / p;
    var b := q % p;
    assert x == 2 * q + x % 2;
    assert q == p * a + b;
    assert x == (2 * p) * a + (2 * b + x % 2);
    ModUnique(x, 2 * p, a, 2 * b + x % 2);
  }

  /** One step of `&` with an odd mask `2 p - 1`: the lowest bit is kept. */
  lemma AndOddMask(x: nat, p: nat)
    requires p >= 1
    ensures BitAnd(x, 2 * p - 1) == 2 * BitAnd(x / 2, p - 1) + x % 2
  {
    DivModUnique(2 * p - 1, 2, p - 1, 1);
  }

  /** Masking with `(1 << k) - 1` keeps the remainder modulo `1 << k`. */
  lemma {:induction false} AndLowMask(x: nat, k: nat)
    ensures BitAnd(x, Pow2(k) - 1) == x % Pow2(k)
  {
    if k > 0 && x > 0 {
      var p := Pow2(k - 1);
      assert Pow2(k) == 2 * p;
      AndOddMask(x, p);
      AndLowMask(x / 2, k - 1);
      DivMod2(x, p);
      assert BitAnd(x, 2 * p - 1) == x % (2 * p);
    } else if k == 0 {
      assert Pow2(k) == 1;
      DivModUnique(x, 1, x, 0);
    } else {
      assert x == 0;
    }
  }

  lemma MulAssoc2(p: int, a: int)
    ensures (2 * p) * a == 2 * (p * a)
  {
  }

  /** `x & (1 << k)` tests bit `k`. */
  lemma {:induction false} AndSingleBit(x: nat, k: nat)
    ensures BitAnd(x, Pow2(k)) != 0 <==> (x / Pow2(k)) % 2 == 1
  {
    if x > 0 && k > 0 {
      var p := Pow2(k - 1);
      DivModUnique(Pow2(k), 2, p, 0);
      assert BitAnd(x, Pow2(k)) == 2 * BitAnd(x / 2, p);
      AndSingleBit(x / 2, k - 1);
      var h := x / 2;
      var a, b := h / p, h % p;
      assert x == 2 * h + x % 2;
      assert h == p * a + b;
      MulAssoc2(p, a);
      DivModUnique(x, 2 * p, a, 2 * b + x % 2);
    } else if k == 0 && x > 0 {
      assert Pow2(k) == 1;
      DivModUnique(x, 1, x, 0);
      assert BitAnd(x, 1) == 2 * BitAnd(x / 2, 0) + x % 2;
    }
  }

  /** Or-ing a value below `1 << k` with a multiple of `1 << k` adds them. */
  lemma {:induction false} OrDisjoint(x: nat, y: nat, k: nat)
    requires x < Pow2(k)
    ensures BitOr(x, y * Pow2(k)) == x + y * Pow2(k)
  {
    if k > 0 && x > 0 && y > 0 {
      var p := Pow2(k - 1);
      var q := y * p;
      var z := y * Pow2(k);
      assert z == 2 * q;
      DivModUnique(z, 2, q, 0);
      OrDisjoint(x / 2, y, k - 1);
      assert BitOr(x, z) == 2 * BitOr(x / 2, q) + x % 2;
    }
  }
}
