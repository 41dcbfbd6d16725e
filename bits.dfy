/**
 * Fixed-width unsigned integers as bounded mathematical integers, and the
 * few bit operations the header parser uses.
 *
 * Rust's `u8`, `u16` and `u32` become subset types of `int`.  Shifts and
 * masks by constants are written as the division/remainder they stand for;
 * the one bitwise OR of two variable words is `BitOr`, defined bit by bit.
 */
module Bits {

  type Byte = x: int | 0 <= x < 0x100
  type U16 = x: int | 0 <= x < 0x1_0000
  type U32 = x: int | 0 <= x < 0x1_0000_0000

  /** Four bytes in the order they appear in the data. */
  type Quad = (Byte, Byte, Byte, Byte)

  /** The `u16` whose big-endian bytes are `hi, lo`. */
  function Be16(hi: Byte, lo: Byte): U16 {
    hi * 0x100 + lo
  }

  /** The `u32` whose big-endian bytes are `q`, most significant first. */
  function Be32(q: Quad): U32 {
    q.0 * 0x100_0000 + q.1 * 0x1_0000 + q.2 * 0x100 + q.3
  }

  /**
   * The big-endian bytes of a `u32`, each `(w >> k) as u8`: a shift right
   * and a truncating cast to eight bits.
   */
  function Be32Bytes(w: U32): Quad {
    ((w / 0x100_0000) % 0x100, (w / 0x1_0000) % 0x100, (w / 0x100) % 0x100, w % 0x100)
  }

  /** Splitting a word into bytes and packing them again is the identity, both ways. */
  lemma Be32RoundTrip(w: U32, q: Quad)
    ensures Be32(Be32Bytes(w)) == w
    ensures Be32Bytes(Be32(q)) == q
  {
    PackUnpack(w);
    UnpackPack(q);
  }

  /** Four bytes are the bytes of `w` exactly when they read as `w`. */
  lemma Be32Matches(q: Quad, w: U32)
    ensures q == Be32Bytes(w) <==> Be32(q) == w
  {
    Be32RoundTrip(w, q);
  }

  lemma PackUnpack(w: U32)
    ensures Be32(Be32Bytes(w)) == w
  {
    var t1 := w / 0x100;
    var t2 := w / 0x1_0000;
    var t3 := w / 0x100_0000;
    assert w == 0x100 * t1 + w % 0x100;
    assert t1 == 0x100 * t2 + t1 % 0x100 by { assert t1 / 0x100 == t2; }
    assert t2 == 0x100 * t3 + t2 % 0x100 by { assert t2 / 0x100 == t3; }
  }

  lemma UnpackPack(q: Quad)
    ensures Be32Bytes(Be32(q)) == q
  {
    var w := Be32(q);
    ModUnique(w, 0x100_0000, q.0, q.1 * 0x1_0000 + q.2 * 0x100 + q.3);
    ModUnique(w, 0x1_0000, q.0 * 0x100 + q.1, q.2 * 0x100 + q.3);
    ModUnique(w, 0x100, q.0 * 0x1_0000 + q.1 * 0x100 + q.2, q.3);
    ModUnique(q.0 * 0x100 + q.1, 0x100, q.0, q.1);
    ModUnique(q.0 * 0x1_0000 + q.1 * 0x100 + q.2, 0x100, q.0 * 0x100 + q.1, q.2);
  }

  /** 2 to the power `n`. */
  function Pow2(n: nat): (r: nat)
    ensures r >= 1
  {
    if n == 0 then 1 else 2 * Pow2(n - 1)
  }

  lemma {:induction false} Pow2Add(a: nat, b: nat)
    ensures Pow2(a + b) == Pow2(a) * Pow2(b)
  {
    if a > 0 {
      Pow2Add(a - 1, b);
      assert Pow2(a + b) == 2 * Pow2(a - 1 + b);
    }
  }

  /**
   * `x << n` on a `u32`, the shift amount being below 32 (Rust's debug build
   * panics otherwise, which callers model as a separate outcome): the bits
   * shifted past bit 31 are lost.
   */
  function Shl32(x: U32, n: nat): (r: U32)
    requires n < 32
    ensures r % Pow2(n) == 0
  {
    ShiftClearsLowBits(x, n);
    (x * Pow2(n)) % 0x1_0000_0000
  }

  /** The `n` bits a left shift brings in are zero, also after truncation to 32 bits. */
  lemma ShiftClearsLowBits(x: nat, n: nat)
    requires n < 32
    ensures ((x * Pow2(n)) % 0x1_0000_0000) % Pow2(n) == 0
  {
    var p, q := Pow2(n), Pow2(32 - n);
    Pow2Add(n, 32 - n);
    Pow2Value32();
    ScaledModulus(x, p, q);
    var m := x % q;
    assert (p * m) % p == 0 by { ModUnique(p * m, p, m, 0); }
  }

  /** Scaling by `p` commutes with reduction: modulo `p * q`, `x * p` is `p` times `x` modulo `q`. */
  lemma ScaledModulus(x: nat, p: nat, q: nat)
    requires p > 0 && q > 0
    ensures (x * p) % (p * q) == p * (x % q)
  {
    var k, m := x / q, x % q;
    assert x * p == (p * q) * k + p * m by {
      assert x == q * k + m;
    }
    assert p * m < p * q by {
      assert p * (q - m) > 0;
    }
    ModUnique(x * p, p * q, k, p * m);
  }

  /** Division with remainder is unique. */
  lemma ModUnique(a: int, d: int, k: int, r: int)
    requires d > 0 && a == d * k + r && 0 <= r < d
    ensures a / d == k && a % d == r
  {
    var j := k - a / d;
    assert d * j == a % d - r;
    MulAwayFromZero(d, j);
  }

  /** A nonzero multiple of `d` is at least `d` away from 0. */
  lemma MulAwayFromZero(d: int, j: int)
    requires d > 0
    ensures j > 0 ==> d * j >= d
    ensures j < 0 ==> d * j <= -d
  {
    if j > 0 {
      assert d * (j - 1) >= 0;
    } else if j < 0 {
      assert d * (-j - 1) >= 0;
    }
  }

  /**
   * Two shifts whose amounts add up to 32 or more leave nothing of a `u32`.
   */
  lemma Shl32Twice(x: U32, s1: nat, s2: nat)
    requires s1 < 32 && s2 < 32 && s1 + s2 >= 32
    ensures Shl32(Shl32(x, s1), s2) == 0
  {
    Pow2Add(s1, s2);
    Pow2Add(s1 + s2 - 32, 32);
    Pow2Value32();
    ScaledPastTop(x, Pow2(s1), Pow2(s2), Pow2(s1 + s2 - 32));
  }

  /** Scaling twice by factors whose product is a multiple of 2^32 gives 0 modulo 2^32. */
  lemma ScaledPastTop(x: nat, p1: nat, p2: nat, e: nat)
    requires p1 * p2 == e * 0x1_0000_0000
    ensures (((x * p1) % 0x1_0000_0000) * p2) % 0x1_0000_0000 == 0
  {
    var m := 0x1_0000_0000;
    calc {
      (((x * p1) % m) * p2) % m;
      { TruncateThenScale(x * p1, p2); }
      ((x * p1) * p2) % m;
      { MulAssoc(x, p1, p2); MulAssoc(x, e, m); }
      ((x * e) * m) % m;
      { WholeWords(x * e); }
      0;
    }
  }

  /** Dropping whole multiples of 2^32 before scaling changes nothing modulo 2^32. */
  lemma TruncateThenScale(y: nat, p: nat)
    ensures ((y % 0x1_0000_0000) * p) % 0x1_0000_0000 == (y * p) % 0x1_0000_0000
  {
    var z := y % 0x1_0000_0000;
    var k := y / 0x1_0000_0000;
    MulSub(y, k * 0x1_0000_0000, p);
    MulAssoc(k, 0x1_0000_0000, p);
    assert z * p == y * p - (k * p) * 0x1_0000_0000;
  }

  lemma WholeWords(j: nat)
    ensures (j * 0x1_0000_0000) % 0x1_0000_0000 == 0
  {
  }

  lemma MulAssoc(a: int, b: int, c: int)
    ensures (a * b) * c == a * (b * c)
  {
  }

  lemma MulSub(a: int, b: int, c: int)
    ensures (a - b) * c == a * c - b * c
  {
  }

  lemma Pow2Value32()
    ensures Pow2(24) == 0x100_0000
    ensures Pow2(32) == 0x1_0000_0000
  {
    assert Pow2(8) == 0x100;
    assert Pow2(16) == 0x1_0000 by { Pow2Add(8, 8); }
    Pow2Add(16, 8);
    Pow2Add(16, 16);
  }

  /** Bitwise OR of two naturals, lowest bit first. */
  function BitOr(a: nat, b: nat): (r: nat)
    decreases a + b
    ensures a <= r && b <= r
    ensures r <= a + b
  {
    if a == 0 then b
    else if b == 0 then a
    else 2 * BitOr(a / 2, b / 2) + (if a % 2 == 1 || b % 2 == 1 then 1 else 0)
  }

  /**
   * OR of two words with no bit in common is their sum: `a` lives below bit
   * `k` and `m * 2^k` has no bit below `k`.
   */
  lemma {:induction false} BitOrDisjoint(a: nat, m: nat, k: nat)
    requires a < Pow2(k)
    ensures BitOr(a, m * Pow2(k)) == a + m * Pow2(k)
  {
    var b := m * Pow2(k);
    if a != 0 && b != 0 {
      var h := Pow2(k - 1);
      assert b == 2 * (m * h);
      BitOrDisjoint(a / 2, m, k - 1);
    }
  }

  /** OR of two words below bit `k` stays below bit `k`. */
  lemma {:induction false} BitOrBound(a: nat, b: nat, k: nat)
    requires a < Pow2(k) && b < Pow2(k)
    ensures BitOr(a, b) < Pow2(k)
  {
    if a != 0 && b != 0 {
      BitOrBound(a / 2, b / 2, k - 1);
    }
  }
}
