/** Python's operators on non-negative integers that the sensor decoders use: `<<`, `|` and `&`,
    defined bit by bit, and the facts that turn them back into ordinary arithmetic. */
module Bits {

  /** A byte as Python's `bytes` yields it when indexed. */
  type byte = b: int | 0 <= b < 256

  function Pow2(k: nat): (r: nat)
    ensures r >= 1
  {
    if k == 0 then 1 else 2 * Pow2(k - 1)
  }

  /** `a << k` */
  function Shl(a: nat, k: nat): nat
  {
    a * Pow2(k)
  }

  /** `a | b`, one bit at a time from the least significant end. */
  function BitOr(a: nat, b: nat): nat
    decreases a + b
  {
    if a == 0 then b
    else if b == 0 then a
    else 2 * BitOr(a / 2, b / 2) + (if a % 2 == 1 || b % 2 == 1 then 1 else 0)
  }

  /** `a & b`, one bit at a time from the least significant end. */
  function BitAnd(a: nat, b: nat): nat
    decreases a + b
  {
    if a == 0 || b == 0 then 0
    else 2 * BitAnd(a / 2, b / 2) + (if a % 2 == 1 && b % 2 == 1 then 1 else 0)
  }

  /** Or-ing a value into bits that a shift has left clear is addition. */
  lemma {:induction false} OrIntoClearBits(a: nat, k: nat, b: nat)
    requires b < Pow2(k)
    ensures BitOr(Shl(a, k), b) == Shl(a, k) + b
  {
    if k == 0 || a == 0 || b == 0 {
    } else {
      var half := a * Pow2(k - 1);
      assert Shl(a, k) == 2 * half;
      OrIntoClearBits(a, k - 1, b / 2);
      assert BitOr(half, b / 2) == half + b / 2;
    }
  }

  /** `x & (1 << k)` is non-zero exactly when bit k of x is set. */
  lemma {:induction false} AndSingleBit(x: nat, k: nat)
    ensures BitAnd(x, Pow2(k)) != 0 <==> (x / Pow2(k)) % 2 == 1
  {
    if k == 0 || x == 0 {
    } else {
      var m := Pow2(k - 1);
      AndSingleBit(x / 2, k - 1);
      DivDiv(x, m);
    }
  }

  /** Integer division is determined by any quotient and remainder that fit. */
  lemma DivUnique(x: nat, d: nat, q: nat, r: nat)
    requires d > 0 && r < d && x == d * q + r
    ensures x / d == q && x % d == r
  {
    var q' := x / d;
    assert d * q <= x < d * (q' + 1);
    assert d * q' <= x < d * (q + 1);
    MulCancel(d, q, q' + 1);
    MulCancel(d, q', q + 1);
  }

  lemma MulCancel(d: nat, a: nat, b: nat)
    requires d > 0
    ensures d * a < d * b ==> a < b
  {
  }

  /** Halving and then dividing by m is dividing by 2m. */
  lemma DivDiv(x: nat, m: nat)
    requires m > 0
    ensures (x / 2) / m == x / (2 * m)
  {
    var q, r := x / (2 * m), x % (2 * m);
    var h := r / 2;
    assert r == 2 * h + r % 2;
    assert x == (2 * m) * q + r;
    assert (2 * m) * q == 2 * (m * q);
    assert x == 2 * (m * q + h) + r % 2;
    DivUnique(x, 2, m * q + h, r % 2);
    assert h < m;
    DivUnique(x / 2, m, q, h);
  }

  /** `(b0 << 16) | (b1 << 8) | b2`: three bytes read as one big-endian 24-bit number. */
  function Be24(b0: byte, b1: byte, b2: byte): nat
  {
    BitOr(BitOr(Shl(b0, 16), Shl(b1, 8)), b2)
  }

  /** `(msb << 8) | lsb`: two bytes read as one big-endian 16-bit number. */
  function Be16(msb: byte, lsb: byte): nat
  {
    BitOr(Shl(msb, 8), lsb)
  }

  lemma Be24Value(b0: byte, b1: byte, b2: byte)
    ensures Be24(b0, b1, b2) == b0 * 65536 + b1 * 256 + b2
  {
    OrIntoClearBits(b0, 8, b1);
    assert Shl(b0, 16) == Shl(b0, 8) * 256;
    OrIntoClearBits(b0, 16, Shl(b1, 8));
    OrIntoClearBits(b0 * 256 + b1, 8, b2);
  }

  lemma Be16Value(msb: byte, lsb: byte)
    ensures Be16(msb, lsb) == msb * 256 + lsb
  {
    OrIntoClearBits(msb, 8, lsb);
  }

  /** The sign test of a 24-bit two's-complement value, `raw & 0x800000`. */
  lemma SignBitSet(raw: nat)
    requires raw < 0x1000000
    ensures BitAnd(raw, 0x800000) != 0 <==> raw >= 0x800000
  {
    assert Pow2(23) == 0x800000 by { Pow2Value(); }
    AndSingleBit(raw, 23);
    if raw >= 0x800000 {
      DivUnique(raw, 0x800000, 1, raw - 0x800000);
    } else {
      DivUnique(raw, 0x800000, 0, raw);
    }
  }

  lemma Pow2Value()
    ensures Pow2(8) == 0x100 && Pow2(16) == 0x10000 && Pow2(23) == 0x800000 && Pow2(24) == 0x1000000
  {
  }
}
