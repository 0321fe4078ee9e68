/**
 * Java's integer bit operations on unbounded integers: powers of two, the
 * bitwise AND, OR and XOR of naturals computed one bit at a time, and the
 * 32-bit two's complement view that Java `int` arithmetic wraps into.
 */
module Bits {

  function Pow2(e: nat): (p: nat)
    ensures p >= 1
  {
    if e == 0 then 1 else 2 * Pow2(e - 1)
  }

  /** Bitwise AND; a result bit is set when both operand bits are. */
  function BitAnd(a: nat, b: nat): (r: nat)
    ensures r <= a && r <= b
    decreases a
  {
    if a == 0 || b == 0 then 0
    else 2 * BitAnd(a / 2, b / 2) + (if a % 2 == 1 && b % 2 == 1 then 1 else 0)
  }

  /** Bitwise OR; a result bit is set when either operand bit is. */
  function BitOr(a: nat, b: nat): (r: nat)
    decreases a + b
  {
    if a == 0 then b
    else if b == 0 then a
    else 2 * BitOr(a / 2, b / 2) + (if a % 2 == 1 || b % 2 == 1 then 1 else 0)
  }

  /** Bitwise XOR; a result bit is set when the operand bits differ. */
  function BitXor(a: nat, b: nat): (r: nat)
    decreases a + b
  {
    if a == 0 then b
    else if b == 0 then a
    else 2 * BitXor(a / 2, b / 2) + (if a % 2 != b % 2 then 1 else 0)
  }

  /** OR and XOR of two n-bit numbers are n-bit numbers. */
  lemma {:induction false} BitOrXorBound(a: nat, b: nat, n: nat)
    requires a < Pow2(n) && b < Pow2(n)
    ensures BitOr(a, b) < Pow2(n) && BitXor(a, b) < Pow2(n)
    decreases n
  {
    if a != 0 && b != 0 {
      assert n > 0;
      BitOrXorBound(a / 2, b / 2, n - 1);
    }
  }

  /** Masking twice with the same mask is masking once. */
  lemma {:induction false} BitAndIdempotent(a: nat, k: nat)
    ensures BitAnd(BitAnd(a, k), k) == BitAnd(a, k)
    decreases a
  {
    if a != 0 && k != 0 {
      BitAndIdempotent(a / 2, k / 2);
      var r := BitAnd(a, k);
      assert r / 2 == BitAnd(a / 2, k / 2) && r % 2 == (if a % 2 == 1 && k % 2 == 1 then 1 else 0);
    }
  }

  lemma {:induction false} BitXorSelf(a: nat)
    ensures BitXor(a, a) == 0
    decreases a
  {
    if a != 0 {
      BitXorSelf(a / 2);
    }
  }

  /** XOR with the same value twice gives back the original. */
  lemma {:induction false} BitXorInvolutive(a: nat, b: nat)
    ensures BitXor(BitXor(a, b), b) == a
    decreases a + b
  {
    if a == 0 {
      BitXorSelf(b);
    } else if b != 0 {
      BitXorInvolutive(a / 2, b / 2);
      var r := BitXor(a, b);
      assert r / 2 == BitXor(a / 2, b / 2) && r % 2 == (if a % 2 != b % 2 then 1 else 0);
      if r == 0 {
        assert a / 2 == b / 2 && a % 2 == b % 2;
      }
    }
  }

  // ----- 32-bit two's complement -----

  const Two32: int := 0x1_0000_0000

  predicate IsInt32(x: int)
  {
    -0x8000_0000 <= x < 0x8000_0000
  }

  /** The Java `int` that an integer wraps to. */
  function Wrap32(x: int): (r: int)
    ensures IsInt32(r) && (x - r) % Two32 == 0
    ensures IsInt32(x) ==> r == x
  {
    (x + 0x8000_0000) % Two32 - 0x8000_0000
  }

  /** The unsigned 32-bit pattern of a Java `int`. */
  function Unsigned32(x: int): (u: nat)
    requires IsInt32(x)
    ensures u < Two32 && Wrap32(u) == x
  {
    if x >= 0 then x else x + Two32
  }
}
