/** Bit tests on Kotlin `Int` values, read through their two's-complement
    representation.  Dafny's `/` by 2 floors, also on negative numbers, so
    halving walks the bits of a negative number exactly as a Java shift does. */
module Bits {

  function Pow2(k: nat): (r: int)
    ensures r >= 1
  {
    if k == 0 then 1 else 2 * Pow2(k - 1)
  }

  /** The sign bit of a 32-bit value weighs 2^31. */
  lemma Pow2Of31()
    ensures Pow2(31) == 0x8000_0000
  {
    assert Pow2(8) == 0x100;
    assert Pow2(14) == 0x4000;
    assert Pow2(20) == 0x10_0000;
    assert Pow2(26) == 0x400_0000;
  }

  /** The weights of the eight bits of a byte. */
  lemma Pow2Byte()
    ensures Pow2(0) == 1 && Pow2(1) == 2 && Pow2(2) == 4 && Pow2(3) == 8
    ensures Pow2(4) == 16 && Pow2(5) == 32 && Pow2(6) == 64 && Pow2(7) == 128 && Pow2(8) == 256
  {
    assert Pow2(2) == 4;
    assert Pow2(4) == 16;
    assert Pow2(6) == 64;
  }

  /** Bit `k` of `v` (bit 0 is the least significant). */
  predicate Bit(v: int, k: nat)
    decreases k
  {
    if k == 0 then v % 2 == 1 else Bit(v / 2, k - 1)
  }

  /** Every bit among the low `n` bits that is set in `m` is also set in `v`.
      With `n == 32` this is Kotlin's `(v and m) == m` on `Int`. */
  predicate Covers(v: int, m: int, n: nat)
    decreases n
  {
    n == 0 || ((m % 2 == 1 ==> v % 2 == 1) && Covers(v / 2, m / 2, n - 1))
  }

  /** The number written by the low `n` bits of `v`, read as an unsigned value. */
  function LowBits(v: int, n: nat): int
    decreases n
  {
    if n == 0 then 0 else v % 2 + 2 * LowBits(v / 2, n - 1)
  }

  lemma {:induction false} CoversZero(v: int, n: nat)
    ensures Covers(v, 0, n)
    decreases n
  {
    if n > 0 {
      CoversZero(v / 2, n - 1);
    }
  }

  /** A mask with the single bit `k` is covered exactly when bit `k` is set. */
  lemma {:induction false} CoversSingleBit(v: int, k: nat, n: nat)
    requires k < n
    ensures Covers(v, Pow2(k), n) <==> Bit(v, k)
    decreases k
  {
    if k == 0 {
      CoversZero(v / 2, n - 1);
    } else {
      assert Pow2(k) % 2 == 0 && Pow2(k) / 2 == Pow2(k - 1);
      CoversSingleBit(v / 2, k - 1, n - 1);
    }
  }

  /** The all-ones mask (-1) is covered by an `n`-bit signed value only when
      that value is -1 itself. */
  lemma {:induction false} CoversAllOnes(v: int, n: nat)
    requires n >= 1
    requires -Pow2(n - 1) <= v < Pow2(n - 1)
    ensures Covers(v, -1, n) <==> v == -1
    decreases n
  {
    if n == 1 {
      assert Covers(v / 2, -1, 0);
    } else {
      assert Pow2(n - 1) == 2 * Pow2(n - 2);
      CoversAllOnes(v / 2, n - 1);
    }
  }

  /** Covering is transitive: a mask covered by `b`, where `b` is covered by `c`,
      is covered by `c`. */
  lemma {:induction false} CoversTransitive(a: int, b: int, c: int, n: nat)
    requires Covers(b, a, n) && Covers(c, b, n)
    ensures Covers(c, a, n)
    decreases n
  {
    if n > 0 {
      CoversTransitive(a / 2, b / 2, c / 2, n - 1);
    }
  }

  /** Reading the low `n` bits of a value in `[0, 2^n)` gives the value back. */
  lemma {:induction false} LowBitsOfSmall(v: int, n: nat)
    requires 0 <= v < Pow2(n)
    ensures LowBits(v, n) == v
    decreases n
  {
    if n > 0 {
      LowBitsOfSmall(v / 2, n - 1);
    }
  }

  /** Adding one more bit on top adds its weight when it is set. */
  lemma {:induction false} LowBitsTop(v: int, n: nat)
    ensures LowBits(v, n + 1) == LowBits(v, n) + (if Bit(v, n) then Pow2(n) else 0)
    decreases n
  {
    if n > 0 {
      LowBitsTop(v / 2, n - 1);
    }
  }
}
