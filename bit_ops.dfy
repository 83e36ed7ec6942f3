/** JVM integer types and the bit operations the emulator uses on them.
    Kotlin's `shr` is an arithmetic shift, which on a mathematical integer is
    repeated floor halving; Dafny's `/` and `%` with a positive divisor are
    floor division and a non-negative remainder, so `x and (2^k - 1)` is
    `x % 2^k` for every two's-complement value x. */
module BitOps {

  /** Kotlin `Short`. */
  type short = x: int | -0x8000 <= x < 0x8000

  /** Kotlin `Int`. */
  type int32 = x: int | -0x8000_0000 <= x < 0x8000_0000

  /** Kotlin `Long`. */
  type int64 = x: int | -0x8000_0000_0000_0000 <= x < 0x8000_0000_0000_0000

  function Pow2(k: nat): (r: nat)
    ensures r >= 1
  {
    if k == 0 then 1 else 2 * Pow2(k - 1)
  }

  /** `x shr s` for a shift count already reduced to its JVM range: s
      halvings, each rounding toward negative infinity. */
  function Shr(x: int, s: nat): int
    decreases s
  {
    if s == 0 then x else Shr(x / 2, s - 1)
  }

  /** `(x shr k) and 1 == 1`: bit k of the two's-complement value x. */
  predicate TestBit(x: int, k: nat) {
    Shr(x, k) % 2 == 1
  }

  /** The value of an `Int` read as unsigned, as `Integer.toHexString` does. */
  function Unsigned32(i: int32): (n: nat)
    ensures n < 0x1_0000_0000
    ensures n % 0x1_0000_0000 == i % 0x1_0000_0000
  {
    if i < 0 then i + 0x1_0000_0000 else i
  }

  /** `a + b` on Kotlin `Int`: the sum wrapped into 32 bits, which is the
      sum itself only when that fits. */
  function AddInt(a: int32, b: int32): (r: int32)
    ensures r % 0x1_0000_0000 == (a + b) % 0x1_0000_0000
    ensures r == a + b <==> -0x8000_0000 <= a + b < 0x8000_0000
  {
    var s := a + b;
    if s >= 0x8000_0000 then s - 0x1_0000_0000
    else if s < -0x8000_0000 then s + 0x1_0000_0000
    else s
  }

  /** A right shift by s places stays below 2^k when the value was below 2^(s+k). */
  lemma {:induction false} ShrBelow(x: int, s: nat, k: nat)
    requires 0 <= x < Pow2(s + k)
    ensures 0 <= Shr(x, s) < Pow2(k)
  {
    if s > 0 {
      assert Pow2(s + k) == 2 * Pow2(s - 1 + k);
      ShrBelow(x / 2, s - 1, k);
    }
  }

  /** The widths of a byte and of a 16-bit value. */
  lemma Pow2Bytes()
    ensures Pow2(8) == 0x100 && Pow2(16) == 0x1_0000
  {
    assert Pow2(2) == 4;
    assert Pow2(4) == 16;
    assert Pow2(6) == 64;
    assert Pow2(8) == 0x100;
    assert Pow2(10) == 0x400;
    assert Pow2(12) == 0x1000;
    assert Pow2(14) == 0x4000;
  }

  /** Euclidean division is determined by its quotient and in-range remainder. */
  lemma DivModUnique(x: int, d: int, q: int, r: int)
    requires d >= 1 && 0 <= r < d && x == d * q + r
    ensures x % d == r
  {
    var q' := x / d;
    assert x == d * q' + x % d;
    MulSign(d, q - q');
    assert d * (q - q') == d * q - d * q';
  }

  /** A product with a positive factor is at least that factor when the other
      factor is positive, and at most its negation when it is negative. */
  lemma MulSign(d: int, t: int)
    requires d >= 1
    ensures t >= 1 ==> d * t >= d
    ensures t <= -1 ==> d * t <= -d
  {
    if t >= 1 {
      MulAtLeast(d, t);
    } else if t <= -1 {
      MulAtLeast(d, -t);
      assert d * (-t) == -(d * t);
    }
  }

  lemma {:induction false} MulAtLeast(d: int, t: int)
    requires d >= 1 && t >= 1
    ensures d * t >= d
    decreases t
  {
    if t > 1 {
      MulAtLeast(d, t - 1);
      assert d * t == d * (t - 1) + d;
    }
  }
}
