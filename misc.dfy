/** The formatting helpers of `Misc`: zero-padded upper-case hexadecimal,
    fixed-width binary, array resizing and string padding. The hexadecimal
    renderings are checked against a digit-by-digit reading (`HexValue`), the
    binary ones against a reference rendering built by repeated halving
    (`Bits`). */
module Misc {
  import opened BitOps

  // ---------------------------------------------------------------------
  // Hexadecimal

  /** The lower-case digit `Integer.toHexString` uses for 0..15. */
  function HexDigit(d: int): (c: char)
    requires 0 <= d < 16
  {
    if d < 10 then ('0' as int + d) as char else ('a' as int + d - 10) as char
  }

  /** `Integer.toHexString` of a non-negative value: lower-case digits, most
      significant first, no leading zeros (a single "0" for zero). */
  function HexOf(n: nat): (s: string)
    ensures |s| >= 1
    decreases n
  {
    if n < 16 then [HexDigit(n)] else HexOf(n / 16) + [HexDigit(n % 16)]
  }

  /** `Integer.toHexString(i)`: the 32-bit two's-complement pattern read as
      unsigned, so a negative `Int` gives eight digits. */
  function ToHexString(i: int32): string {
    HexOf(Unsigned32(i))
  }

  predicate IsHexDigit(c: char) {
    '0' <= c <= '9' || 'a' <= c <= 'f' || 'A' <= c <= 'F'
  }

  /** Every character a hexadecimal digit, of either case. */
  predicate IsHexString(s: string) {
    forall k :: 0 <= k < |s| ==> IsHexDigit(s[k])
  }

  /** Every character a digit or one of 'A'..'F'. */
  predicate IsUpperHexString(s: string) {
    IsHexString(s) && forall k :: 0 <= k < |s| ==> !('a' <= s[k] <= 'f')
  }

  /** The value of one hexadecimal digit of either case. */
  function DigitValue(c: char): (v: int)
    requires IsHexDigit(c)
    ensures 0 <= v < 16
  {
    if c <= '9' then c as int - '0' as int
    else if c <= 'F' then c as int - 'A' as int + 10
    else c as int - 'a' as int + 10
  }

  /** Reads a string of hexadecimal digits, most significant first. */
  function HexValue(s: string): nat
    requires IsHexString(s)
  {
    if |s| == 0 then 0 else 16 * HexValue(s[..|s| - 1]) + DigitValue(s[|s| - 1])
  }

  /** `String.uppercase()` on an ASCII string. */
  function ToUpper(s: string): (r: string)
    ensures |r| == |s|
    ensures forall k :: 0 <= k < |s| ==> r[k] == if 'a' <= s[k] <= 'z' then (s[k] as int - 32) as char else s[k]
  {
    seq(|s|, k requires 0 <= k < |s| => if 'a' <= s[k] <= 'z' then (s[k] as int - 32) as char else s[k])
  }

  function Zeros(n: nat): (z: string)
    ensures |z| == n && forall k :: 0 <= k < n ==> z[k] == '0'
  {
    seq(n, _ => '0')
  }

  /** The rendering of n is a hexadecimal string that reads back as n. */
  lemma {:induction false} HexOfValue(n: nat)
    ensures IsHexString(HexOf(n))
    ensures HexValue(HexOf(n)) == n
    decreases n
  {
    if n >= 16 {
      HexOfValue(n / 16);
      var s := HexOf(n);
      assert s[..|s| - 1] == HexOf(n / 16);
    }
  }

  /** A value below 16^k takes at most k digits. */
  lemma {:induction false} HexOfLength(n: nat, k: nat)
    requires 1 <= k && n < Pow2(4 * k)
    ensures |HexOf(n)| <= k
    decreases k
  {
    if n >= 16 {
      assert Pow2(4 * k) == 16 * Pow2(4 * (k - 1)) by {
        assert Pow2(4 * k) == 2 * Pow2(4 * k - 1) == 4 * Pow2(4 * k - 2) == 8 * Pow2(4 * k - 3);
      }
      if k > 1 {
        HexOfLength(n / 16, k - 1);
      }
    }
  }

  /** Leading zeros do not change the value of a digit string. */
  lemma {:induction false} ZerosValue(m: nat, s: string)
    requires IsHexString(s)
    ensures IsHexString(Zeros(m) + s)
    ensures HexValue(Zeros(m) + s) == HexValue(s)
    decreases |s| + m
  {
    var t := Zeros(m) + s;
    if |s| == 0 {
      assert t == Zeros(m);
      if m > 0 {
        assert t[..|t| - 1] == Zeros(m - 1) + [];
        ZerosValue(m - 1, []);
      }
    } else {
      assert t[..|t| - 1] == Zeros(m) + s[..|s| - 1];
      ZerosValue(m, s[..|s| - 1]);
    }
  }

  /** Upper-casing a digit string keeps its value and leaves only upper-case digits. */
  lemma {:induction false} UpperValue(s: string)
    requires IsHexString(s)
    ensures IsUpperHexString(ToUpper(s))
    ensures HexValue(ToUpper(s)) == HexValue(s)
    decreases |s|
  {
    if |s| > 0 {
      var u := ToUpper(s);
      assert u[..|u| - 1] == ToUpper(s[..|s| - 1]);
      UpperValue(s[..|s| - 1]);
    }
  }

  /** The loop shared by `hex8` and `hex16`: `toHexString`, zeros prepended
      until the string is `width` long, then upper-cased. The result is never
      shorter than `width`, keeps every digit of `toHexString`, and reads back
      as the unsigned value of `i`. */
  method ZeroPadHex(i: int32, width: nat) returns (r: string)
    ensures |r| == if |ToHexString(i)| < width then width else |ToHexString(i)|
    ensures IsUpperHexString(r)
    ensures HexValue(r) == Unsigned32(i)
  {
    var h := ToHexString(i);
    var s := h;
    ghost var m: nat := 0;
    while |s| < width
      invariant s == Zeros(m) + h
      invariant |s| <= if |h| < width then width else |h|
    {
      assert "0" + (Zeros(m) + h) == Zeros(m + 1) + h;
      s := "0" + s;
      m := m + 1;
    }
    HexOfValue(Unsigned32(i));
    ZerosValue(m, h);
    UpperValue(s);
    r := ToUpper(s);
  }

  /** `hex8`: exactly two upper-case digits for 0..255; a longer value keeps
      all its digits. */
  method Hex8(i: int32) returns (r: string)
    ensures 0 <= i < 256 ==> |r| == 2
    ensures |r| >= 2
    ensures |r| == if |ToHexString(i)| < 2 then 2 else |ToHexString(i)|
    ensures IsUpperHexString(r)
    ensures HexValue(r) == Unsigned32(i)
  {
    if 0 <= i < 256 {
      Pow2Bytes();
      HexOfLength(Unsigned32(i), 2);
    }
    r := ZeroPadHex(i, 2);
  }

  /** `hex16`: exactly four upper-case digits for 0..65535. */
  method Hex16(i: int32) returns (r: string)
    ensures 0 <= i < 0x1_0000 ==> |r| == 4
    ensures |r| >= 4
    ensures |r| == if |ToHexString(i)| < 4 then 4 else |ToHexString(i)|
    ensures IsUpperHexString(r)
    ensures HexValue(r) == Unsigned32(i)
  {
    if 0 <= i < 0x1_0000 {
      Pow2Bytes();
      HexOfLength(Unsigned32(i), 4);
    }
    r := ZeroPadHex(i, 4);
  }

  // ---------------------------------------------------------------------
  // Binary

  function BitChar(b: bool): char {
    if b then '1' else '0'
  }

  /** Reference rendering: the low w bits of x, most significant first, built
      by halving x and appending its low bit last. */
  function Bits(x: int, w: nat): (s: string)
    ensures |s| == w
    decreases w
  {
    if w == 0 then [] else Bits(x / 2, w - 1) + [BitChar(x % 2 == 1)]
  }

  /** Reads a string of '0' and '1', most significant first. */
  function BinValue(s: string): nat {
    if |s| == 0 then 0 else 2 * BinValue(s[..|s| - 1]) + (if s[|s| - 1] == '1' then 1 else 0)
  }

  /** Character k of the reference rendering is bit w-1-k of x. */
  lemma {:induction false} BitsAt(x: int, w: nat)
    ensures forall k :: 0 <= k < w ==> Bits(x, w)[k] == BitChar(TestBit(x, w - 1 - k))
    decreases w
  {
    if w > 0 {
      BitsAt(x / 2, w - 1);
      forall k | 0 <= k < w
        ensures Bits(x, w)[k] == BitChar(TestBit(x, w - 1 - k))
      {
        if k < w - 1 {
          assert Bits(x, w)[k] == Bits(x / 2, w - 1)[k];
          assert Shr(x, w - 1 - k) == Shr(x / 2, w - 2 - k);
        }
      }
    }
  }

  /** The reference rendering of x reads back as x modulo 2^w. */
  lemma {:induction false} BitsValue(x: int, w: nat)
    ensures BinValue(Bits(x, w)) == x % Pow2(w)
    decreases w
  {
    if w > 0 {
      var s := Bits(x, w);
      assert s[..|s| - 1] == Bits(x / 2, w - 1);
      BitsValue(x / 2, w - 1);
      HalveMod(x, Pow2(w - 1));
    }
  }

  /** x mod 2m is twice (x div 2) mod m plus the low bit of x. */
  lemma HalveMod(x: int, m: int)
    requires m >= 1
    ensures x % (2 * m) == 2 * ((x / 2) % m) + x % 2
  {
    var q, r := (x / 2) / m, (x / 2) % m;
    assert x / 2 == m * q + r;
    assert x == (2 * m) * q + (2 * r + x % 2);
    DivModUnique(x, 2 * m, q, 2 * r + x % 2);
  }

  /** `binN(num, N)`: N characters, character i being bit (N - i - 1) of num,
      the shift count taken modulo 32 as for any `Int` shift. A negative N is
      an illegal array size in the source. */
  function BinN(num: int32, n: int32): (r: string)
    requires n >= 0
    ensures |r| == n
  {
    seq(n, i requires 0 <= i < n => BitChar(TestBit(num, (n - i - 1) % 32)))
  }

  function Bin8(num: int32): (r: string)
    ensures |r| == 8
  {
    BinN(num, 8)
  }

  function Bin16(num: int32): (r: string)
    ensures |r| == 16
  {
    BinN(num, 16)
  }

  /** `bitcount - 1` on an `Int`: one less, except that the least value wraps
      to the greatest. */
  lemma DecrementWraps(b: int32)
    ensures AddInt(b, -1) == if b == -0x8000_0000 then 0x7FFF_FFFF else b - 1
  {
  }

  /** `binStr(value, bitcount)`: the bit positions from the `Int`
      `bitcount - 1` down to 0, each tested against `1L shl i`, whose shift
      count is taken modulo 64. No characters when bitcount is not positive,
      except at the least `Int`, where `bitcount - 1` wraps to the greatest
      and the range covers 2^31 positions. */
  function BinStr(value: int64, bitcount: int32): (r: string)
    ensures |r| == if bitcount == -0x8000_0000 then 0x8000_0000
                   else if bitcount < 0 then 0 else bitcount
  {
    var top := AddInt(bitcount, -1);
    DecrementWraps(bitcount);
    var n := if top < 0 then 0 else top + 1;
    seq(n, k requires 0 <= k < n => BitChar(TestBit(value, (top - k) % 64)))
  }

  /** Up to 32 positions, `binN` is the reference rendering, so it reads back
      as num modulo 2^N. */
  lemma BinNIsBits(num: int32, n: int32)
    requires 0 <= n <= 32
    ensures BinN(num, n) == Bits(num, n)
    ensures BinValue(BinN(num, n)) == num % Pow2(n)
  {
    BitsAt(num, n);
    forall i | 0 <= i < n
      ensures BinN(num, n)[i] == Bits(num, n)[i]
    {
      assert (n - i - 1) % 32 == n - 1 - i;
    }
    BitsValue(num, n);
  }

  /** `bin8` and `bin16` render the low byte and the low 16 bits. */
  lemma BinWidths(num: int32)
    ensures Bin8(num) == Bits(num, 8) && BinValue(Bin8(num)) == num % 256
    ensures Bin16(num) == Bits(num, 16) && BinValue(Bin16(num)) == num % 0x1_0000
  {
    BinNIsBits(num, 8);
    BinNIsBits(num, 16);
  }

  /** Past 32 positions the shift count wraps: character i of `binN(num, N)`
      repeats character i + 32. */
  lemma BinNWraps(num: int32, n: int32, i: int)
    requires n >= 0 && 0 <= i && i + 32 < n
    ensures BinN(num, n)[i] == BinN(num, n)[i + 32]
  {
    assert (n - i - 1) % 32 == (n - (i + 32) - 1) % 32;
  }

  /** Up to 64 positions, `binStr` is the reference rendering. */
  lemma BinStrIsBits(value: int64, bitcount: int32)
    requires 0 <= bitcount <= 64
    ensures BinStr(value, bitcount) == Bits(value, bitcount)
    ensures BinValue(BinStr(value, bitcount)) == value % Pow2(bitcount)
  {
    BitsAt(value, bitcount);
    forall k | 0 <= k < bitcount
      ensures BinStr(value, bitcount)[k] == Bits(value, bitcount)[k]
    {
      assert (bitcount - 1 - k) % 64 == bitcount - 1 - k;
    }
    BitsValue(value, bitcount);
  }

  // ---------------------------------------------------------------------
  // Arrays and strings

  /** `resizeArray`: a fresh array of the new size holding the common prefix
      of the old one and zeros after it; the old array is not changed. A
      negative size is an illegal array size in the source. */
  method ResizeArray(a: array<int32>, newSize: int32) returns (r: array<int32>)
    requires newSize >= 0
    ensures fresh(r) && r.Length == newSize
    ensures forall k :: 0 <= k < newSize && k < a.Length ==> r[k] == a[k]
    ensures forall k :: a.Length <= k < newSize ==> r[k] == 0
  {
    r := new int32[newSize](_ => 0);
    var m := if newSize < a.Length then newSize else a.Length;
    forall k | 0 <= k < m {
      r[k] := a[k];
    }
  }

  /** n copies of p, one after another. */
  function Repeat(p: string, n: nat): (r: string)
    ensures |r| == n * |p|
  {
    if n == 0 then [] else Repeat(p, n - 1) + p
  }

  /** `pad`: appends whole copies of `padStr` while the string is shorter than
      `length`. With an empty `padStr` and a short string the source never
      returns. */
  method Pad(str: string, padStr: string, length: int) returns (r: string)
    requires |str| < length ==> |padStr| > 0
    ensures exists n: nat :: r == str + Repeat(padStr, n)
    ensures |str| >= length ==> r == str
    ensures |str| < length ==> length <= |r| < length + |padStr|
  {
    var sb := str;
    ghost var n: nat := 0;
    while |sb| < length
      invariant sb == str + Repeat(padStr, n)
      invariant |str| >= length ==> sb == str
      invariant |str| < length ==> |sb| < length + |padStr|
      decreases length - |sb|
    {
      sb := sb + padStr;
      n := n + 1;
    }
    r := sb;
  }
}
