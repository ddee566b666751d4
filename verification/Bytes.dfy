/** Machine words and byte strings: the widths the SSC client codec works on, shifts and
    bitwise-or written out on integers, and the little-endian fixed-width fields. */
module Bytes {

  type u8 = x: int | 0 <= x < 256
  type u32 = x: int | 0 <= x < TWO_32
  type u64 = x: int | 0 <= x < TWO_64

  const TWO_32: int := 0x1_0000_0000
  const TWO_64: int := 0x1_0000_0000_0000_0000

  function Min(a: int, b: int): int { if a < b then a else b }

  function Pow(b: nat, n: nat): nat { if n == 0 then 1 else b * Pow(b, n - 1) }

  lemma {:induction false} PowAdd(b: nat, m: nat, n: nat)
    ensures Pow(b, m + n) == Pow(b, m) * Pow(b, n)
  {
    if m > 0 {
      PowAdd(b, m - 1, n);
      Associate(b, Pow(b, m - 1), Pow(b, n));
    }
  }

  lemma {:induction false} PowPositive(b: nat, n: nat)
    requires b > 0
    ensures Pow(b, n) > 0
  {
    if n > 0 { PowPositive(b, n - 1); }
  }

  lemma {:induction false} PowMonotone(b: nat, m: nat, n: nat)
    requires b > 0 && m <= n
    ensures Pow(b, m) <= Pow(b, n)
  {
    PowAdd(b, m, n - m);
    PowPositive(b, n - m);
    PowPositive(b, m);
    assert Pow(b, m) * 1 <= Pow(b, m) * Pow(b, n - m);
  }

  /** A power of 2 raised to the 7n-th is 128 raised to the n-th. */
  lemma {:induction false} PowOf128(n: nat)
    ensures Pow(2, 7 * n) == Pow(128, n)
  {
    if n > 0 {
      PowOf128(n - 1);
      PowAdd(2, 7, 7 * n - 7);
      assert Pow(2, 7) == 128 by {
        assert Pow(2, 3) == 8;
        PowAdd(2, 3, 3); PowAdd(2, 6, 1);
      }
    }
  }

  lemma PowTwo64()
    ensures Pow(2, 64) == TWO_64 && Pow(2, 63) == TWO_64 / 2
    ensures Pow(128, 9) == TWO_64 / 2 && Pow(128, 10) == 64 * TWO_64
  {
    assert Pow(2, 1) == 2 && Pow(2, 2) == 4 && Pow(2, 4) == 16 by { PowAdd(2, 2, 2); }
    assert Pow(2, 8) == 256 by { PowAdd(2, 4, 4); }
    assert Pow(2, 16) == 65536 by { PowAdd(2, 8, 8); }
    assert Pow(2, 32) == TWO_32 by { PowAdd(2, 16, 16); }
    assert Pow(2, 64) == TWO_64 by { PowAdd(2, 32, 32); }
    assert Pow(2, 64) == 2 * Pow(2, 63);
    PowOf128(9);
    assert Pow(128, 10) == 128 * Pow(128, 9);
  }

  // ----- shifts and bitwise-or on words

  /** `v << k` on a 64-bit word. */
  function Shl64(v: u64, k: nat): u64 { (v * Pow(2, k)) % TWO_64 }

  /** Bitwise or. */
  function BitOr(a: nat, b: nat): nat
    decreases a + b
  {
    if a == 0 && b == 0 then 0
    else (if a % 2 == 1 || b % 2 == 1 then 1 else 0) + 2 * BitOr(a / 2, b / 2)
  }

  lemma {:induction false} ModTwice(b: nat, p: nat)
    requires p > 0 && b % (2 * p) == 0
    ensures b % 2 == 0 && (b / 2) % p == 0
  {
    var q := b / (2 * p);
    assert b == (2 * p) * q;
    assert (2 * p) * q == 2 * (p * q);
    assert b / 2 == p * q;
    ModOfMultiple(p, q);
  }

  lemma ModOfMultiple(p: nat, q: nat)
    requires p > 0
    ensures (p * q) % p == 0
  {
    ModUnique(p * q, p, q, 0);
  }

  /** Or-ing words whose bits do not overlap adds them. */
  lemma {:induction false} BitOrDisjoint(a: nat, b: nat, k: nat)
    requires a < Pow(2, k) && b % Pow(2, k) == 0
    ensures BitOr(a, b) == a + b
    decreases k
  {
    PowPositive(2, k);
    if k == 0 {
      BitOrZero(b);
    } else {
      PowPositive(2, k - 1);
      ModTwice(b, Pow(2, k - 1));
      BitOrDisjoint(a / 2, b / 2, k - 1);
    }
  }

  lemma {:induction false} BitOrZero(b: nat)
    ensures BitOr(0, b) == b
  {
    if b > 0 { BitOrZero(b / 2); }
  }

  // ----- little-endian fields

  /** The low `n` bytes of `v`, least significant first. */
  function Le(v: nat, n: nat): (s: seq<u8>)
    ensures |s| == n
  {
    if n == 0 then [] else [v % 256] + Le(v / 256, n - 1)
  }

  /** The number a little-endian byte string stands for. */
  function FromLe(s: seq<u8>): nat {
    if s == [] then 0 else s[0] + 256 * FromLe(s[1..])
  }

  /** Reading back a little-endian field gives the value written, cut to the field's width. */
  lemma {:induction false} LeRoundTrip(v: nat, n: nat)
    ensures Pow(256, n) > 0 && FromLe(Le(v, n)) == v % Pow(256, n)
  {
    PowPositive(256, n);
    if n > 0 {
      LeRoundTrip(v / 256, n - 1);
      PowPositive(256, n - 1);
      assert Le(v, n)[1..] == Le(v / 256, n - 1);
      DivModSplit(v, 256, Pow(256, n - 1));
    }
  }

  lemma DivModSplit(v: nat, b: nat, p: nat)
    requires b > 0 && p > 0
    ensures b * p > 0 && v % (b * p) == v % b + b * ((v / b) % p)
  {
    DivModDigits(v, b, p);
    var q, r := (v / b) / p, (v / b) % p;
    ModUnique(v, b * p, q, b * r + v % b);
  }

  lemma ModUnique(v: nat, m: nat, q: nat, r: nat)
    requires m > 0 && r < m && v == m * q + r
    ensures v % m == r && v / m == q
  {
    SmallMultiple(m, q - v / m, v % m - r);
  }

  lemma SmallMultiple(m: int, d: int, x: int)
    requires m > 0 && m * d == x && -m < x < m
    ensures d == 0
  {
  }

  /** Writing back what was read restores the bytes. */
  lemma {:induction false} FromLeRoundTrip(s: seq<u8>)
    ensures FromLe(s) < Pow(256, |s|) && Le(FromLe(s), |s|) == s
  {
    if s != [] {
      FromLeRoundTrip(s[1..]);
      LowByte(s[0], FromLe(s[1..]), |s| - 1);
      assert s == [s[0]] + s[1..];
    }
  }

  lemma LowByte(b: u8, x: nat, n: nat)
    ensures Le(b + 256 * x, n + 1) == [b] + Le(x, n)
    ensures x < Pow(256, n) ==> b + 256 * x < Pow(256, n + 1)
  {
    assert (b + 256 * x) % 256 == b && (b + 256 * x) / 256 == x;
  }

  /** Byte `i` of a little-endian field is `v >> 8i`. */
  lemma {:induction false} LeByte(v: nat, n: nat, i: nat)
    requires i < n
    ensures Pow(256, i) > 0 && Le(v, n)[i] == (v / Pow(256, i)) % 256
  {
    PowPositive(256, i);
    if i > 0 {
      LeByte(v / 256, n - 1, i - 1);
      DivDiv(v, 256, Pow(256, i - 1));
    }
  }

  lemma DivDiv(v: nat, a: nat, b: nat)
    requires a > 0 && b > 0
    ensures a * b > 0 && v / (a * b) == (v / a) / b
  {
    DivModDigits(v, a, b);
    var q, r := (v / a) / b, (v / a) % b;
    ModUnique(v, a * b, q, a * r + v % a);
  }

  /** `v` in mixed radix: a low digit below `a`, a middle digit below `b`, and the rest. */
  lemma DivModDigits(v: nat, a: nat, b: nat)
    requires a > 0 && b > 0
    ensures a * b > 0
    ensures v == (a * b) * ((v / a) / b) + (a * ((v / a) % b) + v % a)
    ensures 0 <= a * ((v / a) % b) + v % a < a * b
  {
    var w := v / a;
    var q, r := w / b, w % b;
    assert v == a * w + v % a;
    assert w == b * q + r;
    Distribute(a, b * q, r);
    Associate(a, b, q);
    ScaleBound(a, b, r);
  }

  lemma Distribute(a: nat, x: nat, y: nat)
    ensures a * (x + y) == a * x + a * y
  {
  }

  lemma Associate(a: nat, b: nat, q: nat)
    ensures a * (b * q) == (a * b) * q
  {
  }

  lemma ScaleBound(a: nat, b: nat, r: nat)
    requires a > 0 && r < b
    ensures a * b > 0 && a * r + a <= a * b
  {
    Distribute(a, r, b - r);
    assert a * (b - r) >= a;
  }

  /** The bytes of a wide field are those of its low part, then those of its high part. */
  lemma {:induction false} LeAppend(v: nat, m: nat, n: nat)
    ensures Pow(256, m) > 0 && Le(v, m + n) == Le(v, m) + Le(v / Pow(256, m), n)
  {
    PowPositive(256, m);
    if m > 0 {
      LeAppend(v / 256, m - 1, n);
      DivDiv(v, 256, Pow(256, m - 1));
    }
  }

  lemma Pow256Widths()
    ensures Pow(256, 2) == 0x1_0000 && Pow(256, 4) == TWO_32 && Pow(256, 8) == TWO_64
  {
    assert Pow(256, 1) == 256;
    PowAdd(256, 1, 1); PowAdd(256, 2, 2); PowAdd(256, 4, 4);
  }

  // ----- the fixed-width writers and readers

  lemma LeTwo(v: nat)
    ensures Le(v, 2) == [v % 256, v / 256 % 256]
  {
    assert Le(v / 256 / 256, 0) == [];
    assert Le(v / 256, 1) == [v / 256 % 256];
  }

  lemma LeFour(v: nat)
    ensures Le(v, 4) == [v % 256, v / 0x100 % 256, v / 0x1_0000 % 256, v / 0x100_0000 % 256]
  {
    LeTwo(v);
    LeTwo(v / 0x1_0000);
    assert Le(v, 4) == [v % 256] + ([v / 256 % 256] + Le(v / 256 / 256, 2));
  }

  method PutLe16(dst: array<u8>, at: nat, v: nat)
    requires at + 2 <= dst.Length
    modifies dst
    ensures dst[at..at + 2] == Le(v, 2)
    ensures dst[..at] == old(dst[..at]) && dst[at + 2..] == old(dst[at + 2..])
  {
    dst[at] := v % 256;
    dst[at + 1] := v / 256 % 256;
    LeTwo(v);
  }

  method PutLe32(dst: array<u8>, at: nat, v: u32)
    requires at + 4 <= dst.Length
    modifies dst
    ensures dst[at..at + 4] == Le(v, 4)
    ensures dst[..at] == old(dst[..at]) && dst[at + 4..] == old(dst[at + 4..])
  {
    dst[at] := v % 256;
    dst[at + 1] := v / 0x100 % 256;
    dst[at + 2] := v / 0x1_0000 % 256;
    dst[at + 3] := v / 0x100_0000 % 256;
    LeFour(v);
  }

  method PutLe64(dst: array<u8>, at: nat, v: u64)
    requires at + 8 <= dst.Length
    modifies dst
    ensures dst[at..at + 8] == Le(v, 8)
    ensures dst[..at] == old(dst[..at]) && dst[at + 8..] == old(dst[at + 8..])
  {
    for i := 0 to 8
      invariant dst[at..at + i] == Le(v, 8)[..i]
      invariant dst[..at] == old(dst[..at]) && dst[at + i..] == old(dst[at + i..])
    {
      LeByte(v, 8, i);
      dst[at + i] := v / Pow(256, i) % 256;
    }
  }

  method GetLe32(s: seq<u8>) returns (v: u32)
    requires |s| == 4
    ensures v == FromLe(s)
  {
    FourBytes(s);
    var b0: int, b1: int, b2: int, b3: int := s[0], s[1], s[2], s[3];
    v := b0 + b1 * 0x100 + b2 * 0x1_0000 + b3 * 0x100_0000;
  }

  lemma FourBytes(s: seq<u8>)
    requires |s| == 4
    ensures FromLe(s) == s[0] as int + (s[1] as int) * 0x100 + (s[2] as int) * 0x1_0000 + (s[3] as int) * 0x100_0000
  {
    assert s[1..][1..] == s[2..] && s[2..][1..] == s[3..] && s[3..][1..] == s[4..] == [];
    assert FromLe(s[3..]) == s[3];
    assert FromLe(s[2..]) == s[2] + 256 * FromLe(s[3..]);
    assert FromLe(s[1..]) == s[1] + 256 * FromLe(s[2..]);
  }

  method GetLe64(s: seq<u8>) returns (v: u64)
    requires |s| == 8
    ensures v == FromLe(s)
  {
    v := 0;
    var i := 8;
    Pow256Widths();
    while i > 0
      invariant 0 <= i <= 8 && v == FromLe(s[i..])
    {
      i := i - 1;
      FromLeRoundTrip(s[i..]);
      PowMonotone(256, 8 - i, 8);
      assert s[i..][1..] == s[i + 1..];
      v := v * 256 + s[i];
    }
    assert s[0..] == s;
  }
}
