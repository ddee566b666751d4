/** Base-128 varints (Protocol Buffers Encoding, "Base 128 Varints"): the writer and the reader
    of the SSC client, against the sum of 7-bit groups they stand for. */
module Varint {
  import opened Bytes

  // ----- what the bytes mean

  /** The unbounded sum of 7-bit groups, least significant group first. */
  function Groups(s: seq<u8>): nat {
    if s == [] then 0 else s[0] % 128 + 128 * Groups(s[1..])
  }

  /** The first position at or after `from` whose byte has no continuation bit, else the end. */
  function Terminator(buf: seq<u8>, from: nat): (k: nat)
    requires from <= |buf|
    ensures from <= k <= |buf|
    ensures forall i :: from <= i < k ==> buf[i] >= 128
    ensures k < |buf| ==> buf[k] < 128
    decreases |buf| - from
  {
    if from == |buf| || buf[from] < 128 then from else Terminator(buf, from + 1)
  }

  /** The outcome of reading a varint: its value and where reading stopped. A malformed varint
      still moves the cursor over the bytes examined. */
  datatype Decoded = Value(value: u64, next: nat) | BadVarint(next: nat)

  /** A varint at `pos`: terminated within ten bytes, its groups summed modulo 2^64. */
  function Decode(buf: seq<u8>, pos: nat): Decoded
    requires pos <= |buf|
  {
    var k := Terminator(buf, pos);
    if k < |buf| && k - pos < 10 then Value(Groups(buf[pos..k + 1]) % TWO_64, k + 1)
    else BadVarint(Min(|buf|, pos + 10))
  }

  /** The shortest varint for `v`. */
  function Encode(v: nat): (s: seq<u8>)
    ensures |s| > 0
  {
    if v < 128 then [v] else [128 + v % 128] + Encode(v / 128)
  }

  // ----- arithmetic of groups

  lemma {:induction false} GroupsAppend(s: seq<u8>, b: u8)
    ensures Groups(s + [b]) == Groups(s) + (b % 128) * Pow(128, |s|)
  {
    if s == [] {
      assert s + [b] == [b];
      assert Groups([b][1..]) == 0;
    } else {
      GroupsAppend(s[1..], b);
      assert (s + [b])[1..] == s[1..] + [b];
      assert 128 * ((b % 128) * Pow(128, |s| - 1)) == (b % 128) * Pow(128, |s|);
    }
  }

  lemma {:induction false} GroupsBound(s: seq<u8>)
    ensures Groups(s) < Pow(128, |s|)
  {
    if s != [] { GroupsBound(s[1..]); }
  }

  /** The encoding is terminated by its last byte and by no earlier one, and its groups sum to v. */
  lemma {:induction false} EncodeShape(v: nat)
    ensures var s := Encode(v);
            Groups(s) == v && s[|s| - 1] < 128 && forall i :: 0 <= i < |s| - 1 ==> s[i] >= 128
  {
    if v < 128 {
      assert Groups([v][1..]) == 0;
    } else {
      EncodeShape(v / 128);
      var s, t := Encode(v), Encode(v / 128);
      assert s[1..] == t;
      forall i | 0 <= i < |s| - 1 ensures s[i] >= 128 {
        if i > 0 { assert s[i] == t[i - 1]; }
      }
    }
  }

  /** `n` bytes are enough for `v` exactly when `v` is below 128^n. */
  lemma {:induction false} EncodeLength(v: nat, n: nat)
    requires n > 0
    ensures |Encode(v)| <= n <==> v < Pow(128, n)
  {
    if n == 1 {
      assert Pow(128, 1) == 128;
    } else {
      PowMonotone(128, 1, n);
      assert Pow(128, 1) == 128;
      if v >= 128 {
        EncodeLength(v / 128, n - 1);
        assert Pow(128, n) == 128 * Pow(128, n - 1);
      }
    }
  }

  /** A 64-bit value takes one to ten bytes. */
  lemma EncodeAtMostTen(v: u64)
    ensures 1 <= |Encode(v)| <= 10
  {
    PowTwo64();
    EncodeLength(v, 10);
  }

  // ----- round trips

  lemma {:induction false} TerminatorIs(buf: seq<u8>, from: nat, k: nat)
    requires from <= k < |buf| && buf[k] < 128
    requires forall i :: from <= i < k ==> buf[i] >= 128
    ensures Terminator(buf, from) == k
    decreases k - from
  {
    if from < k { TerminatorIs(buf, from + 1, k); }
  }

  /** Whatever precedes and follows it, a written varint reads back as its value, and the reader
      consumes exactly the one to ten bytes that were written. */
  lemma DecodeEncode(before: seq<u8>, v: u64, after: seq<u8>)
    ensures Decode(before + Encode(v) + after, |before|) == Value(v, |before| + |Encode(v)|)
    ensures 1 <= |Encode(v)| <= 10
  {
    hide Encode, Terminator, Groups;
    var s := Encode(v);
    EncodeAtMostTen(v);
    assert Groups(s) == v by { EncodeShape(v); }
    assert Terminator(before + s + after, |before|) == |before| + |s| - 1 by {
      EncodeShape(v);
      Terminated(before, s, after);
    }
    Middle(before, s, after);
  }

  lemma Middle(before: seq<u8>, s: seq<u8>, after: seq<u8>)
    ensures (before + s + after)[|before|..|before| + |s|] == s
  {
  }

  lemma Terminated(before: seq<u8>, s: seq<u8>, after: seq<u8>)
    requires s != [] && s[|s| - 1] < 128 && forall i :: 0 <= i < |s| - 1 ==> s[i] >= 128
    ensures Terminator(before + s + after, |before|) == |before| + |s| - 1
  {
    var buf, p := before + s + after, |before|;
    forall i | p <= i < p + |s| ensures buf[i] == s[i - p] {}
    TerminatorIs(buf, p, p + |s| - 1);
  }

  /** Encoding a value that was read never takes more bytes than reading it consumed; the value is
      the sum of the groups, cut to 64 bits, and the tenth byte contributes only its lowest bit. */
  lemma ReencodeNeverLonger(buf: seq<u8>, pos: nat)
    requires pos <= |buf| && Decode(buf, pos).Value?
    ensures var d := Decode(buf, pos);
            pos < d.next <= |buf| && d.next - pos <= 10 && |Encode(d.value)| <= d.next - pos
    ensures var d := Decode(buf, pos);
            d.next - pos < 10 ==> d.value == Groups(buf[pos..d.next])
    ensures var d := Decode(buf, pos);
            d.next - pos == 10 ==>
              d.value == Groups(buf[pos..pos + 9]) + (buf[pos + 9] % 2) * (TWO_64 / 2)
  {
    var d := Decode(buf, pos);
    var n, g := d.next - pos, Groups(buf[pos..d.next]);
    GroupsBound(buf[pos..d.next]);
    EncodeLength(d.value, n);
    if n < 10 {
      FewGroups(n, g);
    } else {
      TenGroups(buf[pos..pos + 9], buf[pos + 9]);
      assert buf[pos..d.next] == buf[pos..pos + 9] + [buf[pos + 9]];
    }
  }

  lemma FewGroups(n: nat, g: nat)
    requires n < 10 && g < Pow(128, n)
    ensures g % TWO_64 == g
  {
    PowTwo64();
    PowMonotone(128, n, 9);
  }

  lemma TenGroups(s: seq<u8>, b: u8)
    requires |s| == 9 && b < 128
    ensures Groups(s + [b]) % TWO_64 == Groups(s) + (b % 2) * (TWO_64 / 2) < Pow(128, 10)
  {
    hide Groups, Pow;
    PowTwo64();
    GroupsAppend(s, b);
    GroupsBound(s);
    TopBit(Groups(s), b);
  }

  lemma TopBit(low: nat, b: u8)
    requires low < TWO_64 / 2 && b < 128
    ensures (low + b * (TWO_64 / 2)) % TWO_64 == low + (b % 2) * (TWO_64 / 2)
  {
    ModUnique(low + b * (TWO_64 / 2), TWO_64, b / 2, low + (b % 2) * (TWO_64 / 2));
  }

  // ----- locality

  /** More input does not change a varint that was read. */
  lemma {:induction false} DecodeStable(a: seq<u8>, b: seq<u8>, pos: nat)
    requires pos <= |a| && Decode(a, pos).Value?
    ensures Decode(a + b, pos) == Decode(a, pos)
  {
    var k := Terminator(a, pos);
    assert forall i :: pos <= i <= k ==> (a + b)[i] == a[i];
    TerminatorIs(a + b, pos, k);
    assert (a + b)[pos..k + 1] == a[pos..k + 1];
  }

  lemma {:induction false} TerminatorShift(a: seq<u8>, b: seq<u8>, pos: nat)
    requires pos <= |b|
    ensures Terminator(a + b, |a| + pos) == |a| + Terminator(b, pos)
    decreases |b| - pos
  {
    if pos < |b| {
      assert (a + b)[|a| + pos] == b[pos];
      if b[pos] >= 128 { TerminatorShift(a, b, pos + 1); }
    }
  }

  /** Reading at an offset is reading the rest, moved by the offset. */
  lemma DecodeShift(a: seq<u8>, b: seq<u8>, pos: nat)
    requires pos <= |b|
    ensures Decode(a + b, |a| + pos) ==
            match Decode(b, pos)
            case Value(v, n) => Value(v, |a| + n)
            case BadVarint(n) => BadVarint(|a| + n)
  {
    TerminatorShift(a, b, pos);
    var k := Terminator(b, pos);
    if k < |b| {
      assert (a + b)[|a| + pos..|a| + k + 1] == b[pos..k + 1];
    }
  }

  // ----- the loops of the source

  /** Storing one more byte after `n` bytes at `at`. */
  lemma Extended(s: seq<u8>, t: seq<u8>, was: seq<u8>, at: nat, n: nat, b: u8)
    requires at + n < |s| == |was| && t == s[at + n := b]
    requires s[..at] == was[..at] && s[at + n..] == was[at + n..]
    ensures t[..at] == was[..at] && t[at + n + 1..] == was[at + n + 1..]
    ensures t[at..at + n + 1] == s[at..at + n] + [b]
  {
    assert t[..at] == s[..at];
    assert t[at + n + 1..] == s[at + n..][1..] && was[at + n + 1..] == was[at + n..][1..];
  }

  /** Writes `value` at `dst[at..]`, at most `cap` bytes; 0 when it does not fit, with the bytes that
      did fit already written. */
  method PutVarint(dst: array<u8>, at: nat, cap: nat, value: u64) returns (n: nat)
    requires at + cap <= dst.Length
    modifies dst
    ensures n == if |Encode(value)| <= cap then |Encode(value)| else 0
    ensures n > 0 ==> dst[at..at + n] == Encode(value)
    ensures dst[..at] == old(dst[..at]) && dst[at + cap..] == old(dst[at + cap..])
    ensures n > 0 ==> dst[at + n..] == old(dst[at + n..])
  {
    n := 0;
    var v := value;
    ghost var was := dst[..];
    while true
      invariant n <= cap && n < |Encode(value)|
      invariant Encode(value)[n..] == Encode(v)
      invariant dst[at..at + n] == Encode(value)[..n]
      invariant dst[..at] == was[..at] && dst[at + n..] == was[at + n..]
      decreases v
    {
      var b := v % 128;
      var more := v / 128;
      if more != 0 { b := b + 128; }
      if n >= cap { return 0; }
      assert Encode(value)[n] == Encode(v)[0] == b;
      ghost var s := dst[..];
      dst[at + n] := b;
      Extended(s, dst[..], was, at, n, b);
      n := n + 1;
      assert Encode(value)[..n] == Encode(value)[..n - 1] + [b];
      if more == 0 {
        assert |Encode(v)| == 1;
        assert Encode(value)[..n] == Encode(value);
        return;
      }
      assert Encode(value)[n..] == Encode(v)[1..] == Encode(more);
      v := more;
    }
  }

  /** Reads a varint at `pos0`; the cursor also moves when the varint is malformed. */
  method GetVarint(buf: seq<u8>, pos0: nat) returns (r: Decoded)
    requires pos0 <= |buf|
    ensures r == Decode(buf, pos0)
  {
    hide Pow, BitOr, Shl64, Terminator;
    var pos, out, shift := pos0, 0, 0;
    while pos < |buf| && shift <= 63
      invariant pos0 <= pos <= |buf| && pos - pos0 <= 10 && shift == 7 * (pos - pos0)
      invariant forall i :: pos0 <= i < pos ==> buf[i] >= 128
      invariant 0 <= out < TWO_64 && out == Groups(buf[pos0..pos]) % TWO_64
      decreases |buf| - pos
    {
      var b := buf[pos];
      GroupStep(buf[pos0..pos], b, out);
      assert buf[pos0..pos + 1] == buf[pos0..pos] + [b];
      out := BitOr(out, Shl64(b % 128, shift));
      pos := pos + 1;
      if b < 128 {
        TerminatorIs(buf, pos0, pos - 1);
        return Value(out, pos);
      }
      shift := shift + 7;
    }
    var k := Terminator(buf, pos0);
    return BadVarint(pos);
  }

  /** One step of the reading loop: or-ing the shifted group into the word adds the group to the
      sum, modulo 2^64. */
  lemma GroupStep(s: seq<u8>, b: u8, out: u64)
    requires |s| < 10 && out == Groups(s) % TWO_64
    ensures BitOr(out, Shl64(b % 128, 7 * |s|)) == Groups(s + [b]) % TWO_64
  {
    hide Groups, Pow, BitOr, Shl64;
    var shift := 7 * |s|;
    FewGroupsFit(s);
    PowOf128(|s|);
    GroupsAppend(s, b);
    WordSplit(shift);
    OrShifted(out, b % 128, shift);
  }

  lemma FewGroupsFit(s: seq<u8>)
    requires |s| < 10
    ensures Groups(s) < Pow(128, |s|) && Groups(s) < TWO_64
  {
    hide Groups, Pow;
    PowTwo64();
    GroupsBound(s);
    PowMonotone(128, |s|, 9);
  }

  lemma WordSplit(shift: nat)
    requires shift <= 64
    ensures Pow(2, shift) * Pow(2, 64 - shift) == TWO_64
  {
    hide Pow;
    PowTwo64();
    PowAdd(2, shift, 64 - shift);
  }

  lemma OrShifted(out: u64, x: u64, shift: nat)
    requires shift <= 64 && out < Pow(2, shift)
    requires Pow(2, shift) * Pow(2, 64 - shift) == TWO_64
    ensures BitOr(out, Shl64(x, shift)) == (out + x * Pow(2, shift)) % TWO_64
  {
    hide Pow, BitOr;
    var p, q := Pow(2, shift), Pow(2, 64 - shift);
    PowPositive(2, shift);
    PowPositive(2, 64 - shift);
    ShiftKeepsLowBits(x, p, q);
    BitOrDisjoint(out, Shl64(x, shift), shift);
    SumWraps(out, x * p, p, q);
  }

  lemma ShiftKeepsLowBits(x: nat, p: nat, q: nat)
    requires p > 0 && q > 0
    ensures p * q > 0
    ensures (x * p) % (p * q) == p * (x % q)
    ensures ((x * p) % (p * q)) % p == 0
  {
    assert x == q * (x / q) + x % q;
    assert x * p == (p * q) * (x / q) + p * (x % q) by {
      Distribute(p, q * (x / q), x % q);
      Associate(p, q, x / q);
    }
    ScaleBound(p, q, x % q);
    ModUnique(x * p, p * q, x / q, p * (x % q));
    ModOfMultiple(p, x % q);
  }

  lemma SumWraps(out: nat, y: nat, p: nat, q: nat)
    requires p > 0 && q > 0 && p * q == TWO_64 && out < p
    requires y % TWO_64 % p == 0
    ensures out + y % TWO_64 == (out + y) % TWO_64
  {
    var r := y % TWO_64;
    assert r == p * (r / p);
    ScaleBound(p, q, r / p) by {
      if r / p >= q { Monotone(p, q, r / p); }
    }
    ModUnique(out + y, TWO_64, y / TWO_64, out + r);
  }

  lemma Monotone(p: nat, a: nat, b: nat)
    requires a <= b
    ensures p * a <= p * b
  {
  }
}
