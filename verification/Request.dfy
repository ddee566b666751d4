/** The requests the SSC client sends: a length-framed envelope of four fields around a
    sensor-specific payload. */
module Request {
  import opened Bytes
  import opened Varint
  import opened Fields

  datatype Suid = Suid(field1: u64, field2: u64, valid: bool)

  const NO_SUID := Suid(0, 0, false)

  const MSG_SUID_REQ: u32 := 512
  const MSG_HANDSHAKE_INIT: u32 := 576
  const MSG_HPD_CONFIG: u32 := 512

  const SUID_SERVICE := Suid(0xabab_abab_abab_abab, 0xabab_abab_abab_abab, true)
  const MAX_PAYLOAD := 900
  const MIN_CAP := 40

  // ----- the messages, as fields

  function Fixed64(number: u32, v: u64): Field { Field(number, 1, Le(v, 8), 0) }
  function Fixed32(number: u32, v: u32): Field { Field(number, 5, Le(v, 4), 0) }
  function Delimited(number: u32, data: seq<u8>): Field { Field(number, 2, data, 0) }
  function Number(number: u32, v: u64): Field { Field(number, 0, [], v) }

  function SuidFields(suid: Suid): seq<Field> { [Fixed64(1, suid.field1), Fixed64(2, suid.field2)] }

  const OPTIONS: seq<u8> := [0x08, 0x01, 0x10, 0x00]

  function Envelope(suid: Suid, msgId: u32, payload: seq<u8>): seq<Field> {
    [Delimited(1, WriteAll(SuidFields(suid))), Fixed32(2, msgId), Delimited(3, OPTIONS), Delimited(4, payload)]
  }

  /** A body behind its own length as a 16-bit little-endian prefix. */
  function Framed(body: seq<u8>): seq<u8> { Le(|body|, 2) + body }

  function Frame(suid: Suid, msgId: u32, payload: seq<u8>): seq<u8> {
    Framed(WriteAll(Envelope(suid, msgId, payload)))
  }

  function SuidPayload(name: seq<u8>): seq<u8> {
    WriteAll([Delimited(2, WriteAll([Delimited(1, name), Number(2, 0), Number(3, 1)]))])
  }

  function HandshakePayload(): seq<u8> {
    WriteAll([Delimited(1, CAMERA_NAME), Number(2, 0), Number(3, 2)])
  }

  /** "ov02c10" */
  const CAMERA_NAME: seq<u8> := [0x6f, 0x76, 0x30, 0x32, 0x63, 0x31, 0x30]

  /** 1.5 as an IEEE 754 single: sign 0, biased exponent 127, fraction one half. */
  const THRESHOLD_BITS: u32 := 127 * 0x80_0000 + 0x40_0000

  function HpdPayload(): seq<u8> { WriteAll([Fixed32(1, THRESHOLD_BITS)]) }

  // ----- their bytes

  lemma WriteAllSplit(fs: seq<Field>)
    requires fs != []
    ensures WriteAll(fs) == Write(fs[0]) + WriteAll(fs[1..])
  {
  }

  lemma WriteOne(f: Field)
    ensures WriteAll([f]) == Write(f)
  {
    assert [f][1..] == [];
  }

  lemma WriteTwo(f: Field, g: Field)
    ensures WriteAll([f, g]) == Write(f) + Write(g)
  {
    hide Write;
    assert [f, g][1..] == [g];
    WriteOne(g);
  }

  lemma WriteThree(f: Field, g: Field, h: Field)
    ensures WriteAll([f, g, h]) == Write(f) + Write(g) + Write(h)
  {
    hide Write;
    assert [f, g, h][1..] == [g, h];
    WriteTwo(g, h);
  }

  lemma SuidBytes(suid: Suid)
    ensures WriteAll(SuidFields(suid)) == [0x09] + Le(suid.field1, 8) + [0x11] + Le(suid.field2, 8)
  {
    WriteTwo(Fixed64(1, suid.field1), Fixed64(2, suid.field2));
    assert Encode(9) == [0x09] && Encode(17) == [0x11];
  }

  /** The envelope's bytes up to the payload's length. */
  function Header(suid: Suid, msgId: u32): (s: seq<u8>)
    ensures |s| == 32
  {
    ([0x0a, 0x12] + ([0x09] + Le(suid.field1, 8) + [0x11] + Le(suid.field2, 8)))
    + ([0x15] + Le(msgId, 4)) + ([0x1a, 0x04] + OPTIONS) + [0x22]
  }

  lemma EnvelopeBytes(suid: Suid, msgId: u32, payload: seq<u8>)
    ensures WriteAll(Envelope(suid, msgId, payload)) == Header(suid, msgId) + Encode(|payload|) + payload
  {
    hide Write, Le, Encode;
    var id := WriteAll(SuidFields(suid));
    var e := Envelope(suid, msgId, payload);
    SuidBytes(suid);
    SmallDelimited(1, id);
    SmallFixed32(2, msgId);
    SmallDelimited(3, OPTIONS);
    PayloadField(payload);
    WriteThree(e[1], e[2], e[3]);
    WriteAllSplit(e);
    assert e[1..] == [e[1], e[2], e[3]];
    Regroup([0x0a, 0x12] + id, [0x15] + Le(msgId, 4), [0x1a, 0x04] + OPTIONS, [0x22], Encode(|payload|), payload);
  }

  lemma Regroup<T>(a: seq<T>, b: seq<T>, c: seq<T>, d: seq<T>, e: seq<T>, f: seq<T>)
    ensures a + (b + c + (d + e + f)) == (a + b + c + d) + e + f
  {
  }

  lemma SmallDelimited(number: u32, data: seq<u8>)
    requires number < 16 && |data| < 128
    ensures Write(Delimited(number, data)) == [number * 8 + 2, |data|] + data
  {
    EncodeSmall(number * 8 + 2);
    EncodeSmall(|data|);
    hide Encode;
  }

  lemma SmallFixed32(number: u32, v: u32)
    requires number < 16
    ensures Write(Fixed32(number, v)) == [number * 8 + 5] + Le(v, 4)
  {
    EncodeSmall(number * 8 + 5);
    hide Encode, Le;
  }

  lemma SmallNumber(number: u32, v: u64)
    requires number < 16 && v < 128
    ensures Write(Number(number, v)) == [number * 8, v]
  {
    EncodeSmall(number * 8);
    EncodeSmall(v);
    hide Encode;
  }

  lemma PayloadField(payload: seq<u8>)
    ensures Write(Delimited(4, payload)) == [0x22] + Encode(|payload|) + payload
  {
    EncodeSmall(34);
    hide Encode;
  }

  lemma FrameLength(suid: Suid, msgId: u32, payload: seq<u8>)
    ensures |Frame(suid, msgId, payload)| == 34 + |Encode(|payload|)| + |payload|
  {
    EnvelopeBytes(suid, msgId, payload);
  }

  // ----- round trips

  lemma EnvelopeWritable(suid: Suid, msgId: u32, payload: seq<u8>)
    requires |payload| < TWO_64
    ensures forall f :: f in Envelope(suid, msgId, payload) ==> Writable(f)
    ensures forall f :: f in SuidFields(suid) ==> Writable(f)
  {
    hide Write, Le;
    SuidBytes(suid);
  }

  /** What the service reads back from a request: the prefix is the body's length, the body is the
      four envelope fields in order and nothing else, and they give back the SUID, the message id,
      the options and the payload. */
  lemma FrameRoundTrip(suid: Suid, msgId: u32, payload: seq<u8>)
    requires |payload| <= MAX_PAYLOAD
    ensures var frame := Frame(suid, msgId, payload);
            && FromLe(frame[..2]) == |frame| - 2
            && Parse(frame[2..]) == Parsed(Envelope(suid, msgId, payload), true)
    ensures Parse(Envelope(suid, msgId, payload)[0].data) == Parsed(SuidFields(suid), true)
    ensures FromLe(SuidFields(suid)[0].data) == suid.field1 && FromLe(SuidFields(suid)[1].data) == suid.field2
    ensures FromLe(Envelope(suid, msgId, payload)[1].data) == msgId
  {
    hide Write, WriteAll, Le, FromLe, Pow, Parse;
    var e := Envelope(suid, msgId, payload);
    FramePrefix(suid, msgId, payload);
    Pow256Widths();
    EnvelopeWritable(suid, msgId, payload);
    ParseOfWriteAll(e);
    ParseOfWriteAll(SuidFields(suid));
    LeRoundTrip(suid.field1, 8);
    LeRoundTrip(suid.field2, 8);
    LeRoundTrip(msgId, 4);
  }

  lemma FramePrefix(suid: Suid, msgId: u32, payload: seq<u8>)
    requires |payload| <= MAX_PAYLOAD
    ensures var frame := Frame(suid, msgId, payload);
            FromLe(frame[..2]) == |frame| - 2 && frame[2..] == WriteAll(Envelope(suid, msgId, payload))
  {
    hide WriteAll, Le, FromLe, Pow, Encode;
    var body := WriteAll(Envelope(suid, msgId, payload));
    FrameLength(suid, msgId, payload);
    ShortPayload(|payload|);
    Pow256Widths();
    LeRoundTrip(|body|, 2);
    assert Frame(suid, msgId, payload)[..2] == Le(|body|, 2);
  }

  lemma ShortPayload(n: nat)
    requires n <= MAX_PAYLOAD
    ensures |Encode(n)| <= 2
  {
    if n >= 128 { assert |Encode(n / 128)| == 1; }
  }

  /** A SUID request carries the sensor's name and the two flags, through two nested messages. */
  lemma SuidPayloadRoundTrip(name: seq<u8>)
    requires |name| < TWO_32
    ensures Parse(SuidPayload(name)).clean && |Parse(SuidPayload(name)).fields| == 1
    ensures var outer := Parse(SuidPayload(name)).fields[0];
            && outer.number == 2 && outer.wire == 2
            && Parse(outer.data) == Parsed([Delimited(1, name), Number(2, 0), Number(3, 1)], true)
  {
    var inner := [Delimited(1, name), Number(2, 0), Number(3, 1)];
    SuidPayloadBytes(name);
    EncodeAtMostTen(|name|);
    ParseOfWriteAll(inner);
    ParseOfWriteAll([Delimited(2, WriteAll(inner))]);
  }

  lemma SuidPayloadBytes(name: seq<u8>)
    ensures var inner := WriteAll([Delimited(1, name), Number(2, 0), Number(3, 1)]);
            && inner == [0x0a] + Encode(|name|) + name + [0x10, 0x00, 0x18, 0x01]
            && SuidPayload(name) == [0x12] + Encode(|inner|) + inner
  {
    hide Write;
    var inner := [Delimited(1, name), Number(2, 0), Number(3, 1)];
    WriteThree(inner[0], inner[1], inner[2]);
    DelimitedBytes(1, name);
    SmallNumber(2, 0);
    SmallNumber(3, 1);
    WriteOne(Delimited(2, WriteAll(inner)));
    DelimitedBytes(2, WriteAll(inner));
  }

  lemma DelimitedBytes(number: u32, data: seq<u8>)
    requires number < 16
    ensures Write(Delimited(number, data)) == [number * 8 + 2] + Encode(|data|) + data
  {
    EncodeSmall(number * 8 + 2);
    hide Encode;
  }

  /** For the names the driver accepts both inner lengths take one byte, the payload fits its
      160-byte buffer, and the payload's own length takes two bytes exactly for a 120-byte name. */
  lemma SuidPayloadLengths(name: seq<u8>)
    requires 1 <= |name| <= 120
    ensures |SuidPayload(name)| == |name| + 8 <= 160
    ensures SuidPayload(name) == [0x12, |name| + 6, 0x0a, |name|] + name + [0x10, 0x00, 0x18, 0x01]
    ensures |Encode(|SuidPayload(name)|)| == 2 <==> |name| == 120
    ensures |Encode(|SuidPayload(name)|)| <= 2
  {
    hide SuidPayload, Encode, WriteAll;
    SuidPayloadBytes(name);
    EncodeSmall(|name|);
    EncodeSmall(|name| + 6);
    Flatten(|name| + 6, |name|, name, [0x10, 0x00, 0x18, 0x01]);
    ShortLength(|name| + 8);
  }

  lemma Flatten(outer: u8, inner: u8, name: seq<u8>, flags: seq<u8>)
    ensures [0x12] + [outer] + ([0x0a] + [inner] + name + flags) == [0x12, outer, 0x0a, inner] + name + flags
  {
  }

  lemma ShortLength(n: nat)
    requires n < 256
    ensures |Encode(n)| == if n < 128 then 1 else 2
  {
    if n >= 128 { assert |Encode(n / 128)| == 1; }
  }

  /** A frame around a short payload, with its numbers spelled out. */
  lemma ShortFrame(suid: Suid, msgId: u32, payload: seq<u8>)
    requires |payload| < 128
    ensures Frame(suid, msgId, payload) ==
            [33 + |payload|, 0x00] + [0x0a, 0x12, 0x09] + Le(suid.field1, 8) + [0x11] + Le(suid.field2, 8)
            + [0x15] + Le(msgId, 4) + [0x1a, 0x04, 0x08, 0x01, 0x10, 0x00, 0x22, |payload|] + payload
  {
    hide Frame, Header, Le, Encode;
    var a, b, n := Le(suid.field1, 8), Le(suid.field2, 8), |payload|;
    FrameBytes(suid, msgId, payload);
    EncodeSmall(n);
    LeTwo(33 + n);
    HeaderIs(Le(33 + n, 2), suid, msgId);
    Joined([33 + n, 0x00] + [0x0a, 0x12, 0x09] + a + [0x11] + b + [0x15] + Le(msgId, 4), n, payload);
  }

  lemma Joined(front: seq<u8>, n: u8, payload: seq<u8>)
    ensures front + [0x1a, 0x04, 0x08, 0x01, 0x10, 0x00, 0x22] + [n] + payload ==
            front + [0x1a, 0x04, 0x08, 0x01, 0x10, 0x00, 0x22, n] + payload
  {
  }

  /** The handshake frame of any SUID, byte by byte: the documented frame around the SUID's two halves. */
  lemma HandshakeFrame(suid: Suid)
    ensures Frame(suid, MSG_HANDSHAKE_INIT, HandshakePayload()) ==
            [0x2e, 0x00] + [0x0a, 0x12, 0x09] + Le(suid.field1, 8) + [0x11] + Le(suid.field2, 8)
            + [0x15] + [0x40, 0x02, 0x00, 0x00] + [0x1a, 0x04, 0x08, 0x01, 0x10, 0x00, 0x22, 0x0d]
            + ([0x0a, 0x07] + CAMERA_NAME + [0x10, 0x00, 0x18, 0x02])
  {
    hide Frame, HandshakePayload, Le;
    HandshakePayloadBytes();
    ShortFrame(suid, MSG_HANDSHAKE_INIT, HandshakePayload());
    LeFour(MSG_HANDSHAKE_INIT);
  }

  /** The configuration frame of any SUID, byte by byte: its payload is the threshold 1.5 as a float. */
  lemma ConfigurationFrame(suid: Suid)
    ensures Frame(suid, MSG_HPD_CONFIG, HpdPayload()) ==
            [0x26, 0x00] + [0x0a, 0x12, 0x09] + Le(suid.field1, 8) + [0x11] + Le(suid.field2, 8)
            + [0x15] + [0x00, 0x02, 0x00, 0x00] + [0x1a, 0x04, 0x08, 0x01, 0x10, 0x00, 0x22, 0x05]
            + [0x0d, 0x00, 0x00, 0xc0, 0x3f]
  {
    hide Frame, HpdPayload, Le;
    HpdPayloadBytes();
    LeFour(THRESHOLD_BITS);
    ShortFrame(suid, MSG_HPD_CONFIG, HpdPayload());
    LeFour(MSG_HPD_CONFIG);
  }

  /** The discovery frame for a sensor's name, byte by byte; it is sent to the service whose SUID is all
      0xab. */
  lemma SuidRequestFrame(name: seq<u8>)
    requires 1 <= |name| < 120
    ensures Frame(SUID_SERVICE, MSG_SUID_REQ, SuidPayload(name)) ==
            [|name| + 41, 0x00] + [0x0a, 0x12, 0x09] + EIGHT_AB + [0x11] + EIGHT_AB
            + [0x15] + [0x00, 0x02, 0x00, 0x00] + [0x1a, 0x04, 0x08, 0x01, 0x10, 0x00, 0x22, |name| + 8]
            + ([0x12, |name| + 6, 0x0a, |name|] + name + [0x10, 0x00, 0x18, 0x01])
  {
    hide Frame, SuidPayload, Le, Encode;
    SuidPayloadLengths(name);
    ShortFrame(SUID_SERVICE, MSG_SUID_REQ, SuidPayload(name));
    LeFour(MSG_SUID_REQ);
    ServiceHalf();
  }

  const EIGHT_AB: seq<u8> := [0xab, 0xab, 0xab, 0xab, 0xab, 0xab, 0xab, 0xab]

  lemma ServiceHalf()
    ensures Le(0xabab_abab_abab_abab, 8) == EIGHT_AB
  {
    hide Le, Pow;
    Pow256Widths();
    LeAppend(0xabab_abab_abab_abab, 4, 4);
    LeFour(0xabab_abab_abab_abab);
    LeFour(0xabab_abab);
  }

  lemma EncodeSmall(v: nat)
    requires v < 128
    ensures Encode(v) == [v]
  {
  }

  lemma FrameBytes(suid: Suid, msgId: u32, payload: seq<u8>)
    ensures Frame(suid, msgId, payload) ==
            Le(32 + |Encode(|payload|)| + |payload|, 2) + Header(suid, msgId) + Encode(|payload|) + payload
  {
    EnvelopeBytes(suid, msgId, payload);
  }

  lemma HandshakePayloadBytes()
    ensures HandshakePayload() == [0x0a, 0x07] + CAMERA_NAME + [0x10, 0x00, 0x18, 0x02]
  {
    hide Write;
    WriteThree(Delimited(1, CAMERA_NAME), Number(2, 0), Number(3, 2));
    SmallDelimited(1, CAMERA_NAME);
    SmallNumber(2, 0);
    SmallNumber(3, 2);
  }

  lemma HpdPayloadBytes()
    ensures HpdPayload() == [0x0d] + Le(THRESHOLD_BITS, 4)
  {
    WriteOne(Fixed32(1, THRESHOLD_BITS));
    assert Encode(13) == [0x0d];
  }

  // ----- the builders of the source

  /** Copies `src` to `dst[p..]` and moves past it. */
  method Append(dst: array<u8>, p: nat, src: seq<u8>) returns (q: nat)
    requires p + |src| <= dst.Length
    modifies dst
    ensures q == p + |src|
    ensures dst[..q] == old(dst[..p]) + src && dst[q..] == old(dst[q..])
  {
    q := p;
    for i := 0 to |src|
      invariant q == p + i
      invariant dst[..q] == old(dst[..p]) + src[..i] && dst[q..] == old(dst[q..])
    {
      dst[q] := src[i];
      q := q + 1;
    }
  }

  method BuildClientRequest(dst: array<u8>, cap: nat, suid: Suid, msgId: u32, payload: seq<u8>) returns (len: nat)
    requires cap <= dst.Length
    modifies dst
    ensures len == if suid.valid && cap >= MIN_CAP && |payload| <= MAX_PAYLOAD && |Frame(suid, msgId, payload)| <= cap
                   then |Frame(suid, msgId, payload)| else 0
    ensures len > 0 ==> dst[..len] == Frame(suid, msgId, payload)
    ensures dst[cap..] == old(dst[cap..])
  {
    FrameBytes(suid, msgId, payload);
    hide Frame, Encode, Le, Header;
    if !suid.valid || cap < MIN_CAP || |payload| > MAX_PAYLOAD { return 0; }
    len := BuildFrame(dst, cap, suid, msgId, payload);
  }

  method BuildFrame(dst: array<u8>, cap: nat, suid: Suid, msgId: u32, payload: seq<u8>) returns (len: nat)
    requires MIN_CAP <= cap <= dst.Length && |payload| <= MAX_PAYLOAD
    modifies dst
    ensures len == if 34 + |Encode(|payload|)| + |payload| <= cap then 34 + |Encode(|payload|)| + |payload| else 0
    ensures len > 0 ==> dst[..len] == Le(len - 2, 2) + Header(suid, msgId) + Encode(|payload|) + payload
    ensures dst[cap..] == old(dst[cap..])
  {
    hide Encode, Le, Header;
    ghost var was := dst[..];
    var p := WriteHeader(dst, suid, msgId);
    ghost var s1 := dst[..];
    Suffix(s1, was, p, cap);
    len := WritePayload(dst, cap, payload);
    if len > 0 {
      ghost var s3 := dst[..];
      PutLe16(dst, 0, len - 2);
      Suffix(dst[..], s3, 2, cap);
      Assemble(was[..2], s3, dst[..], len, Header(suid, msgId), Encode(|payload|), payload);
    }
  }

  /** Overwriting the two reserved bytes with the length leaves the rest of the frame in place. */
  lemma Assemble(two: seq<u8>, s: seq<u8>, t: seq<u8>, len: nat, header: seq<u8>, size: seq<u8>, payload: seq<u8>)
    requires |two| == 2 <= len <= |s| == |t| && t[2..] == s[2..]
    requires s[..len] == (two + header) + size + payload
    ensures t[..len] == t[0..2] + header + size + payload
  {
    assert s[..len] == two + (header + size + payload);
    assert s[2..len] == s[..len][2..] == header + size + payload;
    assert t[2..len] == t[2..][..len - 2] == s[2..][..len - 2] == s[2..len];
    assert t[..len] == t[0..2] + t[2..len];
  }

  /** The payload behind its length, after the 34 bytes already written; 0 when it does not fit. */
  method WritePayload(dst: array<u8>, cap: nat, payload: seq<u8>) returns (len: nat)
    requires MIN_CAP <= cap <= dst.Length && |payload| <= MAX_PAYLOAD
    modifies dst
    ensures len == if 34 + |Encode(|payload|)| + |payload| <= cap then 34 + |Encode(|payload|)| + |payload| else 0
    ensures len > 0 ==> dst[..len] == old(dst[..34]) + Encode(|payload|) + payload
    ensures dst[cap..] == old(dst[cap..])
  {
    hide Encode;
    var p := 34;
    var n := PutVarint(dst, p, cap - p, |payload|);
    if n == 0 || p + n + |payload| > cap { return 0; }
    ghost var s := dst[..];
    p := p + n;
    assert s[..p] == s[..34] + s[34..p];
    p := Append(dst, p, payload);
    Suffix(dst[..], s, p, cap);
    return p;
  }

  lemma Suffix(a: seq<u8>, b: seq<u8>, from: nat, to: nat)
    requires from <= to <= |a| == |b| && a[from..] == b[from..]
    ensures a[to..] == b[to..]
  {
    assert a[to..] == a[from..][to - from..] && b[to..] == b[from..][to - from..];
  }

  method AppendLe64(dst: array<u8>, p: nat, v: u64) returns (q: nat)
    requires p + 8 <= dst.Length
    modifies dst
    ensures q == p + 8 && dst[..q] == old(dst[..p]) + Le(v, 8) && dst[q..] == old(dst[q..])
  {
    PutLe64(dst, p, v);
    q := p + 8;
    assert dst[..q] == dst[..p] + dst[p..q];
  }

  method AppendLe32(dst: array<u8>, p: nat, v: u32) returns (q: nat)
    requires p + 4 <= dst.Length
    modifies dst
    ensures q == p + 4 && dst[..q] == old(dst[..p]) + Le(v, 4) && dst[q..] == old(dst[q..])
  {
    PutLe32(dst, p, v);
    q := p + 4;
    assert dst[..q] == dst[..p] + dst[p..q];
  }

  /** The SUID's part of the envelope; two bytes at the front are left for the length. */
  method WriteSuidField(dst: array<u8>, suid: Suid) returns (p: nat)
    requires MIN_CAP <= dst.Length
    modifies dst
    ensures p == 22
    ensures dst[..22] == old(dst[..2]) + [0x0a, 0x12, 0x09] + Le(suid.field1, 8) + [0x11] + Le(suid.field2, 8)
    ensures dst[22..] == old(dst[22..])
  {
    hide Le;
    ghost var was := dst[..];
    p := Append(dst, 2, [0x0a, 0x12, 0x09]);
    Suffix(dst[..], was, 5, 13);
    p := AppendLe64(dst, p, suid.field1);
    Suffix(dst[..], was, 13, 14);
    p := Append(dst, p, [0x11]);
    Suffix(dst[..], was, 14, 22);
    p := AppendLe64(dst, p, suid.field2);
  }

  /** The envelope up to the payload's tag. */
  method WriteHeader(dst: array<u8>, suid: Suid, msgId: u32) returns (p: nat)
    requires MIN_CAP <= dst.Length
    modifies dst
    ensures p == 34 && dst[..34] == old(dst[..2]) + Header(suid, msgId)
    ensures dst[34..] == old(dst[34..])
  {
    hide Le, Header;
    ghost var was := dst[..];
    p := WriteSuidField(dst, suid);
    Suffix(dst[..], was, 22, 23);
    p := Append(dst, p, [0x15]);
    Suffix(dst[..], was, 23, 27);
    p := AppendLe32(dst, p, msgId);
    Suffix(dst[..], was, 27, 34);
    p := Append(dst, p, [0x1a, 0x04, 0x08, 0x01, 0x10, 0x00, 0x22]);
    HeaderIs(was[..2], suid, msgId);
  }

  lemma HeaderIs(two: seq<u8>, suid: Suid, msgId: u32)
    ensures two + [0x0a, 0x12, 0x09] + Le(suid.field1, 8) + [0x11] + Le(suid.field2, 8) + [0x15] + Le(msgId, 4)
            + [0x1a, 0x04, 0x08, 0x01, 0x10, 0x00, 0x22] == two + Header(suid, msgId)
  {
    HeaderGroups(two, Le(suid.field1, 8), Le(suid.field2, 8), Le(msgId, 4));
  }

  lemma HeaderGroups(two: seq<u8>, a: seq<u8>, b: seq<u8>, c: seq<u8>)
    ensures two + [0x0a, 0x12, 0x09] + a + [0x11] + b + [0x15] + c + [0x1a, 0x04, 0x08, 0x01, 0x10, 0x00, 0x22] ==
            two + (([0x0a, 0x12] + ([0x09] + a + [0x11] + b)) + ([0x15] + c) + ([0x1a, 0x04] + OPTIONS) + [0x22])
  {
  }

  /** Builds a SUID request for a C string: no NUL byte inside. */
  method BuildSuidRequest(dst: array<u8>, cap: nat, datatypeName: seq<u8>) returns (len: nat)
    requires cap <= dst.Length && 0 !in datatypeName
    modifies dst
    ensures var frame := Frame(SUID_SERVICE, MSG_SUID_REQ, SuidPayload(datatypeName));
            && len == (if 1 <= |datatypeName| <= 120 && MIN_CAP <= cap && |frame| <= cap then |frame| else 0)
            && (len > 0 ==> dst[..len] == frame)
    ensures dst[cap..] == old(dst[cap..])
  {
    hide Encode, SuidPayload, Frame;
    var payload := new u8[160];
    var nameLen := |datatypeName|;
    if nameLen == 0 || nameLen > 120 { return 0; }
    SuidPayloadLengths(datatypeName);
    var innerLen := 1 + 1 + nameLen + 2 + 2;
    EncodeSmall(innerLen);
    EncodeSmall(nameLen);
    var p := Append(payload, 0, [0x12]);
    var n := PutVarint(payload, p, 160 - p, innerLen);
    if n == 0 { assert false; }
    p := p + n;
    assert payload[..p] == [0x12, innerLen];
    p := Append(payload, p, [0x0a]);
    n := PutVarint(payload, p, 160 - p, nameLen);
    if n == 0 { assert false; }
    p := p + n;
    assert payload[..p] == [0x12, innerLen, 0x0a, nameLen];
    p := Append(payload, p, datatypeName);
    p := Append(payload, p, [0x10, 0x00, 0x18, 0x01]);
    len := BuildClientRequest(dst, cap, SUID_SERVICE, MSG_SUID_REQ, payload[..p]);
  }

  method BuildHandshakeRequest(dst: array<u8>, cap: nat, suid: Suid) returns (len: nat)
    requires cap <= dst.Length
    modifies dst
    ensures var frame := Frame(suid, MSG_HANDSHAKE_INIT, HandshakePayload());
            && len == (if suid.valid && 48 <= cap then 48 else 0)
            && (len > 0 ==> dst[..len] == frame)
    ensures dst[cap..] == old(dst[cap..])
  {
    hide Frame, HandshakePayload, Encode;
    var payload := new u8[32];
    var p := Append(payload, 0, [0x0a, |CAMERA_NAME|]);
    p := Append(payload, p, CAMERA_NAME);
    p := Append(payload, p, [0x10, 0x00, 0x18, 0x02]);
    HandshakePayloadBytes();
    assert payload[..p] == HandshakePayload();
    FrameLength(suid, MSG_HANDSHAKE_INIT, HandshakePayload());
    EncodeSmall(13);
    len := BuildClientRequest(dst, cap, suid, MSG_HANDSHAKE_INIT, payload[..p]);
  }

  method BuildHpdRequest(dst: array<u8>, cap: nat, suid: Suid) returns (len: nat)
    requires cap <= dst.Length
    modifies dst
    ensures var frame := Frame(suid, MSG_HPD_CONFIG, HpdPayload());
            && len == (if suid.valid && MIN_CAP <= cap then 40 else 0)
            && (len > 0 ==> dst[..len] == frame)
    ensures dst[cap..] == old(dst[cap..])
  {
    hide Frame, HpdPayload, Le, Encode;
    var payload := new u8[5];
    payload[0] := 0x0d;
    PutLe32(payload, 1, THRESHOLD_BITS);
    HpdPayloadBytes();
    assert payload[..] == payload[..1] + payload[1..5] && payload[..1] == [0x0d];
    FrameLength(suid, MSG_HPD_CONFIG, HpdPayload());
    EncodeSmall(5);
    len := BuildClientRequest(dst, cap, suid, MSG_HPD_CONFIG, payload[..]);
  }
}
