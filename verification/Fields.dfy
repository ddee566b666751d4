/** The streaming field reader of the SSC client (Protocol Buffers Encoding, "Message Structure"):
    one tagged field at a time, four wire types, no recursion. */
module Fields {
  import opened Bytes
  import opened Varint

  /** A field as the reader hands it out: `data` is the slice of a length-delimited or fixed-width
      field, `value` the number of a varint field. */
  datatype Field = Field(number: u32, wire: u8, data: seq<u8>, value: u64)

  datatype Step = End | Malformed | Got(field: Field, next: nat)

  /** A slice of `n` bytes at `at`, when the buffer holds that many. */
  function Slice(buf: seq<u8>, number: u32, wire: u8, at: nat, n: nat): Step
    requires at <= |buf|
  {
    if |buf| - at < n then Malformed else Got(Field(number, wire, buf[at..at + n], 0), at + n)
  }

  /** The rest of a field whose tag ended at `at`. */
  function Body(buf: seq<u8>, number: u32, wire: u8, at: nat): Step
    requires at <= |buf|
  {
    match wire
    case 0 =>
      (match Decode(buf, at)
       case BadVarint(_) => Malformed
       case Value(v, next) => Got(Field(number, wire, [], v), next))
    case 1 => Slice(buf, number, wire, at, 8)
    case 2 =>
      (match Decode(buf, at)
       case BadVarint(_) => Malformed
       case Value(n, body) => Slice(buf, number, wire, body, n))
    case 5 => Slice(buf, number, wire, at, 4)
    case _ => Malformed
  }

  /** The field at `pos`. The field number is the tag shifted right by three, kept in 32 bits. */
  function Next(buf: seq<u8>, pos: nat): (s: Step)
    ensures s.End? <==> pos >= |buf|
  {
    if pos >= |buf| then End else
    match Decode(buf, pos)
    case BadVarint(_) => Malformed
    case Value(tag, at) =>
      if tag / 8 % TWO_32 == 0 then Malformed else Body(buf, tag / 8 % TWO_32, tag % 8, at)
  }

  /** A field that was read advances the cursor, stays inside the buffer, and its data is the
      slice that ends where the cursor stopped. */
  lemma NextAdvances(buf: seq<u8>, pos: nat)
    requires Next(buf, pos).Got?
    ensures var s := Next(buf, pos);
            && pos < s.next <= |buf|
            && |s.field.data| < s.next - pos
            && s.field.data == buf[s.next - |s.field.data|..s.next]
            && s.field.number > 0 && s.field.wire in {0, 1, 2, 5}
            && (s.field.wire == 0 ==> s.field.data == [])
            && (s.field.wire == 1 ==> |s.field.data| == 8)
            && (s.field.wire == 5 ==> |s.field.data| == 4)
            && (s.field.wire != 0 ==> s.field.value == 0)
  {
    var tag := Decode(buf, pos);
    ReencodeNeverLonger(buf, pos);
    if tag.value % 8 in {0, 2} { ReencodeNeverLonger(buf, tag.next); }
  }

  /** What a buffer holds: the fields read before the end or the first malformed one, and whether
      the end was reached. */
  datatype Parsed = Parsed(fields: seq<Field>, clean: bool)

  function ParseFrom(buf: seq<u8>, pos: nat): Parsed
    decreases |buf| - pos
  {
    match Next(buf, pos)
    case End => Parsed([], true)
    case Malformed => Parsed([], false)
    case Got(f, next) =>
      NextAdvances(buf, pos);
      var rest := ParseFrom(buf, next);
      Parsed([f] + rest.fields, rest.clean)
  }

  function Parse(buf: seq<u8>): Parsed { ParseFrom(buf, 0) }

  // ----- composition

  lemma BodyStable(a: seq<u8>, b: seq<u8>, number: u32, wire: u8, at: nat)
    requires at <= |a| && Body(a, number, wire, at).Got?
    ensures Body(a + b, number, wire, at) == Body(a, number, wire, at)
  {
    if wire in {0, 2} {
      DecodeStable(a, b, at);
      ReencodeNeverLonger(a, at);
    }
    if wire != 0 {
      var n := Body(a, number, wire, at).next;
      var from := n - |Body(a, number, wire, at).field.data|;
      assert (a + b)[from..n] == a[from..n];
    }
  }

  /** More input does not change a field that was read. */
  lemma NextStable(a: seq<u8>, b: seq<u8>, pos: nat)
    requires Next(a, pos).Got?
    ensures Next(a + b, pos) == Next(a, pos)
  {
    DecodeStable(a, b, pos);
    ReencodeNeverLonger(a, pos);
    var tag := Decode(a, pos);
    BodyStable(a, b, tag.value / 8 % TWO_32, tag.value % 8, tag.next);
  }

  function Moved(s: Step, offset: nat): Step {
    match s case Got(f, n) => Got(f, offset + n) case _ => s
  }

  lemma SliceShift(a: seq<u8>, b: seq<u8>, number: u32, wire: u8, at: nat, n: nat)
    requires at <= |b|
    ensures Slice(a + b, number, wire, |a| + at, n) == Moved(Slice(b, number, wire, at, n), |a|)
  {
    if n <= |b| - at { assert (a + b)[|a| + at..|a| + at + n] == b[at..at + n]; }
  }

  lemma BodyShift(a: seq<u8>, b: seq<u8>, number: u32, wire: u8, at: nat)
    requires at <= |b|
    ensures Body(a + b, number, wire, |a| + at) == Moved(Body(b, number, wire, at), |a|)
  {
    match wire {
      case 0 => DecodeShift(a, b, at);
      case 1 => SliceShift(a, b, number, wire, at, 8);
      case 2 =>
        DecodeShift(a, b, at);
        if Decode(b, at).Value? {
          ReencodeNeverLonger(b, at);
          SliceShift(a, b, number, wire, Decode(b, at).next, Decode(b, at).value);
        }
      case 5 => SliceShift(a, b, number, wire, at, 4);
      case _ =>
    }
  }

  lemma NextShift(a: seq<u8>, b: seq<u8>, pos: nat)
    ensures Next(a + b, |a| + pos) == Moved(Next(b, pos), |a|)
  {
    if pos < |b| {
      DecodeShift(a, b, pos);
      var tag := Decode(b, pos);
      if tag.Value? {
        ReencodeNeverLonger(b, pos);
        BodyShift(a, b, tag.value / 8 % TWO_32, tag.value % 8, tag.next);
      }
    }
  }

  lemma {:induction false} ParseShift(a: seq<u8>, b: seq<u8>, pos: nat)
    ensures ParseFrom(a + b, |a| + pos) == ParseFrom(b, pos)
    decreases |b| - pos
  {
    hide Next;
    NextShift(a, b, pos);
    if Next(b, pos).Got? {
      NextAdvances(b, pos);
      ParseShift(a, b, Next(b, pos).next);
    }
  }

  /** Fields of a well-formed buffer followed by anything: first its own, then those of the rest. */
  lemma {:induction false} ParseAppend(a: seq<u8>, b: seq<u8>, pos: nat)
    requires pos <= |a| && ParseFrom(a, pos).clean
    ensures ParseFrom(a + b, pos) ==
            Parsed(ParseFrom(a, pos).fields + Parse(b).fields, Parse(b).clean)
    decreases |a| - pos
  {
    hide Next;
    if pos == |a| {
      ParseShift(a, b, 0);
    } else {
      NextStable(a, b, pos);
      NextAdvances(a, pos);
      ParseAppend(a, b, Next(a, pos).next);
    }
  }

  /** Bytes that follow never suppress a field read before them, even when they turn a
      truncated field into a complete one. */
  lemma {:induction false} ParsePrefix(a: seq<u8>, b: seq<u8>, pos: nat)
    requires pos <= |a|
    ensures ParseFrom(a, pos).fields <= ParseFrom(a + b, pos).fields
    decreases |a| - pos
  {
    if Next(a, pos).Got? {
      NextStable(a, b, pos);
      NextAdvances(a, pos);
      ParsePrefix(a, b, Next(a, pos).next);
    }
  }

  // ----- the writer these fields have in the format

  /** The bytes of one field, with the shortest varints. */
  function Write(f: Field): seq<u8> {
    var tag := Encode(f.number * 8 + f.wire);
    if f.wire == 0 then tag + Encode(f.value)
    else if f.wire == 2 then tag + Encode(|f.data|) + f.data
    else tag + f.data
  }

  function WriteAll(fs: seq<Field>): seq<u8> {
    if fs == [] then [] else Write(fs[0]) + WriteAll(fs[1..])
  }

  /** The fields the format can carry: a number from 1, one of the four wire types, and nothing in
      the part the wire type does not use. */
  ghost predicate Writable(f: Field) {
    && f.number > 0
    && match f.wire
       case 0 => f.data == []
       case 1 => |f.data| == 8 && f.value == 0
       case 2 => |f.data| < TWO_64 && f.value == 0
       case 5 => |f.data| == 4 && f.value == 0
       case _ => false
  }

  /** A written field reads back as itself, wherever it stands, and nothing else is consumed. */
  lemma NextOfWrite(before: seq<u8>, f: Field, after: seq<u8>)
    requires Writable(f)
    ensures Next(before + Write(f) + after, |before|) == Got(f, |before| + |Write(f)|)
  {
    hide Body, Decode, Encode;
    var tag := f.number * 8 + f.wire;
    var t, body := Encode(tag), Write(f)[|Encode(tag)|..];
    assert Write(f) == t + body;
    assert before + Write(f) + after == before + t + (body + after);
    DecodeEncode(before, tag, body + after);
    BodyOfWrite(before + t, f, after);
    assert (before + t) + body + after == before + Write(f) + after;
  }

  lemma BodyOfWrite(before: seq<u8>, f: Field, after: seq<u8>)
    requires Writable(f)
    ensures var body := Write(f)[|Encode(f.number * 8 + f.wire)|..];
            Body(before + body + after, f.number, f.wire, |before|) == Got(f, |before| + |body|)
  {
    hide Decode, Encode;
    var body := Write(f)[|Encode(f.number * 8 + f.wire)|..];
    var buf := before + body + after;
    match f.wire {
      case 0 =>
        assert body == Encode(f.value);
        DecodeEncode(before, f.value, after);
      case 2 =>
        var n := Encode(|f.data|);
        assert body == n + f.data;
        assert buf == before + n + (f.data + after);
        DecodeEncode(before, |f.data|, f.data + after);
        assert buf[|before| + |n|..|before| + |n| + |f.data|] == f.data;
      case _ =>
        assert body == f.data;
        assert buf[|before|..|before| + |f.data|] == f.data;
    }
  }

  lemma FirstOfWrite(f: Field, after: seq<u8>)
    requires Writable(f)
    ensures Next(Write(f) + after, 0) == Got(f, |Write(f)|) && 0 < |Write(f)|
  {
    hide Next, Write;
    NextOfWrite([], f, after);
    assert [] + Write(f) + after == Write(f) + after;
    NextAdvances(Write(f) + after, 0);
  }

  /** A message written field by field parses to exactly those fields. */
  lemma {:induction false} ParseOfWriteAll(fs: seq<Field>)
    requires forall f :: f in fs ==> Writable(f)
    ensures Parse(WriteAll(fs)) == Parsed(fs, true)
  {
    hide Next, Write;
    if fs != [] {
      var head, tail := Write(fs[0]), WriteAll(fs[1..]);
      ParseOfWriteAll(fs[1..]);
      FirstOfWrite(fs[0], tail);
      ParseShift(head, tail, 0);
      assert ParseFrom(head + tail, |head|) == Parsed(fs[1..], true);
      assert fs == [fs[0]] + fs[1..];
    }
  }

  /** Every field that can be read can be written, in no more bytes than it was read from, so
      rewriting a well-formed buffer keeps its fields and never lengthens it. */
  lemma RewriteNeverLonger(buf: seq<u8>, pos: nat)
    requires |buf| < TWO_64
    ensures var s := Next(buf, pos);
            s.Got? ==> Writable(s.field) && |Write(s.field)| <= s.next - pos
  {
    hide Encode, Decode, Body, Write;
    if Next(buf, pos).Got? {
      var tag := Decode(buf, pos);
      ReencodeNeverLonger(buf, pos);
      var number, wire := tag.value / 8 % TWO_32, tag.value % 8;
      BodyRewriteNeverLonger(buf, number, wire, tag.next);
      EncodeShorter(number * 8 + wire, tag.value);
    }
  }

  lemma BodyRewriteNeverLonger(buf: seq<u8>, number: u32, wire: u8, at: nat)
    requires at <= |buf| < TWO_64 && number > 0 && Body(buf, number, wire, at).Got?
    ensures var s := Body(buf, number, wire, at);
            && Writable(s.field) && s.field.number == number && s.field.wire == wire
            && |Write(s.field)| - |Encode(number * 8 + wire)| <= s.next - at
  {
    if wire in {0, 2} { ReencodeNeverLonger(buf, at); }
  }

  lemma {:induction false} EncodeShorter(v: nat, w: nat)
    requires v <= w
    ensures |Encode(v)| <= |Encode(w)|
  {
    if v >= 128 { EncodeShorter(v / 128, w / 128); }
  }

  lemma {:induction false} Canonical(buf: seq<u8>, pos: nat)
    requires pos <= |buf| < TWO_64
    ensures var fs := ParseFrom(buf, pos).fields;
            Parse(WriteAll(fs)) == Parsed(fs, true) && |WriteAll(fs)| <= |buf| - pos
    decreases |buf| - pos
  {
    var fs := ParseFrom(buf, pos).fields;
    if Next(buf, pos).Got? {
      var n := Next(buf, pos).next;
      NextAdvances(buf, pos);
      RewriteNeverLonger(buf, pos);
      Canonical(buf, n);
      assert fs[1..] == ParseFrom(buf, n).fields;
    }
    AllWritable(buf, pos);
    ParseOfWriteAll(fs);
  }

  lemma {:induction false} AllWritable(buf: seq<u8>, pos: nat)
    requires pos <= |buf| < TWO_64
    ensures forall f :: f in ParseFrom(buf, pos).fields ==> Writable(f)
    decreases |buf| - pos
  {
    if Next(buf, pos).Got? {
      NextAdvances(buf, pos);
      RewriteNeverLonger(buf, pos);
      AllWritable(buf, Next(buf, pos).next);
    }
  }

  /** The number of a field is its tag in 32 bits: a tag that carries more aliases a small number. */
  lemma NumberAliases(number: u32, wire: u8, high: nat, after: seq<u8>)
    requires wire < 8 && (high * TWO_32 + number) * 8 + wire < TWO_64
    ensures var tag := Encode((high * TWO_32 + number) * 8 + wire);
            var alias := Encode(number * 8 + wire);
            |alias| <= |tag| && Next(tag + after, 0) == Moved(Next(alias + after, 0), |tag| - |alias|)
  {
    hide Next, Encode;
    var t := (high * TWO_32 + number) * 8 + wire;
    EncodeShorter(number * 8 + wire, t);
    TagDigits(number, wire, high);
    TagDigits(number, wire, 0);
    NextAfterTag(t, number, wire, after);
    NextAfterTag(number * 8 + wire, number, wire, after);
  }

  lemma TagDigits(number: u32, wire: u8, high: nat)
    requires wire < 8
    ensures var t := (high * TWO_32 + number) * 8 + wire; t / 8 % TWO_32 == number && t % 8 == wire
  {
    var t := (high * TWO_32 + number) * 8 + wire;
    assert t / 8 == high * TWO_32 + number;
    ModUnique(high * TWO_32 + number, TWO_32, high, number);
  }

  /** The field behind a tag is read as its body, whatever the tag carries above the number. */
  lemma NextAfterTag(t: u64, number: u32, wire: u8, after: seq<u8>)
    requires t / 8 % TWO_32 == number && t % 8 == wire
    ensures var tag := Encode(t);
            Next(tag + after, 0) == if number == 0 then Malformed else Moved(Body(after, number, wire, 0), |tag|)
  {
    hide Body, Decode, Encode;
    var tag := Encode(t);
    DecodeEncode([], t, after);
    assert [] + tag + after == tag + after;
    BodyShift(tag, after, number, wire, 0);
  }

  // ----- the reader of the source

  method PbNext(buf: seq<u8>, pos0: nat) returns (r: Step)
    ensures r == Next(buf, pos0)
  {
    var pos := pos0;
    if pos >= |buf| { return End; }
    var tag := GetVarint(buf, pos);
    if tag.BadVarint? { return Malformed; }
    ReencodeNeverLonger(buf, pos);
    pos := tag.next;
    var number, wire := tag.value / 8 % TWO_32, tag.value % 8;
    if number == 0 { return Malformed; }
    if wire == 0 {
      var v := GetVarint(buf, pos);
      if v.BadVarint? { return Malformed; }
      return Got(Field(number, wire, [], v.value), v.next);
    } else if wire == 1 {
      if |buf| - pos < 8 { return Malformed; }
      return Got(Field(number, wire, buf[pos..pos + 8], 0), pos + 8);
    } else if wire == 2 {
      var n := GetVarint(buf, pos);
      if n.BadVarint? { return Malformed; }
      ReencodeNeverLonger(buf, pos);
      pos := n.next;
      if n.value > |buf| - pos { return Malformed; }
      return Got(Field(number, wire, buf[pos..pos + n.value], 0), pos + n.value);
    } else if wire == 5 {
      if |buf| - pos < 4 { return Malformed; }
      return Got(Field(number, wire, buf[pos..pos + 4], 0), pos + 4);
    }
    return Malformed;
  }
}
