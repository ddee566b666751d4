/** Reports from the SSC service: an optional length prefix, an outer message of events, and per
    event a message id and a payload the client acts on. */
module Report {
  import opened Wrappers
  import opened Bytes
  import opened Varint
  import opened Fields
  import opened Request

  const MSG_SUID_EVENT: u32 := 768
  const MSG_HANDSHAKE_ACK: u32 := 832
  const MSG_PRESENCE_EVENT: u32 := 928

  const EBADMSG := 74

  datatype Event = Event(msgId: u32, payload: seq<u8>)

  // ----- from a report to its events

  /** The id and the payload an event's fields leave behind: the last of each kind. */
  function EventScan(fs: seq<Field>, acc: (u32, Option<seq<u8>>)): (u32, Option<seq<u8>>) {
    if fs == [] then acc
    else EventScan(fs[1..], EventField(fs[0], acc))
  }

  function EventField(f: Field, acc: (u32, Option<seq<u8>>)): (u32, Option<seq<u8>>) {
    if f.number == 1 && f.wire == 5 && |f.data| == 4 then (LeValue32(f.data), acc.1)
    else if f.number == 3 && f.wire == 2 then (acc.0, Some(f.data))
    else acc
  }

  function LeValue32(s: seq<u8>): (v: u32)
    requires |s| == 4
    ensures v == FromLe(s)
  {
    FromLeRoundTrip(s);
    Pow256Widths();
    FromLe(s)
  }

  function LeValue64(s: seq<u8>): (v: u64)
    requires |s| == 8
    ensures v == FromLe(s)
  {
    FromLeRoundTrip(s);
    Pow256Widths();
    FromLe(s)
  }

  /** The events one outer field contributes: at most one. */
  function EventsOf(f: Field): seq<Event> {
    if f.number == 2 && f.wire == 2 then
      var (id, payload) := EventScan(Parse(f.data).fields, (0, None));
      if id != 0 && payload.Some? then [Event(id, payload.value)] else []
    else []
  }

  function Events(fs: seq<Field>): seq<Event> {
    if fs == [] then [] else EventsOf(fs[0]) + Events(fs[1..])
  }

  /** The events of a report body, in order. */
  function Dispatch(body: seq<u8>): seq<Event> { Events(Parse(body).fields) }

  /** Whether the first two bytes are the length of the rest. */
  predicate LooksFramed(buf: seq<u8>) {
    |buf| >= 2 && buf[0] + 256 * buf[1] as int == |buf| - 2
  }

  /** The events of a report as received. */
  function Received(buf: seq<u8>): seq<Event> {
    if LooksFramed(buf) then Dispatch(buf[2..]) else Dispatch(buf)
  }

  // ----- composition and framing

  lemma {:induction false} EventsAppend(a: seq<Field>, b: seq<Field>)
    ensures Events(a + b) == Events(a) + Events(b)
  {
    hide EventsOf;
    if a == [] {
      assert a + b == b;
    } else {
      EventsAppend(a[1..], b);
      assert (a + b)[0] == a[0] && (a + b)[1..] == a[1..] + b;
      calc {
        Events(a + b);
        EventsOf(a[0]) + Events(a[1..] + b);
        EventsOf(a[0]) + (Events(a[1..]) + Events(b));
        (EventsOf(a[0]) + Events(a[1..])) + Events(b);
      }
    }
  }

  /** A well-formed body followed by any bytes yields its own events and then those of the rest. */
  lemma DispatchAppend(a: seq<u8>, b: seq<u8>)
    requires Parse(a).clean
    ensures Dispatch(a + b) == Dispatch(a) + Dispatch(b)
  {
    ParseAppend(a, b, 0);
    EventsAppend(Parse(a).fields, Parse(b).fields);
  }

  /** Whatever follows, the events already read are read again first: a malformed or truncated tail
      never suppresses an earlier event. */
  lemma DispatchPrefix(a: seq<u8>, b: seq<u8>)
    ensures Dispatch(a) <= Dispatch(a + b)
  {
    ParsePrefix(a, b, 0);
    var fs, gs := Parse(a).fields, Parse(a + b).fields;
    assert gs == fs + gs[|fs|..];
    EventsAppend(fs, gs[|fs|..]);
  }

  /** Reading as framed means being the frame of one's own remainder. */
  lemma FramedAs(body: seq<u8>)
    requires |body| < 0x1_0000
    ensures Framed(body)[2..] == body && LooksFramed(Framed(body))
  {
    hide Le;
    LeTwo(|body|);
  }

  lemma FrameOfRest(body: seq<u8>)
    requires LooksFramed(body) && |body| < 0x1_0000
    ensures body == Framed(body[2..])
  {
    hide Le;
    LeTwo(|body| - 2);
    assert body == [body[0], body[1]] + body[2..];
  }

  /** A body and the same body behind its length prefix carry the same events unless the body's own
      first two bytes read as the length of the rest, which bodies of at most 1024 bytes rule out
      when their second byte is 4 or more. A body that does read as framed is taken for the
      frame of its own remainder. */
  lemma FramingUnambiguous(body: seq<u8>)
    requires |body| < 0x1_0000
    ensures Received(Framed(body)) == Dispatch(body)
    ensures !LooksFramed(body) ==> Received(body) == Received(Framed(body))
    ensures LooksFramed(body) ==> body == Framed(body[2..]) && Received(body) == Received(Framed(body[2..]))
    ensures Received(body) == Received(Framed(body)) <==> !LooksFramed(body) || Dispatch(body[2..]) == Dispatch(body)
    ensures 2 <= |body| <= 1024 && body[1] >= 4 ==> Received(body) == Received(Framed(body))
  {
    hide Dispatch, Framed;
    FramedAs(body);
    if LooksFramed(body) {
      FrameOfRest(body);
      FramedAs(body[2..]);
    }
  }

  // ----- writing events

  function WriteEvent(ev: Event): Field {
    Delimited(2, WriteAll(EventFields(ev)))
  }

  function EventFields(ev: Event): seq<Field> { [Fixed32(1, ev.msgId), Delimited(3, ev.payload)] }

  function WriteEvents(evs: seq<Event>): (fs: seq<Field>)
    ensures |fs| == |evs|
    ensures forall i :: 0 <= i < |fs| ==> fs[i] == WriteEvent(evs[i])
  {
    if evs == [] then [] else [WriteEvent(evs[0])] + WriteEvents(evs[1..])
  }

  lemma EventOfWrite(ev: Event)
    requires ev.msgId != 0 && |ev.payload| < TWO_32
    ensures Writable(WriteEvent(ev)) && EventsOf(WriteEvent(ev)) == [ev]
  {
    hide Parse, WriteAll, Encode, Le;
    var fs := EventFields(ev);
    ParseOfWriteAll(fs);
    EventLength(ev);
    LeRoundTrip(ev.msgId, 4);
    Pow256Widths();
    assert fs[1..] == [fs[1]] && fs[1..][1..] == [];
    var none: (u32, Option<seq<u8>>) := (0, None);
    calc {
      EventScan(fs, none);
      EventScan([fs[1]], EventField(fs[0], none));
      EventScan([], EventField(fs[1], EventField(fs[0], none)));
      (ev.msgId, Some(ev.payload));
    }
  }

  lemma EventLength(ev: Event)
    requires |ev.payload| < TWO_32
    ensures |WriteAll(EventFields(ev))| == 6 + |Encode(|ev.payload|)| + |ev.payload| < TWO_64
  {
    hide Write;
    WriteTwo(Fixed32(1, ev.msgId), Delimited(3, ev.payload));
    SmallFixed32(1, ev.msgId);
    DelimitedBytes(3, ev.payload);
    EncodeAtMostTen(|ev.payload|);
  }

  /** Of several ids, and of several payloads, in one event the last counts. */
  lemma {:induction false} LastCounts(fs: seq<Field>, id: u32, payload: seq<u8>, acc: (u32, Option<seq<u8>>))
    ensures EventScan(fs + [Fixed32(1, id)], acc) == (id, EventScan(fs, acc).1)
    ensures EventScan(fs + [Delimited(3, payload)], acc) == (EventScan(fs, acc).0, Some(payload))
  {
    hide Le, FromLe;
    if fs == [] {
      LeRoundTrip(id, 4);
      Pow256Widths();
      assert fs + [Fixed32(1, id)] == [Fixed32(1, id)] && [Fixed32(1, id)][1..] == [];
      assert fs + [Delimited(3, payload)] == [Delimited(3, payload)] && [Delimited(3, payload)][1..] == [];
      assert EventField(Fixed32(1, id), acc) == (id, acc.1);
    } else {
      assert (fs + [Fixed32(1, id)])[1..] == fs[1..] + [Fixed32(1, id)];
      assert (fs + [Delimited(3, payload)])[1..] == fs[1..] + [Delimited(3, payload)];
      LastCounts(fs[1..], id, payload, EventField(fs[0], acc));
    }
  }

  /** Events written one after the other are dispatched as they were written. */
  lemma {:induction false} EventsOfWrite(evs: seq<Event>)
    requires forall ev :: ev in evs ==> ev.msgId != 0 && |ev.payload| < TWO_32
    ensures Events(WriteEvents(evs)) == evs
    ensures forall f :: f in WriteEvents(evs) ==> Writable(f)
  {
    hide WriteEvent, EventsOf;
    if evs != [] {
      EventOfWrite(evs[0]);
      EventsOfWrite(evs[1..]);
      assert WriteEvents(evs)[1..] == WriteEvents(evs[1..]);
      assert evs == [evs[0]] + evs[1..];
    }
  }

  lemma DispatchOfWrite(evs: seq<Event>)
    requires forall ev :: ev in evs ==> ev.msgId != 0 && |ev.payload| < TWO_32
    ensures Dispatch(WriteAll(WriteEvents(evs))) == evs
  {
    EventsOfWrite(evs);
    ParseOfWriteAll(WriteEvents(evs));
  }

  /** The framing condition can fail: 276 bytes whose first two read as the length of the rest, and
      which lose their event when these two are dropped. */
  lemma FramingAmbiguityExample(ev: Event)
    requires ev.msgId != 0 && |ev.payload| == 262
    ensures var body := WriteAll([Delimited(2, [0]), WriteEvent(ev)]);
            && |body| == 276 && LooksFramed(body)
            && Dispatch(body) == [ev] && Dispatch(body[2..]) == []
  {
    var first, second := Delimited(2, [0]), WriteEvent(ev);
    var body := WriteAll([first, second]);
    EventOfWrite(ev);
    EventLength(ev);
    ShortLength2(262);
    ShortLength2(270);
    WriteTwo(first, second);
    SmallDelimited(2, [0]);
    DelimitedBytes(2, second.data);
    assert body[..3] == [0x12, 0x01, 0x00];
    ParseOfWriteAll([first, second]);
    EmptyEvent();
    assert [first, second][1..] == [second];
    assert Events([second]) == EventsOf(second) + Events([second][1..]);
    ZeroTag(body[2..]);
  }

  lemma ShortLength2(n: nat)
    requires 128 <= n < 16384
    ensures |Encode(n)| == 2
  {
    assert |Encode(n / 128)| == 1;
  }

  lemma ZeroTag(buf: seq<u8>)
    requires |buf| > 0 && buf[0] == 0
    ensures Parse(buf) == Parsed([], false)
  {
    TerminatorIs(buf, 0, 0);
    assert buf[0..1] == [0];
    assert Groups([0 as u8]) == 0 by { assert [0 as u8][1..] == []; }
  }

  lemma EmptyEvent()
    ensures EventsOf(Delimited(2, [0])) == []
  {
    ZeroTag([0]);
  }

  // ----- what an event means to the client

  datatype Sensor = CameraHandshake | HumanPresence | CameraFace

  datatype Effect =
    | NoEffect
    | FoundSuid(sensor: Sensor, suid: Suid)
    | HandshakeAck(error: int)
    | Presence(value: int)

  /** "camera_handshake", "human_presence_detect", "camera_face_detect" */
  function SensorName(d: Sensor): (s: seq<u8>)
    ensures 1 <= |s| <= 21 && 0 !in s
  {
    match d
    case CameraHandshake =>
      [0x63, 0x61, 0x6d, 0x65, 0x72, 0x61, 0x5f, 0x68, 0x61, 0x6e, 0x64, 0x73, 0x68, 0x61, 0x6b, 0x65]
    case HumanPresence =>
      [0x68, 0x75, 0x6d, 0x61, 0x6e, 0x5f, 0x70, 0x72, 0x65, 0x73, 0x65, 0x6e, 0x63, 0x65, 0x5f, 0x64, 0x65, 0x74, 0x65, 0x63, 0x74]
    case CameraFace =>
      [0x63, 0x61, 0x6d, 0x65, 0x72, 0x61, 0x5f, 0x66, 0x61, 0x63, 0x65, 0x5f, 0x64, 0x65, 0x74, 0x65, 0x63, 0x74]
  }

  /** A C string in a buffer: the bytes before the first NUL. */
  function CString(b: seq<u8>): seq<u8> {
    if b == [] || b[0] == 0 then [] else [b[0]] + CString(b[1..])
  }

  const NAME_BUFFER := 64

  /** Copying a field into the name buffer leaves at least its last byte as it was. */
  function Overlay(buffer: seq<u8>, data: seq<u8>): (b: seq<u8>)
    requires |buffer| == NAME_BUFFER
    ensures |b| == NAME_BUFFER
  {
    var n := Min(|data|, NAME_BUFFER - 1);
    data[..n] + buffer[n..]
  }

  /** The two halves of a SUID; other fields, and a malformed end, are passed over. */
  function SuidScan(fs: seq<Field>, suid: Suid): Suid {
    if fs == [] then suid else SuidScan(fs[1..], SuidField(fs[0], suid))
  }

  function SuidField(f: Field, suid: Suid): Suid {
    if f.wire != 1 || |f.data| != 8 then suid
    else if f.number == 1 then suid.(field1 := LeValue64(f.data))
    else if f.number == 2 then suid.(field2 := LeValue64(f.data))
    else suid
  }

  /** The name buffer and the SUID after the fields of a SUID event. */
  function SuidEventScan(fs: seq<Field>, buffer: seq<u8>, suid: Suid): (seq<u8>, Suid)
    requires |buffer| == NAME_BUFFER
  {
    if fs == [] then (buffer, suid)
    else
      var (b, s) := SuidEventField(fs[0], buffer, suid);
      SuidEventScan(fs[1..], b, s)
  }

  function SuidEventField(f: Field, buffer: seq<u8>, suid: Suid): (r: (seq<u8>, Suid))
    requires |buffer| == NAME_BUFFER
    ensures |r.0| == NAME_BUFFER
  {
    if f.number == 1 && f.wire == 2 then (Overlay(buffer, f.data), suid)
    else if f.number == 2 && f.wire == 2 then
      var s := SuidScan(Parse(f.data).fields, suid);
      (buffer, s.(valid := s.field1 != 0 || s.field2 != 0))
    else (buffer, suid)
  }

  function Zeros(n: nat): (s: seq<u8>)
    ensures |s| == n && forall i :: 0 <= i < n ==> s[i] == 0
  {
    if n == 0 then [] else [0] + Zeros(n - 1)
  }

  function SuidEffect(payload: seq<u8>): Effect {
    var p := Parse(payload);
    var (buffer, suid) := SuidEventScan(p.fields, Zeros(NAME_BUFFER), NO_SUID);
    var name := CString(buffer);
    if !p.clean || name == [] || !suid.valid then NoEffect
    else if name == SensorName(CameraHandshake) then FoundSuid(CameraHandshake, suid)
    else if name == SensorName(HumanPresence) then FoundSuid(HumanPresence, suid)
    else if name == SensorName(CameraFace) then FoundSuid(CameraFace, suid)
    else NoEffect
  }

  /** The first varint field numbered 1, if any comes before the end or a malformed field. */
  function FirstNumber(fs: seq<Field>): Option<u64> {
    if fs == [] then None
    else if fs[0].number == 1 && fs[0].wire == 0 then Some(fs[0].value)
    else FirstNumber(fs[1..])
  }

  /** A 64-bit number stored in a C int. */
  function Int32(v: u64): int {
    var low := v % TWO_32;
    if low < TWO_32 / 2 then low else low - TWO_32
  }

  function AckEffect(payload: seq<u8>): Effect {
    match FirstNumber(Parse(payload).fields)
    case None => HandshakeAck(-EBADMSG)
    case Some(v) => HandshakeAck(Int32(v))
  }

  function PresenceEffect(payload: seq<u8>): Effect {
    match FirstNumber(Parse(payload).fields)
    case None => NoEffect
    case Some(v) => if v == 1 then Presence(1) else if v == 2 then Presence(0) else NoEffect
  }

  function EffectOf(ev: Event): Effect {
    if ev.msgId == MSG_SUID_EVENT then SuidEffect(ev.payload)
    else if ev.msgId == MSG_HANDSHAKE_ACK then AckEffect(ev.payload)
    else if ev.msgId == MSG_PRESENCE_EVENT then PresenceEffect(ev.payload)
    else NoEffect
  }

  function Effects(evs: seq<Event>): (es: seq<Effect>)
    ensures |es| == |evs| && forall i :: 0 <= i < |es| ==> es[i] == EffectOf(evs[i])
  {
    if evs == [] then [] else [EffectOf(evs[0])] + Effects(evs[1..])
  }

  // ----- events the service sends, and what they do

  /** Only a valid SUID is ever taken over. */
  lemma FoundSuidIsValid(ev: Event)
    requires EffectOf(ev).FoundSuid?
    ensures var s := EffectOf(ev).suid; s.valid && (s.field1 != 0 || s.field2 != 0)
  {
    SuidScanValid(Parse(ev.payload).fields, Zeros(NAME_BUFFER), NO_SUID);
  }

  lemma {:induction false} SuidScanValid(fs: seq<Field>, buffer: seq<u8>, suid: Suid)
    requires |buffer| == NAME_BUFFER && (suid.valid ==> suid.field1 != 0 || suid.field2 != 0)
    ensures var s := SuidEventScan(fs, buffer, suid).1; s.valid ==> s.field1 != 0 || s.field2 != 0
  {
    if fs != [] {
      var (b, s) := SuidEventField(fs[0], buffer, suid);
      SuidScanValid(fs[1..], b, s);
    }
  }

  lemma LowBits(v: u64)
    ensures Int32(v) == 0 <==> v % TWO_32 == 0
    ensures -0x8000_0000 <= Int32(v) < 0x8000_0000 && (Int32(v) - v) % TWO_32 == 0
  {
  }

  /** Every acknowledgement is taken as one, and accepted exactly when it carries a number whose low 32
      bits are zero: a number that is a multiple of 2^32 is accepted too, and none means an error. */
  lemma AckAccepted(payload: seq<u8>)
    ensures var e := EffectOf(Event(MSG_HANDSHAKE_ACK, payload));
            var n := FirstNumber(Parse(payload).fields);
            && e.HandshakeAck?
            && (e.error == 0 <==> n.Some? && n.value % TWO_32 == 0)
            && (n.None? ==> e.error == -EBADMSG)
  {
    hide Parse, Int32;
    var n := FirstNumber(Parse(payload).fields);
    if n.Some? { LowBits(n.value); }
  }

  function SuidEventPayload(name: seq<u8>, suid: Suid): seq<u8> {
    WriteAll([Delimited(1, name), Delimited(2, WriteAll(SuidFields(suid)))])
  }

  /** Round trip of a discovery answer: the SUID reaches the slot of the sensor it names. */
  lemma SuidEventRoundTrip(d: Sensor, suid: Suid)
    requires suid.valid && (suid.field1 != 0 || suid.field2 != 0)
    ensures EffectOf(Event(MSG_SUID_EVENT, SuidEventPayload(SensorName(d), suid))) == FoundSuid(d, suid)
  {
    hide Parse, WriteAll, SensorName;
    SuidAnswer(SensorName(d), suid);
    NamesDiffer();
  }

  /** A well-formed discovery answer is taken exactly when its name is a sensor's and its SUID not zero. */
  lemma SuidAnswer(name: seq<u8>, suid: Suid)
    requires |name| < NAME_BUFFER && 0 !in name && (suid.valid <==> suid.field1 != 0 || suid.field2 != 0)
    ensures var e := EffectOf(Event(MSG_SUID_EVENT, SuidEventPayload(name, suid)));
            && (e == NoEffect <==> !suid.valid || forall d :: name != SensorName(d))
            && (forall d :: suid.valid && name == SensorName(d) ==> e == FoundSuid(d, suid))
  {
    hide Parse, WriteAll, SensorName, Overlay, SuidEventScan, CString;
    var fs := [Delimited(1, name), Delimited(2, WriteAll(SuidFields(suid)))];
    SuidBytes(suid);
    ParseOfWriteAll(fs);
    SuidEventOfFields(name, suid);
    OverlayShows(name);
    CStringOf(name, Overlay(Zeros(NAME_BUFFER), name));
    NamesDiffer();
    forall d ensures d != CameraHandshake && d != HumanPresence ==> SensorName(d) == SensorName(CameraFace) {}
  }

  lemma OverlayShows(name: seq<u8>)
    requires |name| < NAME_BUFFER
    ensures var b := Overlay(Zeros(NAME_BUFFER), name); name <= b && b[|name|] == 0
  {
  }

  /** The names of the three sensors, as characters. */
  lemma SensorNames()
    ensures Spells(SensorName(CameraHandshake), "camera_handshake")
    ensures Spells(SensorName(HumanPresence), "human_presence_detect")
    ensures Spells(SensorName(CameraFace), "camera_face_detect")
  {
  }

  predicate Spells(bytes: seq<u8>, text: string) {
    |bytes| == |text| && forall i :: 0 <= i < |text| ==> bytes[i] == text[i] as int
  }

  lemma SuidEventOfFields(name: seq<u8>, suid: Suid)
    requires suid.valid <==> suid.field1 != 0 || suid.field2 != 0
    ensures SuidEventScan([Delimited(1, name), Delimited(2, WriteAll(SuidFields(suid)))], Zeros(NAME_BUFFER), NO_SUID) ==
            (Overlay(Zeros(NAME_BUFFER), name), suid)
  {
    hide Parse, WriteAll, Overlay, SuidScan, SuidFields;
    EnvelopeWritable(suid, 0, []);
    ParseOfWriteAll(SuidFields(suid));
    SuidScanOfFields(suid);
    var first, second := Delimited(1, name), Delimited(2, WriteAll(SuidFields(suid)));
    var zeros := Zeros(NAME_BUFFER);
    var b := Overlay(zeros, name);
    assert [first, second][1..] == [second] && [second][1..] == [];
    assert SuidEventField(first, zeros, NO_SUID) == (b, NO_SUID);
    assert SuidEventField(second, b, NO_SUID) == (b, suid);
    assert SuidEventScan([second], b, NO_SUID) == SuidEventScan([], b, suid);
  }

  lemma SuidScanOfFields(suid: Suid)
    ensures SuidScan(SuidFields(suid), NO_SUID) == suid.(valid := false)
  {
    var fs := SuidFields(suid);
    hide Le, FromLe, Pow;
    LeRoundTrip(suid.field1, 8);
    LeRoundTrip(suid.field2, 8);
    Pow256Widths();
    assert fs[1..] == [fs[1]] && fs[1..][1..] == [];
    var half := SuidField(fs[0], NO_SUID);
    assert half == Suid(suid.field1, 0, false);
    assert SuidScan(fs, NO_SUID) == SuidScan([fs[1]], half) == SuidScan([], SuidField(fs[1], half));
  }

  lemma {:induction false} CStringOf(name: seq<u8>, b: seq<u8>)
    requires |name| < |b| && name <= b && b[|name|] == 0 && 0 !in name
    ensures CString(b) == name
  {
    if name != [] {
      assert name[0] in name;
      CStringOf(name[1..], b[1..]);
      assert name == [name[0]] + name[1..];
    }
  }

  lemma NamesDiffer()
    ensures SensorName(CameraHandshake)[1] != SensorName(HumanPresence)[1]
    ensures |SensorName(CameraHandshake)| == 16 && |SensorName(HumanPresence)| == 21 && |SensorName(CameraFace)| == 18
  {
  }

  /** No number that the client would read. */
  ghost predicate NoNumber(fs: seq<Field>) { forall f :: f in fs ==> f.number != 1 || f.wire != 0 }

  lemma {:induction false} FirstNumberOf(before: seq<Field>, v: u64, after: seq<Field>)
    requires NoNumber(before)
    ensures FirstNumber(before + [Number(1, v)] + after) == Some(v)
    decreases before
  {
    var fs := before + [Number(1, v)] + after;
    if before == [] {
      assert fs[0] == Number(1, v);
    } else {
      assert before[0] in before && fs[0] == before[0];
      assert fs[1..] == before[1..] + [Number(1, v)] + after;
      FirstNumberOf(before[1..], v, after);
    }
  }

  function NumberPayload(before: seq<Field>, v: u64, after: seq<Field>): seq<u8> {
    WriteAll(before + [Number(1, v)] + after)
  }

  lemma NumberEventRoundTrip(before: seq<Field>, v: u64, after: seq<Field>)
    requires NoNumber(before) && forall f :: f in before + after ==> Writable(f)
    ensures FirstNumber(Parse(NumberPayload(before, v, after)).fields) == Some(v)
  {
    hide Parse, WriteAll;
    var fs := before + [Number(1, v)] + after;
    forall f | f in fs ensures Writable(f) {
      if f != Number(1, v) { assert f in before + after; }
    }
    ParseOfWriteAll(fs);
    FirstNumberOf(before, v, after);
  }

  /** Round trip of an acknowledgement, with any other fields around its number: the low 32 bits of the
      number are stored as a signed error, which is zero exactly when they are. */
  lemma AckEventRoundTrip(before: seq<Field>, v: u64, after: seq<Field>)
    requires NoNumber(before) && forall f :: f in before + after ==> Writable(f)
    ensures var e := EffectOf(Event(MSG_HANDSHAKE_ACK, NumberPayload(before, v, after)));
            && e.HandshakeAck? && (e.error - v) % TWO_32 == 0 && -0x8000_0000 <= e.error < 0x8000_0000
            && (e.error == 0 <==> v % TWO_32 == 0)
  {
    hide Parse, NumberPayload, Int32;
    NumberEventRoundTrip(before, v, after);
    LowBits(v);
  }

  /** Round trip of a presence event: 1 is presence, 2 is absence, and nothing else changes the reading. */
  lemma PresenceEventRoundTrip(before: seq<Field>, v: u64, after: seq<Field>)
    requires NoNumber(before) && forall f :: f in before + after ==> Writable(f)
    ensures var e := EffectOf(Event(MSG_PRESENCE_EVENT, NumberPayload(before, v, after)));
            && (e == Presence(1) <==> v == 1) && (e == Presence(0) <==> v == 2) && (e == NoEffect <==> v != 1 && v != 2)
  {
    hide Parse, NumberPayload;
    NumberEventRoundTrip(before, v, after);
  }
}
