/** What a written report does to the client's fields, message by message: the last word on each field
    stands, and fields that no message speaks of keep their value. */
module HpdReports {
  import opened Wrappers
  import opened Bytes
  import opened Fields
  import opened Request
  import opened Report
  import opened HpdState

  /** What the service can tell: the SUID behind a name, an acknowledgement and the presence, each with
      whatever fields it comes with, a discovery answer that is cut short or garbled, or something the
      client does not know. */
  datatype Message =
    | Answer(name: seq<u8>, field1: u64, field2: u64)
    | Garbled(payload: seq<u8>)
    | Acknowledge(fields: seq<Field>)
    | TellPresence(fields: seq<Field>)
    | Unknown(msgId: u32, payload: seq<u8>)

  function EventFor(m: Message): Event {
    match m
    case Answer(name, a, b) => Event(768, SuidEventPayload(name, Suid(a, b, a != 0 || b != 0)))
    case Garbled(payload) => Event(768, payload)
    case Acknowledge(fs) => Event(832, WriteAll(fs))
    case TellPresence(fs) => Event(928, WriteAll(fs))
    case Unknown(msgId, payload) => Event(msgId, payload)
  }

  ghost predicate Tellable(m: Message) {
    && |EventFor(m).payload| < TWO_32
    && match m
       case Answer(name, _, _) => |name| < 64 && 0 !in name
       case Garbled(payload) => !Parse(payload).clean
       case Acknowledge(fs) => forall f :: f in fs ==> Writable(f)
       case TellPresence(fs) => forall f :: f in fs ==> Writable(f)
       case Unknown(msgId, _) => msgId !in [0, 768, 832, 928]
  }

  function EventsFor(ms: seq<Message>): (evs: seq<Event>)
    ensures |evs| == |ms| && forall i :: 0 <= i < |ms| ==> evs[i] == EventFor(ms[i])
  {
    if ms == [] then [] else [EventFor(ms[0])] + EventsFor(ms[1..])
  }

  function ReportOf(ms: seq<Message>, framed: bool): seq<u8> {
    var body := WriteAll(WriteEvents(EventsFor(ms)));
    if framed then Framed(body) else body
  }

  /** A report that the client takes, and does not take for the frame of something else. */
  ghost predicate Deliverable(ms: seq<Message>, framed: bool) {
    && (forall m :: m in ms ==> Tellable(m))
    && 1 <= |ReportOf(ms, framed)| <= 1024
    && (!framed ==> !LooksFramed(ReportOf(ms, framed)))
  }

  // ----- the last word

  /** The SUID last told for this sensor; a zero one says nothing. */
  function LastAnswer(ms: seq<Message>, d: Sensor): Option<Suid> {
    if ms == [] then None
    else
      var n := |ms| - 1;
      if Tells(ms[n], d) then Some(Suid(ms[n].field1, ms[n].field2, true)) else LastAnswer(ms[..n], d)
  }

  predicate Tells(m: Message, d: Sensor) { m.Answer? && m.name == SensorName(d) && (m.field1 != 0 || m.field2 != 0) }

  /** The fields of the last acknowledgement. */
  function LastAck(ms: seq<Message>): Option<seq<Field>> {
    if ms == [] then None
    else
      var n := |ms| - 1;
      if ms[n].Acknowledge? then Some(ms[n].fields) else LastAck(ms[..n])
  }

  /** The last presence told: 1 for somebody, 0 for nobody. */
  function LastPresence(ms: seq<Message>): Option<int> {
    if ms == [] then None
    else
      var n := |ms| - 1;
      if ms[n].TellPresence? && FirstNumber(ms[n].fields) == Some(1) then Some(1)
      else if ms[n].TellPresence? && FirstNumber(ms[n].fields) == Some(2) then Some(0)
      else LastPresence(ms[..n])
  }

  /** The error of an acknowledgement: the low 32 bits of its number, signed, or -EBADMSG without one. */
  predicate ErrorOf(fs: seq<Field>, error: int) {
    match FirstNumber(fs)
    case None => error == -74
    case Some(v) => -0x8000_0000 <= error < 0x8000_0000 && (error - v) % 0x1_0000_0000 == 0
  }

  ghost predicate After(ms: seq<Message>, h: Hpd, g: Hpd) {
    && g.flags == h.flags
    && (forall d :: SlotAfter(ms, d, h, g))
    && (match LastAck(ms)
        case None => g.handshakeError == h.handshakeError && g.done.ack == h.done.ack
        case Some(fs) => ErrorOf(fs, g.handshakeError) && g.done.ack)
    && (match LastPresence(ms)
        case None => g.reading == h.reading
        case Some(v) => g.reading == Reading(v, true))
  }

  predicate SlotAfter(ms: seq<Message>, d: Sensor, h: Hpd, g: Hpd) {
    match LastAnswer(ms, d)
    case None => g.suids.At(d) == h.suids.At(d) && g.done.At(d) == h.done.At(d)
    case Some(suid) => g.suids.At(d) == suid && g.done.At(d)
  }

  /** What a message comes to as an effect. */
  ghost predicate Conveys(m: Message, e: Effect) {
    match m
    case Answer(_, a, b) =>
      && (e == NoEffect || exists d :: e == FoundSuid(d, Suid(a, b, true)))
      && (forall d :: Tells(m, d) <==> e == FoundSuid(d, Suid(a, b, true)))
    case Garbled(_) => e == NoEffect
    case Acknowledge(fs) => e.HandshakeAck? && ErrorOf(fs, e.error)
    case TellPresence(fs) =>
      e == (match FirstNumber(fs)
            case Some(v) => if v == 1 then Presence(1) else if v == 2 then Presence(0) else NoEffect
            case None => NoEffect)
    case Unknown(_, _) => e == NoEffect
  }

  lemma MessageConveys(m: Message)
    requires Tellable(m)
    ensures Conveys(m, EffectOf(EventFor(m)))
  {
    hide WriteAll, SuidEventPayload, SensorName, Parse, Int32;
    match m {
      case Answer(name, a, b) =>
        var e := EffectOf(EventFor(m));
        SuidAnswer(name, Suid(a, b, a != 0 || b != 0));
        NamesDiffer();
        assert Tells(m, CameraHandshake) <==> e == FoundSuid(CameraHandshake, Suid(a, b, true));
        assert Tells(m, HumanPresence) <==> e == FoundSuid(HumanPresence, Suid(a, b, true));
        assert Tells(m, CameraFace) <==> e == FoundSuid(CameraFace, Suid(a, b, true));
      case Garbled(_) =>
      case Acknowledge(fs) =>
        ParseOfWriteAll(fs);
        if FirstNumber(fs).Some? { LowBits(FirstNumber(fs).value); }
      case TellPresence(fs) => ParseOfWriteAll(fs);
      case Unknown(_, _) =>
    }
  }

  lemma OneMore(ms: seq<Message>, m: Message, h: Hpd, mid: Hpd, e: Effect)
    requires After(ms, h, mid) && Conveys(m, e)
    ensures After(ms + [m], h, ApplyEffect(mid, e))
  {
    OneSensor(m);
    hide ErrorOf, FirstNumber, Tells;
    assert (ms + [m])[..|ms|] == ms;
    forall d ensures SlotAfter(ms + [m], d, h, ApplyEffect(mid, e)) {
      assert SlotAfter(ms, d, h, mid);
    }
  }

  lemma OneEffect(h: Hpd, es: seq<Effect>, e: Effect)
    ensures ApplyAll(h, es + [e]) == ApplyEffect(ApplyAll(h, es), e)
  {
    hide ApplyEffect;
    ApplyAppend(h, es, [e]);
    assert [e][1..] == [];
  }

  lemma {:induction false} AllMessages(ms: seq<Message>, h: Hpd)
    requires forall m :: m in ms ==> Tellable(m)
    ensures After(ms, h, ApplyAll(h, Effects(EventsFor(ms))))
  {
    hide ApplyAll, ApplyEffect, Tellable, EffectOf, EventFor, Conveys, Effects, EventsFor;
    if ms == [] {
      assert EventsFor(ms) == [] && Effects([]) == [];
      NoMessages(h);
    } else {
      hide After;
      var n := |ms| - 1;
      var before, last := EventsFor(ms[..n]), ms[n];
      AllMessages(ms[..n], h);
      MessageConveys(last);
      OneMore(ms[..n], last, h, ApplyAll(h, Effects(before)), EffectOf(EventFor(last)));
      OneEffect(h, Effects(before), EffectOf(EventFor(last)));
      assert ms[..n] + [last] == ms;
      assert EventsFor(ms) == before + [EventFor(last)];
      assert Effects(EventsFor(ms)) == Effects(before) + [EffectOf(EventFor(last))];
    }
  }

  lemma NoMessages(h: Hpd)
    ensures ApplyAll(h, []) == h && After([], h, h)
  {
  }

  /** After the report of these messages, framed or not, each slot holds the SUID last told for its
      sensor and its discovery is complete, the handshake's error and its completion are those of the
      last acknowledgement, the reading is the last presence told, and what was not told is as before. */
  lemma ReportStores(ms: seq<Message>, framed: bool, h: Hpd)
    requires Deliverable(ms, framed)
    ensures After(ms, h, ApplyAll(h, ReportEffects(ReportOf(ms, framed))))
  {
    hide After, Tellable, WriteAll, Dispatch, ApplyAll, Effects, Framed;
    var evs := EventsFor(ms);
    var body := WriteAll(WriteEvents(evs));
    forall ev | ev in evs ensures ev.msgId != 0 && |ev.payload| < TWO_32 {
      var i: nat :| i < |evs| && evs[i] == ev;
      assert ms[i] in ms;
      TellableEvent(ms[i]);
    }
    DispatchOfWrite(evs);
    if framed { FramedLength(body); }
    FramingUnambiguous(body);
    AllMessages(ms, h);
  }

  lemma TellableEvent(m: Message)
    requires Tellable(m)
    ensures EventFor(m).msgId != 0 && |EventFor(m).payload| < TWO_32
  {
  }

  lemma FramedLength(body: seq<u8>)
    ensures |Framed(body)| == |body| + 2
  {
  }

  /** A report of one message changes nothing but what it tells: presence for 1 and absence for 2 and
      nothing for any other number, the error and the completion of an acknowledgement, or the slot and
      the completion of the sensor it names. A garbled answer, a zero SUID and a name that is no sensor's
      change nothing. */
  lemma OneReported(m: Message, framed: bool, h: Hpd)
    requires Deliverable([m], framed)
    ensures var g := ApplyAll(h, ReportEffects(ReportOf([m], framed)));
            match m
            case TellPresence(fs) =>
              g == (if FirstNumber(fs) == Some(1) then h.(reading := Reading(1, true))
                    else if FirstNumber(fs) == Some(2) then h.(reading := Reading(0, true)) else h)
            case Acknowledge(fs) =>
              && g == h.(handshakeError := g.handshakeError, done := h.done.(ack := true))
              && ErrorOf(fs, g.handshakeError)
            case Answer(name, a, b) =>
              var suid := Suid(a, b, true);
              g == (if Tells(m, CameraHandshake)
                    then h.(suids := h.suids.(handshake := suid), done := h.done.(handshake := true))
                    else if Tells(m, HumanPresence)
                    then h.(suids := h.suids.(presence := suid), done := h.done.(presence := true))
                    else if Tells(m, CameraFace)
                    then h.(suids := h.suids.(face := suid), done := h.done.(face := true))
                    else h)
            case Garbled(_) => g == h
            case Unknown(_, _) => g == h
  {
    ReportStores([m], framed, h);
    OneStored(m, h, ApplyAll(h, ReportEffects(ReportOf([m], framed))));
  }

  lemma OneSensor(m: Message)
    ensures forall d :: Tells(m, d) ==> m.Answer?
    ensures forall d, e :: Tells(m, d) && Tells(m, e) ==> d == e
  {
    NamesDiffer();
    forall d, e | Tells(m, d) && Tells(m, e) ensures d == e {
      hide SensorName;
      match d { case CameraHandshake => case HumanPresence => case CameraFace => }
    }
  }

  lemma LastOfOne(m: Message)
    ensures LastAck([m]) == if m.Acknowledge? then Some(m.fields) else None
    ensures forall d :: LastAnswer([m], d) == if Tells(m, d) then Some(Suid(m.field1, m.field2, true)) else None
    ensures LastPresence([m]) ==
            if m.TellPresence? && FirstNumber(m.fields) == Some(1) then Some(1)
            else if m.TellPresence? && FirstNumber(m.fields) == Some(2) then Some(0)
            else None
  {
    assert [m][..0] == [];
  }

  lemma OneStored(m: Message, h: Hpd, g: Hpd)
    requires After([m], h, g)
    ensures match m
            case TellPresence(fs) =>
              g == (if FirstNumber(fs) == Some(1) then h.(reading := Reading(1, true))
                    else if FirstNumber(fs) == Some(2) then h.(reading := Reading(0, true)) else h)
            case Acknowledge(fs) =>
              && g == h.(handshakeError := g.handshakeError, done := h.done.(ack := true))
              && ErrorOf(fs, g.handshakeError)
            case Answer(name, a, b) =>
              var suid := Suid(a, b, true);
              g == (if Tells(m, CameraHandshake)
                    then h.(suids := h.suids.(handshake := suid), done := h.done.(handshake := true))
                    else if Tells(m, HumanPresence)
                    then h.(suids := h.suids.(presence := suid), done := h.done.(presence := true))
                    else if Tells(m, CameraFace)
                    then h.(suids := h.suids.(face := suid), done := h.done.(face := true))
                    else h)
            case Garbled(_) => g == h
            case Unknown(_, _) => g == h
  {
    OneSensor(m);
    hide ErrorOf, FirstNumber, LastAck, LastAnswer, LastPresence, Tells;
    LastOfOne(m);
    assert SlotAfter([m], CameraHandshake, h, g) && SlotAfter([m], HumanPresence, h, g) && SlotAfter([m], CameraFace, h, g);
    match m {
      case Answer(_, _, _) =>
      case Garbled(_) =>
      case Acknowledge(_) =>
      case TellPresence(_) =>
      case Unknown(_, _) =>
    }
  }
}
