/** The driver object: its fields, the sections that update them under the state lock, and the
    parsing of reports into them. */
module HpdDevice {
  import opened Wrappers
  import opened Bytes
  import opened Fields
  import opened Request
  import opened Report
  import opened HpdState
  import HpdReports

  class SscHpd {
    var clientInitialized: bool
    var connected: bool
    var servicePresent: bool
    var suspended: bool
    var shuttingDown: bool
    var handshakeSuidDone: bool
    var hpdSuidDone: bool
    var faceSuidDone: bool
    var handshakeAckDone: bool
    var handshakeSuid: Suid
    var hpdSuid: Suid
    var faceSuid: Suid
    var handshakeError: int
    var presence: int
    var presenceValid: bool
    var eventEnabled: bool

    function View(): Hpd
      reads this
    {
      Hpd(FlagsView(), SuidsView(), DoneView(), handshakeError, Reading(presence, presenceValid))
    }

    function FlagsView(): Flags
      reads `clientInitialized, `connected, `servicePresent, `suspended, `shuttingDown, `eventEnabled
    {
      Flags(clientInitialized, connected, servicePresent, suspended, shuttingDown, eventEnabled)
    }

    function SuidsView(): Suids
      reads `handshakeSuid, `hpdSuid, `faceSuid
    {
      Suids(handshakeSuid, hpdSuid, faceSuid)
    }

    function DoneView(): Completions
      reads `handshakeSuidDone, `hpdSuidDone, `faceSuidDone, `handshakeAckDone
    {
      Completions(handshakeSuidDone, hpdSuidDone, faceSuidDone, handshakeAckDone)
    }

    constructor ()
      ensures View() == PROBED
    {
      clientInitialized, connected, servicePresent, suspended, shuttingDown := false, false, false, false, false;
      handshakeSuidDone, hpdSuidDone, faceSuidDone, handshakeAckDone := false, false, false, false;
      handshakeSuid, hpdSuid, faceSuid := NO_SUID, NO_SUID, NO_SUID;
      handshakeError, presence, presenceValid, eventEnabled := 0, 0, false, false;
    }

    // ----- sections of the lifecycle

    method ClearForDisconnect() returns (release: bool)
      modifies this
      ensures release == old(clientInitialized)
      ensures View() == Cleared(old(View()))
      ensures handshakeSuid == Suid(0, 0, false) && hpdSuid == Suid(0, 0, false) && faceSuid == Suid(0, 0, false)
      ensures !presenceValid && handshakeError == -107 && !connected && !eventEnabled && !clientInitialized
    {
      release := clientInitialized;
      ClearFlags();
      presenceValid := false;
      handshakeError := -ENOTCONN;
      ClearSuids();
    }

    method ClearFlags()
      modifies `connected, `eventEnabled, `clientInitialized
      ensures FlagsView() == old(FlagsView()).(connected := false, eventEnabled := false, clientInitialized := false)
    {
      connected := false;
      eventEnabled := false;
      clientInitialized := false;
    }

    method ClearSuids()
      modifies `handshakeSuid, `hpdSuid, `faceSuid
      ensures SuidsView() == NO_SUIDS
    {
      handshakeSuid := NO_SUID;
      hpdSuid := NO_SUID;
      faceSuid := NO_SUID;
    }

    method CheckConnect() returns (proceed: bool)
      ensures proceed == MayConnect(View())
      ensures proceed <==> servicePresent && !clientInitialized && !suspended && !shuttingDown
    {
      if !servicePresent || clientInitialized || suspended || shuttingDown { return false; }
      return true;
    }

    method FailConnect()
      modifies this
      ensures View() == ConnectFailed(old(View())) && !connected && !clientInitialized
    {
      connected := false;
      clientInitialized := false;
    }

    method NewServer() returns (connect: bool)
      modifies this
      ensures View() == Arrived(old(View())) && servicePresent
      ensures connect <==> !suspended && !shuttingDown
    {
      servicePresent := true;
      connect := !suspended && !shuttingDown;
    }

    method DelServer() returns (disconnect: bool)
      modifies this
      ensures View() == Lost(old(View())) && !servicePresent
      ensures disconnect <==> !suspended && !shuttingDown
    {
      servicePresent := false;
      disconnect := !suspended && !shuttingDown;
    }

    method BeginSuspend()
      modifies this
      ensures View() == Suspended(old(View())) && suspended
    {
      suspended := true;
    }

    method BeginResume()
      modifies this
      ensures View() == Resumed(old(View())) && !suspended
    {
      suspended := false;
    }

    method BeginRemove()
      modifies this
      ensures View() == Removing(old(View())) && shuttingDown && suspended
    {
      shuttingDown := true;
      suspended := true;
    }

    method BeginAttempt() returns (gate: Gate)
      modifies this
      ensures gate == EnableGate(old(View()))
      ensures View() == if gate == Ready then AttemptMarking(AckRearmed(old(View()))) else old(View())
      ensures gate == Ready ==> !handshakeAckDone && handshakeError == -115
    {
      if eventEnabled { return AlreadyEnabled; }
      if !connected || !handshakeSuid.valid || !hpdSuid.valid { return NotReady; }
      handshakeAckDone := false;
      handshakeError := -EINPROGRESS;
      return Ready;
    }

    method RearmDiscovery(d: Sensor)
      modifies `handshakeSuidDone, `hpdSuidDone, `faceSuidDone
      ensures View() == Rearmed(old(View()), d)
    {
      match d {
        case CameraHandshake => handshakeSuidDone := false;
        case HumanPresence => hpdSuidDone := false;
        case CameraFace => faceSuidDone := false;
      }
    }

    // ----- reports

    method ParseSuidPayload(buf: seq<u8>)
      modifies this
      ensures View() == ApplyEffect(old(View()), SuidEffect(buf))
    {
      var clean, name, suid := ScanSuidEvent(buf);
      hide SuidEventScan, Parse, SensorName;
      if !clean || name[0] == 0 || !suid.valid {
        Unaffected(View());
        return;
      }
      var datatypeName := CString(name);
      hide CString;
      hide ApplyEffect;
      if datatypeName == SensorName(CameraHandshake) {
        StoreSuid(CameraHandshake, suid);
      } else if datatypeName == SensorName(HumanPresence) {
        StoreSuid(HumanPresence, suid);
      } else if datatypeName == SensorName(CameraFace) {
        StoreSuid(CameraFace, suid);
      } else {
        assert ApplyEffect(View(), NoEffect) == View() by { Unaffected(View()); }
      }
    }

    method StoreSuid(d: Sensor, suid: Suid)
      modifies this
      ensures View() == ApplyEffect(old(View()), FoundSuid(d, suid))
    {
      match d {
        case CameraHandshake => handshakeSuid, handshakeSuidDone := suid, true;
        case HumanPresence => hpdSuid, hpdSuidDone := suid, true;
        case CameraFace => faceSuid, faceSuidDone := suid, true;
      }
    }

    /** The fields of a SUID event: whether they were well-formed, the name buffer and the SUID. */
    method ScanSuidEvent(buf: seq<u8>) returns (clean: bool, name: seq<u8>, suid: Suid)
      ensures |name| == NAME_BUFFER
      ensures clean == Parse(buf).clean
      ensures (name, suid) == SuidEventScan(Parse(buf).fields, Zeros(NAME_BUFFER), NO_SUID)
    {
      hide Next, SuidScan;
      suid := Suid(0, 0, false);
      name := Zeros(NAME_BUFFER);
      var pos := 0;
      ghost var all := Parse(buf);
      var step := PbNext(buf, pos);
      while step.Got?
        invariant step == Next(buf, pos) && |name| == NAME_BUFFER
        invariant all.clean == ParseFrom(buf, pos).clean
        invariant SuidEventScan(all.fields, Zeros(NAME_BUFFER), NO_SUID) ==
                  SuidEventScan(ParseFrom(buf, pos).fields, name, suid)
        decreases |buf| - pos
      {
        NextAdvances(buf, pos);
        var f := step.field;
        assert ParseFrom(buf, pos).fields[1..] == ParseFrom(buf, step.next).fields;
        if f.number == 1 && f.wire == 2 {
          var copy := Min(|f.data|, NAME_BUFFER - 1);
          name := f.data[..copy] + name[copy..];
        } else if f.number == 2 && f.wire == 2 {
          suid := ScanSuid(f.data, suid);
          suid := suid.(valid := suid.field1 != 0 || suid.field2 != 0);
        }
        pos := step.next;
        step := PbNext(buf, pos);
      }
      clean := step.End?;
    }

    method ScanSuid(buf: seq<u8>, suid0: Suid) returns (suid: Suid)
      ensures suid == SuidScan(Parse(buf).fields, suid0)
    {
      hide Next;
      suid := suid0;
      var pos := 0;
      var step := PbNext(buf, pos);
      while step.Got?
        invariant step == Next(buf, pos)
        invariant SuidScan(Parse(buf).fields, suid0) == SuidScan(ParseFrom(buf, pos).fields, suid)
        decreases |buf| - pos
      {
        NextAdvances(buf, pos);
        assert ParseFrom(buf, pos).fields[1..] == ParseFrom(buf, step.next).fields;
        var f := step.field;
        if f.number == 1 && f.wire == 1 {
          var v := GetLe64(f.data);
          suid := suid.(field1 := v);
        } else if f.number == 2 && f.wire == 1 {
          var v := GetLe64(f.data);
          suid := suid.(field2 := v);
        }
        pos := step.next;
        step := PbNext(buf, pos);
      }
    }

    /** The first varint field numbered 1. */
    method FindNumber(buf: seq<u8>) returns (r: Option<u64>)
      ensures r == FirstNumber(Parse(buf).fields)
    {
      hide Next;
      var pos := 0;
      var step := PbNext(buf, pos);
      while step.Got?
        invariant step == Next(buf, pos)
        invariant FirstNumber(Parse(buf).fields) == FirstNumber(ParseFrom(buf, pos).fields)
        decreases |buf| - pos
      {
        NextAdvances(buf, pos);
        assert ParseFrom(buf, pos).fields[1..] == ParseFrom(buf, step.next).fields;
        if step.field.number == 1 && step.field.wire == 0 { return Some(step.field.value); }
        pos := step.next;
        step := PbNext(buf, pos);
      }
      return None;
    }

    method ParseEvent(msgId: u32, payload: seq<u8>)
      modifies this
      ensures View() == ApplyEffect(old(View()), EffectOf(Event(msgId, payload)))
    {
      if msgId == MSG_SUID_EVENT {
        ParseSuidPayload(payload);
      } else if msgId == MSG_HANDSHAKE_ACK {
        handshakeError := -EBADMSG;
        var v := FindNumber(payload);
        if v.Some? { handshakeError := Int32(v.value); }
        handshakeAckDone := true;
      } else if msgId == MSG_PRESENCE_EVENT {
        var v := FindNumber(payload);
        if v == Some(1) {
          presence, presenceValid := 1, true;
        } else if v == Some(2) {
          presence, presenceValid := 0, true;
        }
      }
    }

    /** One event of the outer message. */
    method ParseEventField(content: seq<u8>) returns (msgId: u32, payload: Option<seq<u8>>)
      ensures (msgId, payload) == EventScan(Parse(content).fields, (0, None))
    {
      hide Next;
      msgId, payload := 0, None;
      var pos := 0;
      var step := PbNext(content, pos);
      while step.Got?
        invariant step == Next(content, pos)
        invariant EventScan(Parse(content).fields, (0, None)) ==
                  EventScan(ParseFrom(content, pos).fields, (msgId, payload))
        decreases |content| - pos
      {
        NextAdvances(content, pos);
        assert ParseFrom(content, pos).fields[1..] == ParseFrom(content, step.next).fields;
        var f := step.field;
        if f.number == 1 && f.wire == 5 {
          msgId := GetLe32(f.data);
        } else if f.number == 3 && f.wire == 2 {
          payload := Some(f.data);
        }
        pos := step.next;
        step := PbNext(content, pos);
      }
    }

    /** One field of the outer message; only field 2 carries an event. */
    method ParseOuterField(f: Field)
      modifies this
      ensures View() == ApplyAll(old(View()), Effects(EventsOf(f)))
    {
      hide EventScan, EffectOf;
      if f.number == 2 && f.wire == 2 {
        var msgId, payload := ParseEventField(f.data);
        if msgId != 0 && payload.Some? {
          ghost var ev := Event(msgId, payload.value);
          assert EventsOf(f) == [ev];
          OneEvent(View(), ev);
          ParseEvent(msgId, payload.value);
        }
      }
    }

    method ParseReport(data: seq<u8>)
      modifies this
      ensures View() == ApplyAll(old(View()), Effects(Received(data)))
    {
      hide Dispatch, Effects, ApplyAll;
      var buf := data;
      if |buf| >= 2 && buf[0] + 256 * (buf[1] as int) == |buf| - 2 { buf := buf[2..]; }
      ParseBody(buf);
    }

    method ParseBody(buf: seq<u8>)
      modifies this
      ensures View() == ApplyAll(old(View()), Effects(Dispatch(buf)))
    {
      hide Next, EventsOf, Effects, ApplyAll;
      ghost var before := View();
      ghost var done: seq<Event> := [];
      var pos := 0;
      var step := PbNext(buf, pos);
      NoEvents(before);
      while step.Got?
        invariant step == Next(buf, pos)
        invariant Dispatch(buf) == done + Events(ParseFrom(buf, pos).fields)
        invariant View() == ApplyAll(before, Effects(done))
        decreases |buf| - pos
      {
        NextAdvances(buf, pos);
        assert ParseFrom(buf, pos).fields[1..] == ParseFrom(buf, step.next).fields;
        ParseOuterField(step.field);
        MoreEvents(before, done, EventsOf(step.field));
        done := done + EventsOf(step.field);
        pos := step.next;
        step := PbNext(buf, pos);
      }
      assert done + [] == done;
    }

    /** The report callback. After the report of any messages the fields hold the last word on each. */
    method ReportCallback(data: seq<u8>)
      modifies this
      ensures View() == ApplyAll(old(View()), ReportEffects(data))
      ensures data == [] || |data| > 1024 ==> View() == old(View())
      ensures forall ms, framed :: data == HpdReports.ReportOf(ms, framed) && HpdReports.Deliverable(ms, framed) ==>
                HpdReports.After(ms, old(View()), View())
      ensures forall fs, framed ::
                data == HpdReports.ReportOf([HpdReports.TellPresence(fs)], framed)
                && HpdReports.Deliverable([HpdReports.TellPresence(fs)], framed) ==>
                  match FirstNumber(fs)
                  case Some(v) =>
                    && (v == 1 ==> presence == 1 && presenceValid)
                    && (v == 2 ==> presence == 0 && presenceValid)
                    && (v != 1 && v != 2 ==> presence == old(presence) && presenceValid == old(presenceValid))
                  case None => presence == old(presence) && presenceValid == old(presenceValid)
    {
      hide ApplyAll, Received, HpdReports.ReportOf, HpdReports.Deliverable, HpdReports.After, FirstNumber;
      ghost var h := View();
      if 1 <= |data| <= DATA_MAX {
        ParseReport(data);
      } else {
        NoEvents(h);
      }
      forall ms, framed | data == HpdReports.ReportOf(ms, framed) && HpdReports.Deliverable(ms, framed)
        ensures HpdReports.After(ms, h, View())
      {
        HpdReports.ReportStores(ms, framed, h);
      }
      forall fs, framed | data == HpdReports.ReportOf([HpdReports.TellPresence(fs)], framed)
                          && HpdReports.Deliverable([HpdReports.TellPresence(fs)], framed)
        ensures View() == (if FirstNumber(fs) == Some(1) then h.(reading := Reading(1, true))
                           else if FirstNumber(fs) == Some(2) then h.(reading := Reading(0, true)) else h)
      {
        HpdReports.OneReported(HpdReports.TellPresence(fs), framed, h);
      }
    }
  }

  lemma Unaffected(h: Hpd)
    ensures ApplyEffect(h, NoEffect) == h
  {
  }

  lemma NoEvents(h: Hpd)
    ensures ApplyAll(h, Effects([])) == h
  {
  }

  lemma OneEvent(h: Hpd, ev: Event)
    ensures ApplyAll(h, Effects([ev])) == ApplyEffect(h, EffectOf(ev))
  {
    hide EffectOf, ApplyEffect;
    assert Effects([ev]) == [EffectOf(ev)];
    assert [EffectOf(ev)][1..] == [];
  }

  lemma MoreEvents(h: Hpd, a: seq<Event>, b: seq<Event>)
    ensures ApplyAll(h, Effects(a + b)) == ApplyAll(ApplyAll(h, Effects(a)), Effects(b))
  {
    hide EffectOf, ApplyEffect, ApplyAll, Effects;
    assert Effects(a + b) == Effects(a) + Effects(b);
    ApplyAppend(h, Effects(a), Effects(b));
  }
}
