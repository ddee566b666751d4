/** A run in which an attempt accepts the acknowledgement of an earlier message. */
module LifecycleRace {
  import opened Wrappers
  import opened Bytes
  import opened Varint
  import opened Fields
  import opened Request
  import opened Report
  import opened HpdState
  import opened Lifecycle
  import opened LifecycleSafety
  import opened LifecycleProof
  import opened LifecycleAck

  ghost predicate Reachable(s: State) { exists users: nat, ls: seq<Label> :: Run(users, ls) == Some(s) }

  lemma {:induction false} RunAppend(s: State, ls: seq<Label>, more: seq<Label>)
    requires RunFrom(s, ls).Some?
    ensures RunFrom(s, ls + more) == RunFrom(RunFrom(s, ls).value, more)
    decreases ls
  {
    hide Enabled, Exec;
    if ls == [] {
      assert ls + more == more;
    } else {
      assert (ls + more)[1..] == ls[1..] + more;
      RunAppend(Exec(s, ls[0]), ls[1..], more);
    }
  }

  /** One more step of a run. */
  lemma Then(s: State, l: Label) returns (t: State)
    requires Reachable(s) && Enabled(s, l)
    ensures t == Exec(s, l) && Reachable(t)
  {
    t := Exec(s, l);
    hide Enabled, Exec, Init;
    var users: nat, ls: seq<Label> :| Run(users, ls) == Some(s);
    RunAppend(Init(users), ls, [l]);
    assert [l][1..] == [];
    assert RunFrom(s, [l]) == RunFrom(t, []);
    assert Run(users, ls + [l]) == Some(t);
  }

  /** A report of one event, small enough to be taken. */
  lemma OneEventReport(ev: Event) returns (data: seq<u8>)
    requires ev.msgId != 0 && |ev.payload| <= 100
    ensures ReportEffects(data) == [EffectOf(ev)]
  {
    hide EffectOf, Dispatch, WriteAll, Encode;
    var body := WriteAll(WriteEvents([ev]));
    data := Framed(body);
    assert Dispatch(body) == [ev] by { DispatchOfWrite([ev]); }
    assert 2 <= |body| <= 200 by { EventSize(ev); }
    FramingUnambiguous(body);
    assert Effects([ev])[1..] == [];
  }

  lemma EventSize(ev: Event)
    requires |ev.payload| <= 100
    ensures 2 <= |WriteAll(WriteEvents([ev]))| <= 200
  {
    hide Write, Encode, WriteAll;
    EventLength(ev);
    ShortLength(|ev.payload|);
    ShortLength(|WriteAll(EventFields(ev))|);
    assert WriteEvents([ev]) == [WriteEvent(ev)];
    WriteOne(WriteEvent(ev));
    DelimitedBytes(2, WriteAll(EventFields(ev)));
  }

  const SOME_SUID := Suid(1, 0, true)

  /** The connect work has connected, and waits for the first discovery's reply. */
  function Discovering(h: Hpd): State {
    State(h, Handles(true, true), Held(Worker, Find(FindReply, CameraHandshake)), None, Queue(false, false),
          WorkerInOp, PmIdle, LookupIdle, CbIdle, [UserIdle], [Opened, SuidAsked(CameraHandshake)], {})
  }

  const FOUND := PROBED.(flags := PROBED.flags.(servicePresent := true, clientInitialized := true, connected := true))

  lemma ProbeCame() returns (s: State)
    ensures Reachable(s)
    ensures s == State(PROBED, Handles(false, true), Free, None, Queue(false, false),
                       WorkerIdle, PmIdle, LookupIdle, CbIdle, [UserIdle], [], {})
  {
    s := Init(1);
    assert Run(1, []) == Some(s);
    assert s.users == [UserIdle];
  }

  lemma ServiceCame() returns (s: State)
    ensures Reachable(s)
    ensures s == State(Arrived(PROBED), Handles(false, true), Free, None, Queue(true, false),
                       WorkerIdle, PmIdle, LookupIdle, CbIdle, [UserIdle], [], {})
  {
    hide Reachable, Run, RunFrom;
    s := ProbeCame();
    s := Then(s, ServiceArrives);
    s := Then(s, Acquire(Lookup));
    s := Then(s, Look);
    s := Then(s, Look);
  }

  lemma ClientCame(s0: State) returns (s: State)
    requires Reachable(s0)
    requires s0 == State(Arrived(PROBED), Handles(false, true), Free, None, Queue(true, false),
                         WorkerIdle, PmIdle, LookupIdle, CbIdle, [UserIdle], [], {})
    ensures Reachable(s)
    ensures s == State(Initialized(Arrived(PROBED)), Handles(true, true), Held(Worker, Conn(ConnSocket)), None, Queue(false, false),
                       WorkerInOp, PmIdle, LookupIdle, CbIdle, [UserIdle], [Opened], {})
  {
    hide Reachable, Run, RunFrom;
    s := Then(s0, Pick(true));
    s := Then(s, Work);
    s := Then(s, Acquire(Worker));
    s := Then(s, Operate(true));
    s := Then(s, Operate(true));
    s := Then(s, Acquire(Worker));
    s := Then(s, Operate(true));
  }

  lemma DiscoveryCame(s0: State) returns (s: State)
    requires Reachable(s0)
    requires s0 == State(Initialized(Arrived(PROBED)), Handles(true, true), Held(Worker, Conn(ConnSocket)), None, Queue(false, false),
                         WorkerInOp, PmIdle, LookupIdle, CbIdle, [UserIdle], [Opened], {})
    ensures Reachable(s) && s == Discovering(FOUND)
  {
    hide Reachable, Run, RunFrom;
    s := Then(s0, Operate(true));
    s := Then(s, Acquire(Worker));
    s := Then(s, Operate(true));
    s := Then(s, Operate(true));
    s := Then(s, Operate(true));
  }

  lemma AnswerReport(d: Sensor) returns (data: seq<u8>)
    ensures ReportEffects(data) == [FoundSuid(d, SOME_SUID)]
  {
    hide SensorName, SuidEventPayload, EffectOf, ReportEffects;
    SuidEventRoundTrip(d, SOME_SUID);
    SuidEventSize(d);
    data := OneEventReport(Event(MSG_SUID_EVENT, SuidEventPayload(SensorName(d), SOME_SUID)));
  }

  /** A discovery answer is received and processed while the worker waits. */
  lemma AnswerCame(h: Hpd, d: Sensor) returns (s: State)
    requires Reachable(Discovering(h))
    ensures Reachable(s) && s == Discovering(ApplyEffect(h, FoundSuid(d, SOME_SUID)))
  {
    hide Reachable, ReportEffects, ApplyEffect;
    var data := AnswerReport(d);
    assert ReportEffects(data)[1..] == [];
    s := Then(Discovering(h), ReportArrives(data));
    s := Then(s, Call);
    assert s == Discovering(h).(callback := CbSuid(d, SOME_SUID, [])) by { assert s.log == Discovering(h).log; }
    s := AnswerTaken(h, d);
  }

  lemma AnswerTaken(h: Hpd, d: Sensor) returns (s: State)
    requires Reachable(Discovering(h).(callback := CbSuid(d, SOME_SUID, [])))
    ensures Reachable(s) && s == Discovering(ApplyEffect(h, FoundSuid(d, SOME_SUID)))
  {
    hide Reachable, ApplyEffect;
    s := Then(Discovering(h).(callback := CbSuid(d, SOME_SUID, [])), Acquire(Callback));
    s := Then(s, Call);
    s := Then(s, Call);
  }

  lemma SuidEventSize(d: Sensor)
    ensures |SuidEventPayload(SensorName(d), SOME_SUID)| <= 100
  {
    hide Write, Encode, SensorName, Le;
    var name, id := SensorName(d), WriteAll(SuidFields(SOME_SUID));
    SuidBytes(SOME_SUID);
    WriteTwo(Delimited(1, name), Delimited(2, id));
    SmallDelimited(1, name);
    SmallDelimited(2, id);
  }

  /** The other two discoveries fail to send, and the worker is done. */
  lemma WorkerLeft(h: Hpd) returns (s: State)
    requires Reachable(Discovering(h)) && h.flags == FOUND.flags
    ensures Reachable(s)
    ensures s == Discovering(Rearmed(Rearmed(h, HumanPresence), CameraFace)).(op := Free, worker := WorkerIdle)
  {
    hide Reachable, Run, RunFrom;
    s := Then(Discovering(h), Operate(false));
    s := Then(s, Operate(true));
    s := Then(s, Operate(false));
    s := Then(s, Operate(true));
    s := Then(s, Operate(false));
    s := Then(s, Operate(true));
  }

  lemma AckReport() returns (data: seq<u8>)
    ensures ReportEffects(data) == [HandshakeAck(0)]
  {
    hide EffectOf, NumberPayload, ReportEffects;
    AckEventRoundTrip([], 0, []);
    AckSize();
    data := OneEventReport(Event(MSG_HANDSHAKE_ACK, NumberPayload([], 0, [])));
  }

  /** An acknowledgement is received: its callback has read the zero error and is about to store it. */
  lemma AckCame(s0: State) returns (s: State)
    requires Reachable(s0) && s0.handles.client && s0.callback.CbIdle? && s0.lock.None? && s0.op.Free?
    ensures Reachable(s)
    ensures s == s0.(h := s0.h.(handshakeError := -EBADMSG), callback := CbAckStore(0, []))
  {
    hide Reachable, ReportEffects;
    var data := AckReport();
    assert ReportEffects(data)[1..] == [];
    s := Then(s0, ReportArrives(data));
    s := Then(s, Call);
    s := Then(s, Call);
    assert s.log == s0.log;
  }

  lemma AckSize()
    ensures |NumberPayload([], 0, [])| <= 100
  {
    hide Write, Encode;
    assert [] + [Number(1, 0)] + [] == [Number(1, 0)];
    WriteOne(Number(1, 0));
    SmallNumber(1, 0);
  }

  const ENABLING: seq<Label> := [EnableWritten(0), Use(0), Acquire(User(0))]
  const MARKING: seq<Label> := [Operate(true), Operate(true), Call]

  lemma ThreeSteps(s: State, t: State, u: State, v: State, a: Label, b: Label, c: Label)
    requires Enabled(s, a) && Exec(s, a) == t
    requires Enabled(t, b) && Exec(t, b) == u
    requires Enabled(u, c) && Exec(u, c) == v
    ensures RunFrom(s, [a, b, c]) == Some(v)
  {
    hide Enabled, Exec;
    assert [a, b, c][1..] == [b, c] && [b, c][1..] == [c] && [c][1..] == [];
    assert RunFrom(u, [c]) == RunFrom(v, []) == Some(v);
    assert RunFrom(t, [b, c]) == RunFrom(u, [c]);
  }

  lemma EnableCame(s: State) returns (v: State)
    requires s.op.Free? && s.lock.None? && s.users == [UserIdle]
    ensures RunFrom(s, ENABLING) == Some(v)
    ensures v == s.(op := Held(User(0), En(EnCheck)), lock := Some(User(0)), users := [UserInOp])
  {
    hide RunFrom;
    var t := Exec(s, EnableWritten(0));
    var u := Exec(t, Use(0));
    v := Exec(u, Acquire(User(0)));
    assert v.users == [UserInOp];
    ThreeSteps(s, t, u, v, EnableWritten(0), Use(0), Acquire(User(0)));
  }

  lemma MarkCame(s: State) returns (v: State)
    requires ReadyClient(s.h) && !s.h.flags.eventEnabled && s.callback == CbAckStore(0, [])
    requires s.op == Held(User(0), En(EnCheck)) && s.lock == Some(User(0))
    ensures RunFrom(s, MARKING) == Some(v)
    ensures v.op == Held(User(0), En(EnSendInit(|s.log|))) && v.h.handshakeError == 0
    ensures v.log == s.log + [AttemptMarked, AckStored(0)]
  {
    hide RunFrom;
    var t := Exec(s, Operate(true));
    assert t.op == Held(User(0), En(EnMark)) && t.lock == s.lock && t.log == s.log && t.callback == s.callback;
    var u := Exec(t, Operate(true));
    assert u.op == Held(User(0), En(EnSendInit(|s.log|))) && u.log == s.log + [AttemptMarked] && u.callback == s.callback;
    v := Exec(u, Call);
    assert v.log == s.log + [AttemptMarked, AckStored(0)];
    ThreeSteps(s, t, u, v, Operate(true), Operate(true), Call);
  }

  /** An enable is written, and its attempt marked, before that callback goes on. */
  lemma AttemptCame(s0: State) returns (s: State)
    requires Reachable(s0) && ReadyClient(s0.h) && !s0.h.flags.eventEnabled
    requires s0.op.Free? && s0.lock.None? && s0.users == [UserIdle] && s0.callback == CbAckStore(0, [])
    ensures RunFrom(s0, ENABLING + MARKING) == Some(s) && Reachable(s)
    ensures s.op == Held(User(0), En(EnSendInit(|s0.log|))) && s.h.handshakeError == 0
    ensures s.log == s0.log + [AttemptMarked, AckStored(0)]
  {
    var users: nat, ls: seq<Label> :| Run(users, ls) == Some(s0);
    hide RunFrom, Init;
    var t := EnableCame(s0);
    s := MarkCame(t);
    RunAppend(s0, ENABLING, MARKING);
    RunAppend(Init(users), ls, ENABLING + MARKING);
    assert Run(users, ls + (ENABLING + MARKING)) == Some(s);
  }

  /** A connected client with both SUIDs, and a callback that is about to store a zero error, before any
      attempt was made. */
  lemma AckWaits() returns (s: State)
    ensures Reachable(s) && ReadyClient(s.h) && !s.h.flags.eventEnabled && AttemptMarked !in s.log
    ensures s.op.Free? && s.lock.None? && s.users == [UserIdle] && s.callback == CbAckStore(0, [])
  {
    hide Reachable;
    var c := ServiceCame();
    c := ClientCame(c);
    c := DiscoveryCame(c);
    c := AnswerCame(FOUND, CameraHandshake);
    var h := ApplyEffect(FOUND, FoundSuid(CameraHandshake, SOME_SUID));
    c := AnswerCame(h, HumanPresence);
    var g := ApplyEffect(h, FoundSuid(HumanPresence, SOME_SUID));
    c := WorkerLeft(g);
    s := AckCame(c);
  }

  /** There is a run in which the callback of an acknowledgement that was received before any attempt was
      made stores its zero error after an attempt is marked and before its handshake is sent, with no
      report received in between; the attempt can then come to its configuration on it. */
  lemma EarlierAckAccepted() returns (before: State, s: State, more: seq<Label>)
    ensures Reachable(before) && before.callback == CbAckStore(0, []) && AttemptMarked !in before.log
    ensures RunFrom(before, ENABLING + MARKING) == Some(s) && s.log == before.log + [AttemptMarked, AckStored(0)]
    ensures s.op.Held? && s.op.pc == En(EnSendInit(|before.log|)) && s.h.handshakeError == 0
    ensures Unanswered(s, |before.log|, more) && NoAckReceived(more)
  {
    before := AckWaits();
    s := AttemptCame(before);
    var users: nat, ls: seq<Label> :| Run(users, ls) == Some(s);
    hide Run;
    more := RunGoesThrough(users, ls, |before.log|);
  }
}
