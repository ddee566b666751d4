/** Every step keeps the invariant: part by part for the operation lock's holder, the power manager
    and the callback, at once for the others. */
module LifecycleProof {
  import opened Wrappers
  import opened Bytes
  import opened Request
  import opened Report
  import opened HpdState
  import opened Lifecycle
  import opened LifecycleSafety

  // ----- the operation lock's holder

  /** An operation stays of its kind; an attempt is marked right after its check, still locked. */
  lemma OperationGoesOn(h: Hpd, pc: OpPc, ok: bool, start: nat)
    requires !OpEnds(pc)
    ensures var next := OpNext(h, pc, ok, start);
            && (pc.Disc? ==> next.Disc?) && (pc.En? ==> next.En?)
            && (pc.Conn? || pc.Find? ==> next.Conn? || next.Find?)
            && (next == En(EnMark) <==> pc == En(EnCheck) && !OpUnlocks(h, pc))
            && (OpSection(pc) && !OpUnlocks(h, pc) ==> pc == En(EnCheck))
  {
  }

  lemma OperationKeepsOwnership(s: State, ok: bool)
    requires Inv(s) && CanOperate(s)
    ensures Ownership(OperationStep(s, ok))
  {
    hide Handle, Slots, Quiet, History, OpHpd, OpLive, OpEntry, OpFault, OpNext, OpUnlocks;
    if OpEnds(s.op.pc) {
      assert !OpUnlocks(s.h, s.op.pc) && !OpSection(s.op.pc) by { EndsOutside(s.h, s.op.pc); }
    } else {
      OperationGoesOn(s.h, s.op.pc, ok, |s.log|);
    }
  }

  lemma EndsOutside(h: Hpd, pc: OpPc)
    requires OpEnds(pc)
    ensures !OpUnlocks(h, pc) && !OpSection(pc)
  {
  }

  lemma OperationKeepsHandle(s: State, ok: bool)
    requires Inv(s) && CanOperate(s)
    ensures Handle(OperationStep(s, ok))
  {
    hide Ownership, Quiet, History, OpUnlocks, OpEntry, OpSection;
    match s.op.pc {
      case Disc(p) =>
      case Conn(p) =>
        match p {
          case ConnCheck => case ConnInit => case ConnMark => case ConnSocket =>
          case ConnDone => case ConnFail => case ConnRelease => case ConnUnlock =>
        }
      case Find(p, d) => match p { case FindArm => case FindSend => case FindReply => case FindWait => case FindCheck => }
      case En(p) =>
    }
  }

  lemma OperationKeepsSlots(s: State, ok: bool)
    requires Inv(s) && CanOperate(s)
    ensures Slots(OperationStep(s, ok))
  {
    hide Ownership, Quiet, History, OpUnlocks, OpEntry, OpSection, OpFault, ValidFinds;
    match s.op.pc {
      case Disc(p) =>
      case Conn(p) =>
      case Find(p, d) =>
      case En(p) =>
    }
  }

  lemma OperationKeepsQuiet(s: State, ok: bool)
    requires Inv(s) && CanOperate(s)
    ensures Quiet(OperationStep(s, ok))
  {
    hide Slots, History, OpUnlocks, OpEntry, OpSection, OpFault;
    match s.op.pc {
      case Disc(p) =>
      case Conn(p) =>
      case Find(p, d) =>
      case En(p) =>
    }
  }

  /** Opening and closing entries follow the handle; a configuration is sent only at its point. */
  lemma EntryFits(h: Hpd, live: bool, pc: OpPc, ok: bool)
    requires HandleAt(pc, h, live)
    ensures var e := OpEntry(h, pc, ok);
            OpLive(live, pc, ok) == match e case Some(Opened) => true case Some(Closed) => false case _ => live
    ensures OpEntry(h, pc, ok) == Some(ConfigSent) ==> pc.En? && pc.en.EnSendConfig?
  {
    match pc {
      case Disc(p) =>
      case Conn(p) =>
      case Find(p, d) =>
      case En(p) =>
    }
  }

  lemma OperationKeepsLog(s: State, ok: bool)
    requires Inv(s) && CanOperate(s)
    ensures Gated(OperationStep(s, ok).log)
    ensures SessionOpen(OperationStep(s, ok).log) == OperationStep(s, ok).handles.client
  {
    hide Ownership, Slots, Quiet, HandleAt, OpHpd, OpLive, OpEntry, OpNext, OpUnlocks, OpSection, OpFault;
    hide Gated, SessionOpen, Current, Has, UserAfter;
    EntryFits(s.h, s.handles.client, s.op.pc, ok);
    var e := OpEntry(s.h, s.op.pc, ok);
    if e.Some? {
      AppendKeeps(s.log, e.value);
      if e.value.ConfigSent? { AppendConfig(s.log, s.op.pc.en.m); }
    } else {
      assert s.log + [] == s.log;
    }
  }

  /** An attempt's history is built step by step. */
  lemma AttemptGoesOn(h: Hpd, live: bool, p: EnPc, log: seq<Entry>, ok: bool)
    requires HistoryAt(p, log, h.handshakeError) && SessionOpen(log) == live
    requires p.EnMark? ==> live
    ensures HistoryAt(EnNext(h, p, ok, |log|), log + Optional(OpEntry(h, En(p), ok)), OpHpd(h, En(p)).handshakeError)
  {
    hide Current, Has, Active, Gated, SessionOpen;
    assert log + [] == log;
    match p {
      case EnCheck =>
      case EnMark => AppendMark(log);
      case EnSendInit(m) => AppendCurrent(log, m, InitSent);
      case EnReplyInit(m) =>
      case EnWaitAck(m) =>
      case EnReadError(m) =>
      case EnSendConfig(m) => AppendKeeps(log, ConfigSent);
      case EnReplyConfig =>
      case EnActivate =>
      case EnUnlock(_) =>
    }
  }

  lemma OperationKeepsHistory(s: State, ok: bool)
    requires Inv(s) && CanOperate(s)
    ensures History(OperationStep(s, ok))
  {
    OperationKeepsLog(s, ok);
    ActiveStays(s, ok);
    hide Active, Ownership, Quiet, OpUnlocks, OpSection, OpFault, OpLive, OpEntry, OpHpd, Gated, HistoryAt;
    hide SessionOpen, UserAfter;
    hide EnNext, ConnNext, FindNext, DiscNext;
    match s.op.pc {
      case Disc(p) =>
      case Conn(p) => ConnectStays(s.h, p, ok);
      case Find(p, d) => FindStays(s.h, p, d, ok);
      case En(p) => AttemptGoesOn(s.h, s.handles.client, p, s.log, ok);
    }
  }

  /** The presence flag is raised only after a configuration, and lowered before the session ends. */
  lemma ActiveStays(s: State, ok: bool)
    requires Inv(s) && CanOperate(s)
    ensures OperationStep(s, ok).h.flags.eventEnabled ==> Active(OperationStep(s, ok).log)
  {
    hide Active, Gated, SessionOpen, Current, Has, Ownership, Quiet, OpNext, OpUnlocks, OpSection, OpFault;
    hide HistoryAt, UserAfter;
    var pc := s.op.pc;
    var e := OpEntry(s.h, pc, ok);
    assert s.log + [] == s.log;
    if OpHpd(s.h, pc).flags.eventEnabled {
      ActiveSession(s.h, s.handles.client, pc, ok);
      assert pc == En(EnActivate) ==> Active(s.log) by {
        if pc == En(EnActivate) {
          assert HistoryAt(pc.en, s.log, s.h.handshakeError);
          ActivePoint(s.log, s.h.handshakeError);
        }
      }
      if e.Some? { AppendKeeps(s.log, e.value); }
    }
  }

  lemma ActivePoint(log: seq<Entry>, error: int)
    requires HistoryAt(EnActivate, log, error)
    ensures Active(log)
  {
  }

  lemma ActiveSession(h: Hpd, live: bool, pc: OpPc, ok: bool)
    requires HandleAt(pc, h, live) && (h.flags.connected ==> h.flags.clientInitialized)
    requires h.flags.eventEnabled ==> ReadyClient(h)
    requires OpHpd(h, pc).flags.eventEnabled
    ensures OpEntry(h, pc, ok) != Some(Opened) && OpEntry(h, pc, ok) != Some(Closed)
    ensures h.flags.eventEnabled || pc == En(EnActivate)
  {
    match pc {
      case Disc(p) =>
      case Conn(p) =>
      case Find(p, d) =>
      case En(p) =>
    }
  }

  lemma EnablesAre(h: Hpd, p: EnPc, ok: bool, start: nat)
    ensures EnNext(h, p, ok, start) != EnCheck || p == EnCheck
    ensures EnNext(h, p, ok, start) == EnUnlock(true) && p != EnUnlock(true) ==> OpHpd(h, En(p)).flags.eventEnabled
    ensures p != EnActivate ==> OpHpd(h, En(p)).flags.eventEnabled == h.flags.eventEnabled
    ensures p == EnCheck ==> EnNext(h, p, ok, start) != EnCheck
  {
  }

  /** A failed attempt does not lose its disconnect. */
  lemma OperationKeepsRecovery(s: State, ok: bool)
    requires Inv(s) && CanOperate(s)
    ensures Recovery(OperationStep(s, ok))
  {
    assert OwnerOk(s);
    hide Ownership, Quiet, OpUnlocks, OpSection, OpFault, OpLive, OpHpd, Gated, Current, Has, HistoryAt;
    hide SessionOpen, Active, Tried, EnNext, ConnNext, FindNext;
    var t := OperationStep(s, ok);
    var e := OpEntry(s.h, s.op.pc, ok);
    assert s.log + [] == s.log;
    AppendTried(s.log, if e.Some? then e.value else InitSent);
    match s.op.pc {
      case Disc(p) => match p { case DiscClear => case DiscRelease => case DiscUnlock => }
      case Conn(p) => ConnectLeavesEvents(s.h, s.op.pc);
      case Find(p, d) => ConnectLeavesEvents(s.h, s.op.pc);
      case En(p) =>
        EnablesAre(s.h, p, ok, |s.log|);
        if p == EnUnlock(false) { assert t.users[s.op.owner.i] == WantDisable; }
    }
  }

  lemma ConnectLeavesEvents(h: Hpd, pc: OpPc)
    requires pc.Conn? || pc.Find?
    ensures OpHpd(h, pc).flags.eventEnabled == h.flags.eventEnabled
  {
  }

  lemma CallbackKeepsRecovery(s: State)
    requires Inv(s) && Enabled(s, Call)
    ensures Recovery(CallbackStep(s))
  {
    hide Ownership, Handle, Slots, Quiet, History, SessionOpen, Tried, CallbackNext, CallbackHpd;
    CallbackFrame(s.h, s.callback);
    assert s.log + [] == s.log;
    if s.callback.CbAckStore? { AppendTried(s.log, AckStored(s.callback.error)); }
  }

  lemma ConnectStays(h: Hpd, p: ConnPc, ok: bool)
    ensures !ConnNext(h, p, ok).En?
  {
  }

  lemma FindStays(h: Hpd, p: FindPc, d: Sensor, ok: bool)
    ensures !FindNext(h, p, d, ok).En?
  {
  }

  // ----- the other threads

  lemma WorkerKeeps(s: State)
    requires Inv(s) && Enabled(s, Work)
    ensures Inv(WorkerStep(s))
  {
    hide ValidFinds, Active, Gated, SessionOpen, ReadyClient;
  }

  lemma PmKeepsOwnership(s: State)
    requires Inv(s) && CanManage(s)
    ensures Ownership(PmStep(s))
  {
    hide Handle, Slots, Quiet, History, PmHpd;
  }

  lemma PmKeepsClient(s: State)
    requires Inv(s) && CanManage(s)
    ensures Handle(PmStep(s)) && Slots(PmStep(s)) && History(PmStep(s)) && Recovery(PmStep(s))
  {
    hide Ownership, Quiet, PmNext, ValidFinds, Active, Gated, SessionOpen;
  }

  lemma PmKeepsQuiet(s: State)
    requires Inv(s) && CanManage(s)
    ensures Quiet(PmStep(s))
  {
    hide Slots, History;
    match s.pm {
      case PmSuspend =>
      case PmResume =>
      case PmRemove =>
      case PmLookupRelease =>
      case PmCancelConnect(_) =>
      case PmCancelDisconnect(_) =>
      case PmDisconnect(_) =>
      case PmRead =>
      case PmQueue =>
      case PmDrain =>
      case _ =>
    }
  }

  lemma LookupKeepsClient(s: State)
    requires Inv(s) && Enabled(s, Look)
    ensures Client(LookupStep(s)) && History(LookupStep(s)) && Recovery(LookupStep(s))
  {
    hide Quiet, ValidFinds, HistoryAt, Active, Gated, SessionOpen, Tried;
    match s.lookup {
      case Arriving =>
      case ArriveQueue =>
      case Leaving =>
      case LeaveQueue =>
      case LookupIdle =>
    }
  }

  lemma LookupKeepsQuiet(s: State)
    requires Inv(s) && Enabled(s, Look)
    ensures Quiet(LookupStep(s))
  {
    hide Client, History, Recovery;
    match s.lookup {
      case Arriving =>
      case ArriveQueue =>
      case Leaving =>
      case LeaveQueue =>
      case LookupIdle =>
    }
  }

  lemma UserKeepsOwnership(s: State, i: nat)
    requires Inv(s) && Enabled(s, Use(i))
    ensures Ownership(UserStep(s, i))
  {
    hide Handle, Slots, Quiet, History;
  }

  lemma UserKeepsRest(s: State, i: nat)
    requires Inv(s) && Enabled(s, Use(i))
    ensures Handle(UserStep(s, i)) && Slots(UserStep(s, i)) && Quiet(UserStep(s, i)) && History(UserStep(s, i))
    ensures Recovery(UserStep(s, i))
  {
    assert s.users[i].WantDisable? ==> Owed(UserStep(s, i));
    var now := UserStep(s, i).users;
    if j :| 0 <= j < |s.users| && s.users[j].WantDisable? && j != i { assert now[j].WantDisable?; }
    hide ValidFinds, Active, Gated, SessionOpen, ReadyClient, UserNext;
  }

  /** What the callback leaves alone. */
  lemma CallbackFrame(h: Hpd, pc: CallbackPc)
    ensures var g := CallbackHpd(h, pc);
            g.flags == h.flags
  {
  }

  lemma CallbackKeepsOwnership(s: State)
    requires Inv(s) && Enabled(s, Call)
    ensures Ownership(CallbackStep(s))
  {
    hide Handle, Slots, Quiet, History, CallbackHpd, CallbackNext;
  }

  lemma CallbackKeepsHandle(s: State)
    requires Inv(s) && Enabled(s, Call)
    ensures Handle(CallbackStep(s)) && Quiet(CallbackStep(s))
  {
    hide Ownership, Slots, History, CallbackHpd, CallbackNext;
    CallbackFrame(s.h, s.callback);
  }

  lemma CallbackKeepsSlots(s: State)
    requires Inv(s) && Enabled(s, Call)
    ensures Slots(CallbackStep(s))
  {
    hide Ownership, Handle, Quiet, History;
    match s.callback {
      case CbIdle =>
      case CbNext(_) =>
      case CbSuid(_, _, _) =>
      case CbPresence(_, _) =>
      case CbAckMark(_, _) =>
      case CbAckStore(_, _) =>
      case CbAckDone(_) =>
    }
  }

  /** The acknowledgement's store is recorded with the error it leaves. */
  lemma AckIsRecorded(p: EnPc, log: seq<Entry>, before: int, error: int)
    requires HistoryAt(p, log, before)
    ensures HistoryAt(p, log + [AckStored(error)], error)
  {
    hide Current, Has, Active, Gated, SessionOpen;
    var e := AckStored(error);
    AppendKeeps(log, e);
    match p {
      case EnSendInit(m) => AppendCurrent(log, m, e);
      case EnReplyInit(m) => AppendCurrent(log, m, e);
      case EnWaitAck(m) => AppendCurrent(log, m, e);
      case EnReadError(m) => AppendCurrent(log, m, e);
      case EnSendConfig(m) => AppendCurrent(log, m, e);
      case _ =>
    }
  }

  /** Every other step of the callback leaves the error alone or marks it pending. */
  lemma OtherErrors(h: Hpd, pc: CallbackPc, p: EnPc, log: seq<Entry>)
    requires !pc.CbAckStore? && HistoryAt(p, log, h.handshakeError)
    ensures HistoryAt(p, log, CallbackHpd(h, pc).handshakeError)
  {
    hide Current, Has, Active;
    assert CallbackHpd(h, pc).handshakeError in {h.handshakeError, -EBADMSG};
  }

  lemma CallbackKeepsHistory(s: State)
    requires Inv(s) && Enabled(s, Call)
    ensures History(CallbackStep(s))
  {
    hide Ownership, Handle, Slots, Quiet, Active, Gated, SessionOpen, HistoryAt, CallbackNext, CallbackHpd;
    CallbackFrame(s.h, s.callback);
    if s.callback.CbAckStore? {
      AppendKeeps(s.log, AckStored(s.callback.error));
      assert CallbackHpd(s.h, s.callback).handshakeError == s.callback.error by { StoredError(s.h, s.callback); }
      if s.op.Held? && s.op.pc.En? { AckIsRecorded(s.op.pc.en, s.log, s.h.handshakeError, s.callback.error); }
    } else {
      assert s.log + [] == s.log;
      if s.op.Held? && s.op.pc.En? { OtherErrors(s.h, s.callback, s.op.pc.en, s.log); }
    }
  }

  lemma StoredError(h: Hpd, pc: CallbackPc)
    requires pc.CbAckStore?
    ensures CallbackHpd(h, pc).handshakeError == pc.error
  {
  }

  lemma AcquireKeeps(s: State, t: Tid)
    requires Inv(s) && Enabled(s, Acquire(t))
    ensures Inv(s.(lock := Some(t)))
  {
    hide ValidFinds, HistoryAt, Active, Gated, SessionOpen, Tried, ReadyClient;
  }

  lemma PickKeeps(s: State, connect: bool)
    requires Inv(s) && Enabled(s, Pick(connect))
    ensures Inv(Exec(s, Pick(connect)))
  {
    hide ValidFinds, HistoryAt, Active, Gated, SessionOpen, Tried, ReadyClient;
  }

  // ----- requests from outside

  lemma UserRequestKeeps(s: State, i: nat, pc: UserPc)
    requires Inv(s) && i < |s.users| && s.users[i].UserIdle? && (pc.WantEnable? || pc.WantDisable?)
    ensures Inv(s.(users := s.users[i := pc]))
  {
    var now := s.users[i := pc];
    if j :| 0 <= j < |s.users| && s.users[j].WantDisable? { assert now[j].WantDisable?; }
    hide ValidFinds, HistoryAt, Active, Gated, SessionOpen, Tried, ReadyClient;
  }

  lemma PmRequestKeeps(s: State, pc: PmPc)
    requires Inv(s) && s.pm.PmIdle? && (pc.PmSuspend? || pc.PmResume? || pc.PmRemove?)
    ensures Inv(s.(pm := pc))
  {
    hide ValidFinds, HistoryAt, Active, Gated, SessionOpen, Tried, ReadyClient;
  }

  lemma ServiceKeeps(s: State, pc: LookupPc)
    requires Inv(s) && s.handles.lookup && s.lookup.LookupIdle? && (pc.Arriving? || pc.Leaving?)
    ensures Inv(s.(lookup := pc))
  {
    hide ValidFinds, HistoryAt, Active, Gated, SessionOpen, Tried, ReadyClient;
  }

  lemma ReportKeeps(s: State, data: seq<u8>)
    requires Inv(s) && s.handles.client && s.callback.CbIdle?
    ensures Inv(s.(callback := CbNext(ReportEffects(data))))
  {
    hide HistoryAt, Active, Gated, SessionOpen, EffectOf, Received;
    forall i | 0 <= i < |ReportEffects(data)| && ReportEffects(data)[i].FoundSuid?
      ensures ReportEffects(data)[i].suid.valid
    {
      FoundSuidIsValid(Received(data)[i]);
    }
  }

  // ----- all steps

  lemma StepKeeps(s: State, l: Label)
    requires Inv(s) && Enabled(s, l)
    ensures Inv(Exec(s, l))
  {
    hide Ownership, Handle, Slots, Quiet, History, Recovery;
    hide OperationStep, WorkerStep, PmStep, LookupStep, CallbackStep, UserStep;
    match l {
      case Acquire(t) => AcquireKeeps(s, t);
      case Operate(ok) =>
        OperationKeepsOwnership(s, ok);
        OperationKeepsHandle(s, ok);
        OperationKeepsSlots(s, ok);
        OperationKeepsQuiet(s, ok);
        OperationKeepsHistory(s, ok);
        OperationKeepsRecovery(s, ok);
      case Work => WorkerKeeps(s);
      case Manage =>
        PmKeepsOwnership(s);
        PmKeepsClient(s);
        PmKeepsQuiet(s);
      case Look =>
        LookupKeepsClient(s);
        LookupKeepsQuiet(s);
      case Call =>
        CallbackKeepsOwnership(s);
        CallbackKeepsHandle(s);
        CallbackKeepsSlots(s);
        CallbackKeepsHistory(s);
        CallbackKeepsRecovery(s);
      case Use(i) =>
        UserKeepsOwnership(s, i);
        UserKeepsRest(s, i);
      case Pick(connect) => PickKeeps(s, connect);
      case EnableWritten(i) => UserRequestKeeps(s, i, WantEnable);
      case DisableWritten(i) => UserRequestKeeps(s, i, WantDisable);
      case ServiceArrives => ServiceKeeps(s, Arriving);
      case ServiceLeaves => ServiceKeeps(s, Leaving);
      case SuspendCalled => PmRequestKeeps(s, PmSuspend);
      case ResumeCalled => PmRequestKeeps(s, PmResume);
      case RemoveCalled => PmRequestKeeps(s, PmRemove);
      case ReportArrives(data) => ReportKeeps(s, data);
    }
  }

  lemma InitHolds(users: nat)
    ensures Inv(Init(users))
  {
  }

  lemma {:induction false} RunFromKeeps(s: State, ls: seq<Label>)
    requires Inv(s) && RunFrom(s, ls).Some?
    ensures Inv(RunFrom(s, ls).value)
    decreases ls
  {
    if ls != [] {
      hide Inv, Enabled, Exec;
      StepKeeps(s, ls[0]);
      RunFromKeeps(Exec(s, ls[0]), ls[1..]);
    }
  }

  /** Every state a run reaches satisfies the invariant. */
  lemma RunKeeps(users: nat, ls: seq<Label>)
    requires Run(users, ls).Some?
    ensures Inv(Run(users, ls).value)
  {
    hide Inv, RunFrom, Init;
    InitHolds(users);
    RunFromKeeps(Init(users), ls);
  }
}
