/** What happened outside decides the flags and what a user's write comes to: the service's last event,
    the last suspend or resume, a removal, and each write of a user. */
module LifecycleEvents {
  import opened Wrappers
  import opened HpdState
  import opened Lifecycle
  import opened LifecycleSafety
  import opened LifecycleProof

  /** What a run was told: the service's last event, the last call of suspend or resume, whether remove was
      called; and whether user `i` has written a disable, or an enable, that has not been carried out. */
  datatype Told = Told(present: bool, suspended: bool, removed: bool, disabling: bool, enabling: bool)

  const AT_PROBE := Told(false, false, false, false, false)

  /** A disable is carried out by the user's own disconnect, an enable by success or by that. */
  function ToldStep(s: State, l: Label, i: nat, w: Told): Told {
    match l
    case ServiceArrives => w.(present := true)
    case ServiceLeaves => w.(present := false)
    case SuspendCalled => w.(suspended := true)
    case ResumeCalled => w.(suspended := false)
    case RemoveCalled => w.(removed := true)
    case DisableWritten(j) => if j == i then w.(disabling := true) else w
    case EnableWritten(j) => if j == i then w.(enabling := true) else w
    case Operate(_) =>
      if s.op == Held(User(i), Disc(DiscClear)) then w.(disabling := false, enabling := false)
      else if s.op == Held(User(i), En(EnUnlock(true))) then w.(enabling := false)
      else w
    case _ => w
  }

  function ToldBy(s: State, ls: seq<Label>, i: nat, w: Told): Told
    requires RunFrom(s, ls).Some?
    decreases ls
  {
    if ls == [] then w else ToldBy(Exec(s, ls[0]), ls[1..], i, ToldStep(s, ls[0], i, w))
  }

  /** A flag follows its event as soon as the thread that was told has run its section. */
  predicate FlagsFollow(s: State, w: Told) {
    && (if s.lookup.Arriving? then w.present
        else if s.lookup.Leaving? then !w.present
        else s.h.flags.servicePresent == w.present)
    && (match s.pm
        case PmSuspend => w.suspended && !w.removed && !s.h.flags.shuttingDown
        case PmResume => !w.suspended && !w.removed && !s.h.flags.shuttingDown
        case PmRemove => w.removed
        case _ => s.h.flags.suspended == (w.suspended || w.removed) && s.h.flags.shuttingDown == w.removed)
  }

  /** A write that was not carried out is on its way to be. */
  predicate WritesPend(s: State, i: nat, w: Told) {
    && (w.disabling ==>
          i < |s.users| && (s.users[i].WantDisable? || s.op == Held(User(i), Disc(DiscClear))))
    && (w.enabling ==>
          i < |s.users| && (s.users[i].WantEnable? || s.users[i].WantDisable? || s.op == Held(User(i), Disc(DiscClear))
                            || (s.op.Held? && s.op.owner == User(i) && s.op.pc.En?)))
  }

  lemma OperationFlags(h: Hpd, pc: OpPc)
    ensures var f, g := h.flags, OpHpd(h, pc).flags;
            g.servicePresent == f.servicePresent && g.suspended == f.suspended && g.shuttingDown == f.shuttingDown
  {
    match pc {
      case Disc(p) =>
      case Conn(p) =>
      case Find(p, d) =>
      case En(p) =>
    }
  }

  lemma OperationSetsFlags(s: State, ok: bool, i: nat, w: Told)
    requires Inv(s) && CanOperate(s) && FlagsFollow(s, w)
    ensures FlagsFollow(OperationStep(s, ok), ToldStep(s, Operate(ok), i, w))
  {
    assert OwnerOk(s);
    OperationFlags(s.h, s.op.pc);
    hide Inv, OpHpd, OpLive, OpEntry, OpFault, OpUnlocks, OpSection, OpNext, OpEnds, UserAfter;
  }

  lemma OperationCarriesOut(s: State, ok: bool, i: nat, w: Told)
    requires Inv(s) && CanOperate(s) && WritesPend(s, i, w)
    ensures WritesPend(OperationStep(s, ok), i, ToldStep(s, Operate(ok), i, w))
  {
    assert OwnerOk(s);
    if s.op.owner == User(i) { OperationGoesTo(s.h, s.op.pc, ok, |s.log|); }
    hide Inv, OwnerOk, OpHpd, OpLive, OpEntry, OpFault, OpUnlocks, OpSection, OpNext, CanOperate, OpEnds, UserAfter;
  }

  /** Where a user's operation goes from here. */
  lemma OperationGoesTo(h: Hpd, pc: OpPc, ok: bool, start: nat)
    requires pc.Disc? || pc.En?
    ensures !OpEnds(pc) && pc.En? ==> OpNext(h, pc, ok, start).En?
    ensures pc == Disc(DiscClear) ==> !OpEnds(pc)
    ensures pc.En? && OpEnds(pc) ==> UserAfter(pc) == if pc.en.done then UserIdle else WantDisable
    ensures pc.En? && OpEnds(pc) ==> pc.en.EnUnlock?
  {
  }

  lemma PmSetsFlags(s: State, w: Told)
    requires CanManage(s) && FlagsFollow(s, w)
    ensures FlagsFollow(PmStep(s), w)
  {
    hide CanManage;
    match s.pm {
      case PmSuspend =>
      case PmResume =>
      case PmRemove =>
      case PmLookupRelease =>
      case PmDisconnect(_) =>
      case _ =>
    }
  }

  lemma LookupSetsFlags(s: State, w: Told)
    requires Enabled(s, Look) && FlagsFollow(s, w)
    ensures FlagsFollow(LookupStep(s), w)
  {
    match s.lookup {
      case Arriving =>
      case ArriveQueue =>
      case Leaving =>
      case LeaveQueue =>
      case LookupIdle =>
    }
  }

  predicate Event(l: Label) {
    l.ServiceArrives? || l.ServiceLeaves? || l.SuspendCalled? || l.ResumeCalled? || l.RemoveCalled?
  }

  lemma QuietStep(s: State, l: Label)
    requires Enabled(s, l) && !l.Operate? && !l.Manage? && !l.Look? && !Event(l)
    ensures var t := Exec(s, l); t.h.flags == s.h.flags && t.lookup == s.lookup && t.pm == s.pm
  {
    hide CanManage, CallbackHpd;
    if l.Call? { CallbackFrame(s.h, s.callback); }
  }

  lemma EventSetsFlags(s: State, l: Label, i: nat, w: Told)
    requires Inv(s) && Enabled(s, l) && FlagsFollow(s, w) && Event(l)
    ensures FlagsFollow(Exec(s, l), ToldStep(s, l, i, w))
  {
    assert s.h.flags.shuttingDown <==> Removed(s.pm);
    hide Inv;
  }

  lemma OthersSetFlags(s: State, l: Label, i: nat, w: Told)
    requires Inv(s) && Enabled(s, l) && FlagsFollow(s, w) && !l.Operate?
    ensures FlagsFollow(Exec(s, l), ToldStep(s, l, i, w))
  {
    if Event(l) {
      EventSetsFlags(s, l, i, w);
    } else if l.Manage? {
      PmSetsFlags(s, w);
    } else if l.Look? {
      LookupSetsFlags(s, w);
    } else {
      QuietStep(s, l);
    }
    hide Inv, Enabled, PmStep, LookupStep, UserStep, CallbackStep, WorkerStep;
  }

  lemma OthersKeepWrites(s: State, l: Label, i: nat, w: Told)
    requires Inv(s) && Enabled(s, l) && WritesPend(s, i, w) && !l.Operate?
    ensures WritesPend(Exec(s, l), i, ToldStep(s, l, i, w))
  {
    hide Inv, CallbackHpd, CallbackNext, AtSection, CanOperate, WorkerConnecting, WorkerDisconnecting;
    hide PmHpd, PmNext, LookupHpd, LookupNext;
    match l {
      case Manage =>
      case Use(_) => hide CanManage;
      case Work => hide CanManage;
      case _ => hide CanManage;
    }
  }

  lemma StepTells(s: State, l: Label, i: nat, w: Told)
    requires Inv(s) && Enabled(s, l) && FlagsFollow(s, w) && WritesPend(s, i, w)
    ensures FlagsFollow(Exec(s, l), ToldStep(s, l, i, w)) && WritesPend(Exec(s, l), i, ToldStep(s, l, i, w))
  {
    hide Inv, FlagsFollow, WritesPend, ToldStep, OperationStep;
    match l {
      case Operate(ok) =>
        OperationSetsFlags(s, ok, i, w);
        OperationCarriesOut(s, ok, i, w);
      case _ =>
        OthersSetFlags(s, l, i, w);
        OthersKeepWrites(s, l, i, w);
    }
  }

  lemma {:induction false} RunTells(s: State, ls: seq<Label>, i: nat, w: Told)
    requires Inv(s) && RunFrom(s, ls).Some? && FlagsFollow(s, w) && WritesPend(s, i, w)
    ensures var t, v := RunFrom(s, ls).value, ToldBy(s, ls, i, w); FlagsFollow(t, v) && WritesPend(t, i, v)
    decreases ls
  {
    if ls != [] {
      hide Inv, Enabled, Exec, FlagsFollow, WritesPend, ToldStep;
      StepKeeps(s, ls[0]);
      StepTells(s, ls[0], i, w);
      RunTells(Exec(s, ls[0]), ls[1..], i, ToldStep(s, ls[0], i, w));
    }
  }

  /** In every run the flags say what happened last: the service is present exactly when its last event was
      an arrival, the driver is suspended exactly when the last call of suspend or resume was a suspend, or
      it is being removed; each from the section of the thread that was told on. */
  lemma FlagsSayWhatHappened(users: nat, ls: seq<Label>)
    requires Run(users, ls).Some?
    ensures var s, w := Run(users, ls).value, ToldBy(Init(users), ls, 0, AT_PROBE);
            && (!s.lookup.Arriving? && !s.lookup.Leaving? ==> s.h.flags.servicePresent == w.present)
            && (!s.pm.PmSuspend? && !s.pm.PmResume? && !s.pm.PmRemove? ==>
                  && s.h.flags.suspended == (w.suspended || w.removed)
                  && s.h.flags.shuttingDown == w.removed)
  {
    InitHolds(users);
    RunTells(Init(users), ls, 0, AT_PROBE);
    hide RunFrom, Init, ToldBy, WritesPend;
  }

  /** In every run a user's write that returned was carried out: since a disable was written the user has
      disconnected the client, and since an enable was written it has succeeded, or the user has
      disconnected the client. */
  lemma WritesAreCarriedOut(users: nat, ls: seq<Label>, i: nat)
    requires Run(users, ls).Some?
    ensures var s, w := Run(users, ls).value, ToldBy(Init(users), ls, i, AT_PROBE);
            i < |s.users| && s.users[i].UserIdle? ==> !w.disabling && !w.enabling
  {
    InitHolds(users);
    RunTells(Init(users), ls, i, AT_PROBE);
    RunKeeps(users, ls);
    assert OwnerOk(Run(users, ls).value);
    hide RunFrom, Init, ToldBy, FlagsFollow, Client, Quiet, History, Recovery;
  }

  // ----- what an attempt waited for

  /** How the last attempt went: its handshake was answered, its acknowledgement found complete, its
      configuration answered. */
  datatype Attempted = Attempted(replied: bool, acked: bool, confirmed: bool)

  const UNTRIED := Attempted(false, false, false)

  function AttemptAfter(s: State, l: Label, a: Attempted): Attempted {
    if !(l.Operate? && s.op.Held? && s.op.pc.En?) then a
    else match s.op.pc.en
      case EnMark => UNTRIED
      case EnReplyInit(_) => a.(replied := l.ok)
      case EnWaitAck(_) => a.(acked := s.h.done.ack)
      case EnReplyConfig => a.(confirmed := l.ok)
      case _ => a
  }

  function AttemptIn(s: State, ls: seq<Label>, a: Attempted): Attempted
    requires RunFrom(s, ls).Some?
    decreases ls
  {
    if ls == [] then a else AttemptIn(Exec(s, ls[0]), ls[1..], AttemptAfter(s, ls[0], a))
  }

  /** By how far the attempt is. */
  predicate SoFar(p: EnPc, a: Attempted) {
    match p
    case EnWaitAck(_) => a.replied
    case EnReadError(_) => a.replied && a.acked
    case EnSendConfig(_) => a.replied && a.acked
    case EnReplyConfig => a.replied && a.acked
    case EnActivate => a.replied && a.acked && a.confirmed
    case _ => true
  }

  predicate Answered(h: Hpd, op: OpLock, a: Attempted) {
    && (h.flags.eventEnabled ==> a.replied && a.acked && a.confirmed)
    && (op.Held? && op.pc.En? ==> SoFar(op.pc.en, a) && (Attempting(op.pc.en) ==> !h.flags.eventEnabled))
  }

  lemma OperationAnswers(s: State, ok: bool, a: Attempted)
    requires CanOperate(s) && Answered(s.h, s.op, a)
    ensures var t := OperationStep(s, ok); Answered(t.h, t.op, AttemptAfter(s, Operate(ok), a))
  {
    assert s.op.Held?;
    hide OpLive, OpEntry, OpFault, OpUnlocks, OpSection, UserAfter, CanOperate, ConnNext, FindNext;
    match s.op.pc {
      case Disc(p) =>
      case Conn(p) => ConnectStays(s.h, p, ok);
      case Find(p, d) => FindStays(s.h, p, d, ok);
      case En(p) =>
        match p {
          case EnCheck => case EnMark => case EnSendInit(_) => case EnReplyInit(_) => case EnWaitAck(_) =>
          case EnReadError(_) => case EnSendConfig(_) => case EnReplyConfig => case EnActivate => case EnUnlock(_) =>
        }
    }
  }

  lemma OthersAnswer(s: State, l: Label, a: Attempted)
    requires Enabled(s, l) && Answered(s.h, s.op, a) && !l.Operate?
    ensures Answered(Exec(s, l).h, Exec(s, l).op, a)
  {
    if l.Call? { CallbackFrame(s.h, s.callback); }
    hide CallbackHpd, CallbackNext, CanManage, CanOperate, AtSection;
  }

  lemma {:induction false} RunAnswers(s: State, ls: seq<Label>, a: Attempted)
    requires RunFrom(s, ls).Some? && Answered(s.h, s.op, a)
    ensures var t := RunFrom(s, ls).value; Answered(t.h, t.op, AttemptIn(s, ls, a))
    decreases ls
  {
    if ls != [] {
      hide Answered, OperationStep;
      match ls[0] {
        case Operate(ok) => OperationAnswers(s, ok, a);
        case _ => OthersAnswer(s, ls[0], a);
      }
      hide Exec, Enabled;
      RunAnswers(Exec(s, ls[0]), ls[1..], AttemptAfter(s, ls[0], a));
    }
  }

  /** In every run in which presence reads as enabled, the last attempt had its handshake answered, found its
      acknowledgement complete and had its configuration answered. */
  lemma EnabledMeansAnswered(users: nat, ls: seq<Label>)
    requires Run(users, ls).Some? && Run(users, ls).value.h.flags.eventEnabled
    ensures AttemptIn(Init(users), ls, UNTRIED) == Attempted(true, true, true)
  {
    RunAnswers(Init(users), ls, UNTRIED);
    hide RunFrom, Init, AttemptIn;
  }

  // ----- pending work

  /** Queueing makes an item pending; picking and cancelling end that. */
  function QueueAfter(s: State, l: Label, q: Queue): Queue {
    match l
    case Look =>
      if s.lookup.ArriveQueue? then q.(connect := true) else if s.lookup.LeaveQueue? then q.(disconnect := true) else q
    case Use(i) => if i < |s.users| && s.users[i].UserQueue? then q.(connect := true) else q
    case Pick(connect) => if connect then q.(connect := false) else q.(disconnect := false)
    case Manage =>
      (match s.pm
       case PmQueue => q.(connect := true)
       case PmCancelConnect(_) => q.(connect := false)
       case PmCancelDisconnect(_) => q.(disconnect := false)
       case _ => q)
    case _ => q
  }

  function QueueIn(s: State, ls: seq<Label>, q: Queue): Queue
    requires RunFrom(s, ls).Some?
    decreases ls
  {
    if ls == [] then q else QueueIn(Exec(s, ls[0]), ls[1..], QueueAfter(s, ls[0], q))
  }

  lemma StepQueues(s: State, l: Label)
    requires Enabled(s, l)
    ensures Exec(s, l).queue == QueueAfter(s, l, s.queue)
  {
    hide CanManage, CanOperate, AtSection, OpHpd, OpLive, OpNext, OpEntry, OpFault, OpUnlocks, CallbackHpd, CallbackNext;
  }

  lemma {:induction false} RunQueues(s: State, ls: seq<Label>)
    requires RunFrom(s, ls).Some?
    ensures RunFrom(s, ls).value.queue == QueueIn(s, ls, s.queue)
    decreases ls
  {
    if ls != [] {
      hide Enabled, Exec, QueueAfter;
      StepQueues(s, ls[0]);
      RunQueues(Exec(s, ls[0]), ls[1..]);
    }
  }

  /** In every run a work item is pending exactly when it was queued and neither picked nor cancelled since:
      suspend and remove leave no work behind that was queued before they cancelled it. */
  lemma PendingMeansQueued(users: nat, ls: seq<Label>)
    requires Run(users, ls).Some?
    ensures Run(users, ls).value.queue == QueueIn(Init(users), ls, Queue(false, false))
  {
    RunQueues(Init(users), ls);
  }
}
