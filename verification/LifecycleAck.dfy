/** Whose acknowledgement an attempt accepts: one received since its handshake was sent, exactly when no
    zero error is stored, or about to be stored, at that moment. */
module LifecycleAck {
  import opened Wrappers
  import opened Bytes
  import opened Fields
  import opened Request
  import opened Report
  import opened HpdState
  import opened Lifecycle
  import opened LifecycleSafety
  import opened LifecycleProof
  import opened LifecycleProgress

  /** The attempt that is running, by its mark. */
  function AttemptOf(op: OpLock): Option<nat> {
    if op.Free? || !op.pc.En? then None
    else match op.pc.en
      case EnSendInit(m) => Some(m)
      case EnReplyInit(m) => Some(m)
      case EnWaitAck(m) => Some(m)
      case EnReadError(m) => Some(m)
      case EnSendConfig(m) => Some(m)
      case _ => None
  }

  predicate AboutToConfigure(op: OpLock) { op.Held? && op.pc.En? && op.pc.en.EnSendConfig? }

  // ----- a zero error is followed by its completion

  predicate AckFollows(s: State) {
    AttemptOf(s.op).Some? && s.h.handshakeError == 0 ==> s.h.done.ack || s.callback.CbAckDone?
  }

  lemma OperationKeepsAck(h: Hpd, owner: Tid, pc: OpPc, ok: bool, start: nat)
    ensures var next := Held(owner, OpNext(h, pc, ok, start));
            AttemptOf(next).Some? ==>
              || (pc == En(EnMark) && AttemptOf(next) == Some(start) && OpHpd(h, pc).handshakeError != 0 && !AboutToConfigure(next))
              || (AttemptOf(next) == AttemptOf(Held(owner, pc)) && OpHpd(h, pc) == h
                  && (AboutToConfigure(next) && !AboutToConfigure(Held(owner, pc)) ==> h.handshakeError == 0))
  {
    match pc {
      case Disc(p) =>
      case Conn(p) =>
      case Find(p, d) =>
      case En(p) =>
        match p {
          case EnCheck => case EnMark => case EnSendInit(_) => case EnReplyInit(_) => case EnWaitAck(_) =>
          case EnReadError(_) => case EnSendConfig(_) => case EnReplyConfig => case EnActivate => case EnUnlock(_) =>
        }
    }
  }

  lemma StepKeepsAck(s: State, l: Label)
    requires AckFollows(s) && Enabled(s, l)
    ensures AckFollows(Exec(s, l))
  {
    hide CanManage, OpHpd, OpNext, OpEntry, OpFault, OpUnlocks, OpLive, AboutToConfigure;
    match l {
      case Operate(ok) => OperationKeepsAck(s.h, s.op.owner, s.op.pc, ok, |s.log|);
      case _ =>
    }
  }

  lemma {:induction false} RunKeepsAck(s: State, ls: seq<Label>)
    requires AckFollows(s) && RunFrom(s, ls).Some?
    ensures AckFollows(RunFrom(s, ls).value)
    decreases ls
  {
    if ls != [] {
      hide AckFollows, Enabled, Exec;
      StepKeepsAck(s, ls[0]);
      RunKeepsAck(Exec(s, ls[0]), ls[1..]);
    }
  }

  // ----- stored since the handshake

  ghost predicate Since(log: seq<Entry>, n: nat) { exists i :: n <= i < |log| && log[i] == AckStored(0) }

  /** From a point of attempt `m` at which no zero error was stored: one is only after the store that the
      history has since. */
  ghost predicate Answered(t: State, m: nat, n: nat) {
    && n <= |t.log|
    && (AttemptOf(t.op) == Some(m) && (t.h.handshakeError == 0 || AboutToConfigure(t.op)) ==> Since(t.log, n))
  }

  lemma SinceGrows(log: seq<Entry>, more: seq<Entry>, n: nat)
    requires Since(log, n)
    ensures Since(log + more, n)
  {
    var i :| n <= i < |log| && log[i] == AckStored(0);
    assert (log + more)[i] == log[i];
  }

  lemma StepKeepsAnswered(t: State, l: Label, m: nat, n: nat)
    requires Answered(t, m, n) && m < n && Enabled(t, l)
    ensures Answered(Exec(t, l), m, n)
  {
    hide CanManage, OpHpd, OpNext, OpEntry, OpFault, OpUnlocks, OpLive, AboutToConfigure, Since;
    match l {
      case Operate(ok) =>
        OperationKeepsAck(t.h, t.op.owner, t.op.pc, ok, |t.log|);
        if Since(t.log, n) { SinceGrows(t.log, Optional(OpEntry(t.h, t.op.pc, ok)), n); }
      case Call =>
        assert t.log + [] == t.log;
        if t.callback.CbAckStore? { StoreIsSince(t.log, t.callback.error, n); }
        if Since(t.log, n) { SinceGrows(t.log, [AckStored(0)], n); }
      case _ =>
    }
  }

  lemma StoreIsSince(log: seq<Entry>, error: int, n: nat)
    requires n <= |log|
    ensures error == 0 || Since(log, n) ==> Since(log + [AckStored(error)], n)
  {
    var now := log + [AckStored(error)];
    assert now[|log|] == AckStored(error);
    if Since(log, n) { SinceGrows(log, [AckStored(error)], n); }
  }

  lemma {:induction false} RunKeepsAnswered(t: State, ls: seq<Label>, m: nat, n: nat)
    requires Answered(t, m, n) && m < n && RunFrom(t, ls).Some?
    ensures Answered(RunFrom(t, ls).value, m, n)
    decreases ls
  {
    if ls != [] {
      hide Answered, Enabled, Exec;
      StepKeepsAnswered(t, ls[0], m, n);
      RunKeepsAnswered(Exec(t, ls[0]), ls[1..], m, n);
    }
  }

  // ----- the theorem

  /** The attempt comes to its configuration with no zero error stored since its handshake was sent. */
  ghost predicate Unanswered(s: State, m: nat, more: seq<Label>) {
    && RunFrom(s, more).Some?
    && var t := RunFrom(s, more).value;
       t.op.Held? && t.op.pc == En(EnSendConfig(m)) && !Since(t.log, |s.log|)
  }

  /** The step receives an acknowledgement without error. */
  predicate ReceivesAck(l: Label) { l.ReportArrives? && HandshakeAck(0) in ReportEffects(l.data) }

  ghost predicate NoAckReceived(ls: seq<Label>) { forall i :: 0 <= i < |ls| ==> !ReceivesAck(ls[i]) }

  /** With a zero error already stored, the attempt can go through on it. */
  lemma GoesThrough(s: State, m: nat) returns (more: seq<Label>)
    requires Inv(s) && AckFollows(s)
    requires s.op.Held? && s.op.pc == En(EnSendInit(m)) && s.h.handshakeError == 0
    ensures Unanswered(s, m, more) && NoAckReceived(more)
  {
    var go := Operate(true);
    var a: State;
    if s.h.done.ack {
      a := s;
    } else {
      assert Enabled(s, Call) && Exec(s, Call).log == s.log;
      a := Exec(s, Call);
    }
    assert a.h.done.ack && a.h.handshakeError == 0 && ReadyClient(a.h) && a.op == s.op && a.log == s.log;
    var ls := FourSteps(a, m);
    more := if s.h.done.ack then ls else [Call] + ls;
    assert ([Call] + ls)[1..] == ls;
    assert RunFrom(s, more) == RunFrom(a, ls);
  }

  /** One good step of an attempt between its mark and its configuration. */
  lemma Advances(a: State, p: EnPc) returns (b: State)
    requires a.op.Held? && a.op.pc == En(p) && (p.EnSendInit? || p.EnReplyInit? || p.EnWaitAck? || p.EnReadError?)
    ensures Enabled(a, Operate(true)) && b == Exec(a, Operate(true))
    ensures b.op.Held? && b.op.pc == En(EnNext(a.h, p, true, |a.log|)) && b.h == a.h
    ensures b.log == a.log + if OpEntry(a.h, En(p), true).Some? then [OpEntry(a.h, En(p), true).value] else []
  {
    b := Exec(a, Operate(true));
  }

  lemma FourSteps(a: State, m: nat) returns (ls: seq<Label>)
    requires a.op.Held? && a.op.pc == En(EnSendInit(m))
    requires a.h.done.ack && a.h.handshakeError == 0 && ReadyClient(a.h)
    ensures Unanswered(a, m, ls) && NoAckReceived(ls)
  {
    hide Enabled, Exec;
    var go := Operate(true);
    ls := [go, go, go, go];
    var b := Advances(a, EnSendInit(m));
    var c := Advances(b, EnReplyInit(m));
    var d := Advances(c, EnWaitAck(m));
    var e := Advances(d, EnReadError(m));
    assert e.op.pc == En(EnSendConfig(m)) && e.log == a.log + [InitSent] + [] + [] + [];
    assert ls[1..] == [go, go, go] && [go, go, go][1..] == [go, go] && [go, go][1..] == [go] && [go][1..] == [];
    assert RunFrom(d, [go]) == RunFrom(e, []) == Some(e);
    assert RunFrom(c, [go, go]) == RunFrom(d, [go]);
    assert RunFrom(b, [go, go, go]) == RunFrom(c, [go, go]);
    assert RunFrom(a, ls) == RunFrom(b, [go, go, go]);
    assert e.log == a.log + [InitSent];
  }

  /** In every run, when an attempt is about to send its handshake: it can come to its configuration with
      no zero error stored since exactly when one is stored at that moment. */
  lemma StoredSinceHandshake(users: nat, ls: seq<Label>, m: nat)
    requires Run(users, ls).Some?
    requires var s := Run(users, ls).value; s.op.Held? && s.op.pc == En(EnSendInit(m))
    ensures var s := Run(users, ls).value;
            (exists more :: Unanswered(s, m, more)) <==> s.h.handshakeError == 0
  {
    var s := Run(users, ls).value;
    assert AckFollows(Init(users));
    RunKeepsAck(Init(users), ls);
    RunKeeps(users, ls);
    hide Run, RunFrom, Init;
    if s.h.handshakeError == 0 {
      var more := GoesThrough(s, m);
    } else {
      MarkIsPast(s, m);
      forall more | RunFrom(s, more).Some? ensures !Unanswered(s, m, more) {
        RunKeepsAnswered(s, more, m, |s.log|);
      }
    }
  }

  lemma RunGoesThrough(users: nat, ls: seq<Label>, m: nat) returns (more: seq<Label>)
    requires Run(users, ls).Some?
    requires var s := Run(users, ls).value; s.op.Held? && s.op.pc == En(EnSendInit(m)) && s.h.handshakeError == 0
    ensures Unanswered(Run(users, ls).value, m, more) && NoAckReceived(more)
  {
    assert AckFollows(Init(users));
    RunKeepsAck(Init(users), ls);
    RunKeeps(users, ls);
    hide Run, RunFrom, Init;
    more := GoesThrough(Run(users, ls).value, m);
  }

  lemma MarkIsPast(s: State, m: nat)
    requires Inv(s) && s.op.Held? && s.op.pc == En(EnSendInit(m))
    ensures m < |s.log|
  {
    hide Client, Quiet, Recovery, Gated, Active;
    assert HistoryAt(s.op.pc.en, s.log, s.h.handshakeError);
  }

  // ----- received since the handshake

  /** A zero error that was received is still to be stored. */
  predicate ZeroPending(pc: CallbackPc) {
    match pc
    case CbIdle => false
    case CbNext(es) => HandshakeAck(0) in es
    case CbSuid(_, _, es) => HandshakeAck(0) in es
    case CbPresence(_, es) => HandshakeAck(0) in es
    case CbAckMark(error, es) => error == 0 || HandshakeAck(0) in es
    case CbAckStore(error, es) => error == 0 || HandshakeAck(0) in es
    case CbAckDone(es) => HandshakeAck(0) in es
  }

  /** A step of the callback loses no pending zero error but by storing it, and finds none. */
  lemma CallbackPending(h: Hpd, pc: CallbackPc)
    requires !pc.CbIdle?
    ensures ZeroPending(pc) <==> ZeroPending(CallbackNext(pc)) || (pc.CbAckStore? && pc.error == 0)
    ensures CallbackHpd(h, pc).handshakeError == 0 <==>
            if pc.CbAckStore? then pc.error == 0 else !pc.CbAckMark? && h.handshakeError == 0
  {
    match pc {
      case CbNext(es) => if es != [] { assert es == [es[0]] + es[1..]; }
      case CbSuid(_, _, _) =>
      case CbPresence(_, _) =>
      case CbAckMark(_, _) =>
      case CbAckStore(_, _) =>
      case CbAckDone(_) =>
    }
  }

  /** The attempt comes to its configuration with no acknowledgement received on the way. */
  ghost predicate Unreceived(s: State, m: nat, more: seq<Label>) {
    && NoAckReceived(more) && RunFrom(s, more).Some?
    && var t := RunFrom(s, more).value;
       t.op.Held? && t.op.pc == En(EnSendConfig(m))
  }

  // --- no zero error stored or pending: no attempt is accepted

  predicate NoZero(s: State) { s.h.handshakeError != 0 && !ZeroPending(s.callback) && !AboutToConfigure(s.op) }

  lemma OperationKeepsNonzero(h: Hpd, pc: OpPc)
    requires h.handshakeError != 0
    ensures OpHpd(h, pc).handshakeError != 0
  {
    match pc {
      case Disc(p) =>
      case Conn(p) =>
      case Find(p, d) =>
      case En(p) =>
    }
  }

  lemma NonzeroNeverConfigures(h: Hpd, owner: Tid, pc: OpPc, ok: bool, start: nat)
    requires h.handshakeError != 0
    ensures !AboutToConfigure(Held(owner, OpNext(h, pc, ok, start)))
            || AboutToConfigure(Held(owner, pc))
  {
    match pc {
      case Disc(p) =>
      case Conn(p) =>
      case Find(p, d) =>
      case En(p) =>
    }
  }

  lemma StepKeepsNoZero(s: State, l: Label)
    requires NoZero(s) && Enabled(s, l) && !ReceivesAck(l)
    ensures NoZero(Exec(s, l))
  {
    hide CanManage, OpHpd, OpNext, OpEntry, OpFault, OpUnlocks, OpLive, ZeroPending, CallbackNext, CallbackHpd;
    match l {
      case Operate(ok) =>
        OperationKeepsNonzero(s.h, s.op.pc);
        NonzeroNeverConfigures(s.h, s.op.owner, s.op.pc, ok, |s.log|);
      case Call => CallbackPending(s.h, s.callback);
      case ReportArrives(data) => NewlyPending(ReportEffects(data));
      case _ =>
    }
  }

  lemma NewlyPending(es: seq<Effect>)
    ensures ZeroPending(CbNext(es)) <==> HandshakeAck(0) in es
  {
  }

  lemma {:induction false} RunKeepsNoZero(s: State, ls: seq<Label>)
    requires NoZero(s) && RunFrom(s, ls).Some? && NoAckReceived(ls)
    ensures NoZero(RunFrom(s, ls).value)
    decreases ls
  {
    if ls != [] {
      hide NoZero, Enabled, Exec;
      StepKeepsNoZero(s, ls[0]);
      RunKeepsNoZero(Exec(s, ls[0]), ls[1..]);
    }
  }

  // --- a zero error pending: the callback can store it in time

  function LockRank(lock: Option<Tid>): nat {
    match lock case None => 1 case Some(Callback) => 0 case Some(_) => 2
  }

  /** The next step towards the store: the callback's, or what lets it have the state lock. */
  function Towards(s: State): Label {
    if !(s.callback.CbSuid? || s.callback.CbPresence?) || s.lock == Some(Callback) then Call
    else if s.lock.None? then Acquire(Callback)
    else HolderLabel(s)
  }

  lemma StepTowards(s: State, m: nat) returns (t: State)
    requires Inv(s) && s.op.Held? && s.op.pc == En(EnSendInit(m)) && !s.callback.CbIdle?
    ensures Enabled(s, Towards(s)) && !Towards(s).ReportArrives? && t == Exec(s, Towards(s)) && t.op == s.op
    ensures if Towards(s) == Call then t.callback == CallbackNext(s.callback) && t.h == CallbackHpd(s.h, s.callback)
            else t.callback == s.callback && t.h.handshakeError == s.h.handshakeError && LockRank(t.lock) < LockRank(s.lock)
    ensures LockRank(t.lock) <= 2
  {
    hide Handle, Slots, Quiet, History, Recovery, CallbackNext, CallbackHpd;
    if Towards(s) != Call && s.lock.Some? { HolderSteps(s); }
    assert !OpSection(s.op.pc);
    t := Exec(s, Towards(s));
  }

  /** From a state with a zero error stored or pending the attempt can come to its configuration. */
  lemma {:induction false} CanAccept(s: State, m: nat) returns (more: seq<Label>)
    requires Inv(s) && AckFollows(s) && s.op.Held? && s.op.pc == En(EnSendInit(m))
    requires s.h.handshakeError == 0 || ZeroPending(s.callback)
    ensures Unreceived(s, m, more)
    decreases 3 * CallbackRank(s.callback) + LockRank(s.lock)
  {
    hide Inv, AckFollows, Exec, Enabled, HolderLabel, ZeroPending, CallbackRank, CallbackNext, CallbackHpd;
    if s.h.handshakeError == 0 {
      more := GoesThrough(s, m);
    } else {
      assert !s.callback.CbIdle? by { NothingPends(); }
      var l := Towards(s);
      var t := StepTowards(s, m);
      CallbackPending(s.h, s.callback);
      CallbackDecreases(s.callback);
      StepKeeps(s, l);
      StepKeepsAck(s, l);
      var rest := CanAccept(t, m);
      more := [l] + rest;
      assert more[1..] == rest;
      assert RunFrom(s, more) == RunFrom(t, rest);
    }
  }

  lemma NothingPends()
    ensures !ZeroPending(CbIdle)
  {
  }

  /** In every run, when an attempt is about to send its handshake: it can come to its configuration with no
      acknowledgement received from then on exactly when a zero error is stored at that moment, or was
      received and is still to be stored. Otherwise it comes there only on one received later. */
  lemma AnswersItsHandshake(users: nat, ls: seq<Label>, m: nat)
    requires Run(users, ls).Some?
    requires var s := Run(users, ls).value; s.op.Held? && s.op.pc == En(EnSendInit(m))
    ensures var s := Run(users, ls).value;
            (exists more :: Unreceived(s, m, more)) <==> s.h.handshakeError == 0 || ZeroPending(s.callback)
  {
    var s := Run(users, ls).value;
    assert AckFollows(Init(users));
    RunKeepsAck(Init(users), ls);
    RunKeeps(users, ls);
    hide Run, RunFrom, Init, ZeroPending;
    if s.h.handshakeError == 0 || ZeroPending(s.callback) {
      var more := CanAccept(s, m);
    } else {
      assert NoZero(s);
      forall more | NoAckReceived(more) && RunFrom(s, more).Some? ensures !Unreceived(s, m, more) {
        RunKeepsNoZero(s, more);
      }
    }
  }
}
