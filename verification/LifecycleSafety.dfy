/** What every interleaving of the client's threads keeps. */
module LifecycleSafety {
  import opened Wrappers
  import opened Bytes
  import opened Request
  import opened Report
  import opened HpdState
  import opened Lifecycle

  // ----- locks

  /** The operation lock's holder is the one thread inside it, running its own kind of operation. */
  predicate OwnerOk(s: State) {
    match s.op
    case Free => true
    case Held(Worker, pc) => s.worker.WorkerInOp? && !pc.En?
    case Held(Pm, pc) => s.pm.PmInOp? && pc.Disc?
    case Held(User(i), pc) => i < |s.users| && s.users[i].UserInOp? && (pc.Disc? || pc.En?)
    case Held(_, _) => false
  }

  /** The state lock's holder is at a section; an attempt being marked still holds it. */
  ghost predicate Ownership(s: State) {
    && OwnerOk(s)
    && (s.worker.WorkerInOp? ==> s.op.Held? && s.op.owner == Worker)
    && (s.pm.PmInOp? ==> s.op.Held? && s.op.owner == Pm)
    && (forall i :: 0 <= i < |s.users| && s.users[i].UserInOp? ==> s.op.Held? && s.op.owner == User(i))
    && (s.lock.Some? ==> AtSection(s, s.lock.value))
    && (s.op.Held? && s.op.pc == En(EnMark) ==> s.lock == Some(s.op.owner))
  }

  // ----- the handle

  /** The handle and the flag that stands for it, by how far the operation is. */
  predicate HandleAt(pc: OpPc, h: Hpd, live: bool) {
    match pc
    case Disc(p) =>
      (match p
       case DiscClear => live == h.flags.clientInitialized
       case DiscRelease => live && !h.flags.clientInitialized
       case DiscUnlock => !live && !h.flags.clientInitialized)
    case Conn(p) =>
      (match p
       case ConnInit => !live && !h.flags.clientInitialized
       case ConnMark => live && !h.flags.clientInitialized
       case ConnSocket => live && h.flags.clientInitialized && !h.flags.connected
       case ConnDone => live && h.flags.clientInitialized && !h.flags.connected
       case ConnFail => live && h.flags.clientInitialized && !h.flags.connected
       case ConnRelease => live && !h.flags.clientInitialized
       case _ => live == h.flags.clientInitialized)
    case Find(_, _) => live && h.flags.clientInitialized && h.flags.connected
    case En(_) => live == h.flags.clientInitialized
  }

  ghost predicate Handle(s: State) {
    && (s.op.Free? ==> s.handles.client == s.h.flags.clientInitialized)
    && (s.op.Held? ==> HandleAt(s.op.pc, s.h, s.handles.client))
    && (s.h.flags.connected ==> s.h.flags.clientInitialized)
    && (!s.callback.CbIdle? ==> s.handles.client)
    && (!s.handles.lookup ==> s.lookup.LookupIdle?)
    && s.faults == {}
  }

  // ----- slots and activation

  predicate Attempting(p: EnPc) { !p.EnCheck? && !p.EnUnlock? }

  ghost predicate Slots(s: State) {
    && (s.h.flags.eventEnabled ==> ReadyClient(s.h))
    && (s.op.Held? && s.op.pc.En? && Attempting(s.op.pc.en) ==> ReadyClient(s.h))
    && (s.op.Held? && s.op.pc.Find? && !s.op.pc.find.FindArm? && s.h.done.At(s.op.pc.d) ==>
          s.h.suids.At(s.op.pc.d).valid)
    && (s.op.Held? && s.op.pc.Find? && s.op.pc.find.FindCheck? ==> s.h.done.At(s.op.pc.d))
    && (s.op.Held? && s.op.pc == En(EnUnlock(true)) ==> s.h.flags.eventEnabled)
    && ValidFinds(s.callback)
  }

  ghost predicate AllValid(es: seq<Effect>) {
    forall i :: 0 <= i < |es| && es[i].FoundSuid? ==> es[i].suid.valid
  }

  ghost predicate ValidFinds(pc: CallbackPc) {
    match pc
    case CbIdle => true
    case CbNext(es) => AllValid(es)
    case CbSuid(_, suid, es) => suid.valid && AllValid(es)
    case CbPresence(_, es) => AllValid(es)
    case CbAckMark(_, es) => AllValid(es)
    case CbAckStore(_, es) => AllValid(es)
    case CbAckDone(es) => AllValid(es)
  }

  // ----- suspend, remove and service loss

  /** Between setting its flag and having released the client. */
  predicate Stopping(s: State) {
    || s.pm.PmLookupRelease? || s.pm.PmCancelConnect? || s.pm.PmCancelDisconnect? || s.pm.PmDisconnect?
    || (s.pm.PmInOp? && s.op.Held? && s.op.pc != Disc(DiscUnlock))
  }

  /** A client exists, or the worker is committed to creating one. */
  predicate Alive(s: State) { s.handles.client || (s.op.Held? && s.op.pc == Conn(ConnInit)) }

  /** A disconnect is on its way: queued, about to be queued, running, or owed by suspend or remove. */
  predicate DisconnectComing(s: State) {
    || s.queue.disconnect
    || s.lookup.LeaveQueue?
    || s.worker.WantDisconnect?
    || (s.worker.WorkerInOp? && s.op.Held? && s.op.pc.Disc? && s.op.pc.disc != DiscUnlock)
    || Stopping(s)
  }

  /** Where the remover can be once the shutdown flag is set: it never idles again. */
  predicate Removed(pc: PmPc) {
    match pc
    case PmLookupRelease => true
    case PmCancelConnect(r) => r
    case PmCancelDisconnect(r) => r
    case PmDisconnect(r) => r
    case PmInOp(r) => r
    case PmDrain => true
    case PmGone => true
    case _ => false
  }

  ghost predicate Quiet(s: State) {
    && (s.h.flags.suspended && !Stopping(s) ==> !Alive(s))
    && (s.h.flags.shuttingDown ==> s.h.flags.suspended)
    && (s.h.flags.shuttingDown <==> Removed(s.pm))
    && (!s.h.flags.servicePresent && Alive(s) ==> DisconnectComing(s))
    && (Stopping(s) ==> s.h.flags.suspended)
    && (Removed(s.pm) && !s.pm.PmLookupRelease? ==> !s.handles.lookup)
  }

  // ----- the history

  /** Whether the last client opened is still open. */
  predicate SessionOpen(log: seq<Entry>) {
    if log == [] then false
    else match log[|log| - 1]
      case Opened => true
      case Closed => false
      case _ => SessionOpen(log[..|log| - 1])
  }

  /** The attempt marked at `m` is still the current one: no other attempt, no session change. */
  ghost predicate Current(log: seq<Entry>, m: nat) {
    && m < |log| && log[m] == AttemptMarked
    && SessionOpen(log[..m])
    && forall i :: m < i < |log| ==> log[i] != AttemptMarked && log[i] != Opened && log[i] != Closed
  }

  /** A presence configuration was sent at `j` as it must be: in a session, after an attempt was
      marked in that session, and since then the handshake was sent and an acknowledgement with no
      error was stored. */
  ghost predicate GatedAt(log: seq<Entry>, j: nat, m: nat)
    requires j < |log|
  {
    && m < j && Current(log[..j], m)
    && (exists i :: m < i < j && log[i] == InitSent)
    && (exists i :: m < i < j && log[i] == AckStored(0))
  }

  ghost predicate Gated(log: seq<Entry>) {
    forall j :: 0 <= j < |log| && log[j] == ConfigSent ==> exists m :: GatedAt(log, j, m)
  }

  ghost predicate Has(log: seq<Entry>, m: nat, e: Entry) { exists i :: m < i < |log| && log[i] == e }

  /** A presence configuration was sent in the session that is still open. */
  ghost predicate Active(log: seq<Entry>) {
    exists j :: 0 <= j < |log| && log[j] == ConfigSent && forall i :: j < i < |log| ==> log[i] != Opened && log[i] != Closed
  }

  /** What the history holds at each point of an attempt. */
  ghost predicate HistoryAt(p: EnPc, log: seq<Entry>, error: int) {
    match p
    case EnSendInit(m) => Current(log, m) && (error == 0 ==> Has(log, m, AckStored(0)))
    case EnReplyInit(m) => Current(log, m) && Has(log, m, InitSent) && (error == 0 ==> Has(log, m, AckStored(0)))
    case EnWaitAck(m) => Current(log, m) && Has(log, m, InitSent) && (error == 0 ==> Has(log, m, AckStored(0)))
    case EnReadError(m) => Current(log, m) && Has(log, m, InitSent) && (error == 0 ==> Has(log, m, AckStored(0)))
    case EnSendConfig(m) => Current(log, m) && Has(log, m, InitSent) && Has(log, m, AckStored(0))
    case EnReplyConfig => Active(log)
    case EnActivate => Active(log)
    case _ => true
  }

  ghost predicate History(s: State) {
    && (s.op.Held? && s.op.pc.En? ==> HistoryAt(s.op.pc.en, s.log, s.h.handshakeError))
    && (s.h.flags.eventEnabled ==> Active(s.log))
    && Gated(s.log)
    && SessionOpen(s.log) == s.handles.client
  }

  // ----- recovery

  /** An attempt was marked in the session that is still open. */
  ghost predicate Tried(log: seq<Entry>) { exists m :: TriedAt(log, m) }

  ghost predicate TriedAt(log: seq<Entry>, m: nat) {
    && m < |log| && log[m] == AttemptMarked && SessionOpen(log[..m])
    && forall i :: m < i < |log| ==> log[i] != Opened && log[i] != Closed
  }

  /** The attempt is still running, or the disconnect that follows its failure is on its way. */
  ghost predicate Owed(s: State) {
    || (s.op.Held? && s.op.pc.En? && s.op.pc.en != EnCheck && s.op.pc.en != EnUnlock(true))
    || (s.op.Held? && (s.op.pc == Disc(DiscClear) || s.op.pc == Disc(DiscRelease)))
    || (exists i :: 0 <= i < |s.users| && s.users[i].WantDisable?)
  }

  ghost predicate Recovery(s: State) { Tried(s.log) ==> s.h.flags.eventEnabled || Owed(s) }

  ghost predicate Client(s: State) { Ownership(s) && Handle(s) && Slots(s) }

  ghost predicate Inv(s: State) { Client(s) && Quiet(s) && History(s) && Recovery(s) }

  // ----- appending to the history

  lemma AppendKeeps(log: seq<Entry>, e: Entry)
    ensures e.Opened? ==> SessionOpen(log + [e])
    ensures e.Closed? ==> !SessionOpen(log + [e])
    ensures !e.Opened? && !e.Closed? ==> SessionOpen(log + [e]) == SessionOpen(log)
    ensures Gated(log) && e != ConfigSent ==> Gated(log + [e])
    ensures e == ConfigSent || (Active(log) && !e.Opened? && !e.Closed?) ==> Active(log + [e])
  {
    hide Gated, Active;
    assert (log + [e])[..|log|] == log;
    if Gated(log) && e != ConfigSent { AppendGated(log, e); }
    AppendActive(log, e);
  }

  lemma AppendGated(log: seq<Entry>, e: Entry)
    requires Gated(log) && e != ConfigSent
    ensures Gated(log + [e])
  {
    hide GatedAt;
    var now := log + [e];
    forall j | 0 <= j < |now| && now[j] == ConfigSent ensures exists m :: GatedAt(now, j, m) {
      var m :| GatedAt(log, j, m);
      GatedBefore(log, now, j, m);
    }
  }

  lemma GatedBefore(log: seq<Entry>, now: seq<Entry>, j: nat, m: nat)
    requires log <= now && j < |log| && GatedAt(log, j, m)
    ensures GatedAt(now, j, m)
  {
    assert now[..j] == log[..j];
  }

  lemma AppendActive(log: seq<Entry>, e: Entry)
    ensures e == ConfigSent || (Active(log) && !e.Opened? && !e.Closed?) ==> Active(log + [e])
  {
    var now := log + [e];
    assert now[|log|] == e;
    if e != ConfigSent && Active(log) && !e.Opened? && !e.Closed? {
      var j :| 0 <= j < |log| && log[j] == ConfigSent && forall i :: j < i < |log| ==> log[i] != Opened && log[i] != Closed;
      assert now[j] == ConfigSent;
      assert forall i :: j < i < |log| ==> now[i] == log[i];
    }
  }

  lemma {:induction false} TriedIsOpen(log: seq<Entry>, m: nat)
    requires TriedAt(log, m)
    ensures SessionOpen(log)
  {
    var n := |log| - 1;
    if m < n {
      assert log[..n][..m] == log[..m];
      assert TriedAt(log[..n], m);
      TriedIsOpen(log[..n], m);
    }
  }

  lemma AppendTried(log: seq<Entry>, e: Entry)
    ensures e.Opened? || e.Closed? ==> !Tried(log + [e])
    ensures !e.Opened? && !e.Closed? && !e.AttemptMarked? && Tried(log + [e]) ==> Tried(log)
    ensures Tried(log) ==> SessionOpen(log)
  {
    hide SessionOpen;
    var now := log + [e];
    assert now[|log|] == e;
    if m: nat :| TriedAt(now, m) {
      if m < |log| {
        assert now[..m] == log[..m];
        assert forall i :: m < i < |log| ==> log[i] == now[i];
        assert !e.Opened? && !e.Closed? ==> TriedAt(log, m);
      }
    }
    if m: nat :| TriedAt(log, m) { TriedIsOpen(log, m); }
  }

  lemma AppendCurrent(log: seq<Entry>, m: nat, e: Entry)
    requires Current(log, m) && e != AttemptMarked && e != Opened && e != Closed
    ensures Current(log + [e], m)
    ensures Has(log + [e], m, e)
    ensures forall f :: Has(log, m, f) ==> Has(log + [e], m, f)
  {
    var now := log + [e];
    assert now[..m] == log[..m];
    assert now[|log|] == e;
    forall f | Has(log, m, f) ensures Has(now, m, f) {
      var i :| m < i < |log| && log[i] == f;
      assert now[i] == f;
    }
  }

  lemma AppendConfig(log: seq<Entry>, m: nat)
    requires Gated(log) && Current(log, m) && Has(log, m, InitSent) && Has(log, m, AckStored(0))
    ensures Gated(log + [ConfigSent])
  {
    var now := log + [ConfigSent];
    forall j | 0 <= j < |now| && now[j] == ConfigSent ensures exists m :: GatedAt(now, j, m) {
      if j < |log| {
        var k :| GatedAt(log, j, k);
        GatedBefore(log, now, j, k);
      } else {
        assert now[..j] == log;
        var a :| m < a < |log| && log[a] == InitSent;
        var b :| m < b < |log| && log[b] == AckStored(0);
        assert now[a] == InitSent && now[b] == AckStored(0);
        assert GatedAt(now, j, m);
      }
    }
  }

  lemma AppendMark(log: seq<Entry>)
    requires SessionOpen(log)
    ensures Current(log + [AttemptMarked], |log|)
  {
    assert (log + [AttemptMarked])[..|log|] == log;
  }
}
