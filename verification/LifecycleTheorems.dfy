/** What holds in every run of the client, however its threads interleave and its calls end. */
module LifecycleTheorems {
  import opened Wrappers
  import opened Bytes
  import opened Request
  import opened Report
  import opened HpdState
  import opened Lifecycle
  import opened LifecycleSafety
  import opened LifecycleProof

  // ----- the handle

  /** No run initialises a live handle, releases a dead one, sends on a client that is not live and
      connected, finds a completed discovery without its SUID, or has a builder refuse. The flag
      stands for a live client whenever it is set, exactly so whenever the operation lock is free. */
  lemma HandleOwnership(users: nat, ls: seq<Label>)
    requires Run(users, ls).Some?
    ensures var s := Run(users, ls).value;
            && s.faults == {}
            && (s.h.flags.connected ==> s.h.flags.clientInitialized)
            && (s.h.flags.clientInitialized ==> s.handles.client)
            && (s.op.Free? ==> s.h.flags.clientInitialized == s.handles.client)
  {
    hide Run, Ownership, Slots, Quiet, History;
    RunKeeps(users, ls);
    var s := Run(users, ls).value;
    if s.op.Held? && s.h.flags.clientInitialized { FlagMeansLive(s.op.pc, s.h, s.handles.client); }
  }

  lemma FlagMeansLive(pc: OpPc, h: Hpd, live: bool)
    requires HandleAt(pc, h, live) && h.flags.clientInitialized
    ensures live
  {
    match pc {
      case Disc(p) =>
      case Conn(p) =>
      case Find(_, _) =>
      case En(_) =>
    }
  }

  // ----- service loss

  /** A live client whose service is gone has a disconnect on its way, whoever holds the operation lock:
      once none is, no client survives the loss of its service. */
  lemma NoOrphan(users: nat, ls: seq<Label>)
    requires Run(users, ls).Some?
    ensures var s := Run(users, ls).value;
            s.handles.client && !s.h.flags.servicePresent ==> DisconnectComing(s)
  {
    hide Run, Client, History, DisconnectComing, Stopping;
    RunKeeps(users, ls);
  }

  // ----- suspend and remove

  /** In every state of every run in which the suspend flag is set and neither a suspend nor a remove is
      between setting it and its disconnect, there is no live client: so also while a resume waits to
      clear the flag, and when connect work was queued by a thread that had read the flags before. */
  lemma SuspendedIsDead(users: nat, ls: seq<Label>)
    requires Run(users, ls).Some?
    ensures var s := Run(users, ls).value;
            s.h.flags.suspended && !Stopping(s) ==> !s.handles.client
  {
    hide Run, Client, History, Stopping;
    RunKeeps(users, ls);
  }

  /** A dead client stays dead for as long as the suspend flag stays set. */
  lemma StaysDead(s: State, l: Label)
    requires Inv(s) && Enabled(s, l)
    requires s.h.flags.suspended && !Alive(s)
    requires Exec(s, l).h.flags.suspended
    ensures !Alive(Exec(s, l))
  {
    hide Inv, CanManage, OpEntry, OpFault, OpUnlocks, OpSection, OpEnds;
    match l {
      case Operate(ok) => OperationStaysDead(s.h, s.op.pc, ok, |s.log|);
      case Call => CallbackFrame(s.h, s.callback);
      case _ =>
    }
  }

  lemma OperationStaysDead(h: Hpd, pc: OpPc, ok: bool, start: nat)
    requires h.flags.suspended && pc != Conn(ConnInit)
    ensures !OpLive(false, pc, ok) && OpNext(h, pc, ok, start) != Conn(ConnInit) && OpHpd(h, pc).flags.suspended
  {
    match pc {
      case Disc(p) =>
      case Conn(p) =>
      case Find(p, d) => match p { case FindArm => case FindSend => case FindReply => case FindWait => case FindCheck => }
      case En(p) =>
    }
  }

  /** The suspend flag is set in every state of the run. */
  predicate SuspendedThroughout(s: State, ls: seq<Label>)
    decreases ls
  {
    s.h.flags.suspended && (ls == [] || (Enabled(s, ls[0]) && SuspendedThroughout(Exec(s, ls[0]), ls[1..])))
  }

  lemma {:induction false} DeadWhileSuspended(s: State, ls: seq<Label>)
    requires Inv(s) && RunFrom(s, ls).Some? && SuspendedThroughout(s, ls) && !Alive(s)
    ensures !RunFrom(s, ls).value.handles.client
    decreases ls
  {
    if ls != [] {
      hide Inv, Enabled, Exec;
      StaysDead(s, ls[0]);
      StepKeeps(s, ls[0]);
      DeadWhileSuspended(Exec(s, ls[0]), ls[1..]);
    }
  }

  /** From the return of a suspend until a resume clears the flag no state has a live client, whatever
      runs in between, a further suspend or a remove included. */
  lemma SuspendQuiesces(users: nat, ls: seq<Label>, more: seq<Label>)
    requires Run(users, ls).Some? && RunFrom(Run(users, ls).value, more).Some?
    requires Run(users, ls).value.pm.PmIdle? && SuspendedThroughout(Run(users, ls).value, more)
    ensures !RunFrom(Run(users, ls).value, more).value.handles.client
  {
    hide Run, RunFrom, Client, History;
    RunKeeps(users, ls);
    DeadWhileSuspended(Run(users, ls).value, more);
  }

  /** Only a resume that holds the state lock clears the flag. */
  lemma OnlyResumeClears(s: State, l: Label)
    requires Enabled(s, l) && s.h.flags.suspended
    ensures Exec(s, l).h.flags.suspended <==> !(l.Manage? && s.pm.PmResume?)
  {
    hide CanManage, OpEntry, OpFault, OpUnlocks, OpSection, OpEnds, OpNext, OpLive;
    match l {
      case Operate(ok) => match s.op.pc { case Disc(p) => case Conn(p) => case Find(p, d) => case En(p) => }
      case Call => CallbackFrame(s.h, s.callback);
      case _ =>
    }
  }

  /** The remover never idles again, so no suspend or resume follows it. */
  lemma StaysGone(s: State, l: Label)
    requires Inv(s) && Enabled(s, l) && (s.pm.PmDrain? || s.pm.PmGone?)
    ensures Exec(s, l).pm.PmDrain? || Exec(s, l).pm.PmGone?
  {
    hide Handle, Slots, Quiet, History, OpHpd, OpNext, OpEntry, OpFault, OpUnlocks, OpSection, OpEnds, OpLive;
    match l {
      case Operate(ok) =>
      case _ =>
    }
  }

  lemma {:induction false} GoneForever(s: State, ls: seq<Label>)
    requires Inv(s) && RunFrom(s, ls).Some? && (s.pm.PmDrain? || s.pm.PmGone?)
    ensures RunFrom(s, ls).value.handles == Handles(false, false)
    decreases ls
  {
    if ls == [] {
      GoneIsDead(s);
    } else {
      hide Inv, Enabled, Exec;
      StaysGone(s, ls[0]);
      StepKeeps(s, ls[0]);
      GoneForever(Exec(s, ls[0]), ls[1..]);
    }
  }

  lemma GoneIsDead(s: State)
    requires Inv(s) && (s.pm.PmDrain? || s.pm.PmGone?)
    ensures s.handles == Handles(false, false)
  {
    hide Client, History;
  }

  /** After remove's disconnect no run reaches a state with a live client or lookup, whatever is still
      queued or running in other threads. */
  lemma RemoveQuiesces(users: nat, ls: seq<Label>, more: seq<Label>)
    requires Run(users, ls).Some? && RunFrom(Run(users, ls).value, more).Some?
    requires var s := Run(users, ls).value; s.pm.PmDrain? || s.pm.PmGone?
    ensures RunFrom(Run(users, ls).value, more).value.handles == Handles(false, false)
  {
    hide Run, RunFrom, Inv;
    RunKeeps(users, ls);
    GoneForever(Run(users, ls).value, more);
  }

  // ----- activation

  /** Every presence configuration ever sent was gated, also with the callback's two separate stores
      of the acknowledgement's error interleaved anywhere. */
  lemma ConfigurationIsGated(users: nat, ls: seq<Label>, j: nat)
    requires Run(users, ls).Some? && j < |Run(users, ls).value.log| && Run(users, ls).value.log[j] == ConfigSent
    ensures exists m :: GatedAt(Run(users, ls).value.log, j, m)
  {
    hide Run, Client, Quiet, GatedAt;
    RunKeeps(users, ls);
  }

  /** When presence reads as enabled, the client is connected with both SUIDs, and in the session that
      is still open a configuration was sent after an accepted handshake. */
  lemma EnabledMeansConfigured(users: nat, ls: seq<Label>)
    requires Run(users, ls).Some? && Run(users, ls).value.h.flags.eventEnabled
    ensures var s := Run(users, ls).value;
            && ReadyClient(s.h) && s.handles.client && SessionOpen(s.log)
            && exists j, m :: Configured(s.log, j, m)
  {
    hide Run, Ownership, Quiet, GatedAt, SessionOpen, HandleAt;
    RunKeeps(users, ls);
    HandleOwnership(users, ls);
    var s := Run(users, ls).value;
    var j :| 0 <= j < |s.log| && s.log[j] == ConfigSent
             && forall i :: j < i < |s.log| ==> s.log[i] != Opened && s.log[i] != Closed;
    var m :| GatedAt(s.log, j, m);
    assert Configured(s.log, j, m);
  }

  /** A failed activation does not leave its client behind: when no operation runs and no user has a
      disconnect still to make, a session in which an attempt was made is one whose events are enabled. */
  lemma FailedActivationRecycles(users: nat, ls: seq<Label>)
    requires Run(users, ls).Some?
    ensures var s := Run(users, ls).value;
            s.op.Free? && Tried(s.log) && (forall i :: 0 <= i < |s.users| ==> !s.users[i].WantDisable?) ==>
              s.h.flags.eventEnabled
  {
    hide Run, Client, Quiet, History, Tried;
    RunKeeps(users, ls);
  }

  /** A gated configuration at `j` that is still in force: no session change since. */
  ghost predicate Configured(log: seq<Entry>, j: nat, m: nat) {
    && j < |log| && log[j] == ConfigSent && GatedAt(log, j, m)
    && forall i :: j < i < |log| ==> log[i] != Opened && log[i] != Closed
  }
}
