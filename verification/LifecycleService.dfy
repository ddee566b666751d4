/** Connections that are asked for are made: no arrival, resume or user's disconnect is forgotten, every
    connection discovers all three sensors, and a service that is there has its client, but for two cases. */
module LifecycleService {
  import opened Wrappers
  import opened Bytes
  import opened Request
  import opened Report
  import opened HpdState
  import opened Lifecycle
  import opened LifecycleSafety
  import opened LifecycleProof
  import opened LifecycleProgress

  // ----- what a run asked for, and what came of it

  /** The steps that ask for a connection: the service arrives, a resume lets the driver run again, or a
      user's disconnect takes the client away. */
  predicate Asks(s: State, l: Label) {
    || (l.Look? && s.lookup.Arriving?)
    || (l.Manage? && s.pm.PmResume?)
    || (l.Operate? && s.op.Held? && s.op.owner.User? && s.op.pc == Disc(DiscClear))
  }

  /** Connect work looks whether a connection is due. */
  predicate Looks(s: State, l: Label) { l.Operate? && s.op.Held? && s.op.pc == Conn(ConnCheck) }

  /** What became of the last connection. */
  datatype Last = Never | Opening | Failed | Made | Dropped(dropper: Tid)

  /** `asked`: a connection was asked for and no connect work has looked since. `searched`: the sensors
      whose discovery came to its request since the client was connected. */
  datatype Watch = Watch(asked: bool, searched: set<Sensor>, last: Last)

  const NOTHING := Watch(false, {}, Never)

  function WatchStep(s: State, l: Label, w: Watch): Watch {
    Watch(AskedAfter(s, l, w.asked), SearchedAfter(s, l, w.searched), LastAfter(s, l, w.last))
  }

  predicate AskedAfter(s: State, l: Label, asked: bool) { Asks(s, l) || (asked && !Looks(s, l)) }

  function LastAfter(s: State, l: Label, last: Last): Last {
    if !(l.Operate? && s.op.Held?) then last
    else match s.op.pc
      case Conn(ConnInit) => if l.ok then Opening else Failed
      case Conn(ConnSocket) => if l.ok then last else Failed
      case Conn(ConnDone) => if last == Opening then Made else last
      case Disc(DiscClear) => if s.h.flags.clientInitialized then Dropped(s.op.owner) else last
      case _ => last
  }

  function SearchedAfter(s: State, l: Label, searched: set<Sensor>): set<Sensor> {
    if !(l.Operate? && s.op.Held?) then searched
    else match s.op.pc
      case Conn(ConnDone) => {}
      case Find(FindSend, d) => searched + {d}
      case _ => searched
  }

  function Watched(s: State, ls: seq<Label>, w: Watch): Watch
    requires RunFrom(s, ls).Some?
    decreases ls
  {
    if ls == [] then w else Watched(Exec(s, ls[0]), ls[1..], WatchStep(s, ls[0], w))
  }

  // ----- a connection that was asked for is on its way

  /** Connect work is queued, picked or about to look, or a thread is about to queue it or on its way to
      read the flags that decide. */
  ghost predicate ConnectComing(s: State) {
    || s.queue.connect || s.worker.WantConnect? || (s.op.Held? && s.op.pc == Conn(ConnCheck))
    || s.lookup.ArriveQueue?
    || s.pm.PmRead? || s.pm.PmQueue?
    || (s.op.Held? && s.op.owner.User? && (s.op.pc == Disc(DiscRelease) || s.op.pc == Disc(DiscUnlock)))
    || exists i :: 0 <= i < |s.users| && Reconnecting(s.users[i])
  }

  predicate Reconnecting(pc: UserPc) { pc.UserRead? || pc.UserQueue? }

  ghost predicate Promised(s: State, asked: bool) { asked && MayReconnect(s.h) ==> ConnectComing(s) }

  /** What an operation's step leaves of the way to a connection. */
  lemma OperationPromises(s: State, ok: bool, asked: bool)
    requires Inv(s) && CanOperate(s) && Promised(s, asked)
    ensures Promised(OperationStep(s, ok), AskedAfter(s, Operate(ok), asked))
  {
    assert OwnerOk(s);
    OperationFlags(s.h, s.op.pc);
    hide Inv, OpHpd, OpLive, OpEntry, OpFault, OpUnlocks, OpSection, EnNext, ConnNext, FindNext;
    var t := OperationStep(s, ok);
    if i :| 0 <= i < |s.users| && Reconnecting(s.users[i]) {
      assert s.users[i] == t.users[i] by { HolderIsInside(s, i); }
    }
    if s.op.owner.User? && s.op.pc == Disc(DiscUnlock) { assert Reconnecting(t.users[s.op.owner.i]); }
  }

  lemma HolderIsInside(s: State, i: nat)
    requires OwnerOk(s) && s.op.Held? && i < |s.users| && Reconnecting(s.users[i])
    ensures s.op.owner != User(i)
  {
  }

  lemma OperationFlags(h: Hpd, pc: OpPc)
    ensures MayReconnect(OpHpd(h, pc)) == MayReconnect(h)
  {
    match pc {
      case Disc(p) =>
      case Conn(p) =>
      case Find(p, d) =>
      case En(p) =>
    }
  }

  lemma PmPromises(s: State, asked: bool)
    requires Inv(s) && CanManage(s) && Promised(s, asked)
    ensures Promised(PmStep(s), AskedAfter(s, Manage, asked))
  {
    hide Client, History, Recovery;
    match s.pm {
      case PmSuspend =>
      case PmResume =>
      case PmRemove =>
      case PmLookupRelease =>
      case PmCancelConnect(_) =>
      case PmCancelDisconnect(_) =>
      case PmDisconnect(_) =>
      case PmRead =>
      case PmQueue =>
      case PmDrain =>
      case _ =>
    }
  }

  lemma UserPromises(s: State, i: nat, asked: bool)
    requires Inv(s) && Enabled(s, Use(i)) && Promised(s, asked)
    ensures Promised(UserStep(s, i), asked)
  {
    hide Inv;
    var t := UserStep(s, i);
    if j :| 0 <= j < |s.users| && Reconnecting(s.users[j]) && j != i { assert Reconnecting(t.users[j]); }
    if s.users[i].UserRead? && MayReconnect(s.h) { assert Reconnecting(t.users[i]); }
  }

  lemma OtherPromises(s: State, l: Label, asked: bool)
    requires Inv(s) && Enabled(s, l) && Promised(s, asked)
    requires !l.Operate? && !l.Manage? && !l.Use?
    ensures Promised(Exec(s, l), AskedAfter(s, l, asked))
  {
    hide Inv;
    if i :| 0 <= i < |s.users| && Reconnecting(s.users[i]) { assert Reconnecting(Exec(s, l).users[i]); }
    if l.Call? { CallbackFrame(s.h, s.callback); }
    hide CallbackHpd, CallbackNext;
  }

  // ----- every connection discovers all sensors

  /** Which discoveries have come to their request by the time the operation is this far. */
  predicate SearchedAt(op: OpLock, searched: set<Sensor>) {
    match op
    case Held(_, Find(p, d)) =>
      var begun := !p.FindArm? && !p.FindSend?;
      && (d != CameraHandshake || begun ==> CameraHandshake in searched)
      && (d == CameraFace || (d == HumanPresence && begun) ==> HumanPresence in searched)
      && (d == CameraFace && begun ==> CameraFace in searched)
    case _ => CameraHandshake in searched && HumanPresence in searched && CameraFace in searched
  }

  predicate Searched(s: State, searched: set<Sensor>) { s.h.flags.connected ==> SearchedAt(s.op, searched) }

  lemma OperationSearches(s: State, ok: bool, searched: set<Sensor>)
    requires Inv(s) && CanOperate(s) && Searched(s, searched)
    ensures Searched(OperationStep(s, ok), SearchedAfter(s, Operate(ok), searched))
  {
    assert s.h.flags.connected ==> s.h.flags.clientInitialized;
    assert HandleAt(s.op.pc, s.h, s.handles.client);
    hide Inv, OpLive, OpEntry, OpFault, OpUnlocks, OpSection, EnNext, UserAfter;
    match s.op.pc {
      case Disc(p) =>
      case Conn(p) =>
        match p {
          case ConnCheck => case ConnInit => case ConnMark => case ConnSocket =>
          case ConnDone => case ConnFail => case ConnRelease => case ConnUnlock =>
        }
      case Find(p, d) => match p { case FindArm => case FindSend => case FindReply => case FindWait => case FindCheck => }
      case En(p) =>
    }
  }

  lemma OtherSearches(s: State, l: Label, searched: set<Sensor>)
    requires Inv(s) && Enabled(s, l) && Searched(s, searched) && !l.Operate?
    ensures Searched(Exec(s, l), searched)
  {
    if l.Call? { CallbackFrame(s.h, s.callback); }
    hide Inv, CallbackHpd, CallbackNext;
  }

  // ----- a service that is there has its client

  /** A connection is being made. */
  predicate Midway(op: OpLock) {
    && op.Held? && op.pc.Conn?
    && (op.pc.conn.ConnInit? || op.pc.conn.ConnMark? || op.pc.conn.ConnSocket? || op.pc.conn.ConnDone?)
  }

  /** The client is connected exactly when the last connection was made and not dropped; half a client is
      one that is being connected; and a client that a user or the power manager dropped, or that never
      was, is asked for as soon as it can be. */
  predicate Connects(h: Hpd, op: OpLock, asked: bool, last: Last) {
    && h.flags.connected == (last == Made)
    && (h.flags.clientInitialized && !h.flags.connected ==>
          op.Held? && (op.pc == Conn(ConnSocket) || op.pc == Conn(ConnDone) || op.pc == Conn(ConnFail)))
    && (last == Opening <==>
          op.Held? && (op.pc == Conn(ConnMark) || op.pc == Conn(ConnSocket) || op.pc == Conn(ConnDone)))
    && ((last == Never || (last.Dropped? && last.dropper != Worker)) && MayReconnect(h) && !Midway(op) ==> asked)
  }

  lemma OperationConnects(s: State, ok: bool, asked: bool, last: Last)
    requires Inv(s) && CanOperate(s) && Connects(s.h, s.op, asked, last)
    ensures var t := OperationStep(s, ok);
            Connects(t.h, t.op, AskedAfter(s, Operate(ok), asked), LastAfter(s, Operate(ok), last))
  {
    hide Inv, OpHpd, OpNext, OpLive, OpEntry, OpFault, OpUnlocks, OpSection, OpEnds, UserAfter, Connects, HandleAt;
    AtOperation(s);
    StepFields(s, ok);
    hide CanOperate, OperationStep, OpAfter;
    var live, start := s.handles.client, |s.log|;
    match s.op.pc {
      case Disc(p) => DisconnectConnects(s.h, s.op.owner, p, ok, start, asked, last);
      case Conn(p) => ConnectConnects(s.h, live, s.op.owner, p, ok, start, asked, last);
      case _ => OthersConnect(s.h, s.op.owner, s.op.pc, ok, start, asked, last);
    }
  }

  lemma StepFields(s: State, ok: bool)
    requires s.op.Held?
    ensures OperationStep(s, ok).h == OpHpd(s.h, s.op.pc)
    ensures OperationStep(s, ok).op == OpAfter(s.h, s.op.owner, s.op.pc, ok, |s.log|)
  {
    hide OpHpd, OpNext, OpLive, OpEntry, OpFault, OpUnlocks, OpEnds;
  }

  lemma AtOperation(s: State)
    requires Inv(s) && s.op.Held?
    ensures s.op.owner.User? || s.op.owner.Worker? || s.op.owner.Pm?
    ensures s.op.owner.Pm? && s.op.pc == Disc(DiscClear) ==> s.h.flags.suspended
    ensures s.h.flags.connected ==> s.h.flags.clientInitialized
    ensures HandleAt(s.op.pc, s.h, s.handles.client)
  {
    hide Slots, History, Recovery;
    assert OwnerOk(s);
    assert s.op.owner.Pm? && s.op.pc == Disc(DiscClear) ==> Stopping(s);
  }

  function OpAfter(h: Hpd, owner: Tid, pc: OpPc, ok: bool, start: nat): OpLock {
    if OpEnds(pc) then Free else Held(owner, OpNext(h, pc, ok, start))
  }

  lemma DisconnectConnects(h: Hpd, owner: Tid, p: DiscPc, ok: bool, start: nat, asked: bool, last: Last)
    requires Connects(h, Held(owner, Disc(p)), asked, last) && (h.flags.connected ==> h.flags.clientInitialized)
    requires owner.User? || owner.Worker? || owner.Pm?
    requires owner.Pm? && p.DiscClear? ==> h.flags.suspended
    ensures Connects(OpHpd(h, Disc(p)), OpAfter(h, owner, Disc(p), ok, start), asked || (owner.User? && p.DiscClear?),
                     if p.DiscClear? && h.flags.clientInitialized then Dropped(owner) else last)
  {
    match p { case DiscClear => case DiscRelease => case DiscUnlock => }
  }

  lemma ConnectConnects(h: Hpd, live: bool, owner: Tid, p: ConnPc, ok: bool, start: nat, asked: bool, last: Last)
    requires Connects(h, Held(owner, Conn(p)), asked, last) && (h.flags.connected ==> h.flags.clientInitialized)
    requires HandleAt(Conn(p), h, live)
    ensures Connects(OpHpd(h, Conn(p)), OpAfter(h, owner, Conn(p), ok, start), asked && !p.ConnCheck?,
                     match p
                     case ConnInit => if ok then Opening else Failed
                     case ConnSocket => if ok then last else Failed
                     case ConnDone => if last == Opening then Made else last
                     case _ => last)
  {
    match p {
      case ConnCheck => case ConnInit => case ConnMark => case ConnSocket =>
      case ConnDone => case ConnFail => case ConnRelease => case ConnUnlock =>
    }
  }

  lemma OthersConnect(h: Hpd, owner: Tid, pc: OpPc, ok: bool, start: nat, asked: bool, last: Last)
    requires Connects(h, Held(owner, pc), asked, last) && (pc.Find? || pc.En?)
    ensures Connects(OpHpd(h, pc), OpAfter(h, owner, pc, ok, start), asked, last)
  {
    hide EnNext;
    match pc {
      case Find(p, d) => match p { case FindArm => case FindSend => case FindReply => case FindWait => case FindCheck => }
      case En(p) =>
    }
  }

  lemma PmConnects(s: State, asked: bool, last: Last)
    requires Connects(s.h, s.op, asked, last) && (s.pm.PmDisconnect? ==> s.op.Free?)
    ensures Connects(PmStep(s).h, PmStep(s).op, AskedAfter(s, Manage, asked), last)
  {
    match s.pm {
      case PmSuspend =>
      case PmResume =>
      case PmRemove =>
      case PmDisconnect(_) =>
      case _ =>
    }
  }

  /** Steps outside the operations. */
  lemma OtherConnects(s: State, l: Label, asked: bool, last: Last)
    requires Inv(s) && Enabled(s, l) && Connects(s.h, s.op, asked, last) && !l.Operate?
    ensures Connects(Exec(s, l).h, Exec(s, l).op, AskedAfter(s, l, asked), last)
  {
    if l.Call? { CallbackFrame(s.h, s.callback); }
    assert l.Manage? && s.pm.PmDisconnect? ==> s.op.Free?;
    hide Inv, CallbackHpd, CallbackNext, CanOperate, UserNext, AtSection, CanManage;
    if l.Manage? { PmConnects(s, asked, last); }
    hide PmStep;
  }

  // ----- in every run

  ghost predicate Serving(s: State, w: Watch) {
    Promised(s, w.asked) && Searched(s, w.searched) && Connects(s.h, s.op, w.asked, w.last)
  }

  lemma StepServes(s: State, l: Label, w: Watch)
    requires Inv(s) && Enabled(s, l) && Serving(s, w)
    ensures Serving(Exec(s, l), WatchStep(s, l, w))
  {
    hide Inv, Promised, Searched, Connects, OperationStep, PmStep, UserStep, AskedAfter, SearchedAfter, LastAfter;
    match l {
      case Operate(ok) =>
        OperationPromises(s, ok, w.asked);
        OperationSearches(s, ok, w.searched);
        OperationConnects(s, ok, w.asked, w.last);
      case Manage => PmPromises(s, w.asked);
      case Use(i) =>
        UserPromises(s, i, w.asked);
        UsersAskNothing(s, i, w.asked);
      case _ => OtherPromises(s, l, w.asked);
    }
    if !l.Operate? {
      OtherSearches(s, l, w.searched);
      OtherConnects(s, l, w.asked, w.last);
      NotSearching(s, l, w.searched, w.last);
    }
  }

  lemma UsersAskNothing(s: State, i: nat, asked: bool)
    ensures AskedAfter(s, Use(i), asked) == asked
  {
  }

  lemma NotSearching(s: State, l: Label, searched: set<Sensor>, last: Last)
    requires !l.Operate?
    ensures SearchedAfter(s, l, searched) == searched && LastAfter(s, l, last) == last
  {
  }

  lemma {:induction false} RunServes(s: State, ls: seq<Label>, w: Watch)
    requires Inv(s) && RunFrom(s, ls).Some? && Serving(s, w)
    ensures Serving(RunFrom(s, ls).value, Watched(s, ls, w))
    decreases ls
  {
    if ls != [] {
      hide Inv, Enabled, Exec, Serving, WatchStep;
      StepKeeps(s, ls[0]);
      StepServes(s, ls[0], w);
      RunServes(Exec(s, ls[0]), ls[1..], WatchStep(s, ls[0], w));
    }
  }

  /** No request for a connection is lost: in every run, while the service is present and the driver
      neither suspended nor removed, a connection that was asked for and not looked into since is on its
      way. So at rest every request has been looked into. */
  lemma NoRequestLost(users: nat, ls: seq<Label>)
    requires Run(users, ls).Some?
    ensures var s, w := Run(users, ls).value, Watched(Init(users), ls, NOTHING);
            && (w.asked && s.h.flags.servicePresent && Running(s.h) ==> ConnectComing(s))
            && (Resting(s) && s.h.flags.servicePresent && Running(s.h) ==> !w.asked)
  {
    InitHolds(users);
    RunServes(Init(users), ls, NOTHING);
    hide RunFrom, Init, Searched, Watched;
  }

  /** Every connection tries all three discoveries: whenever no operation runs and the client is connected,
      each of them has come to its request since it was. */
  lemma AllSearched(users: nat, ls: seq<Label>, d: Sensor)
    requires Run(users, ls).Some?
    ensures var s := Run(users, ls).value;
            s.op.Free? && s.h.flags.connected ==> d in Watched(Init(users), ls, NOTHING).searched
  {
    InitHolds(users);
    RunServes(Init(users), ls, NOTHING);
    hide RunFrom, Init, Promised, Watched;
  }

  /** In every run, at rest with the service present and the driver neither suspended nor removed, there is
      a live client, but for two cases: the last connection failed, or the worker dropped it: it ran the
      disconnect of an earlier loss of the service after the connect work. */
  lemma ServiceIsServed(users: nat, ls: seq<Label>)
    requires Run(users, ls).Some?
    ensures var s, w := Run(users, ls).value, Watched(Init(users), ls, NOTHING);
            Resting(s) && s.h.flags.servicePresent && Running(s.h) ==>
              (s.handles.client <==> w.last != Failed && w.last != Dropped(Worker))
  {
    InitHolds(users);
    RunServes(Init(users), ls, NOTHING);
    RunKeeps(users, ls);
    hide RunFrom, Init, Watched, Inv, Serving;
    var s, w := Run(users, ls).value, Watched(Init(users), ls, NOTHING);
    if Resting(s) && s.h.flags.servicePresent && Running(s.h) { ServedAtRest(s, w); }
  }

  lemma ServedAtRest(s: State, w: Watch)
    requires Inv(s) && Serving(s, w) && Resting(s) && MayReconnect(s.h)
    ensures s.handles.client <==> w.last != Failed && w.last != Dropped(Worker)
  {
    assert s.handles.client == s.h.flags.clientInitialized && (s.h.flags.connected ==> s.h.flags.clientInitialized);
    hide Inv, Searched;
  }
}
