/** No deadlock and no livelock: in every reachable state the driver either rests or can step, and it
    rests after a bounded number of its own steps. */
module LifecycleProgress {
  import opened Wrappers
  import opened Bytes
  import opened Request
  import opened Report
  import opened HpdState
  import opened Lifecycle
  import opened LifecycleSafety
  import opened LifecycleProof

  /** Nothing runs, nothing is queued, no lock is held. */
  ghost predicate Resting(s: State) {
    && s.op.Free? && s.lock.None?
    && !s.queue.connect && !s.queue.disconnect
    && s.worker.WorkerIdle? && (s.pm.PmIdle? || s.pm.PmGone?) && s.lookup.LookupIdle? && s.callback.CbIdle?
    && forall i :: 0 <= i < |s.users| ==> s.users[i].UserIdle?
  }

  // ----- who can step

  /** The state lock's holder can always step: nobody waits while holding it. */
  function HolderLabel(s: State): Label
    requires s.lock.Some?
  {
    if OpSectionOf(s, s.lock.value) then Operate(true)
    else match s.lock.value
      case Worker => Operate(true)
      case Pm => Manage
      case Lookup => Look
      case Callback => Call
      case User(i) => Use(i)
  }

  lemma HolderSteps(s: State)
    requires Inv(s) && s.lock.Some?
    ensures Internal(HolderLabel(s)) && Enabled(s, HolderLabel(s))
  {
    hide Handle, Slots, Quiet, History;
    match s.lock.value {
      case Worker =>
      case Pm =>
      case Lookup =>
      case Callback =>
      case User(i) =>
    }
  }

  /** A running callback is never blocked by the operation lock: it can step, or take the state lock,
      or the state lock's holder can step. */
  lemma CallbackSteps(s: State)
    requires Inv(s) && !s.callback.CbIdle?
    ensures Enabled(s, Call) || Enabled(s, Acquire(Callback)) || (s.lock.Some? && Enabled(s, HolderLabel(s)))
  {
    hide Inv, HolderLabel, CanOperate, CanManage;
    if s.lock.Some? { HolderSteps(s); }
  }

  /** A thread that can step when neither lock is held and no callback runs. */
  lemma ThreadSteps(s: State) returns (l: Label)
    requires Inv(s) && !Resting(s) && s.lock.None? && s.op.Free? && s.callback.CbIdle?
    ensures Internal(l) && Enabled(s, l)
  {
    hide Handle, Slots, Quiet, History;
    if i :| 0 <= i < |s.users| && !s.users[i].UserIdle? {
      return if s.users[i].UserRead? then Acquire(User(i)) else Use(i);
    }
    if !s.lookup.LookupIdle? {
      return if s.lookup.Arriving? || s.lookup.Leaving? then Acquire(Lookup) else Look;
    }
    if s.worker.WantConnect? || s.worker.WantDisconnect? { return Work; }
    if s.queue.connect { return Pick(true); }
    if s.queue.disconnect { return Pick(false); }
    return if PmSection(s.pm) then Acquire(Pm) else Manage;
  }

  /** In a state that does not rest, some step of the driver is enabled. */
  lemma SomeoneSteps(s: State) returns (l: Label)
    requires Inv(s) && !Resting(s)
    ensures Internal(l) && Enabled(s, l)
  {
    if s.lock.Some? {
      HolderSteps(s);
      return HolderLabel(s);
    }
    hide Inv, Resting, OpSection, CanManage;
    if !s.callback.CbIdle? {
      return if s.callback.CbSuid? || s.callback.CbPresence? then Acquire(Callback) else Call;
    }
    if s.op.Held? {
      return if OpSection(s.op.pc) then Acquire(s.op.owner) else Operate(true);
    }
    l := ThreadSteps(s);
  }

  // ----- how far from rest

  function SensorRank(d: Sensor): nat {
    match d case CameraFace => 0 case HumanPresence => 5 case CameraHandshake => 10
  }

  function ConnRank(p: ConnPc): nat {
    match p
    case ConnUnlock => 1
    case ConnRelease => 2
    case ConnFail => 3
    case ConnDone => 17
    case ConnSocket => 18
    case ConnMark => 19
    case ConnInit => 20
    case ConnCheck => 21
  }

  function FindRank(p: FindPc): nat {
    match p case FindCheck => 2 case FindWait => 3 case FindReply => 4 case FindSend => 5 case FindArm => 6
  }

  function EnRank(p: EnPc): nat {
    match p
    case EnUnlock(_) => 30
    case EnActivate => 31
    case EnReplyConfig => 32
    case EnSendConfig(_) => 33
    case EnReadError(_) => 34
    case EnWaitAck(_) => 35
    case EnReplyInit(_) => 36
    case EnSendInit(_) => 37
    case EnMark => 38
    case EnCheck => 39
  }

  function DiscRank(p: DiscPc): nat {
    match p case DiscUnlock => 2 case DiscRelease => 3 case DiscClear => 4
  }

  /** A user's disconnect still has its reconnect ahead. */
  function OpRank(op: OpLock): nat {
    match op
    case Free => 0
    case Held(owner, Disc(p)) => DiscRank(p) + if owner.User? then 24 else 0
    case Held(_, Conn(p)) => ConnRank(p)
    case Held(_, Find(p, d)) => FindRank(p) + SensorRank(d)
    case Held(_, En(p)) => EnRank(p)
  }

  function QueueRank(q: Queue): nat { (if q.connect then 23 else 0) + (if q.disconnect then 6 else 0) }

  function WorkerRank(pc: WorkerPc): nat {
    match pc case WantConnect => 22 case WantDisconnect => 5 case _ => 0
  }

  function PmRank(pc: PmPc): nat {
    match pc
    case PmDrain => 1
    case PmQueue => 24
    case PmRead => 25
    case PmResume => 26
    case PmDisconnect(_) => 5
    case PmCancelDisconnect(_) => 6
    case PmCancelConnect(_) => 7
    case PmSuspend => 8
    case PmLookupRelease => 8
    case PmRemove => 9
    case _ => 0
  }

  function LookupRank(pc: LookupPc): nat {
    match pc case LookupIdle => 0 case LeaveQueue => 7 case Leaving => 8 case ArriveQueue => 24 case Arriving => 25
  }

  function CallbackRank(pc: CallbackPc): nat {
    match pc
    case CbIdle => 0
    case CbNext(es) => 4 * |es| + 1
    case CbSuid(_, _, es) => 4 * |es| + 2
    case CbPresence(_, es) => 4 * |es| + 2
    case CbAckMark(_, es) => 4 * |es| + 4
    case CbAckStore(_, es) => 4 * |es| + 3
    case CbAckDone(es) => 4 * |es| + 2
  }

  function UserRank(pc: UserPc): nat {
    match pc case UserQueue => 24 case UserRead => 25 case WantDisable => 29 case WantEnable => 40 case _ => 0
  }

  function UsersRank(users: seq<UserPc>): nat {
    if users == [] then 0 else UserRank(users[0]) + UsersRank(users[1..])
  }

  lemma {:induction false} UsersRankUpdate(users: seq<UserPc>, i: nat, pc: UserPc)
    requires i < |users|
    ensures UsersRank(users[i := pc]) == UsersRank(users) - UserRank(users[i]) + UserRank(pc)
  {
    var now := users[i := pc];
    if i == 0 {
      assert now[1..] == users[1..];
    } else {
      assert now[1..] == users[1..][i - 1 := pc];
      UsersRankUpdate(users[1..], i - 1, pc);
    }
  }

  function Total(s: State): nat {
    OpRank(s.op) + QueueRank(s.queue) + WorkerRank(s.worker) + PmRank(s.pm) + LookupRank(s.lookup)
    + CallbackRank(s.callback) + UsersRank(s.users)
  }

  /** How many steps the driver can still make on its own, at most. */
  function Distance(s: State): nat { 2 * Total(s) + if s.lock.None? then 1 else 0 }

  // ----- every step of the driver comes closer to rest

  /** Within an operation. */
  lemma OperationComesCloser(h: Hpd, owner: Tid, pc: OpPc, ok: bool, start: nat)
    requires !OpEnds(pc)
    ensures OpRank(Held(owner, OpNext(h, pc, ok, start))) < OpRank(Held(owner, pc))
  {
    match pc {
      case Disc(p) => match p { case DiscClear => case DiscRelease => case DiscUnlock => }
      case Conn(p) => ConnectComesCloser(h, owner, p, ok);
      case Find(p, d) => FindComesCloser(h, owner, p, d, ok);
      case En(p) => EnableComesCloser(h, p, ok, start);
    }
  }

  lemma ConnectComesCloser(h: Hpd, owner: Tid, p: ConnPc, ok: bool)
    requires !p.ConnUnlock?
    ensures OpRank(Held(owner, ConnNext(h, p, ok))) < ConnRank(p)
  {
    hide MayConnect;
    match p {
      case ConnCheck => case ConnInit => case ConnMark => case ConnSocket =>
      case ConnDone => case ConnFail => case ConnRelease => case ConnUnlock =>
    }
  }

  lemma FindComesCloser(h: Hpd, owner: Tid, p: FindPc, d: Sensor, ok: bool)
    ensures OpRank(Held(owner, FindNext(h, p, d, ok))) < FindRank(p) + SensorRank(d)
  {
    match d { case CameraHandshake => case HumanPresence => case CameraFace => }
  }

  lemma EnableComesCloser(h: Hpd, p: EnPc, ok: bool, start: nat)
    requires !p.EnUnlock?
    ensures EnRank(EnNext(h, p, ok, start)) < EnRank(p)
  {
    hide EnableGate;
    match p {
      case EnCheck => case EnMark => case EnSendInit(_) => case EnReplyInit(_) => case EnWaitAck(_) =>
      case EnReadError(_) => case EnSendConfig(_) => case EnReplyConfig => case EnActivate => case EnUnlock(_) =>
    }
  }

  lemma OperationDecreases(s: State, ok: bool)
    requires Inv(s) && CanOperate(s)
    ensures Total(OperationStep(s, ok)) < Total(s)
  {
    hide Handle, Slots, Quiet, History, OpHpd, OpLive, OpEntry, OpFault, OpNext, OpUnlocks, OpSection, CallbackRank;
    if OpEnds(s.op.pc) {
      match s.op.owner {
        case User(i) => UsersRankUpdate(s.users, i, UserAfter(s.op.pc));
        case _ =>
      }
    } else {
      OperationComesCloser(s.h, s.op.owner, s.op.pc, ok, |s.log|);
    }
  }

  lemma CallbackDecreases(pc: CallbackPc)
    requires !pc.CbIdle?
    ensures CallbackRank(CallbackNext(pc)) < CallbackRank(pc)
  {
    match pc {
      case CbNext(es) =>
      case CbSuid(_, _, _) =>
      case CbPresence(_, _) =>
      case CbAckMark(_, _) =>
      case CbAckStore(_, _) =>
      case CbAckDone(_) =>
    }
  }

  lemma PmDecreases(s: State)
    requires Inv(s) && CanManage(s)
    ensures Distance(PmStep(s)) < Distance(s)
  {
    hide Handle, Slots, Quiet, History, OpRank, UsersRank, CallbackRank, LookupRank, PmHpd, OpSection;
    WorkOpRank();
    match s.pm {
      case PmSuspend =>
      case PmResume =>
      case PmRemove =>
      case PmLookupRelease =>
      case PmCancelConnect(_) =>
      case PmCancelDisconnect(_) =>
      case PmDisconnect(_) =>
      case PmRead =>
      case PmQueue =>
      case PmDrain =>
      case _ =>
    }
  }

  lemma StepDecreases(s: State, l: Label)
    requires Inv(s) && Enabled(s, l) && Internal(l)
    ensures Distance(Exec(s, l)) < Distance(s)
  {
    hide Handle, Slots, Quiet, History, OperationStep, PmStep, OpRank, UsersRank, CallbackRank, CallbackNext;
    hide CallbackHpd, PmHpd, LookupHpd;
    match l {
      case Operate(ok) => OperationDecreases(s, ok);
      case Call => CallbackDecreases(s.callback);
      case Use(i) =>
        UsersRankUpdate(s.users, i, UserNext(s.h, s.users[i]));
        UserOpRank(i);
      case Work => WorkOpRank();
      case Manage => PmDecreases(s);
      case _ =>
    }
  }

  lemma WorkOpRank()
    ensures OpRank(Held(Worker, Conn(ConnCheck))) == 21 && OpRank(Held(Worker, Disc(DiscClear))) == 4
    ensures OpRank(Held(Pm, Disc(DiscClear))) == 4 && OpRank(Free) == 0
  {
  }

  lemma UserOpRank(i: nat)
    ensures OpRank(Held(User(i), En(EnCheck))) == 39 && OpRank(Held(User(i), Disc(DiscClear))) == 28 && OpRank(Free) == 0
  {
  }

  // ----- the theorems

  /** No deadlock: every reachable state rests or has an enabled step of the driver. */
  lemma NoDeadlock(users: nat, ls: seq<Label>) returns (l: Label)
    requires Run(users, ls).Some? && !Resting(Run(users, ls).value)
    ensures Internal(l) && Enabled(Run(users, ls).value, l)
  {
    hide Run, Resting, Inv, Enabled;
    RunKeeps(users, ls);
    l := SomeoneSteps(Run(users, ls).value);
  }

  /** No livelock: left alone, the driver makes at most `Distance` steps. */
  lemma {:induction false} DriverSettles(s: State, ls: seq<Label>)
    requires Inv(s) && RunFrom(s, ls).Some? && forall l :: l in ls ==> Internal(l)
    ensures |ls| + Distance(RunFrom(s, ls).value) <= Distance(s)
    decreases ls
  {
    if ls != [] {
      hide Inv, Enabled, Exec, Distance;
      assert ls[0] in ls;
      StepDecreases(s, ls[0]);
      StepKeeps(s, ls[0]);
      DriverSettles(Exec(s, ls[0]), ls[1..]);
    }
  }

  /** At rest a live client has a present service and a driver that is neither suspended nor removed. */
  lemma RestingClient(t: State)
    requires Inv(t) && Resting(t)
    ensures t.handles.client == t.h.flags.clientInitialized
    ensures t.handles.client ==> t.h.flags.servicePresent && Running(t.h)
  {
    hide Ownership, Slots, History;
  }

  /** Left alone, every way of continuing ends at rest: a run of the driver's own steps that cannot
      be extended has reached a resting state, and none is longer than the distance. At rest no client
      has outlived its service, a suspend or a removal. */
  lemma MaximalRunRests(users: nat, ls: seq<Label>, more: seq<Label>)
    requires Run(users, ls).Some? && RunFrom(Run(users, ls).value, more).Some?
    requires forall l :: l in more ==> Internal(l)
    ensures var s := Run(users, ls).value;
            var t := RunFrom(s, more).value;
            && |more| <= Distance(s)
            && ((forall l :: Internal(l) ==> !Enabled(t, l)) ==> Resting(t))
            && (Resting(t) ==> t.handles.client == t.h.flags.clientInitialized
                               && (t.handles.client ==> t.h.flags.servicePresent && Running(t.h)))
  {
    hide Run, RunFrom, Resting, Inv, Enabled, Distance;
    RunKeeps(users, ls);
    var s := Run(users, ls).value;
    DriverSettles(s, more);
    RunFromKeeps(s, more);
    var t := RunFrom(s, more).value;
    if Resting(t) {
      RestingClient(t);
    } else {
      var l := SomeoneSteps(t);
      assert Internal(l) && Enabled(t, l);
    }
  }
}
