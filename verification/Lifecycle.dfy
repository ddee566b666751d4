/** The client's lifecycle as interleaved threads: the ordered workqueue, power management, the
    service lookup, the report callback and any number of user threads. A step is one section under
    the state lock, one lock operation, one call into the QMI library, or one access to a field that
    the source makes outside the lock. Received bytes and outcomes of library calls are arbitrary. */
module Lifecycle {
  import opened Wrappers
  import opened Bytes
  import opened Request
  import opened Report
  import opened HpdState

  datatype Tid = Worker | Pm | Lookup | Callback | User(i: nat)

  // ----- what runs under the operation lock; its holder's position is kept with the lock

  datatype DiscPc = DiscClear | DiscRelease | DiscUnlock

  datatype ConnPc = ConnCheck | ConnInit | ConnMark | ConnSocket | ConnDone | ConnFail | ConnRelease | ConnUnlock

  datatype FindPc = FindArm | FindSend | FindReply | FindWait | FindCheck

  /** `m` is where the attempt starts in the history. */
  datatype EnPc =
    | EnCheck | EnMark
    | EnSendInit(m: nat) | EnReplyInit(m: nat) | EnWaitAck(m: nat) | EnReadError(m: nat)
    | EnSendConfig(m: nat) | EnReplyConfig | EnActivate | EnUnlock(done: bool)

  datatype OpPc =
    | Disc(disc: DiscPc)             // disconnect_client
    | Conn(conn: ConnPc)             // connect_work_fn
    | Find(find: FindPc, d: Sensor)  // a14_ssc_discover_suid, called by connect_work_fn
    | En(en: EnPc)                   // a14_ssc_enable_hpd

  datatype OpLock = Free | Held(owner: Tid, pc: OpPc)

  // ----- where each thread is outside it; InOp while it holds the operation lock

  datatype WorkerPc = WorkerIdle | WantConnect | WantDisconnect | WorkerInOp

  datatype PmPc =
    | PmIdle | PmGone
    | PmSuspend | PmResume | PmRemove | PmLookupRelease
    | PmCancelConnect(removing: bool) | PmCancelDisconnect(removing: bool)
    | PmDisconnect(removing: bool) | PmInOp(removing: bool)
    | PmRead | PmQueue | PmDrain

  datatype LookupPc = LookupIdle | Arriving | ArriveQueue | Leaving | LeaveQueue

  datatype UserPc = UserIdle | WantEnable | WantDisable | UserInOp | UserRead | UserQueue

  datatype CallbackPc =
    | CbIdle
    | CbNext(es: seq<Effect>)
    | CbSuid(sensor: Sensor, suid: Suid, es: seq<Effect>)
    | CbPresence(value: int, es: seq<Effect>)
    | CbAckMark(error: int, es: seq<Effect>) | CbAckStore(error: int, es: seq<Effect>) | CbAckDone(es: seq<Effect>)

  // ----- history and faults

  datatype Entry =
    | Opened
    | Closed
    | SuidAsked(d: Sensor)
    | AttemptMarked
    | InitSent
    | AckStored(error: int)
    | ConfigSent

  /** What must never happen: initialising a live handle, releasing a dead one, sending on a client
      that is not live and connected, a completed discovery without a SUID (-ENODEV), a request
      builder that refuses. */
  datatype Fault = DoubleInit | ReleaseDead | SendDead | LostSuid | BuilderRefused

  /** Which QMI handles are live. */
  datatype Handles = Handles(client: bool, lookup: bool)

  /** Which work items are pending. */
  datatype Queue = Queue(connect: bool, disconnect: bool)

  datatype State = State(
    h: Hpd,
    handles: Handles,
    op: OpLock,
    lock: Option<Tid>,
    queue: Queue,
    worker: WorkerPc,
    pm: PmPc,
    lookup: LookupPc,
    callback: CallbackPc,
    users: seq<UserPc>,
    log: seq<Entry>,
    faults: set<Fault>)

  /** After probe: nothing runs, nothing is queued, no service is known. */
  function Init(users: nat): State {
    State(PROBED, Handles(false, true), Free, None, Queue(false, false),
          WorkerIdle, PmIdle, LookupIdle, CbIdle, seq(users, _ => UserIdle), [], {})
  }

  // ----- sections under the state lock

  predicate OpSection(pc: OpPc) {
    match pc
    case Disc(p) => p.DiscClear?
    case Conn(p) => p.ConnCheck? || p.ConnMark? || p.ConnDone? || p.ConnFail?
    case Find(p, _) => p.FindCheck?
    case En(p) => p.EnCheck? || p.EnMark? || p.EnActivate?
  }

  predicate OpSectionOf(s: State, t: Tid) { s.op.Held? && s.op.owner == t && OpSection(s.op.pc) }

  /** Whether the thread's next step is a section. */
  predicate AtSection(s: State, t: Tid) {
    || OpSectionOf(s, t)
    || match t
       case Worker => false
       case Pm => PmSection(s.pm)
       case Lookup => s.lookup.Arriving? || s.lookup.Leaving?
       case Callback => s.callback.CbSuid? || s.callback.CbPresence?
       case User(i) => i < |s.users| && s.users[i].UserRead?
  }

  // ----- the operation lock's holder: what its step does, table by table

  /** To the driver's fields. */
  function OpHpd(h: Hpd, pc: OpPc): Hpd {
    match pc
    case Disc(DiscClear) => Cleared(h)
    case Conn(ConnMark) => Initialized(h)
    case Conn(ConnDone) => Connected(h)
    case Conn(ConnFail) => ConnectFailed(h)
    case Find(FindArm, d) => Rearmed(h, d)
    case En(EnCheck) => if EnableGate(h).Ready? then AckRearmed(h) else h
    case En(EnMark) => AttemptMarking(h)
    case En(EnActivate) => Activated(h)
    case _ => h
  }

  /** To the client's handle. */
  predicate OpLive(live: bool, pc: OpPc, ok: bool) {
    match pc
    case Conn(ConnInit) => live || ok
    case Disc(DiscRelease) => false
    case Conn(ConnRelease) => false
    case _ => live
  }

  /** To the history. A message is sent when the client is connected, the request could be built
      and the transport took it. */
  function OpEntry(h: Hpd, pc: OpPc, ok: bool): Option<Entry> {
    match pc
    case Conn(ConnInit) => if ok then Some(Opened) else None
    case Disc(DiscRelease) => Some(Closed)
    case Conn(ConnRelease) => Some(Closed)
    case Find(FindSend, d) => if h.flags.connected && ok then Some(SuidAsked(d)) else None
    case En(EnMark) => Some(AttemptMarked)
    case En(EnSendInit(_)) => if h.suids.handshake.valid && h.flags.connected && ok then Some(InitSent) else None
    case En(EnSendConfig(_)) => if h.suids.presence.valid && h.flags.connected && ok then Some(ConfigSent) else None
    case _ => None
  }

  /** What goes wrong. */
  function OpFault(h: Hpd, live: bool, pc: OpPc, ok: bool): Option<Fault> {
    match pc
    case Conn(ConnInit) => if ok && live then Some(DoubleInit) else None
    case Disc(DiscRelease) => if live then None else Some(ReleaseDead)
    case Conn(ConnRelease) => if live then None else Some(ReleaseDead)
    case Find(FindSend, _) => if h.flags.connected && !live then Some(SendDead) else None
    case Find(FindCheck, d) => if h.suids.At(d).valid then None else Some(LostSuid)
    case En(EnSendInit(_)) =>
      if !h.suids.handshake.valid then Some(BuilderRefused) else if h.flags.connected && !live then Some(SendDead) else None
    case En(EnSendConfig(_)) =>
      if !h.suids.presence.valid then Some(BuilderRefused) else if h.flags.connected && !live then Some(SendDead) else None
    case _ => None
  }

  predicate OpEnds(pc: OpPc) {
    match pc
    case Disc(p) => p.DiscUnlock?
    case Conn(p) => p.ConnUnlock?
    case Find(_, _) => false
    case En(p) => p.EnUnlock?
  }

  function NextSensor(d: Sensor): OpPc {
    match d
    case CameraHandshake => Find(FindArm, HumanPresence)
    case HumanPresence => Find(FindArm, CameraFace)
    case CameraFace => Conn(ConnUnlock)
  }

  function DiscNext(h: Hpd, p: DiscPc): DiscPc {
    if p.DiscClear? && h.flags.clientInitialized then DiscRelease else DiscUnlock
  }

  function ConnNext(h: Hpd, p: ConnPc, ok: bool): OpPc {
    match p
    case ConnCheck => Conn(if MayConnect(h) then ConnInit else ConnUnlock)
    case ConnInit => Conn(if ok then ConnMark else ConnUnlock)
    case ConnMark => Conn(ConnSocket)
    case ConnSocket => Conn(if ok then ConnDone else ConnFail)
    case ConnDone => Find(FindArm, CameraHandshake)
    case ConnFail => Conn(ConnRelease)
    case ConnRelease => Conn(ConnUnlock)
    case ConnUnlock => Conn(ConnUnlock)
  }

  /** A discovery that fails at any point gives way to the next one. */
  function FindNext(h: Hpd, p: FindPc, d: Sensor, ok: bool): OpPc {
    match p
    case FindArm => Find(FindSend, d)
    case FindSend => if h.flags.connected && ok then Find(FindReply, d) else NextSensor(d)
    case FindReply => if ok then Find(FindWait, d) else NextSensor(d)
    case FindWait => if h.done.At(d) then Find(FindCheck, d) else NextSensor(d)
    case FindCheck => NextSensor(d)
  }

  /** An attempt that fails at any point unlocks and recycles the client. */
  function EnNext(h: Hpd, p: EnPc, ok: bool, start: nat): EnPc {
    match p
    case EnCheck =>
      (match EnableGate(h) case AlreadyEnabled => EnUnlock(true) case NotReady => EnUnlock(false) case Ready => EnMark)
    case EnMark => EnSendInit(start)
    case EnSendInit(m) => if h.suids.handshake.valid && h.flags.connected && ok then EnReplyInit(m) else EnUnlock(false)
    case EnReplyInit(m) => if ok then EnWaitAck(m) else EnUnlock(false)
    case EnWaitAck(m) => if h.done.ack then EnReadError(m) else EnUnlock(false)
    case EnReadError(m) => if h.handshakeError == 0 then EnSendConfig(m) else EnUnlock(false)
    case EnSendConfig(m) => if h.suids.presence.valid && h.flags.connected && ok then EnReplyConfig else EnUnlock(false)
    case EnReplyConfig => if ok then EnActivate else EnUnlock(false)
    case EnActivate => EnUnlock(true)
    case EnUnlock(done) => EnUnlock(done)
  }

  /** To the position inside the operation. */
  function OpNext(h: Hpd, pc: OpPc, ok: bool, start: nat): OpPc {
    match pc
    case Disc(p) => Disc(DiscNext(h, p))
    case Conn(p) => ConnNext(h, p, ok)
    case Find(p, d) => FindNext(h, p, d, ok)
    case En(p) => En(EnNext(h, p, ok, start))
  }

  /** A section releases the state lock at its end, except that a starting attempt keeps it until the
      error is marked. */
  predicate OpUnlocks(h: Hpd, pc: OpPc) {
    OpSection(pc) && !(pc == En(EnCheck) && EnableGate(h).Ready?)
  }

  /** Where the user goes after its operation: a failed enable disconnects, a disconnect reconnects. */
  function UserAfter(pc: OpPc): UserPc {
    if pc == Disc(DiscUnlock) then UserRead else if pc == En(EnUnlock(false)) then WantDisable else UserIdle
  }

  function Optional<T>(o: Option<T>): seq<T> { if o.Some? then [o.value] else [] }

  function OperationStep(s: State, ok: bool): State
    requires s.op.Held?
  {
    var pc, owner := s.op.pc, s.op.owner;
    var ends := OpEnds(pc);
    var fault := OpFault(s.h, s.handles.client, pc, ok);
    s.(h := OpHpd(s.h, pc),
       handles := s.handles.(client := OpLive(s.handles.client, pc, ok)),
       op := if ends then Free else Held(owner, OpNext(s.h, pc, ok, |s.log|)),
       lock := if OpUnlocks(s.h, pc) then None else s.lock,
       worker := if ends && owner.Worker? then WorkerIdle else s.worker,
       pm := if ends && owner.Pm? then (if s.pm == PmInOp(true) then PmDrain else PmIdle) else s.pm,
       users := if ends && owner.User? && owner.i < |s.users| then s.users[owner.i := UserAfter(pc)] else s.users,
       log := s.log + Optional(OpEntry(s.h, pc, ok)),
       faults := if fault.Some? then s.faults + {fault.value} else s.faults)
  }

  // ----- the threads outside it

  function WorkerStep(s: State): State {
    s.(op := Held(Worker, if s.worker.WantConnect? then Conn(ConnCheck) else Disc(DiscClear)),
       worker := WorkerInOp)
  }

  function PmHpd(h: Hpd, pc: PmPc): Hpd {
    match pc
    case PmSuspend => Suspended(h)
    case PmResume => Resumed(h)
    case PmRemove => Removing(h)
    case _ => h
  }

  function PmNext(h: Hpd, pc: PmPc): PmPc {
    match pc
    case PmSuspend => PmCancelConnect(false)
    case PmResume => PmRead
    case PmRemove => PmLookupRelease
    case PmLookupRelease => PmCancelConnect(true)
    case PmCancelConnect(r) => PmCancelDisconnect(r)
    case PmCancelDisconnect(r) => PmDisconnect(r)
    case PmDisconnect(r) => PmInOp(r)
    case PmRead => if MayReconnect(h) then PmQueue else PmIdle
    case PmQueue => PmIdle
    case PmDrain => PmGone
    case _ => pc
  }

  predicate PmSection(pc: PmPc) { pc.PmSuspend? || pc.PmResume? || pc.PmRemove? || pc.PmRead? }

  function PmStep(s: State): State {
    s.(h := PmHpd(s.h, s.pm),
       lock := if PmSection(s.pm) then None else s.lock,
       handles := s.handles.(lookup := s.handles.lookup && !s.pm.PmLookupRelease?),
       queue := Queue((s.queue.connect && !s.pm.PmCancelConnect?) || s.pm.PmQueue?,
                      s.queue.disconnect && !s.pm.PmCancelDisconnect?),
       op := if s.pm.PmDisconnect? then Held(Pm, Disc(DiscClear)) else s.op,
       pm := PmNext(s.h, s.pm))
  }

  function LookupHpd(h: Hpd, pc: LookupPc): Hpd {
    match pc case Arriving => Arrived(h) case Leaving => Lost(h) case _ => h
  }

  function LookupNext(h: Hpd, pc: LookupPc): LookupPc {
    match pc
    case Arriving => if Running(h) then ArriveQueue else LookupIdle
    case Leaving => if Running(h) then LeaveQueue else LookupIdle
    case _ => LookupIdle
  }

  function LookupStep(s: State): State {
    s.(h := LookupHpd(s.h, s.lookup),
       lock := if s.lookup.Arriving? || s.lookup.Leaving? then None else s.lock,
       queue := Queue(s.queue.connect || s.lookup.ArriveQueue?, s.queue.disconnect || s.lookup.LeaveQueue?),
       lookup := LookupNext(s.h, s.lookup))
  }

  function UserNext(h: Hpd, pc: UserPc): UserPc {
    match pc
    case WantEnable => UserInOp
    case WantDisable => UserInOp
    case UserRead => if MayReconnect(h) then UserQueue else UserIdle
    case UserQueue => UserIdle
    case _ => pc
  }

  function UserStep(s: State, i: nat): State
    requires i < |s.users|
  {
    var pc := s.users[i];
    s.(op := if pc.WantEnable? then Held(User(i), En(EnCheck))
             else if pc.WantDisable? then Held(User(i), Disc(DiscClear)) else s.op,
       lock := if pc.UserRead? then None else s.lock,
       queue := s.queue.(connect := s.queue.connect || pc.UserQueue?),
       users := s.users[i := UserNext(s.h, pc)])
  }

  /** The callback's next event. */
  function Dispatching(es: seq<Effect>): CallbackPc {
    if es == [] then CbIdle
    else match es[0]
      case NoEffect => CbNext(es[1..])
      case FoundSuid(d, suid) => CbSuid(d, suid, es[1..])
      case HandshakeAck(error) => CbAckMark(error, es[1..])
      case Presence(v) => CbPresence(v, es[1..])
  }

  function CallbackNext(pc: CallbackPc): CallbackPc {
    match pc
    case CbIdle => CbIdle
    case CbNext(es) => Dispatching(es)
    case CbSuid(_, _, es) => CbNext(es)
    case CbPresence(_, es) => CbNext(es)
    case CbAckMark(error, es) => CbAckStore(error, es)
    case CbAckStore(_, es) => CbAckDone(es)
    case CbAckDone(es) => CbNext(es)
  }

  /** The acknowledgement's error is written outside the lock, in two stores. */
  function CallbackHpd(h: Hpd, pc: CallbackPc): Hpd {
    match pc
    case CbSuid(d, suid, _) => ApplyEffect(h, FoundSuid(d, suid))
    case CbPresence(v, _) => ApplyEffect(h, Presence(v))
    case CbAckMark(_, _) => h.(handshakeError := -EBADMSG)
    case CbAckStore(error, _) => h.(handshakeError := error)
    case CbAckDone(_) => h.(done := h.done.(ack := true))
    case _ => h
  }

  function CallbackStep(s: State): State {
    s.(h := CallbackHpd(s.h, s.callback),
       lock := if s.callback.CbSuid? || s.callback.CbPresence? then None else s.lock,
       callback := CallbackNext(s.callback),
       log := s.log + (if s.callback.CbAckStore? then [AckStored(s.callback.error)] else []))
  }

  // ----- the step relation

  datatype Label =
    | Acquire(t: Tid)      // take the state lock
    | Operate(ok: bool)    // the operation lock's holder; `ok` is how a library call ends
    | Work | Manage | Look | Call | Use(i: nat)
    | Pick(connect: bool)  // the ordered workqueue starts a pending item
    | EnableWritten(i: nat) | DisableWritten(i: nat)
    | ServiceArrives | ServiceLeaves
    | SuspendCalled | ResumeCalled | RemoveCalled
    | ReportArrives(data: seq<u8>)

  /** Steps the driver makes; the others come from outside. */
  predicate Internal(l: Label) {
    l.Acquire? || l.Operate? || l.Work? || l.Manage? || l.Look? || l.Call? || l.Use? || l.Pick?
  }

  /** Releasing a handle waits for its running callback. */
  predicate CanOperate(s: State) {
    && s.op.Held?
    && (OpSection(s.op.pc) ==> s.lock == Some(s.op.owner))
    && (s.op.pc == Disc(DiscRelease) || s.op.pc == Conn(ConnRelease) ==> s.callback.CbIdle?)
  }

  predicate WorkerConnecting(s: State) {
    s.worker.WantConnect? || (s.worker.WorkerInOp? && s.op.Held? && !s.op.pc.Disc?)
  }

  predicate WorkerDisconnecting(s: State) {
    s.worker.WantDisconnect? || (s.worker.WorkerInOp? && s.op.Held? && s.op.pc.Disc?)
  }

  /** Cancelling a work item waits for its execution, releasing the lookup for its callback, and
      destroying the workqueue for everything queued. */
  predicate CanManage(s: State) {
    match s.pm
    case PmIdle => false
    case PmGone => false
    case PmInOp(_) => false
    case PmLookupRelease => s.lookup.LookupIdle?
    case PmCancelConnect(_) => !WorkerConnecting(s)
    case PmCancelDisconnect(_) => !WorkerDisconnecting(s)
    case PmDisconnect(_) => s.op.Free?
    case PmDrain => s.worker.WorkerIdle? && !s.queue.connect && !s.queue.disconnect
    case PmQueue => true
    case _ => s.lock == Some(Pm)
  }

  predicate Enabled(s: State, l: Label) {
    match l
    case Acquire(t) => s.lock == None && AtSection(s, t)
    case Operate(_) => CanOperate(s)
    case Work => (s.worker.WantConnect? || s.worker.WantDisconnect?) && s.op.Free?
    case Manage => CanManage(s)
    case Look => !s.lookup.LookupIdle? && (AtSection(s, Lookup) ==> s.lock == Some(Lookup))
    case Call => !s.callback.CbIdle? && (AtSection(s, Callback) ==> s.lock == Some(Callback))
    case Use(i) =>
      i < |s.users|
      && (match s.users[i]
          case UserIdle => false
          case UserInOp => false
          case UserRead => s.lock == Some(User(i))
          case UserQueue => true
          case _ => s.op.Free?)
    case Pick(connect) => s.worker.WorkerIdle? && (if connect then s.queue.connect else s.queue.disconnect)
    case EnableWritten(i) => i < |s.users| && s.users[i].UserIdle?
    case DisableWritten(i) => i < |s.users| && s.users[i].UserIdle?
    case ServiceArrives => s.handles.lookup && s.lookup.LookupIdle?
    case ServiceLeaves => s.handles.lookup && s.lookup.LookupIdle?
    case SuspendCalled => s.pm.PmIdle?
    case ResumeCalled => s.pm.PmIdle?
    case RemoveCalled => s.pm.PmIdle?
    case ReportArrives(_) => s.handles.client && s.callback.CbIdle?
  }

  function Exec(s: State, l: Label): State
    requires Enabled(s, l)
  {
    match l
    case Acquire(t) => s.(lock := Some(t))
    case Operate(ok) => OperationStep(s, ok)
    case Work => WorkerStep(s)
    case Manage => PmStep(s)
    case Look => LookupStep(s)
    case Call => CallbackStep(s)
    case Use(i) => UserStep(s, i)
    case Pick(connect) =>
      if connect then s.(queue := s.queue.(connect := false), worker := WantConnect)
      else s.(queue := s.queue.(disconnect := false), worker := WantDisconnect)
    case EnableWritten(i) => s.(users := s.users[i := WantEnable])
    case DisableWritten(i) => s.(users := s.users[i := WantDisable])
    case ServiceArrives => s.(lookup := Arriving)
    case ServiceLeaves => s.(lookup := Leaving)
    case SuspendCalled => s.(pm := PmSuspend)
    case ResumeCalled => s.(pm := PmResume)
    case RemoveCalled => s.(pm := PmRemove)
    case ReportArrives(data) => s.(callback := CbNext(ReportEffects(data)))
  }

  /** The state a sequence of steps leads to; None when a step was not enabled. */
  function RunFrom(s: State, ls: seq<Label>): Option<State>
    decreases ls
  {
    if ls == [] then Some(s)
    else if Enabled(s, ls[0]) then RunFrom(Exec(s, ls[0]), ls[1..])
    else None
  }

  /** A run of the driver: from probe, with any number of user threads. */
  function Run(users: nat, ls: seq<Label>): Option<State> { RunFrom(Init(users), ls) }
}
