/** The client's operations as they run under op_lock, with every other thread free to run its sections
    between two accesses: reports, service changes, suspend, resume and remove. */
module HpdClient {
  import opened Wrappers
  import opened Bytes
  import opened Request
  import opened Report
  import opened HpdState
  import opened HpdDevice

  datatype Result =
    | Done | Again | Invalid | NotConnected | NoMemory | Transport | Rejected | TimedOut | NoDevice | Refused

  /** The decoded response of the control service: its QMI result and its own response code. */
  datatype Reply = Reply(result: int, response: u32) {
    predicate Ok() { result == 0 && response == 0 }
  }

  /** The calls an operation makes that others can tell, and how each ended: opening, joining and
      releasing the client, the four calls of a send, a wait for a completion, and the read of the
      handshake's error. */
  datatype Act =
    | Opened(ok: bool) | Joined(ok: bool) | Released
    | Allocated(ok: bool) | TxnInit(ok: bool) | Sent(message: seq<u8>, ok: bool) | Replied(reply: Option<Reply>)
    | Waited(found: bool) | ErrorRead(error: int)

  function DiscoveryFrame(d: Sensor): seq<u8> { Frame(SUID_SERVICE, MSG_SUID_REQ, SuidPayload(SensorName(d))) }
  function InitFrame(s: Suid): seq<u8> { Frame(s, MSG_HANDSHAKE_INIT, HandshakePayload()) }
  function ConfigFrame(s: Suid): seq<u8> { Frame(s, MSG_HPD_CONFIG, HpdPayload()) }

  lemma FrameOfDiscovery(d: Sensor)
    ensures DiscoveryFrame(d) == Frame(SUID_SERVICE, MSG_SUID_REQ, SuidPayload(SensorName(d)))
  {
  }

  lemma RearmKeeps(h: Hpd, d: Sensor)
    ensures KeepsClient(h, Rearmed(h, d)) && !Rearmed(h, d).done.At(d)
  {
  }

  lemma FrameOfInit(s: Suid)
    ensures InitFrame(s) == Frame(s, MSG_HANDSHAKE_INIT, HandshakePayload())
  {
  }

  lemma FrameOfConfig(s: Suid)
    ensures ConfigFrame(s) == Frame(s, MSG_HPD_CONFIG, HpdPayload())
  {
  }

  lemma DiscoveryFits(d: Sensor)
    ensures MIN_CAP <= |DiscoveryFrame(d)| <= 256
  {
    hide Frame, SuidPayload;
    SuidPayloadLengths(SensorName(d));
    FrameLength(SUID_SERVICE, MSG_SUID_REQ, SuidPayload(SensorName(d)));
  }

  /** The client's flags are as they were and no slot was cleared. */
  ghost predicate KeepsClient(h: Hpd, g: Hpd) {
    && g.flags.clientInitialized == h.flags.clientInitialized
    && g.flags.connected == h.flags.connected
    && g.flags.eventEnabled == h.flags.eventEnabled
    && (forall d :: h.suids.At(d).valid ==> g.suids.At(d).valid)
  }

  /** What other threads keep while op_lock is held: they take back no completion, and complete a
      discovery only with its SUID. */
  ghost predicate Rely(h: Hpd, g: Hpd) {
    && KeepsClient(h, g)
    && (forall d :: h.done.At(d) ==> g.done.At(d))
    && (h.done.ack ==> g.done.ack)
    && (forall d :: g.done.At(d) && !h.done.At(d) ==> g.suids.At(d).valid)
  }

  // ----- operations as the calls they make

  /** How a send ends. */
  datatype Ending = Unconnected | NoBuffer | NoTransaction | SendFailed | Unanswered | Answered(reply: Reply) {
    predicate Good() { Answered? && reply.Ok() }
  }

  function Exchange(message: seq<u8>, e: Ending): seq<Act> {
    match e
    case Unconnected => []
    case NoBuffer => [Allocated(false)]
    case NoTransaction => [Allocated(true), TxnInit(false)]
    case SendFailed => [Allocated(true), TxnInit(true), Sent(message, false)]
    case Unanswered => [Allocated(true), TxnInit(true), Sent(message, true), Replied(None)]
    case Answered(reply) => [Allocated(true), TxnInit(true), Sent(message, true), Replied(Some(reply))]
  }

  function SendResult(e: Ending): (r: Result)
    ensures r == Done <==> e.Good()
  {
    match e
    case Unconnected => NotConnected
    case NoBuffer => NoMemory
    case NoTransaction => Transport
    case SendFailed => Transport
    case Unanswered => Transport
    case Answered(reply) => if reply.Ok() then Done else Rejected
  }

  /** A discovery: its request, and when that is answered well, a wait for the SUID. */
  datatype Search = Search(e: Ending, found: bool)

  function Searching(d: Sensor, x: Search): seq<Act> {
    Exchange(DiscoveryFrame(d), x.e) + if x.e.Good() then [Waited(x.found)] else []
  }

  function SearchResult(x: Search): Result {
    if !x.e.Good() then SendResult(x.e) else if x.found then Done else TimedOut
  }

  datatype Searches = Searches(handshake: Search, presence: Search, face: Search)

  /** All three, each whether or not the one before it succeeded. */
  function SearchingAll(x: Searches): seq<Act> {
    Searching(CameraHandshake, x.handshake) + Searching(HumanPresence, x.presence) + Searching(CameraFace, x.face)
  }

  /** A connection that was due. */
  datatype Connection = NoHandle | NoSocket | Made(x: Searches)

  function Connecting(c: Connection): seq<Act> {
    match c
    case NoHandle => [Opened(false)]
    case NoSocket => [Opened(true), Joined(false), Released]
    case Made(x) => [Opened(true), Joined(true)] + SearchingAll(x)
  }

  /** An enable attempt: the SUIDs it used, how its sends ended, whether the acknowledgement came, and the
      error read after it. */
  datatype Attempt = Attempt(s: Suid, first: Ending, found: bool, error: int, t: Suid, second: Ending)

  function Awaiting(found: bool, error: int): seq<Act> { if found then [Waited(true), ErrorRead(error)] else [Waited(false)] }

  function AwaitResult(found: bool, error: int): Result {
    if !found then TimedOut else if error != 0 then Refused else Done
  }

  function Shaking(x: Attempt): seq<Act> {
    Exchange(InitFrame(x.s), x.first) + if x.first.Good() then Awaiting(x.found, x.error) else []
  }

  function ShakeResult(x: Attempt): Result {
    if x.first.Good() then AwaitResult(x.found, x.error) else SendResult(x.first)
  }

  /** The configuration is sent only after a handshake that succeeded. */
  function Attempting(x: Attempt): seq<Act> {
    Shaking(x) + if ShakeResult(x) == Done then Exchange(ConfigFrame(x.t), x.second) else []
  }

  function AttemptResult(x: Attempt): Result {
    if ShakeResult(x) == Done then SendResult(x.second) else ShakeResult(x)
  }

  /** An attempt succeeds exactly when its handshake was sent and answered well, the acknowledgement came,
      the error read after that was zero, and then its configuration was sent and answered well: nothing
      else was done, and nothing of it left out. */
  lemma ActivationTakes(x: Attempt)
    ensures AttemptResult(x) == Done <==> x.first.Good() && x.found && x.error == 0 && x.second.Good()
    ensures AttemptResult(x) == Done ==>
              Attempting(x) ==
              [Allocated(true), TxnInit(true), Sent(InitFrame(x.s), true), Replied(Some(x.first.reply)),
               Waited(true), ErrorRead(0),
               Allocated(true), TxnInit(true), Sent(ConfigFrame(x.t), true), Replied(Some(x.second.reply))]
  {
    hide InitFrame, ConfigFrame;
  }

  lemma KeepsReady(h: Hpd, g: Hpd)
    requires KeepsClient(h, g) && ReadyClient(h)
    ensures ReadyClient(g)
  {
    assert h.suids.At(CameraHandshake).valid && h.suids.At(HumanPresence).valid;
  }

  lemma KeepsFlags(h: Hpd, g: Hpd)
    requires KeepsClient(h, g)
    ensures g.flags.clientInitialized == h.flags.clientInitialized
    ensures g.flags.connected == h.flags.connected && g.flags.eventEnabled == h.flags.eventEnabled
  {
  }

  lemma KeepsOnwards(h: Hpd, g: Hpd, k: Hpd)
    requires KeepsClient(h, g) && KeepsClient(g, k)
    ensures KeepsClient(h, k)
  {
    hide Suids.At;
  }

  lemma RelyOnwards(h: Hpd, g: Hpd, k: Hpd)
    requires Rely(h, g) && Rely(g, k)
    ensures Rely(h, k)
  {
    hide Suids.At, Completions.At;
  }

  lemma ReportIsRely(h: Hpd, data: seq<u8>)
    ensures Rely(h, ApplyAll(h, ReportEffects(data)))
  {
    hide ApplyAll, Effects, Received, Suids.At, Completions.At;
    if 1 <= |data| <= DATA_MAX {
      ReportKeeps(h, Received(data));
    } else {
      assert ApplyAll(h, []) == h by { NoEvents(h); NoEffects(); }
    }
  }

  lemma NoEffects()
    ensures Effects([]) == []
  {
  }

  class SscClient {
    const hpd: SscHpd
    /** Whether the QMI handle is live. */
    var live: bool
    /** Everything done so far. */
    ghost var trace: seq<Act>

    /** Between two operations. */
    ghost predicate Valid()
      reads this, hpd
    {
      && live == hpd.clientInitialized
      && (hpd.connected ==> hpd.clientInitialized)
      && (hpd.eventEnabled ==> ReadyClient(hpd.View()))
    }

    constructor ()
      ensures Valid() && fresh(hpd) && hpd.View() == PROBED && trace == []
    {
      hpd := new SscHpd();
      live, trace := false, [];
    }

    // ----- the library

    method HandleInit() returns (ok: bool)
      requires !live
      modifies `live, `trace
      ensures live == ok && trace == old(trace) + [Opened(ok)]
    {
      ok := *;
      live, trace := ok, trace + [Opened(ok)];
    }

    method HandleRelease()
      requires live
      modifies `live, `trace
      ensures !live && trace == old(trace) + [Released]
    {
      live, trace := false, trace + [Released];
    }

    method JoinSocket() returns (ok: bool)
      requires live
      modifies `trace
      ensures trace == old(trace) + [Joined(ok)]
    {
      ok := *;
      trace := trace + [Joined(ok)];
    }

    method Allocate() returns (ok: bool)
      modifies `trace
      ensures trace == old(trace) + [Allocated(ok)]
    {
      ok := *;
      trace := trace + [Allocated(ok)];
    }

    method InitTransaction() returns (ok: bool)
      requires live
      modifies `trace
      ensures trace == old(trace) + [TxnInit(ok)]
    {
      ok := *;
      trace := trace + [TxnInit(ok)];
    }

    method SendRequest(message: seq<u8>) returns (ok: bool)
      requires live
      modifies `trace
      ensures trace == old(trace) + [Sent(message, ok)]
    {
      ok := *;
      trace := trace + [Sent(message, ok)];
    }

    /** The reply that was decoded, if one came in time. */
    method WaitReply() returns (reply: Option<Reply>)
      modifies `trace
      ensures trace == old(trace) + [Replied(reply)]
    {
      reply := *;
      trace := trace + [Replied(reply)];
    }

    /** Any number of sections of other threads. */
    method Others()
      modifies hpd
      ensures Rely(old(hpd.View()), hpd.View())
      ensures hpd.clientInitialized == old(hpd.clientInitialized)
      ensures hpd.connected == old(hpd.connected)
      ensures hpd.eventEnabled == old(hpd.eventEnabled)
      ensures old(ReadyClient(hpd.View())) ==> ReadyClient(hpd.View())
    {
      hide Suids.At, Completions.At;
      var n: nat := *;
      ghost var h := hpd.View();
      while n > 0
        invariant Rely(h, hpd.View())
      {
        ghost var g := hpd.View();
        Other();
        RelyOnwards(h, g, hpd.View());
        n := n - 1;
      }
      if ReadyClient(h) { KeepsReady(h, hpd.View()); }
    }

    /** A report, a store of a callback in progress, a service change, a suspend, resume or remove. */
    method Other()
      modifies hpd
      ensures Rely(old(hpd.View()), hpd.View())
    {
      ghost var g := hpd.View();
      var which: nat := *;
      if which == 0 {
        var data: seq<u8> := *;
        ReportIsRely(g, data);
        hpd.ReportCallback(data);
      } else if which == 1 {
        var error: int := *;
        hpd.handshakeError := error;
      } else if which == 2 {
        hpd.handshakeAckDone := true;
      } else if which == 3 {
        var c := hpd.NewServer();
      } else if which == 4 {
        var c := hpd.DelServer();
      } else if which == 5 {
        hpd.BeginSuspend();
      } else if which == 6 {
        hpd.BeginResume();
      } else {
        hpd.BeginRemove();
      }
    }

    /** Waits for a sensor's discovery to complete, until a timeout. */
    method WaitFound(d: Sensor) returns (found: bool)
      modifies hpd, `trace
      ensures Rely(old(hpd.View()), hpd.View())
      ensures found == hpd.View().done.At(d) && trace == old(trace) + [Waited(found)]
    {
      Others();
      found := hpd.View().done.At(d);
      trace := trace + [Waited(found)];
    }

    /** Waits for the acknowledgement. */
    method WaitAck() returns (found: bool)
      requires ReadyClient(hpd.View())
      modifies hpd, `trace
      ensures Rely(old(hpd.View()), hpd.View()) && ReadyClient(hpd.View())
      ensures found == hpd.handshakeAckDone && trace == old(trace) + [Waited(found)]
    {
      Others();
      found := hpd.handshakeAckDone;
      trace := trace + [Waited(found)];
    }

    /** send_control: refuses unless connected; otherwise it makes its calls up to the first that fails,
        and succeeds exactly when a good reply was decoded. */
    method SendControl(data: array<u8>, len: nat) returns (r: Result, ghost e: Ending)
      requires len <= data.Length && (hpd.connected ==> live)
      modifies hpd, `trace
      ensures Rely(old(hpd.View()), hpd.View()) && unchanged(data)
      ensures old(ReadyClient(hpd.View())) ==> ReadyClient(hpd.View())
      ensures trace == old(trace) + Exchange(data[..len], e) && r == SendResult(e)
      ensures e == Unconnected <==> !old(hpd.connected) || len == 0 || len > DATA_MAX
      ensures e != Unconnected ==> live
    {
      if !hpd.connected || len == 0 || len > DATA_MAX { return NotConnected, Unconnected; }
      var ok := Allocate();
      if !ok { return NoMemory, NoBuffer; }
      ok := InitTransaction();
      if !ok { return Transport, NoTransaction; }
      ok := SendRequest(data[..len]);
      if !ok { return Transport, SendFailed; }
      Others();
      var reply := WaitReply();
      if reply == None { return Transport, Unanswered; }
      e := Answered(reply.value);
      if reply.value.result != 0 { return Rejected, e; }
      if reply.value.response != 0 { return Rejected, e; }
      r := Done;
    }

    // ----- operations under op_lock

    /** Discovers one sensor. A completion that is seen after re-arming means a valid slot, so the
        missing-device branch is never taken, nor the builder's refusal. */
    method DiscoverSuid(d: Sensor) returns (r: Result, ghost x: Search)
      requires hpd.connected ==> live
      modifies hpd, `trace
      ensures KeepsClient(old(hpd.View()), hpd.View())
      ensures trace == old(trace) + Searching(d, x) && r == SearchResult(x)
      ensures x.e == Unconnected <==> !old(hpd.connected)
      ensures x.e.Good() ==> (x.found <==> hpd.View().done.At(d))
      ensures r == Done ==> hpd.View().suids.At(d).valid
    {
      hide Frame, SuidPayload, SensorName, Exchange, DiscoveryFrame, ReadyClient;
      ghost var h0 := hpd.View();
      hpd.RearmDiscovery(d);
      ghost var h := hpd.View();
      RearmKeeps(h0, d);
      var data := new u8[256];
      var len := BuildSuidRequest(data, 256, SensorName(d));
      DiscoveryFits(d);
      FrameOfDiscovery(d);
      if len == 0 { assert false; }
      ghost var e;
      r, e := SendControl(data, len);
      x := Search(e, false);
      if r != Done { return; }
      ghost var g := hpd.View();
      var found := WaitFound(d);
      x := Search(e, found);
      RelyOnwards(h, g, hpd.View());
      if !found { return TimedOut, x; }
      r := if hpd.View().suids.At(d).valid then Done else NoDevice;
    }

    /** Activates presence. It succeeds exactly when events are enabled afterwards. When they are not
        already and the client is ready, it makes the calls of an attempt with two valid SUIDs on a
        connected client, and its result is the one they tell. */
    method EnableHpd() returns (r: Result, ghost x: Attempt)
      requires Valid()
      modifies hpd, `trace
      ensures Valid()
      ensures r == Done <==> hpd.eventEnabled
      ensures match EnableGate(old(hpd.View()))
              case AlreadyEnabled => r == Done && trace == old(trace)
              case NotReady => r == Again && trace == old(trace)
              case Ready => AttemptOn(x) && trace == old(trace) + Attempting(x) && r == AttemptResult(x)
    {
      hide Attempting, AttemptResult, AttemptOn, KeepsClient, Suids.At, Completions.At;
      x := Attempt(NO_SUID, Unconnected, false, 0, NO_SUID, Unconnected);
      var gate := hpd.BeginAttempt();
      if gate == AlreadyEnabled { return Done, x; }
      if gate == Gate.NotReady { return Again, x; }
      ghost var h := hpd.View();
      r, x := RunAttempt();
      KeepsFlags(h, hpd.View());
      if r != Done { return; }
      Others();
      hpd.eventEnabled := true;
    }

    /** Both SUIDs are valid and no send was refused for want of a connection. */
    ghost predicate AttemptOn(x: Attempt) {
      x.s.valid && x.t.valid && x.first != Unconnected && x.second != Unconnected
    }

    /** An attempt past its gate. */
    method RunAttempt() returns (r: Result, ghost x: Attempt)
      requires live && ReadyClient(hpd.View())
      modifies hpd, `trace
      ensures KeepsClient(old(hpd.View()), hpd.View()) && ReadyClient(hpd.View())
      ensures AttemptOn(x) && trace == old(trace) + Attempting(x) && r == AttemptResult(x)
    {
      hide InitFrame, ConfigFrame, Exchange, Shaking, ShakeResult, KeepsClient;
      ghost var h := hpd.View();
      r, x := Handshake();
      if r != Done { return; }
      ghost var g := hpd.View();
      ghost var t, second, y;
      r, t, second := Configure();
      KeepsOnwards(h, g, hpd.View());
      y := x.(t := t, second := second);
      assert Shaking(y) == Shaking(x) && ShakeResult(y) == ShakeResult(x) by { SameShake(x, t, second); }
      x := y;
    }

    /** The first half of an attempt: the handshake, and an acknowledgement without error. */
    method Handshake() returns (r: Result, ghost x: Attempt)
      requires live && ReadyClient(hpd.View())
      modifies hpd, `trace
      ensures KeepsClient(old(hpd.View()), hpd.View()) && ReadyClient(hpd.View())
      ensures AttemptOn(x) && trace == old(trace) + Shaking(x) && r == ShakeResult(x)
      ensures r == Done ==> hpd.handshakeAckDone && hpd.handshakeError == 0
    {
      hide InitFrame, Exchange, Awaiting, KeepsClient;
      ghost var h := hpd.View();
      ghost var s, first, found, error;
      r, s, first := SendInit();
      x := Attempt(s, first, false, 0, s, NoBuffer);
      if r != Done { return; }
      ghost var g := hpd.View();
      r, found, error := AwaitAck();
      x := x.(found := found, error := error);
      KeepsOnwards(h, g, hpd.View());
    }

    method SendInit() returns (r: Result, ghost s: Suid, ghost e: Ending)
      requires live && ReadyClient(hpd.View())
      modifies hpd, `trace
      ensures KeepsClient(old(hpd.View()), hpd.View()) && ReadyClient(hpd.View())
      ensures s.valid && e != Unconnected
      ensures trace == old(trace) + Exchange(InitFrame(s), e) && r == SendResult(e)
    {
      hide Frame, HandshakePayload, KeepsClient, InitFrame, Exchange;
      ghost var h := hpd.View();
      Others();
      ghost var g := hpd.View();
      var data := new u8[256];
      var suid := hpd.handshakeSuid;
      s := suid;
      var len := BuildHandshakeRequest(data, 256, suid);
      if len == 0 { assert false; }
      assert data[..len] == InitFrame(suid) by { FrameOfInit(suid); }
      r, e := SendControl(data, len);
      RelyOnwards(h, g, hpd.View());
    }

    /** Waits for the acknowledgement and reads the error that was stored. */
    method AwaitAck() returns (r: Result, ghost found: bool, ghost error: int)
      requires ReadyClient(hpd.View())
      modifies hpd, `trace
      ensures KeepsClient(old(hpd.View()), hpd.View()) && ReadyClient(hpd.View())
      ensures trace == old(trace) + Awaiting(found, error) && r == AwaitResult(found, error)
      ensures found <==> hpd.handshakeAckDone
      ensures found ==> error == hpd.handshakeError
    {
      hide KeepsClient;
      ghost var h := hpd.View();
      error := 0;
      var seen := WaitAck();
      found := seen;
      if !seen { return TimedOut, found, error; }
      ghost var g := hpd.View();
      Others();
      RelyOnwards(h, g, hpd.View());
      assert g.done.ack && hpd.handshakeAckDone;
      error := hpd.handshakeError;
      trace := trace + [ErrorRead(error)];
      r := if hpd.handshakeError != 0 then Refused else Done;
    }

    /** The second half: sends the configuration. */
    method Configure() returns (r: Result, ghost t: Suid, ghost e: Ending)
      requires live && ReadyClient(hpd.View())
      modifies hpd, `trace
      ensures KeepsClient(old(hpd.View()), hpd.View()) && ReadyClient(hpd.View())
      ensures t.valid && e != Unconnected
      ensures trace == old(trace) + Exchange(ConfigFrame(t), e) && r == SendResult(e)
    {
      hide Frame, HpdPayload, KeepsClient, ConfigFrame, Exchange;
      ghost var h := hpd.View();
      Others();
      ghost var g := hpd.View();
      var data := new u8[256];
      var suid := hpd.hpdSuid;
      t := suid;
      var len := BuildHpdRequest(data, 256, suid);
      if len == 0 { assert false; }
      assert data[..len] == ConfigFrame(suid) by { FrameOfConfig(suid); }
      r, e := SendControl(data, len);
      RelyOnwards(h, g, hpd.View());
    }

    /** Releases the client, exactly when there is one. */
    method DisconnectClient()
      requires Valid()
      modifies hpd, `live, `trace
      ensures Valid() && !live && !hpd.eventEnabled
      ensures trace == old(trace) + if old(live) then [Released] else []
    {
      var release := hpd.ClearForDisconnect();
      Others();
      if release { HandleRelease(); }
    }

    /** The connect work: leaves everything alone unless a connection was due. Otherwise it opens the
        client, joins the service and makes all three discoveries in order; a client that cannot join is
        released. Every result is the one its calls tell, and every discovery reported as done filled
        its slot. */
    method ConnectWork() returns (handshake: Result, presence: Result, face: Result, ghost c: Connection)
      requires Valid()
      modifies hpd, this
      ensures Valid()
      ensures !old(MayConnect(hpd.View())) ==> hpd.View() == old(hpd.View()) && live == old(live) && trace == old(trace)
      ensures old(MayConnect(hpd.View())) ==>
                && trace == old(trace) + Connecting(c)
                && live == hpd.connected == c.Made?
                && (handshake, presence, face) == ConnectResults(c)
                && (c.Made? ==> Tried(c.x))
      ensures live && handshake == Done ==> hpd.handshakeSuid.valid
      ensures live && presence == Done ==> hpd.hpdSuid.valid
      ensures live && face == Done ==> hpd.faceSuid.valid
    {
      hide Rely, Suids.At, SearchingAll, SearchResult, Tried;
      handshake, presence, face, c := NotConnected, NotConnected, NotConnected, NoHandle;
      var due := hpd.CheckConnect();
      if !due { return; }
      Others();
      var ok := HandleInit();
      if !ok { return; }
      ok := JoinService();
      if !ok {
        c := NoSocket;
        return;
      }
      ghost var x;
      handshake, presence, face, x := DiscoverAll();
      c := Made(x);
    }

    /** Joins the service with an open client, or releases it. */
    method JoinService() returns (ok: bool)
      requires live && !hpd.clientInitialized && !hpd.connected && !hpd.eventEnabled
      modifies hpd, `live, `trace
      ensures trace == old(trace) + if ok then [Joined(true)] else [Joined(false), Released]
      ensures live == hpd.clientInitialized == hpd.connected == ok && !hpd.eventEnabled
    {
      hide Rely, ReadyClient;
      Others();
      hpd.clientInitialized := true;
      Others();
      ok := JoinSocket();
      if !ok {
        hpd.FailConnect();
        Others();
        HandleRelease();
        return;
      }
      hpd.connected := true;
    }

    function ConnectResults(c: Connection): (Result, Result, Result) {
      if c.Made? then (SearchResult(c.x.handshake), SearchResult(c.x.presence), SearchResult(c.x.face))
      else (NotConnected, NotConnected, NotConnected)
    }

    /** No request was refused for want of a connection. */
    ghost predicate Tried(x: Searches) {
      x.handshake.e != Unconnected && x.presence.e != Unconnected && x.face.e != Unconnected
    }

    /** Each discovery runs whether or not the one before it succeeded. */
    method DiscoverAll() returns (handshake: Result, presence: Result, face: Result, ghost x: Searches)
      requires live && hpd.connected
      modifies hpd, `trace
      ensures KeepsClient(old(hpd.View()), hpd.View())
      ensures trace == old(trace) + SearchingAll(x) && Tried(x)
      ensures handshake == SearchResult(x.handshake) && presence == SearchResult(x.presence) && face == SearchResult(x.face)
      ensures handshake == Done ==> hpd.handshakeSuid.valid
      ensures presence == Done ==> hpd.hpdSuid.valid
      ensures face == Done ==> hpd.faceSuid.valid
    {
      hide Searching, SearchResult, Completions.At;
      ghost var first, second, third;
      handshake, first := DiscoverSuid(CameraHandshake);
      ghost var h1 := hpd.View();
      presence, second := DiscoverSuid(HumanPresence);
      ghost var h2 := hpd.View();
      face, third := DiscoverSuid(CameraFace);
      x := Searches(first, second, third);
      assert handshake == Done ==> h1.suids.At(CameraHandshake).valid && h2.suids.At(CameraHandshake).valid;
      assert hpd.View().suids.At(CameraHandshake) == hpd.handshakeSuid;
      assert presence == Done ==> h2.suids.At(HumanPresence).valid;
      assert hpd.View().suids.At(HumanPresence) == hpd.hpdSuid;
      assert hpd.View().suids.At(CameraFace) == hpd.faceSuid;
    }
  }

  lemma SameShake(x: Attempt, t: Suid, second: Ending)
    ensures Shaking(x.(t := t, second := second)) == Shaking(x)
    ensures ShakeResult(x.(t := t, second := second)) == ShakeResult(x)
  {
  }
}
