/** The client's state (struct a14_ssc_hpd) as a value, and what each section that runs under the
    state lock does to it. Both the driver object and the interleaving model use these functions. */
module HpdState {
  import opened Bytes
  import opened Request
  import opened Report

  const ENOTCONN := 107
  const EINPROGRESS := 115

  /** One SUID per sensor. */
  datatype Suids = Suids(handshake: Suid, presence: Suid, face: Suid) {
    function At(d: Sensor): Suid {
      match d case CameraHandshake => handshake case HumanPresence => presence case CameraFace => face
    }

    function Put(d: Sensor, v: Suid): Suids {
      match d
      case CameraHandshake => Suids(v, presence, face)
      case HumanPresence => Suids(handshake, v, face)
      case CameraFace => Suids(handshake, presence, v)
    }
  }

  /** The completions: one per sensor, and the handshake's acknowledgement. */
  datatype Completions = Completions(handshake: bool, presence: bool, face: bool, ack: bool) {
    predicate At(d: Sensor) {
      match d case CameraHandshake => handshake case HumanPresence => presence case CameraFace => face
    }

    function Put(d: Sensor, v: bool): Completions {
      match d
      case CameraHandshake => Completions(v, presence, face, ack)
      case HumanPresence => Completions(handshake, v, face, ack)
      case CameraFace => Completions(handshake, presence, v, ack)
    }
  }

  datatype Flags = Flags(
    clientInitialized: bool,
    connected: bool,
    servicePresent: bool,
    suspended: bool,
    shuttingDown: bool,
    eventEnabled: bool)

  datatype Reading = Reading(presence: int, valid: bool)

  datatype Hpd = Hpd(flags: Flags, suids: Suids, done: Completions, handshakeError: int, reading: Reading)

  const NO_SUIDS := Suids(NO_SUID, NO_SUID, NO_SUID)

  const PROBED := Hpd(Flags(false, false, false, false, false, false), NO_SUIDS,
                      Completions(false, false, false, false), 0, Reading(0, false))

  // ----- sections of the lifecycle

  /** What disconnecting resets before it releases the client. */
  function Cleared(h: Hpd): Hpd {
    Hpd(h.flags.(connected := false, eventEnabled := false, clientInitialized := false), NO_SUIDS, h.done,
        -ENOTCONN, h.reading.(valid := false))
  }

  predicate MayConnect(h: Hpd) {
    h.flags.servicePresent && !h.flags.clientInitialized && !h.flags.suspended && !h.flags.shuttingDown
  }

  function Initialized(h: Hpd): Hpd { h.(flags := h.flags.(clientInitialized := true)) }
  function Connected(h: Hpd): Hpd { h.(flags := h.flags.(connected := true)) }
  function ConnectFailed(h: Hpd): Hpd { h.(flags := h.flags.(connected := false, clientInitialized := false)) }

  predicate Running(h: Hpd) { !h.flags.suspended && !h.flags.shuttingDown }

  predicate MayReconnect(h: Hpd) { h.flags.servicePresent && Running(h) }

  function Arrived(h: Hpd): Hpd { h.(flags := h.flags.(servicePresent := true)) }
  function Lost(h: Hpd): Hpd { h.(flags := h.flags.(servicePresent := false)) }
  function Suspended(h: Hpd): Hpd { h.(flags := h.flags.(suspended := true)) }
  function Resumed(h: Hpd): Hpd { h.(flags := h.flags.(suspended := false)) }
  function Removing(h: Hpd): Hpd { h.(flags := h.flags.(shuttingDown := true, suspended := true)) }

  datatype Gate = AlreadyEnabled | NotReady | Ready

  function EnableGate(h: Hpd): Gate {
    if h.flags.eventEnabled then AlreadyEnabled
    else if !h.flags.connected || !h.suids.handshake.valid || !h.suids.presence.valid then NotReady
    else Ready
  }

  /** A client that can be activated: connected, with both SUIDs an activation needs. */
  predicate ReadyClient(h: Hpd) { h.flags.connected && h.suids.handshake.valid && h.suids.presence.valid }

  /** An attempt starts with the acknowledgement re-armed and then the error marked pending. */
  function AckRearmed(h: Hpd): Hpd { h.(done := h.done.(ack := false)) }
  function AttemptMarking(h: Hpd): Hpd { h.(handshakeError := -EINPROGRESS) }

  function Activated(h: Hpd): Hpd { h.(flags := h.flags.(eventEnabled := true)) }

  function Rearmed(h: Hpd, d: Sensor): Hpd { h.(done := h.done.Put(d, false)) }

  // ----- what suspend, resume, remove and a failed connection come to

  /** A suspended driver neither connects nor reconnects; resuming restores it exactly, and lets it run
      again exactly when it is not being removed. */
  lemma SuspendResume(h: Hpd)
    ensures !Running(Suspended(h)) && !MayConnect(Suspended(h)) && !MayReconnect(Suspended(h))
    ensures !h.flags.suspended ==> Resumed(Suspended(h)) == h
    ensures Running(Resumed(h)) <==> !h.flags.shuttingDown
    ensures MayReconnect(Resumed(h)) <==> h.flags.servicePresent && !h.flags.shuttingDown
  {
  }

  /** A failed connection leaves the driver as it was before the client was initialised. */
  lemma FailedConnection(h: Hpd)
    requires MayConnect(h) && !h.flags.connected
    ensures ConnectFailed(Initialized(h)) == h
  {
  }

  /** The sections that any thread can run. */
  datatype Section =
    | Clear | Initialize | Connect | FailConnection | Arrive | Lose | Suspend | Resume | Remove
    | RearmAck | MarkAttempt | Activate | Rearm(d: Sensor) | Receive(e: Effect)

  function Perform(h: Hpd, s: Section): Hpd {
    match s
    case Clear => Cleared(h)
    case Initialize => Initialized(h)
    case Connect => Connected(h)
    case FailConnection => ConnectFailed(h)
    case Arrive => Arrived(h)
    case Lose => Lost(h)
    case Suspend => Suspended(h)
    case Resume => Resumed(h)
    case Remove => Removing(h)
    case RearmAck => AckRearmed(h)
    case MarkAttempt => AttemptMarking(h)
    case Activate => Activated(h)
    case Rearm(d) => Rearmed(h, d)
    case Receive(e) => ApplyEffect(h, e)
  }

  function PerformAll(h: Hpd, ss: seq<Section>): Hpd
    decreases ss
  {
    if ss == [] then h else PerformAll(Perform(h, ss[0]), ss[1..])
  }

  /** A removal is final: after its section no sequence of sections, resumes included, lets the driver
      run, connect or reconnect. */
  lemma RemovalIsFinal(h: Hpd, ss: seq<Section>)
    ensures var g := PerformAll(Removing(h), ss); !Running(g) && !MayConnect(g) && !MayReconnect(g)
  {
    StaysRemoved(Removing(h), ss);
  }

  lemma {:induction false} StaysRemoved(h: Hpd, ss: seq<Section>)
    requires h.flags.shuttingDown
    ensures PerformAll(h, ss).flags.shuttingDown
    decreases ss
  {
    if ss != [] { StaysRemoved(Perform(h, ss[0]), ss[1..]); }
  }

  // ----- effects of received events

  function ApplyEffect(h: Hpd, e: Effect): Hpd {
    match e
    case NoEffect => h
    case FoundSuid(d, suid) => h.(suids := h.suids.Put(d, suid), done := h.done.Put(d, true))
    case HandshakeAck(error) => h.(handshakeError := error, done := h.done.(ack := true))
    case Presence(v) => h.(reading := Reading(v, true))
  }

  function ApplyAll(h: Hpd, es: seq<Effect>): Hpd
    decreases es
  {
    if es == [] then h else ApplyAll(ApplyEffect(h, es[0]), es[1..])
  }

  lemma {:induction false} ApplyAppend(h: Hpd, a: seq<Effect>, b: seq<Effect>)
    ensures ApplyAll(h, a + b) == ApplyAll(ApplyAll(h, a), b)
    decreases a
  {
    if a == [] {
      assert a + b == b;
    } else {
      ApplyAppend(ApplyEffect(h, a[0]), a[1..], b);
      assert (a + b)[1..] == a[1..] + b;
    }
  }

  const DATA_MAX := 1024

  /** The effects of one received report; the callback drops empty and oversized ones. */
  function ReportEffects(data: seq<u8>): seq<Effect> {
    if 1 <= |data| <= DATA_MAX then Effects(Received(data)) else []
  }

  /** A report keeps valid slots valid, takes back no completion, completes a discovery only by filling its slot with a valid
      SUID, and touches no lifecycle flag. */
  ghost predicate ReportStep(h: Hpd, g: Hpd) {
    && (forall d :: h.suids.At(d).valid ==> g.suids.At(d).valid)
    && (forall d :: h.done.At(d) ==> g.done.At(d))
    && (h.done.ack ==> g.done.ack)
    && (forall d :: g.done.At(d) && !h.done.At(d) ==> g.suids.At(d).valid)
    && g.flags == h.flags
  }

  lemma EventKeeps(h: Hpd, ev: Event)
    ensures ReportStep(h, ApplyEffect(h, EffectOf(ev)))
  {
    hide EffectOf;
    if EffectOf(ev).FoundSuid? { FoundSuidIsValid(ev); }
  }

  lemma {:induction false} ReportKeeps(h: Hpd, evs: seq<Event>)
    ensures ReportStep(h, ApplyAll(h, Effects(evs)))
    decreases evs
  {
    if evs != [] {
      hide EffectOf, ApplyEffect;
      var mid := ApplyEffect(h, EffectOf(evs[0]));
      EventKeeps(h, evs[0]);
      ReportKeeps(mid, evs[1..]);
      assert Effects(evs)[1..] == Effects(evs[1..]);
    }
  }
}
