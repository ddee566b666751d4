/** Runs of the fan driver: sections under mode_lock in any order, the timed safety monitor, suspend,
    resume and removal, with every controller access ending either way. */
module FanRuns {
  import opened Wrappers
  import opened Bytes
  import opened FanModes

  /** What last happened to the monitor. */
  datatype Cause = Armed | CancelledByPm | FallbackFailed | CancelledByProfile | Started

  datatype PmPhase = NoPm | Suspending | Resuming(profile: Profile) | Quiescing | Gone

  /** What a tick saw, or that a profile was applied. */
  datatype Event = GoodTick | BadTick | ProfileApplied

  /** `running`: a tick has started and waits for mode_lock. */
  datatype Fan = Fan(d: Driver, running: bool, pm: PmPhase, cause: Cause, history: seq<Event>)

  const START := Fan(FanModes.PROBED, false, NoPm, CancelledByProfile, [])

  datatype Label =
    | Elapse(ms: nat)
    | TickStarts
    | TickRuns(temp: int, trip: nat, leave: bool)
    | Apply(profile: Profile, q: Params, leave: bool, o: Entering)
    | Write(a: Attribute, channel: nat, value: int, pwm: u32, direct: Direct)
    | SuspendCancels | SuspendLeaves(leave: bool)
    | ResumeReads | ResumeApplies(q: Params, leave: bool, o: Entering)
    | QuiesceCancels | QuiesceRuns

  predicate Enabled(s: Fan, l: Label) {
    match l
    case TickStarts => s.d.armed == Some(0) && !s.running
    case TickRuns(_, _, _) => s.running
    case SuspendCancels => s.pm.NoPm? && !s.running
    case SuspendLeaves(_) => s.pm.Suspending?
    case ResumeReads => s.pm.NoPm?
    case ResumeApplies(_, _, _) => s.pm.Resuming?
    case QuiesceCancels => s.pm.NoPm? && !s.running
    case QuiesceRuns => s.pm.Quiescing?
    case _ => true
  }

  function Later(armed: Option<nat>, ms: nat): Option<nat> {
    match armed case None => None case Some(t) => Some(if t > ms then t - ms else 0)
  }

  function ApplyStep(s: Fan, p: Profile, q: Params, leave: bool, o: Entering): Fan {
    var (d, r) := ApplyProfile(s.d, p, q, leave, o);
    if r.Ok? then
      s.(d := d, cause := if d.armed.Some? then Armed else CancelledByProfile, history := s.history + [ProfileApplied])
    else s.(d := d)
  }

  function TickStep(s: Fan, temp: int, trip: nat, leave: bool): Fan {
    var d := SafetyTick(s.d, temp, trip, leave);
    s.(d := d,
       running := false,
       cause := if !TickActs(s.d) then s.cause
                else if !MustFallBack(s.d, temp, trip) then Armed
                else if leave then s.cause else FallbackFailed,
       history := if TickActs(s.d) then s.history + [if temp < 0 then BadTick else GoodTick] else s.history)
  }

  function WriteStep(s: Fan, a: Attribute, channel: nat, value: int, pwm: u32, o: Direct): Fan {
    var (d, r) := HwmonWrite(s.d, a, channel, value, pwm, o);
    s.(d := d, cause := if r.Ok? && d.manual then Armed else s.cause)
  }

  function Cancelled(s: Fan): Fan { s.(d := s.d.(armed := None), cause := CancelledByPm) }

  function Exec(s: Fan, l: Label): Fan
    requires Enabled(s, l)
  {
    match l
    case Elapse(ms) => s.(d := s.d.(armed := Later(s.d.armed, ms)))
    case TickStarts => s.(d := s.d.(armed := None), running := true, cause := Started)
    case TickRuns(temp, trip, leave) => TickStep(s, temp, trip, leave)
    case Apply(p, q, leave, o) => ApplyStep(s, p, q, leave, o)
    case Write(a, channel, value, pwm, o) => WriteStep(s, a, channel, value, pwm, o)
    case SuspendCancels => Cancelled(s).(pm := Suspending)
    case SuspendLeaves(leave) => s.(d := LeaveManual(s.d, leave).0, pm := NoPm)
    case ResumeReads => s.(pm := Resuming(Replayed(s.d.profile)))
    case ResumeApplies(q, leave, o) => ApplyStep(s, s.pm.profile, q, leave, o).(pm := NoPm)
    case QuiesceCancels => Cancelled(s).(pm := Quiescing)
    case QuiesceRuns => s.(d := Quiesced(s.d), pm := Gone)
  }

  function Run(s: Fan, ls: seq<Label>): Option<Fan>
    decreases ls
  {
    if ls == [] then Some(s)
    else if Enabled(s, ls[0]) then Run(Exec(s, ls[0]), ls[1..])
    else None
  }

  // ----- what every run keeps

  /** The failed ticks since the last good reading or applied profile. */
  function Streak(history: seq<Event>): nat {
    if history == [] || history[|history| - 1] != BadTick then 0 else 1 + Streak(history[..|history| - 1])
  }

  /** Manual mode is watched: the monitor is armed or a tick is waiting, unless power management
      cancelled it or its last fallback failed. */
  predicate Watched(s: Fan) {
    s.d.manual && !s.d.shuttingDown ==> s.d.armed.Some? || s.running || s.cause.CancelledByPm? || s.cause.FallbackFailed?
  }

  ghost predicate Inv(s: Fan) {
    && Sound(s.d) && Watched(s)
    && s.d.failures == Streak(s.history) % TWO_32
    && (s.d.shuttingDown ==> s.pm.Gone?)
  }

  lemma AppendStreak(history: seq<Event>, e: Event)
    ensures Streak(history + [e]) == if e.BadTick? then Streak(history) + 1 else 0
  {
    assert (history + [e])[..|history|] == history;
  }

  lemma ApplyStepKeeps(s: Fan, p: Profile, q: Params, leave: bool, o: Entering)
    requires Inv(s)
    ensures Inv(ApplyStep(s, p, q, leave, o)) && ApplyStep(s, p, q, leave, o).d.shuttingDown == s.d.shuttingDown
  {
    hide ApplyProfile, Streak, Sound;
    ApplyKeeps(s.d, p, q, leave, o);
    AppendStreak(s.history, ProfileApplied);
  }

  lemma TickStepKeeps(s: Fan, temp: int, trip: nat, leave: bool)
    requires Inv(s) && s.running
    ensures Inv(TickStep(s, temp, trip, leave))
  {
    hide SafetyTick, MustFallBack, Streak, Sound;
    TickKeeps(s.d, temp, trip, leave);
    AppendStreak(s.history, if temp < 0 then BadTick else GoodTick);
  }

  lemma WriteStepKeeps(s: Fan, a: Attribute, channel: nat, value: int, pwm: u32, o: Direct)
    requires Inv(s)
    ensures Inv(WriteStep(s, a, channel, value, pwm, o))
  {
    hide HwmonWrite, Streak, Sound;
    WriteKeeps(s.d, a, channel, value, pwm, o);
  }

  lemma StepKeeps(s: Fan, l: Label)
    requires Inv(s) && Enabled(s, l)
    ensures Inv(Exec(s, l))
  {
    hide ApplyStep, TickStep, WriteStep, Streak;
    match l {
      case Elapse(_) =>
      case TickStarts =>
      case TickRuns(temp, trip, leave) => TickStepKeeps(s, temp, trip, leave);
      case Apply(p, q, leave, o) => ApplyStepKeeps(s, p, q, leave, o);
      case Write(a, channel, value, pwm, o) => WriteStepKeeps(s, a, channel, value, pwm, o);
      case SuspendCancels =>
      case SuspendLeaves(_) =>
      case ResumeReads =>
      case ResumeApplies(q, leave, o) => ApplyStepKeeps(s, s.pm.profile, q, leave, o);
      case QuiesceCancels =>
      case QuiesceRuns =>
    }
  }

  lemma {:induction false} RunKeeps(s: Fan, ls: seq<Label>)
    requires Inv(s) && Run(s, ls).Some?
    ensures Inv(Run(s, ls).value)
    decreases ls
  {
    if ls != [] {
      hide Inv, Enabled, Exec;
      StepKeeps(s, ls[0]);
      RunKeeps(Exec(s, ls[0]), ls[1..]);
    }
  }

  lemma StartHolds()
    ensures Inv(START)
  {
  }

  /** In every state of every run: manual mode is watched, by a monitor that fires within its period;
      the failure counter is the streak of failed ticks, in 32 bits; a cap is in force only in the quiet
      profile under automatic control. */
  lemma EveryRun(ls: seq<Label>)
    requires Run(START, ls).Some?
    ensures var s := Run(START, ls).value;
            && Watched(s)
            && (s.d.armed.Some? ==> s.d.armed.value <= SAFETY_PERIOD_MS)
            && s.d.failures == Streak(s.history) % TWO_32
            && (s.d.cap != DEFAULT_CAP ==> s.d.profile.Quiet? && !s.d.manual)
  {
    hide Run;
    StartHolds();
    RunKeeps(START, ls);
  }

  // ----- what a tick decides

  /** In every run, a tick that looks at the temperature falls back exactly when the reading is at or
      above the trip point, or when this reading failed too and makes at least three failed ones in a
      row since the last good reading or applied profile. Falling back ends automatic, balanced and
      uncapped when the mode write succeeds; when it fails the driver stays in manual mode and nothing
      re-arms the monitor. Not falling back re-arms it. */
  lemma TickDecides(ls: seq<Label>, temp: int, trip: nat, leave: bool)
    requires Run(START, ls).Some? && Run(START, ls).value.running && TickActs(Run(START, ls).value.d)
    ensures var s := Run(START, ls).value;
            var t := Exec(s, TickRuns(temp, trip, leave));
            var row := Streak(t.history);
            var fallback := if temp < 0 then row % TWO_32 >= MAX_TEMP_FAILURES else temp >= trip;
            && row == (if temp < 0 then Streak(s.history) + 1 else 0)
            && (fallback && leave ==> !t.d.manual && t.d.profile == Balanced && t.d.cap == DEFAULT_CAP)
            && (fallback && !leave ==> t.d.manual && t.d.armed == s.d.armed && t.cause == FallbackFailed)
            && (!fallback ==> t.d.manual && t.d.armed == Some(SAFETY_PERIOD_MS))
  {
    hide Run, SafetyTick, Streak;
    EveryRun(ls);
    var s := Run(START, ls).value;
    StartHolds();
    RunKeeps(START, ls);
    TickKeeps(s.d, temp, trip, leave);
    AppendStreak(s.history, if temp < 0 then BadTick else GoodTick);
    SuccessorMod(Streak(s.history));
  }

  lemma SuccessorMod(n: nat)
    ensures (n % TWO_32 + 1) % TWO_32 == (n + 1) % TWO_32
  {
  }

  // ----- how applying a profile can end

  /** All three writes of entering manual mode succeed. */
  predicate Entered(o: Entering) { o.mode && o.left && o.right }

  /** The mode was written but a fan was not: manual mode is given up. */
  predicate HalfEntered(o: Entering) { o.mode && !(o.left && o.right) }

  predicate PwmAccepted(q: Params) { q.pwmLow >= SPIN_FLOOR && q.pwmHigh <= 255 && q.pwmUsed % 256 >= SPIN_FLOOR }

  predicate ProfileStarts(p: Profile, q: Params, o: Entering) { p == Performance && PwmAccepted(q) && Entered(o) }

  predicate ProfileStops(p: Profile, q: Params, leave: bool, o: Entering) {
    ((p == Quiet || p == Balanced) && leave) || (p == Performance && PwmAccepted(q) && HalfEntered(o))
  }

  // ----- how long it can take

  /** Steps that set the monitor to its full period. */
  predicate Rearms(s: Fan, l: Label) {
    match l
    case Apply(p, q, _, o) => ProfileStarts(p, q, o) && !s.d.shuttingDown
    case ResumeApplies(q, _, o) => s.pm.Resuming? && ProfileStarts(s.pm.profile, q, o) && !s.d.shuttingDown
    case Write(a, channel, value, _, d) =>
      || (a.PwmEnable? && channel == 0 && value == 1 && Entered(d.entering))
      || (a.PwmInput? && channel < 2 && s.d.manual && SPIN_FLOOR <= value <= 255 && d.stored)
    case TickRuns(temp, trip, _) => TickActs(s.d) && !MustFallBack(s.d, temp, trip)
    case _ => false
  }

  /** Steps that disarm it, or let it go off. */
  predicate Disarms(s: Fan, l: Label) {
    match l
    case Apply(p, q, leave, o) => ProfileDisarms(s.d, p, q, leave, o)
    case ResumeApplies(q, leave, o) => s.pm.Resuming? && ProfileDisarms(s.d, s.pm.profile, q, leave, o)
    case TickStarts => true
    case SuspendCancels => true
    case QuiesceCancels => true
    case _ => false
  }

  predicate ProfileDisarms(d: Driver, p: Profile, q: Params, leave: bool, o: Entering) {
    ((p == Quiet || p == Balanced) && (!d.manual || leave)) || (ProfileStarts(p, q, o) && d.shuttingDown)
  }

  /** What any step does to the monitor: re-arm it, disarm it, or leave it to time; the arguments of the
      step and how its accesses end tell which. */
  lemma MonitorChanges(s: Fan, l: Label)
    requires Enabled(s, l)
    ensures Exec(s, l).d.armed ==
            if Rearms(s, l) then Some(SAFETY_PERIOD_MS)
            else if Disarms(s, l) then None
            else Later(s.d.armed, if l.Elapse? then l.ms else 0)
  {
    hide ApplyProfile, HwmonWrite, MustFallBack, ProfileStarts, ProfileDisarms;
    match l {
      case Apply(p, q, leave, o) => ProfileMonitor(s.d, p, q, leave, o);
      case ResumeApplies(q, leave, o) => ProfileMonitor(s.d, s.pm.profile, q, leave, o);
      case Write(a, channel, value, pwm, o) => WriteMonitor(s.d, a, channel, value, pwm, o);
      case _ =>
    }
  }

  lemma ProfileMonitor(d: Driver, p: Profile, q: Params, leave: bool, o: Entering)
    ensures ApplyProfile(d, p, q, leave, o).0.armed ==
            if ProfileStarts(p, q, o) && !d.shuttingDown then Some(SAFETY_PERIOD_MS)
            else if ProfileDisarms(d, p, q, leave, o) then None else d.armed
  {
    hide EnterManual;
    EnterKeeps(Uncapped(d), q.pwmUsed % 256, o);
    match p {
      case Quiet =>
      case Balanced =>
      case Performance =>
      case Custom =>
    }
  }

  lemma WriteMonitor(d: Driver, a: Attribute, channel: nat, value: int, pwm: u32, o: Direct)
    ensures HwmonWrite(d, a, channel, value, pwm, o).0.armed ==
            if (a.PwmEnable? && channel == 0 && value == 1 && Entered(o.entering))
               || (a.PwmInput? && channel < 2 && d.manual && SPIN_FLOOR <= value <= 255 && o.stored)
            then Some(SAFETY_PERIOD_MS) else d.armed
  {
    hide EnterManual;
    EnterKeeps(d, Clamped(pwm), o.entering);
    match a {
      case PwmEnable =>
      case PwmInput =>
      case OtherPwm =>
      case NotPwm =>
    }
  }

  predicate Passive(s: Fan, l: Label) { !Rearms(s, l) && !Disarms(s, l) }

  predicate PassiveRun(s: Fan, ls: seq<Label>)
    decreases ls
  {
    ls == [] || (Enabled(s, ls[0]) && Passive(s, ls[0]) && PassiveRun(Exec(s, ls[0]), ls[1..]))
  }

  function Elapsed(ls: seq<Label>): nat {
    if ls == [] then 0 else (if ls[0].Elapse? then ls[0].ms else 0) + Elapsed(ls[1..])
  }

  lemma {:induction false} CountsDown(s: Fan, ls: seq<Label>)
    requires PassiveRun(s, ls)
    ensures Run(s, ls).Some? && Run(s, ls).value.d.armed == Later(s.d.armed, Elapsed(ls))
    decreases ls
  {
    if ls != [] {
      MonitorChanges(s, ls[0]);
      hide Exec, Enabled, Rearms, Disarms;
      CountsDown(Exec(s, ls[0]), ls[1..]);
      LaterTwice(s.d.armed, if ls[0].Elapse? then ls[0].ms else 0, Elapsed(ls[1..]));
      hide Later;
    }
  }

  lemma LaterTwice(armed: Option<nat>, a: nat, b: nat)
    ensures Later(Later(armed, a), b) == Later(armed, a + b)
  {
  }

  /** An armed monitor that nobody touches counts down, and is due exactly when the time that was left has
      passed: after its period at the latest. */
  lemma DueWithinPeriod(s: Fan, ls: seq<Label>)
    requires Sound(s.d) && s.d.armed.Some? && PassiveRun(s, ls)
    ensures Run(s, ls).Some? && Run(s, ls).value.d.armed == Later(s.d.armed, Elapsed(ls))
    ensures Run(s, ls).value.d.armed == Some(0) <==> Elapsed(ls) >= s.d.armed.value
    ensures Elapsed(ls) >= SAFETY_PERIOD_MS ==> Run(s, ls).value.d.armed == Some(0)
  {
    CountsDown(s, ls);
  }

  /** A direct write every second. */
  function Postponing(n: nat): seq<Label> {
    if n == 0 then []
    else [Write(PwmInput, 0, 200, 0, Direct(true, Entering(true, true, true, true), true)), Elapse(1000)]
         + Postponing(n - 1)
  }

  /** The period is counted from the last arming: direct writes that keep coming postpone the tick for
      as long as they do, so that manual mode runs for any length of time with no reading taken. */
  lemma {:induction false} WritesPostponeTicks(s: Fan, n: nat)
    requires s.d.manual
    ensures var r := Run(s, Postponing(n));
            && r.Some? && Elapsed(Postponing(n)) == 1000 * n
            && r.value.d.manual && r.value.history == s.history && r.value.running == s.running
            && (n > 0 ==> r.value.d.armed == Some(1000))
    decreases n
  {
    if n > 0 {
      var ls := Postponing(n);
      var w := Exec(s, ls[0]);
      assert w.d.manual && w.d.armed == Some(2000);
      var t := Exec(w, ls[1]);
      assert ls[1..][0] == ls[1] && ls[1..][1..] == Postponing(n - 1);
      assert Run(s, ls) == Run(w, ls[1..]) == Run(t, Postponing(n - 1));
      WritesPostponeTicks(t, n - 1);
      if n == 1 { assert Postponing(0) == []; }
    }
  }

  // ----- when manual mode starts and stops

  predicate Starts(s: Fan, l: Label) {
    match l
    case Apply(p, q, _, o) => ProfileStarts(p, q, o)
    case ResumeApplies(q, _, o) => s.pm.Resuming? && ProfileStarts(s.pm.profile, q, o)
    case Write(a, channel, value, _, d) => a.PwmEnable? && channel == 0 && value == 1 && Entered(d.entering)
    case _ => false
  }

  predicate Stops(s: Fan, l: Label) {
    match l
    case Apply(p, q, leave, o) => ProfileStops(p, q, leave, o)
    case ResumeApplies(q, leave, o) => s.pm.Resuming? && ProfileStops(s.pm.profile, q, leave, o)
    case Write(a, channel, value, _, d) =>
      a.PwmEnable? && channel == 0 && ((value == 1 && HalfEntered(d.entering)) || (value == 2 && d.leave))
    case TickRuns(temp, trip, leave) => TickActs(s.d) && MustFallBack(s.d, temp, trip) && leave
    case SuspendLeaves(leave) => leave
    case QuiesceRuns => true
    case _ => false
  }

  /** After any step manual mode is on exactly when the step starts it, or it was on and the step does
      not stop it; both are told by the arguments of the step and how its accesses end. */
  lemma ManualChanges(s: Fan, l: Label)
    requires Enabled(s, l)
    ensures Exec(s, l).d.manual <==> Starts(s, l) || (s.d.manual && !Stops(s, l))
  {
    hide ApplyProfile, HwmonWrite, MustFallBack, ProfileStarts, ProfileStops;
    match l {
      case Apply(p, q, leave, o) => ProfileChanges(s.d, p, q, leave, o);
      case ResumeApplies(q, leave, o) => ProfileChanges(s.d, s.pm.profile, q, leave, o);
      case Write(a, channel, value, pwm, o) => WriteChanges(s.d, a, channel, value, pwm, o);
      case _ =>
    }
  }

  lemma ProfileChanges(d: Driver, p: Profile, q: Params, leave: bool, o: Entering)
    ensures ApplyProfile(d, p, q, leave, o).0.manual <==> ProfileStarts(p, q, o) || (d.manual && !ProfileStops(p, q, leave, o))
  {
    hide EnterManual;
    EnterKeeps(Uncapped(d), q.pwmUsed % 256, o);
    match p {
      case Quiet =>
      case Balanced =>
      case Performance =>
      case Custom =>
    }
  }

  lemma WriteChanges(d: Driver, a: Attribute, channel: nat, value: int, pwm: u32, o: Direct)
    ensures var enable := a.PwmEnable? && channel == 0;
            HwmonWrite(d, a, channel, value, pwm, o).0.manual <==>
              (enable && value == 1 && Entered(o.entering))
              || (d.manual && !(enable && ((value == 1 && HalfEntered(o.entering)) || (value == 2 && o.leave))))
  {
    hide EnterManual;
    EnterKeeps(d, Clamped(pwm), o.entering);
    match a {
      case PwmEnable =>
      case PwmInput =>
      case OtherPwm =>
      case NotPwm =>
    }
  }

  predicate ShutDown(s: Fan) { s.d.shuttingDown && s.pm.Gone? }

  lemma StaysShutDown(s: Fan, l: Label)
    requires ShutDown(s) && Enabled(s, l)
    ensures ShutDown(Exec(s, l)) && !TickActs(Exec(s, l).d)
  {
    match l {
      case Apply(p, _, _, _) => match p { case Quiet => case Balanced => case Performance => case Custom => }
      case Write(a, _, _, _, _) => match a { case PwmEnable => case PwmInput => case OtherPwm => case NotPwm => }
      case _ =>
    }
  }

  /** Some step of the run starts manual mode, and none after it stops it. In a driver that was shut
      down neither depends on the state. */
  ghost predicate LeftOn(s: Fan, ls: seq<Label>) { exists i :: LastStart(s, ls, i) }

  ghost predicate LastStart(s: Fan, ls: seq<Label>, i: nat) {
    i < |ls| && Starts(s, ls[i]) && NoStop(s, ls[i + 1..])
  }

  ghost predicate NoStop(s: Fan, ls: seq<Label>) { forall j :: 0 <= j < |ls| ==> !Stops(s, ls[j]) }

  ghost predicate NoStart(s: Fan, ls: seq<Label>) { forall j :: 0 <= j < |ls| ==> !Starts(s, ls[j]) }

  lemma SameWhenShutDown(s: Fan, t: Fan, l: Label)
    requires ShutDown(s) && ShutDown(t)
    ensures Starts(s, l) == Starts(t, l) && Stops(s, l) == Stops(t, l)
  {
  }

  lemma LeftOnFront(s: Fan, t: Fan, ls: seq<Label>)
    requires ShutDown(s) && ShutDown(t) && ls != []
    ensures LeftOn(s, ls) <==> LeftOn(t, ls[1..]) || (Starts(s, ls[0]) && NoStop(t, ls[1..]))
    ensures NoStop(s, ls) <==> !Stops(s, ls[0]) && NoStop(t, ls[1..])
    ensures NoStart(s, ls) <==> !Starts(s, ls[0]) && NoStart(t, ls[1..])
  {
    hide Starts, Stops;
    forall l: Label ensures Starts(s, l) == Starts(t, l) && Stops(s, l) == Stops(t, l) { SameWhenShutDown(s, t, l); }
    var rest := ls[1..];
    if i: nat :| LastStart(t, rest, i) {
      assert ls[i + 1] == rest[i] && ls[i + 2..] == rest[i + 1..];
      assert LastStart(s, ls, i + 1);
    }
    if Starts(s, ls[0]) && NoStop(t, rest) { assert LastStart(s, ls, 0); }
    if i: nat :| LastStart(s, ls, i) && i > 0 {
      assert ls[i] == rest[i - 1] && ls[i + 1..] == rest[i..];
      assert LastStart(t, rest, i - 1);
    }
    if NoStop(t, rest) && !Stops(s, ls[0]) {
      forall j | 0 <= j < |ls| ensures !Stops(s, ls[j]) { if j > 0 { assert ls[j] == rest[j - 1]; } }
    }
    if NoStop(s, ls) { forall j | 0 <= j < |rest| ensures !Stops(t, rest[j]) { assert rest[j] == ls[j + 1]; } }
    if NoStart(t, rest) && !Starts(s, ls[0]) {
      forall j | 0 <= j < |ls| ensures !Starts(s, ls[j]) { if j > 0 { assert ls[j] == rest[j - 1]; } }
    }
    if NoStart(s, ls) { forall j | 0 <= j < |rest| ensures !Starts(t, rest[j]) { assert rest[j] == ls[j + 1]; } }
  }

  lemma {:induction false} ManualWhileShutDown(s: Fan, ls: seq<Label>)
    requires ShutDown(s) && Run(s, ls).Some?
    ensures ShutDown(Run(s, ls).value)
    ensures Run(s, ls).value.d.manual <==> LeftOn(s, ls) || (s.d.manual && NoStop(s, ls))
    decreases ls
  {
    if ls != [] {
      var t := Exec(s, ls[0]);
      ManualChanges(s, ls[0]);
      StaysShutDown(s, ls[0]);
      hide Exec, Enabled, Starts, Stops, LeftOn, NoStop, NoStart;
      ManualWhileShutDown(t, ls[1..]);
      LeftOnFront(s, t, ls);
    }
  }

  lemma {:induction false} RunPrefix(s: Fan, ls: seq<Label>, k: nat)
    requires Run(s, ls).Some? && k <= |ls|
    ensures Run(s, ls[..k]).Some?
    decreases ls
  {
    if k > 0 {
      hide Exec, Enabled;
      assert ls[..k][1..] == ls[1..][..k - 1];
      RunPrefix(Exec(s, ls[0]), ls[1..], k - 1);
    }
  }

  /** Every run, from the section of a removal or shutdown on: the driver is in manual mode exactly when a
      later step started it and none after that stopped it; it stays out of manual mode throughout exactly
      when no step starts it; and whatever the mode, no tick looks at the temperature any more. */
  lemma AfterShutdown(ls: seq<Label>, more: seq<Label>)
    requires Run(START, ls).Some? && Run(START, ls).value.pm.Quiescing?
    requires var s := Exec(Run(START, ls).value, QuiesceRuns); Run(s, more).Some?
    ensures var s := Exec(Run(START, ls).value, QuiesceRuns);
            var t := Run(s, more).value;
            && (t.d.manual <==> LeftOn(s, more))
            && !TickActs(t.d)
            && (NoStart(s, more) <==> forall k :: 0 <= k <= |more| && Run(s, more[..k]).Some? ==> !Run(s, more[..k]).value.d.manual)
  {
    hide Run, Exec, Starts, Stops;
    var s0 := Run(START, ls).value;
    var s := Exec(s0, QuiesceRuns);
    assert ShutDown(s) && !s.d.manual by { ShutsDown(s0); }
    ManualWhileShutDown(s, more);
    forall k | 0 <= k <= |more| ensures Run(s, more[..k]).Some? {
      RunPrefix(s, more, k);
    }
    forall k | 0 <= k <= |more| ensures Run(s, more[..k]).value.d.manual <==> LeftOn(s, more[..k]) {
      ManualWhileShutDown(s, more[..k]);
    }
    if i :| 0 <= i < |more| && Starts(s, more[i]) {
      assert LastStart(s, more[..i + 1], i);
    }
    if k :| 0 <= k <= |more| && Run(s, more[..k]).Some? && Run(s, more[..k]).value.d.manual {
      var i: nat :| LastStart(s, more[..k], i);
      assert Starts(s, more[i]);
    }
  }

  lemma ShutsDown(s: Fan)
    requires s.pm.Quiescing?
    ensures ShutDown(Exec(s, QuiesceRuns)) && !Exec(s, QuiesceRuns).d.manual
  {
  }

  /** In particular a profile can still start manual mode after a shutdown, and nothing then watches it. */
  lemma ManualAfterShutdown(q: Params)
    requires PwmAccepted(q)
    ensures var on := Apply(Performance, q, true, Entering(true, true, true, true));
            var r := Run(START, [QuiesceCancels, QuiesceRuns, on]);
            r.Some? && r.value.d.manual && r.value.d.armed == None && !TickActs(r.value.d)
  {
    var on := Apply(Performance, q, true, Entering(true, true, true, true));
    var ls := [QuiesceCancels, QuiesceRuns, on];
    var s1 := Exec(START, ls[0]);
    var s2 := Exec(s1, ls[1]);
    var s3 := Exec(s2, ls[2]);
    assert ls[1..] == [ls[1], ls[2]] && [ls[1], ls[2]][1..] == [ls[2]] && [ls[2]][1..] == [];
    hide Exec, ApplyProfile;
    assert Run(s2, [ls[2]]) == Run(s3, []) == Some(s3);
    assert Run(s1, [ls[1], ls[2]]) == Run(s2, [ls[2]]);
    assert Run(START, ls) == Run(s1, [ls[1], ls[2]]);
  }

  // ----- over a sleep

  function Sleep(ms: nat, leave: bool, q: Params, back: bool, o: Entering): seq<Label> {
    [SuspendCancels, SuspendLeaves(leave), Elapse(ms), ResumeReads, ResumeApplies(q, back, o)]
  }

  lemma SleepRuns(s: Fan, ms: nat, leave: bool, q: Params, back: bool, o: Entering)
    requires s.pm.NoPm? && !s.running
    ensures var asleep := LeaveManual(s.d.(armed := None), leave).0;
            var (d, _) := ApplyProfile(asleep, Replayed(s.d.profile), q, back, o);
            Run(s, Sleep(ms, leave, q, back, o)).Some? && Run(s, Sleep(ms, leave, q, back, o)).value.d == d
  {
    hide ApplyProfile, Replayed;
    var ls := Sleep(ms, leave, q, back, o);
    var a := Exec(s, SuspendCancels);
    var b := Exec(a, SuspendLeaves(leave));
    var c := Exec(b, Elapse(ms));
    assert c.d == b.d;
    var d := Exec(c, ResumeReads);
    var e := Exec(d, ResumeApplies(q, back, o));
    assert Run(e, ls[5..]) == Some(e);
    assert ls[4..][1..] == ls[5..] && ls[3..][1..] == ls[4..] && ls[2..][1..] == ls[3..] && ls[1..][1..] == ls[2..];
    assert Run(d, ls[4..]) == Run(e, ls[5..]);
    assert Run(c, ls[3..]) == Run(d, ls[4..]);
    assert Run(b, ls[2..]) == Run(c, ls[3..]);
    assert Run(a, ls[1..]) == Run(b, ls[2..]);
  }

  /** A sleep with nothing else in between, of any length: a resume whose accesses succeed brings back the
      profile, its cap and its mode, whether or not suspend could leave manual mode, and watches manual
      mode; a custom PWM is not brought back but becomes the balanced profile. */
  lemma ResumeRestores(s: Fan, ms: nat, leave: bool, q: Params, o: Entering)
    requires s.pm.NoPm? && !s.running && Sound(s.d) && !s.d.shuttingDown
    requires s.d.profile == Performance ==> SPIN_FLOOR <= q.pwmLow && q.pwmHigh <= 255 && SPIN_FLOOR <= q.pwmUsed <= 255
    requires o.mode && o.left && o.right
    ensures var t := Run(s, Sleep(ms, leave, q, true, o));
            && t.Some?
            && var d := t.value.d;
               && d.profile == (match s.d.profile
                                case Quiet => Quiet case Balanced => Balanced
                                case Performance => Performance case Custom => Balanced)
               && d.manual == (s.d.profile == Performance)
               && d.cap == (if s.d.profile == Quiet then q.quietCap else DEFAULT_CAP)
               && d.armed == (if d.manual then Some(SAFETY_PERIOD_MS) else None)
               && d.failures == 0
  {
    SleepRuns(s, ms, leave, q, true, o);
    hide Run;
    var asleep := LeaveManual(s.d.(armed := None), leave).0;
    ApplyKeeps(asleep, Replayed(s.d.profile), q, true, o);
  }
}
