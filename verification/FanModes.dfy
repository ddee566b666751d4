/** The fan modes as values: what each section under mode_lock does to the driver's fields, given how
    the controller accesses inside it end. */
module FanModes {
  import opened Bytes
  import opened Wrappers

  const SPIN_FLOOR := 75
  const DEFAULT_CAP: int := 0x7fff_ffff
  const SAFETY_PERIOD_MS: nat := 2000
  const MAX_TEMP_FAILURES := 3

  datatype Profile = Quiet | Balanced | Performance | Custom

  datatype Result = Ok | Invalid | Busy | Unsupported | EcFailed

  /** `armed` is the time in ms until the safety monitor fires, when it is armed. */
  datatype Driver = Driver(
    manual: bool,
    shuttingDown: bool,
    failures: u32,
    profile: Profile,
    cap: int,
    armed: Option<nat>)

  const PROBED := Driver(false, false, 0, Balanced, DEFAULT_CAP, None)

  /** How the accesses of entering manual mode end: the mode, each fan, and the way back. */
  datatype Entering = Entering(mode: bool, left: bool, right: bool, back: bool)

  function Rearmed(d: Driver): Driver { d.(armed := Some(SAFETY_PERIOD_MS)) }
  function Uncapped(d: Driver): Driver { d.(cap := DEFAULT_CAP) }

  function LeaveManual(d: Driver, ok: bool): (Driver, Result) {
    if !d.manual then (d, Ok) else if ok then (d.(manual := false), Ok) else (d, EcFailed)
  }

  function EnterManual(d: Driver, pwm: u8, o: Entering): (Driver, Result) {
    if pwm < SPIN_FLOOR then (d, Invalid)
    else if !o.mode then (d, EcFailed)
    else if o.left && o.right then (d.(manual := true), Ok)
    else (d.(manual := false), EcFailed)
  }

  /** The module parameters an apply reads: the performance PWM is read three times, and anyone may
      write it in between. */
  datatype Params = Params(quietCap: i32, pwmLow: u32, pwmHigh: u32, pwmUsed: u32)

  function Applied(d: Driver, p: Profile): Driver {
    var e := d.(profile := p, failures := 0);
    if e.manual && !e.shuttingDown then Rearmed(e) else e.(armed := None)
  }

  function ApplyProfile(d: Driver, p: Profile, q: Params, leave: bool, o: Entering): (Driver, Result) {
    match p
    case Quiet =>
      var (e, r) := LeaveManual(d, leave);
      if r.Ok? then (Applied(e.(cap := q.quietCap), p), Ok) else (e, r)
    case Balanced =>
      var (e, r) := LeaveManual(d, leave);
      if r.Ok? then (Applied(Uncapped(e), p), Ok) else (e, r)
    case Performance =>
      if q.pwmLow < SPIN_FLOOR || q.pwmHigh > 255 then (d, Invalid)
      else
        var (e, r) := EnterManual(Uncapped(d), q.pwmUsed % 256, o);
        if r.Ok? then (Applied(e, p), Ok) else (e, r)
    case Custom => (d, Unsupported)
  }

  // ----- the safety monitor

  /** Temperatures in millidegrees; a zone that cannot be read gives none. */
  type i32 = x: int | -0x8000_0000 <= x < 0x8000_0000

  /** The highest of the readings, or None: also when the only readings are the smallest int, which
      the code uses to mean that there was none. */
  function Highest(readings: seq<Option<i32>>): (m: i32)
    ensures forall i :: 0 <= i < |readings| && readings[i].Some? ==> readings[i].value <= m
    ensures m == -0x8000_0000 || exists i :: 0 <= i < |readings| && readings[i] == Some(m)
  {
    if readings == [] then -0x8000_0000
    else
      var n := |readings| - 1;
      var m := Highest(readings[..n]);
      match readings[n]
      case Some(t) => if t > m then t else m
      case None => m
  }

  const ENODATA := 61

  /** What the monitor compares: a negative number when nothing could be read or it froze. */
  function Temperature(readings: seq<Option<i32>>): (t: int)
    ensures forall i :: 0 <= i < |readings| && readings[i].Some? && readings[i].value > -0x8000_0000 ==> readings[i].value <= t
    ensures t == -ENODATA || exists i :: 0 <= i < |readings| && readings[i] == Some(t)
    ensures (forall i :: 0 <= i < |readings| ==> readings[i].None?) ==> t == -ENODATA
  {
    var m := Highest(readings);
    if m == -0x8000_0000 then -ENODATA else m
  }

  function FailuresAfter(d: Driver, temp: int): u32 { if temp < 0 then (d.failures + 1) % TWO_32 else 0 }

  predicate MustFallBack(d: Driver, temp: int, trip: nat) {
    if temp < 0 then FailuresAfter(d, temp) >= MAX_TEMP_FAILURES else temp >= trip
  }

  /** Whether a tick looks at the temperature at all. */
  predicate TickActs(d: Driver) { d.manual && !d.shuttingDown }

  function SafetyTick(d: Driver, temp: int, trip: nat, leave: bool): Driver {
    if !TickActs(d) then d
    else
      var e := d.(failures := FailuresAfter(d, temp));
      if !MustFallBack(d, temp, trip) then Rearmed(e)
      else
        var (f, r) := LeaveManual(e, leave);
        if r.Ok? then Uncapped(f.(profile := Balanced)) else f
  }

  // ----- direct control

  datatype Attribute = PwmEnable | PwmInput | OtherPwm | NotPwm

  /** The accepted value nearest to the parameter. */
  function Clamped(pwm: u32): (v: u8)
    ensures 75 <= v && (v == pwm <==> 75 <= pwm <= 255)
    ensures v < pwm ==> v == 255
    ensures v > pwm ==> v == 75
  {
    if pwm < SPIN_FLOOR then SPIN_FLOOR else if pwm > 255 then 255 else pwm
  }

  function HwmonEnable(d: Driver, value: int, pwm: u32, leave: bool, o: Entering): (Driver, Result) {
    if value == 1 then
      var (e, r) := EnterManual(d, Clamped(pwm), o);
      (if r.Ok? then Uncapped(e.(profile := Custom)) else e, r)
    else if value == 2 then
      var (e, r) := LeaveManual(d, leave);
      (if r.Ok? then Uncapped(e.(profile := Balanced)) else e, r)
    else (d, Invalid)
  }

  function HwmonInput(d: Driver, value: int, stored: bool): (Driver, Result) {
    if value < 0 || value > 255 then (d, Invalid)
    else if !d.manual then (d, Busy)
    else if value < SPIN_FLOOR then (d, Invalid)
    else if stored then (Uncapped(d.(profile := Custom)), Ok)
    else (d, EcFailed)
  }

  /** How the accesses of a direct write end. */
  datatype Direct = Direct(leave: bool, entering: Entering, stored: bool)

  function HwmonWrite(d: Driver, a: Attribute, channel: nat, value: int, pwm: u32, o: Direct): (Driver, Result) {
    if a.NotPwm? || channel >= 2 then (d, Unsupported)
    else
      var (e, r) :=
        if a.PwmEnable? && channel == 0 then HwmonEnable(d, value, pwm, o.leave, o.entering)
        else if a.PwmInput? then HwmonInput(d, value, o.stored)
        else (d, Unsupported);
      (if r.Ok? && e.manual then Rearmed(e) else e, r)
  }

  // ----- power management

  function Quiesced(d: Driver): Driver { Uncapped(d.(shuttingDown := true, manual := false)) }

  /** The profile that resume replays: not a custom one. */
  function Replayed(p: Profile): Profile { if p.Custom? then Balanced else p }

  // ----- what every section keeps

  /** A cap is in force only in the quiet profile under automatic control, and an armed monitor fires
      within its period. */
  predicate Sound(d: Driver) {
    && (d.cap != DEFAULT_CAP ==> d.profile.Quiet? && !d.manual)
    && (d.armed.Some? ==> d.armed.value <= SAFETY_PERIOD_MS)
  }

  /** Manual mode is entered exactly when the PWM is above the spin floor and the mode and both fans were
      written; a failure after the mode was written gives manual mode up, an earlier one changes nothing. */
  lemma EnterKeeps(d: Driver, pwm: u8, o: Entering)
    ensures var (e, r) := EnterManual(d, pwm, o);
            && (r.Ok? <==> pwm >= SPIN_FLOOR && o.mode && o.left && o.right)
            && (r.Invalid? <==> pwm < 75)
            && e == (if r.Ok? then d.(manual := true) else if pwm >= SPIN_FLOOR && o.mode then d.(manual := false) else d)
  {
  }

  /** Applying a profile: success selects it with its cap, restarts the failure count and arms the monitor
      exactly for manual mode in a driver that is not shutting down; failure never starts manual mode and
      keeps the profile, but a performance profile that gets past its range check has lifted the cap by
      then. */
  lemma ApplyKeeps(d: Driver, p: Profile, q: Params, leave: bool, o: Entering)
    requires Sound(d)
    ensures var (e, r) := ApplyProfile(d, p, q, leave, o);
            && Sound(e) && e.shuttingDown == d.shuttingDown
            && (r.Ok? ==> e.profile == p && e.failures == 0 && e.manual == (p == Performance)
                          && e.cap == (if p == Quiet then q.quietCap else DEFAULT_CAP)
                          && e.armed == if e.manual && !d.shuttingDown then Some(2000) else None)
            && (!r.Ok? ==> e.profile == d.profile && e.failures == d.failures && e.armed == d.armed
                           && (e.manual ==> d.manual)
                           && e.cap == if p == Performance && q.pwmLow >= SPIN_FLOOR && q.pwmHigh <= 255
                                       then DEFAULT_CAP else d.cap)
  {
    match p {
      case Quiet =>
      case Balanced =>
      case Performance =>
      case Custom =>
    }
  }

  /** A tick: falling back ends automatic, balanced and uncapped when the mode write succeeds, and else
      leaves manual mode unwatched; a tick that need not fall back re-arms. */
  lemma TickKeeps(d: Driver, temp: int, trip: nat, leave: bool)
    requires Sound(d)
    ensures var e := SafetyTick(d, temp, trip, leave);
            && Sound(e) && e.shuttingDown == d.shuttingDown
            && (!TickActs(d) ==> e == d)
            && (TickActs(d) ==> e.failures == FailuresAfter(d, temp))
            && (TickActs(d) && MustFallBack(d, temp, trip) && leave ==>
                  !e.manual && e.profile == Balanced && e.cap == DEFAULT_CAP && e.armed == d.armed)
            && (TickActs(d) && MustFallBack(d, temp, trip) && !leave ==>
                  e.manual && e.profile == d.profile && e.armed == d.armed)
            && (TickActs(d) && !MustFallBack(d, temp, trip) ==>
                  e.manual && e.profile == d.profile && e.armed == Some(SAFETY_PERIOD_MS))
  {
  }

  /** A direct write arms the monitor whenever it succeeds in manual mode, also when the driver is
      shutting down, and never touches the failure count. */
  lemma WriteKeeps(d: Driver, a: Attribute, channel: nat, value: int, pwm: u32, o: Direct)
    requires Sound(d)
    ensures var (e, r) := HwmonWrite(d, a, channel, value, pwm, o);
            && Sound(e) && e.shuttingDown == d.shuttingDown && e.failures == d.failures
            && (r.Ok? && e.manual ==> e.armed == Some(SAFETY_PERIOD_MS))
            && (!(r.Ok? && e.manual) ==> e.armed == d.armed)
            && (r.Ok? ==> e.cap == DEFAULT_CAP && e.manual == !(a.PwmEnable? && value == 2)
                          && e.profile == if a.PwmEnable? && value == 2 then Balanced else Custom)
            && (!r.Ok? ==> e.profile == d.profile && e.cap == d.cap && (e.manual ==> d.manual))
  {
    match a {
      case PwmEnable =>
      case PwmInput =>
      case OtherPwm =>
      case NotPwm =>
    }
  }

  /** When a direct write succeeds: the value is one the attribute takes, and every access it leads to
      does; enabling automatic control outside manual mode leads to none, and so always succeeds. */
  lemma WriteSucceeds(d: Driver, a: Attribute, channel: nat, value: int, pwm: u32, o: Direct)
    ensures HwmonWrite(d, a, channel, value, pwm, o).1.Ok? <==>
              || (a.PwmEnable? && channel == 0 && value == 1 && o.entering.mode && o.entering.left && o.entering.right)
              || (a.PwmEnable? && channel == 0 && value == 2 && (d.manual ==> o.leave))
              || (a.PwmInput? && channel < 2 && d.manual && SPIN_FLOOR <= value <= 255 && o.stored)
  {
    match a {
      case PwmEnable =>
      case PwmInput =>
      case OtherPwm =>
      case NotPwm =>
    }
  }
}
