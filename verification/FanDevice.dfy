/** The fan driver object on top of the mailbox: every section under mode_lock, with the other callers
    of the mailbox running between its accesses. */
module FanDevice {
  import opened Wrappers
  import opened Bytes
  import opened Mailbox
  import opened FanModes

  /** An access under mode_lock and how it ended; with a PWM write goes whether the driver was in manual
      mode then. */
  datatype Access =
    | ModeWrite(mode: u8, ok: bool)
    | PwmWrite(fan: nat, value: u8, manual: bool, ok: bool)
    | TempRead(own: Option<i32>)

  predicate ModeWriteFailed(done: seq<Access>) { exists m: u8 :: ModeWrite(m, false) in done }

  /** Among the transfers since then is an access that ended so. */
  ghost predicate Accessed(before: seq<Xfer>, after: seq<Xfer>, ok: bool) {
    exists b, c: seq<Xfer> :: before <= b && Ends(b, c, ok) && c <= after
  }

  // ----- the accesses of each section, by how they end

  function Leaving(d: Driver, ok: bool): seq<Access> { if d.manual then [ModeWrite(FAN_MODE_AUTO, ok)] else [] }

  /** The mode, then the fans, and the way back unless both succeeded. */
  function EnteringAt(pwm: u8, o: Entering): seq<Access> {
    if pwm < SPIN_FLOOR then []
    else if !o.mode then [ModeWrite(FAN_MODE_MANUAL, false)]
    else
      var entered := [ModeWrite(FAN_MODE_MANUAL, true)] + DrivingAt(pwm, o.left, o.right);
      if o.left && o.right then entered else entered + [ModeWrite(FAN_MODE_AUTO, o.back)]
  }

  /** Each fan until one fails. */
  function DrivingAt(pwm: u8, left: bool, right: bool): seq<Access> {
    [PwmWrite(0, pwm, true, left)] + if left then [PwmWrite(1, pwm, true, right)] else []
  }

  function Applying(d: Driver, p: Profile, q: Params, leave: bool, o: Entering): seq<Access> {
    match p
    case Quiet => Leaving(d, leave)
    case Balanced => Leaving(d, leave)
    case Performance => if q.pwmLow < SPIN_FLOOR || q.pwmHigh > 255 then [] else EnteringAt(q.pwmUsed % 256, o)
    case Custom => []
  }

  /** A tick that acts reads the temperature, and writes automatic mode exactly when it must fall back. */
  function Ticking(d: Driver, zones: seq<Option<i32>>, own: Option<i32>, trip: nat, leave: bool): seq<Access> {
    if !TickActs(d) then []
    else if MustFallBack(d, Temperature(zones + [own]), trip) then [TempRead(own), ModeWrite(FAN_MODE_AUTO, leave)]
    else [TempRead(own)]
  }

  function Directing(d: Driver, a: Attribute, channel: nat, value: int, pwm: u32, o: Direct): seq<Access> {
    if a == PwmEnable && channel == 0 && value == 1 then EnteringAt(Clamped(pwm), o.entering)
    else if a == PwmEnable && channel == 0 && value == 2 then Leaving(d, o.leave)
    else if a == PwmInput && channel < NUM_FANS && d.manual && SPIN_FLOOR <= value <= 255 then
      [PwmWrite(channel, value, true, o.stored)]
    else []
  }

  /** The cell holds `v`, and will still once the controller has settled. */
  ghost predicate CellIs(e: Ec, q: Sensors, c: Cell, v: u8) {
    Value(e.regs, c) == v && Value(Finish(e, q).regs, c) == v
  }

  ghost predicate NotManual(e: Ec, q: Sensors) {
    Value(e.regs, Mode) != FAN_MODE_MANUAL && Value(Finish(e, q).regs, Mode) != FAN_MODE_MANUAL
  }

  /** What other callers leave alone: the driver's cells when no write is in flight, and automatic mode
      in any case. */
  ghost predicate Undisturbed(e: Ec, f: Ec, q: Sensors) {
    && (NoWriteInFlight(e) ==> NoWriteInFlight(f) && forall c: Cell :: Value(f.regs, c) == Value(e.regs, c))
    && (NotManual(e, q) ==> NotManual(f, q))
  }

  lemma SettledCell(e: Ec, q: Sensors, c: Cell)
    requires NoWriteInFlight(e)
    ensures Value(Finish(e, q).regs, c) == Value(e.regs, c)
  {
  }

  lemma UndisturbedOnwards(e: Ec, f: Ec, g: Ec, call: Call, ok: bool, v: u8, q: Sensors)
    requires Undisturbed(e, f, q) && Section(f, call, ok, v, g, q)
    requires call.ReadRegister? || call.ReadFan? || call.Quiesce?
    ensures Undisturbed(e, g, q)
  {
    if !call.Quiesce? { assert CellAmong(f, g, Mode, Writes(call, Mode), q); }
    if NoWriteInFlight(f) {
      forall c: Cell ensures Value(g.regs, c) == Value(f.regs, c) {
        if call.Quiesce? {
          ClearingQuiet(f, g, q, c);
        } else {
          assert CellAmong(f, g, c, Writes(call, c), q);
        }
      }
    }
  }

  class AsusEc {
    const dev: EcDevice
    var manualActive: bool
    var shuttingDown: bool
    var tempFailures: u32
    var activeProfile: Profile
    var cap: int
    var armed: Option<nat>
    /** Every access made so far. */
    ghost var accesses: seq<Access>

    function View(): Driver
      reads this
    {
      Driver(manualActive, shuttingDown, tempFailures, activeProfile, cap, armed)
    }

    ghost predicate Is(c: Cell, v: u8)
      reads dev
    {
      CellIs(dev.View(), dev.sensors, c, v)
    }

    /** Every PWM command was in range and given in manual mode; a controller in manual mode that the
        driver does not drive means that some fan-mode write has failed. */
    ghost predicate Valid()
      reads this, dev
    {
      && (forall c :: c in accesses && c.PwmWrite? ==> 75 <= c.value <= 255 && c.manual)
      && (manualActive || ModeWriteFailed(accesses) || NotManual(dev.View(), dev.sensors))
    }

    constructor (dev: EcDevice)
      requires NotManual(dev.View(), dev.sensors)
      ensures Valid() && View() == PROBED && this.dev == dev && accesses == []
    {
      this.dev := dev;
      manualActive, shuttingDown, tempFailures, activeProfile, cap, armed := false, false, 0, Balanced, DEFAULT_CAP, None;
      accesses := [];
    }

    /** Any number of sections of callers that do not hold mode_lock. */
    method Others()
      modifies dev
      ensures Undisturbed(old(dev.View()), dev.View(), dev.sensors) && (old(Valid()) ==> Valid())
      ensures old(dev.bus) <= dev.bus
    {
      ghost var e := dev.View();
      var n: nat := *;
      while n > 0
        invariant Undisturbed(e, dev.View(), dev.sensors) && old(dev.bus) <= dev.bus
      {
        ghost var f := dev.View();
        if * {
          var major: u8, minor: u8 := *, *;
          var ok, v := dev.ReadReg(major, minor);
          UndisturbedOnwards(e, f, dev.View(), ReadRegister(major, minor), ok, v, dev.sensors);
        } else if * {
          var fan: nat, minor: u8 := *, *;
          var ok, v := dev.ReadFanReg(fan, minor);
          UndisturbedOnwards(e, f, dev.View(), ReadFan(fan, minor), ok, v, dev.sensors);
        } else {
          dev.MailboxQuiesce();
          UndisturbedOnwards(e, f, dev.View(), Quiesce, true, 0, dev.sensors);
        }
        n := n - 1;
      }
    }

    // ----- accesses

    method SetFanMode(mode: u8) returns (ok: bool)
      modifies dev, `accesses
      ensures accesses == old(accesses) + [ModeWrite(mode, ok)]
      ensures ok ==> NoWriteInFlight(dev.View()) && Is(Mode, mode)
      ensures ok && mode != FAN_MODE_MANUAL ==> NotManual(dev.View(), dev.sensors)
      ensures Accessed(old(dev.bus), dev.bus, ok)
    {
      Others();
      ghost var before := dev.bus;
      ok := dev.SetFanMode(mode);
      assert Ends(before, dev.bus, ok);
      accesses := accesses + [ModeWrite(mode, ok)];
      Others();
    }

    /** With no write in flight, a successful PWM write changes this fan's PWM only. */
    method SetPwm(fan: nat, v: u8) returns (ok: bool)
      modifies dev, `accesses
      ensures accesses == old(accesses) + [PwmWrite(fan, v, manualActive, ok)]
      ensures ok ==> fan < NUM_FANS && NoWriteInFlight(dev.View()) && Is(PwmOf(fan), v)
      ensures ok && old(NoWriteInFlight(dev.View())) ==>
                forall c: Cell :: c != PwmOf(fan) ==> Is(c, old(Value(dev.regs, c)))
      ensures old(NotManual(dev.View(), dev.sensors)) ==> NotManual(dev.View(), dev.sensors)
      ensures fan < NUM_FANS ==> Accessed(old(dev.bus), dev.bus, ok)
    {
      ghost var start := dev.View();
      Others();
      ghost var e, before := dev.View(), dev.bus;
      ok := dev.SetFanPwm(fan, v);
      assert fan < NUM_FANS ==> Ends(before, dev.bus, ok);
      accesses := accesses + [PwmWrite(fan, v, manualActive, ok)];
      ghost var f := dev.View();
      assert CellAmong(e, f, Mode, Writes(Mailbox.SetPwm(fan, v), Mode), dev.sensors);
      Others();
      if ok && NoWriteInFlight(start) {
        forall c: Cell | c != PwmOf(fan) ensures Is(c, Value(start.regs, c)) {
          SettledCell(start, dev.sensors, c);
          SettledCell(e, dev.sensors, c);
          assert Value(f.regs, c) == Value(e.regs, c) == Value(start.regs, c);
          SettledCell(dev.View(), dev.sensors, c);
        }
      }
    }

    // ----- changing mode, under mode_lock

    method LeaveManual() returns (r: Result, ghost ok: bool)
      requires Valid()
      modifies this, dev
      ensures Valid() && (View(), r) == FanModes.LeaveManual(old(View()), ok)
      ensures r.Ok? && old(manualActive) ==> NoWriteInFlight(dev.View()) && Is(Mode, FAN_MODE_AUTO)
      ensures accesses == old(accesses) + Leaving(old(View()), ok)
    {
      ok := true;
      if !manualActive { return Ok, ok; }
      var done := SetFanMode(FAN_MODE_AUTO);
      ok := done;
      if done { manualActive := false; }
      r := if done then Ok else EcFailed;
    }

    /** Success: the controller is in manual mode with both fans at `pwm`. */
    method EnterManual(pwm: u8) returns (r: Result, ghost o: Entering)
      requires Valid()
      modifies this, dev
      ensures Valid() && (View(), r) == FanModes.EnterManual(old(View()), pwm, o)
      ensures accesses == old(accesses) + EnteringAt(pwm, o)
      ensures r.Ok? ==> NoWriteInFlight(dev.View()) && Is(Mode, FAN_MODE_MANUAL) && Is(LeftPwm, pwm) && Is(RightPwm, pwm)
    {
      hide Accessed, NotManual, NoWriteInFlight, DrivingAt;
      o := Entering(false, false, false, false);
      if pwm < SPIN_FLOOR { return Invalid, o; }
      var mode := SetFanMode(FAN_MODE_MANUAL);
      if !mode { return EcFailed, o; }
      manualActive := true;
      var left, right := SetBothPwm(pwm);
      o := Entering(true, left, right, false);
      if left && right { return Ok, o; }
      var back := SetFanMode(FAN_MODE_AUTO);
      o := Entering(true, left, right, back);
      manualActive := false;
      return EcFailed, o;
    }

    /** Each fan in turn, until one fails. */
    method SetBothPwm(pwm: u8) returns (left: bool, right: bool)
      requires Valid() && manualActive && SPIN_FLOOR <= pwm && NoWriteInFlight(dev.View())
      modifies dev, `accesses
      ensures Valid() && (right ==> left) && accesses == old(accesses) + DrivingAt(pwm, left, right)
      ensures left && right && old(Is(Mode, FAN_MODE_MANUAL)) ==>
                NoWriteInFlight(dev.View()) && Is(Mode, FAN_MODE_MANUAL) && Is(LeftPwm, pwm) && Is(RightPwm, pwm)
    {
      hide Accessed, NotManual;
      right := false;
      left := SetPwm(0, pwm);
      if left { right := SetPwm(1, pwm); }
    }

    method ApplyProfile(p: Profile, q: Params) returns (r: Result, ghost leave: bool, ghost o: Entering)
      requires Valid()
      modifies this, dev
      ensures Valid() && (View(), r) == FanModes.ApplyProfile(old(View()), p, q, leave, o)
      ensures accesses == old(accesses) + Applying(old(View()), p, q, leave, o)
      ensures r.Ok? && p == Performance ==>
                Is(Mode, FAN_MODE_MANUAL) && Is(LeftPwm, q.pwmUsed % 256) && Is(RightPwm, q.pwmUsed % 256)
      ensures r.Ok? && p != Performance && old(manualActive) ==> Is(Mode, FAN_MODE_AUTO)
    {
      leave, o := true, Entering(true, true, true, true);
      match p {
        case Quiet =>
          r, leave := LeaveManual();
          if r != Ok { return; }
          cap := q.quietCap;
        case Balanced =>
          r, leave := LeaveManual();
          if r != Ok { return; }
          cap := DEFAULT_CAP;
        case Performance =>
          if q.pwmLow < SPIN_FLOOR || q.pwmHigh > 255 { return Invalid, leave, o; }
          cap := DEFAULT_CAP;
          r, o := EnterManual(q.pwmUsed % 256);
          if r != Ok { return; }
        case Custom => return Unsupported, leave, o;
      }
      activeProfile := p;
      tempFailures := 0;
      if manualActive && !shuttingDown { armed := Some(SAFETY_PERIOD_MS); } else { armed := None; }
      r := Ok;
    }

    // ----- the safety monitor

    /** The controller's own sensor, in millidegrees. */
    method ReadOwnTemp() returns (own: Option<i32>)
      modifies dev, `accesses
      ensures Undisturbed(old(dev.View()), dev.View(), dev.sensors)
      ensures accesses == old(accesses) + [TempRead(own)]
      ensures own.Some? ==> own.value == dev.sensors.temp as int * 1000
      ensures Ends(old(dev.bus), dev.bus, own.Some?)
    {
      ghost var e := dev.View();
      var ok, raw := dev.ReadReg(TEMP_MAJ, TEMP_MIN);
      UndisturbedOnwards(e, e, dev.View(), ReadRegister(TEMP_MAJ, TEMP_MIN), ok, raw, dev.sensors);
      own := if ok then Some(raw as int * 1000) else None;
      accesses := accesses + [TempRead(own)];
    }

    /** The highest temperature of the zones and the controller's own sensor. */
    method MaxTemp(zones: seq<Option<i32>>) returns (temp: int, ghost own: Option<i32>)
      modifies dev, `accesses
      ensures Undisturbed(old(dev.View()), dev.View(), dev.sensors)
      ensures accesses == old(accesses) + [TempRead(own)]
      ensures own.Some? ==> own.value == dev.sensors.temp as int * 1000
      ensures temp == Temperature(zones + [own])
    {
      var maximum: i32 := -0x8000_0000;
      for i := 0 to |zones|
        invariant maximum == Highest(zones[..i])
      {
        assert zones[..i + 1][..i] == zones[..i];
        if zones[i].Some? && zones[i].value > maximum { maximum := zones[i].value; }
      }
      assert zones[..|zones|] == zones;
      var read := ReadOwnTemp();
      own := read;
      if read.Some? && read.value > maximum { maximum := read.value; }
      assert (zones + [own])[..|zones|] == zones;
      temp := if maximum == -0x8000_0000 then -ENODATA else maximum;
    }

    /** A tick of the safety monitor. One that acts reads the temperature; when it must fall back, it
        writes automatic mode, and no other access is made. */
    method SafetyWork(zones: seq<Option<i32>>, trip: nat) returns (ghost own: Option<i32>, ghost leave: bool)
      requires Valid()
      modifies this, dev
      ensures Valid() && View() == SafetyTick(old(View()), Temperature(zones + [own]), trip, leave)
      ensures accesses == old(accesses) + Ticking(old(View()), zones, own, trip, leave)
      ensures own.Some? ==> own.value == dev.sensors.temp as int * 1000
      ensures TickActs(old(View())) && MustFallBack(old(View()), Temperature(zones + [own]), trip) && leave ==>
                !manualActive && NoWriteInFlight(dev.View()) && Is(Mode, FAN_MODE_AUTO)
    {
      hide Highest, Accessed, NotManual, CellIs;
      own, leave := None, true;
      if !manualActive || shuttingDown { return; }
      var measured: int;
      measured, own := MaxTemp(zones);
      var fallback;
      if measured < 0 {
        tempFailures := (tempFailures + 1) % TWO_32;
        fallback := tempFailures >= MAX_TEMP_FAILURES;
      } else {
        tempFailures := 0;
        fallback := measured >= trip;
      }
      if fallback {
        var r: Result;
        r, leave := LeaveManual();
        if r == Ok {
          activeProfile := Balanced;
          cap := DEFAULT_CAP;
        }
        return;
      }
      armed := Some(SAFETY_PERIOD_MS);
    }

    // ----- direct control

    method HwmonWrite(a: Attribute, channel: nat, value: int, pwm: u32) returns (r: Result, ghost o: Direct)
      requires Valid()
      modifies this, dev
      ensures Valid() && (View(), r) == FanModes.HwmonWrite(old(View()), a, channel, value, pwm, o)
      ensures accesses == old(accesses) + Directing(old(View()), a, channel, value, pwm, o)
      ensures r.Ok? && a == PwmInput ==> Is(PwmOf(channel), value)
      ensures r.Ok? && a == PwmEnable && value == 1 ==>
                Is(Mode, FAN_MODE_MANUAL) && Is(LeftPwm, Clamped(pwm)) && Is(RightPwm, Clamped(pwm))
      ensures r.Ok? && a == PwmEnable && value == 2 && old(manualActive) ==> Is(Mode, FAN_MODE_AUTO)
    {
      o := Direct(true, Entering(true, true, true, true), true);
      if a == NotPwm || channel >= NUM_FANS { return Unsupported, o; }
      r := Unsupported;
      if a == PwmEnable && channel == 0 {
        ghost var leave, entering := true, o.entering;
        if value == 1 {
          r, entering := EnterManual(Clamped(pwm));
        } else if value == 2 {
          r, leave := LeaveManual();
        } else {
          r := Invalid;
        }
        o := Direct(leave, entering, true);
      } else if a == PwmInput {
        if value < 0 || value > 255 {
          r := Invalid;
        } else if !manualActive {
          r := Result.Busy;
        } else if value < SPIN_FLOOR {
          r := Invalid;
        } else {
          var stored := SetPwm(channel, value);
          r := if stored then Ok else EcFailed;
          o := Direct(true, o.entering, stored);
        }
      }
      if r == Ok && a == PwmEnable {
        cap := DEFAULT_CAP;
        activeProfile := if value == 2 then Balanced else Custom;
      } else if r == Ok && a == PwmInput {
        cap := DEFAULT_CAP;
        activeProfile := Custom;
      }
      if r == Ok && manualActive { armed := Some(SAFETY_PERIOD_MS); }
    }

    // ----- power management

    /** The section of remove and shutdown: one write of automatic mode. The driver stops driving whether
        or not it succeeds. */
    method QuiesceSection() returns (ghost ok: bool)
      requires Valid()
      modifies this, dev
      ensures Valid() && View() == Quiesced(old(View()))
      ensures accesses == old(accesses) + [ModeWrite(FAN_MODE_AUTO, ok)]
      ensures ok ==> NoWriteInFlight(dev.View()) && Is(Mode, FAN_MODE_AUTO)
      ensures shuttingDown && !manualActive && cap == DEFAULT_CAP
    {
      shuttingDown := true;
      var done := SetFanMode(FAN_MODE_AUTO);
      ok := done;
      manualActive := false;
      cap := DEFAULT_CAP;
    }
  }

  /** Probing a controller that was left in manual mode restores automatic mode. It fails exactly when
      the last transfer it made gave an access up. */
  method Probe(dev: EcDevice) returns (ec: AsusEc?)
    modifies dev
    ensures ec != null ==> fresh(ec) && ec.dev == dev && ec.Valid() && ec.View() == PROBED && ec.accesses == []
    ensures Ends(old(dev.bus), dev.bus, ec != null)
  {
    var ok, mode := dev.ReadReg(FAN_MAJ, FAN_MODE_RMIN);
    if !ok { return null; }
    ghost var e := dev.View();
    assert mode == FAN_MODE_MANUAL || NotManual(e, dev.sensors);
    var read, temp := dev.ReadReg(TEMP_MAJ, TEMP_MIN);
    assert CellAmong(e, dev.View(), Mode, Writes(ReadRegister(TEMP_MAJ, TEMP_MIN), Mode), dev.sensors);
    if !read { return null; }
    if mode == FAN_MODE_MANUAL {
      ok := dev.SetFanMode(FAN_MODE_AUTO);
      if !ok { return null; }
    }
    ec := new AsusEc(dev);
  }
}
