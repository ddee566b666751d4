/** The embedded controller's mailbox: three window registers through which compound operations reach
    the fan registers, over a bus on which every transfer may fail with or without its effect. */
module Mailbox {
  import opened Bytes
  import opened Wrappers

  const FAN_MAJ: u8 := 0x01
  const FAN_MODE_RMIN: u8 := 0x02
  const FAN_MODE_WMIN: u8 := 0x82
  const FAN_TACH_MIN: u8 := 0x09
  const PWM_RMIN: u8 := 0x0a
  const PWM_WMIN: u8 := 0x8a
  const FAN_SEL_WMIN: u8 := 0x8c
  const TEMP_MAJ: u8 := 0x05
  const TEMP_MIN: u8 := 0x02

  const FAN_MODE_AUTO: u8 := 0
  const FAN_MODE_MANUAL: u8 := 2
  const NUM_FANS := 2
  const XFER_RETRIES := 3

  // ----- the controller

  /** The fan registers. The PWM register is banked by the selected fan. */
  datatype Regs = Regs(fanSel: u8, left: u8, right: u8, mode: u8) {
    function Pwm(fan: nat): u8 { if fan == 0 then left else right }

    function PutPwm(fan: nat, v: u8): Regs { if fan == 0 then this.(left := v) else this.(right := v) }
  }

  datatype Sensors = Sensors(tachLeft: u8, tachRight: u8, temp: u8)

  /** Major code 0xc4: BUSY (0x30), REGSEL (0x31), DATA (0x32). */
  datatype WindowReg = Busy | Regsel | Data

  datatype Window = Window(busy: u8, regsel: u8, data: u8) {
    function Get(r: WindowReg): u8 { match r case Busy => busy case Regsel => regsel case Data => data }
  }

  datatype Ec = Ec(w: Window, regs: Regs) {
    predicate Idle() { w.busy == 0 }
  }

  /** What a triggered write command does to the registers; other commands change none. */
  function Execute(r: Regs, major: u8, minor: u8, data: u8): Regs {
    if major != FAN_MAJ then r
    else if minor == FAN_MODE_WMIN then r.(mode := data)
    else if minor == FAN_SEL_WMIN then r.(fanSel := data)
    else if minor == PWM_WMIN && r.fanSel < NUM_FANS then r.PutPwm(r.fanSel, data)
    else r
  }

  /** What a triggered read command leaves in DATA. */
  function Answer(r: Regs, q: Sensors, major: u8, minor: u8): u8 {
    if major == FAN_MAJ && minor == FAN_MODE_RMIN then r.mode
    else if major == FAN_MAJ && minor == PWM_RMIN && r.fanSel < NUM_FANS then r.Pwm(r.fanSel)
    else if major == FAN_MAJ && minor == FAN_TACH_MIN && r.fanSel < NUM_FANS then
      (if r.fanSel == 0 then q.tachLeft else q.tachRight)
    else if major == TEMP_MAJ && minor == TEMP_MIN then q.temp
    else 0
  }

  /** The controller after it completed the command in its window, if one was triggered. */
  function Finish(e: Ec, q: Sensors): Ec {
    if e.Idle() then e
    else Ec(Window(0, e.w.regsel, if e.w.regsel < 0x80 then Answer(e.regs, q, e.w.busy, e.w.regsel) else e.w.data),
            Execute(e.regs, e.w.busy, e.w.regsel, e.w.data))
  }

  /** The controller may complete a command at any time. */
  predicate Drifted(e: Ec, f: Ec, q: Sensors) { f == e || f == Finish(e, q) }

  function Put(e: Ec, r: WindowReg, v: u8): Ec {
    match r
    case Busy => e.(w := e.w.(busy := v))
    case Regsel => e.(w := e.w.(regsel := v))
    case Data => e.(w := e.w.(data := v))
  }

  /** Triggering a completed command again changes nothing: retrying a BUSY write that had already
      taken effect is harmless. */
  lemma Retrigger(e: Ec, q: Sensors)
    ensures Finish(Put(Finish(e, q), Busy, e.w.busy), q) == Finish(e, q)
  {
  }

  /** What clearing DATA and BUSY can make of a command in flight: it may still run as it was, run
      with its data zeroed, or never run. */
  ghost predicate Cleared(e: Ec, f: Ec) {
    && f.w.regsel == e.w.regsel
    && ((f.w.busy == e.w.busy && f.regs == e.regs && (f.w.data == e.w.data || f.w.data == 0))
        || (f.Idle() && Outcome(e, f.regs)))
  }

  ghost predicate Outcome(e: Ec, r: Regs) {
    || r == e.regs
    || r == Execute(e.regs, e.w.busy, e.w.regsel, e.w.data)
    || r == Execute(e.regs, e.w.busy, e.w.regsel, 0)
  }

  lemma ClearedOnwards(e: Ec, f: Ec, r: WindowReg, q: Sensors)
    requires Cleared(e, f)
    ensures Cleared(e, Finish(f, q))
    ensures r != Regsel ==> Cleared(e, Put(f, r, 0))
  {
  }

  // ----- the bus

  datatype Transfer = Done | Retry | Fatal

  /** A transfer of a window byte, and how it ended. */
  datatype Xfer = Xfer(reg: WindowReg, write: bool, byte: u8, end: Transfer)

  /** The attempts of one access: repeated while they ask for it, up to three times. */
  predicate Tries(xs: seq<Xfer>, reg: WindowReg, sent: Option<u8>, ok: bool) {
    && 1 <= |xs| <= XFER_RETRIES
    && (forall i :: 0 <= i < |xs| ==> Moves(xs[i], reg, sent))
    && (forall i :: 0 <= i < |xs| - 1 ==> xs[i].end.Retry?)
    && (match xs[|xs| - 1].end
        case Done => ok
        case Fatal => !ok
        case Retry => !ok && |xs| == XFER_RETRIES)
  }

  /** The transfer writes this byte to the register, or reads it. */
  predicate Moves(x: Xfer, reg: WindowReg, sent: Option<u8>) {
    x.reg == reg && x.write == sent.Some? && (sent.Some? ==> x.byte == sent.value)
  }

  /** The transfers since then are the attempts to write a zero to DATA and then one to BUSY. */
  ghost predicate Wipes(before: seq<Xfer>, after: seq<Xfer>, m: nat, first: bool, second: bool) {
    && before <= after && |before| <= m <= |after|
    && Tries(after[|before|..m], Data, Some(0), first) && Tries(after[m..], Busy, Some(0), second)
  }

  /** What makes an operation give up: a transfer that failed, or BUSY read as set. */
  predicate Stops(x: Xfer) { !x.end.Done? || (x.reg.Busy? && !x.write && x.byte != 0) }

  /** An operation made transfers, and failed exactly when the last of them made it give up. */
  predicate Ends(before: seq<Xfer>, after: seq<Xfer>, ok: bool) {
    before < after && (ok <==> !Stops(after[|after| - 1]))
  }

  class EcDevice {
    var w: Window
    var regs: Regs
    const sensors: Sensors

    /** Whether a write ever landed on a window with a command in flight, other than the repetition
        of the trigger itself. */
    ghost var disturbed: bool
    /** Every transfer made so far. */
    ghost var bus: seq<Xfer>

    constructor (e: Ec, q: Sensors)
      ensures View() == e && sensors == q && !disturbed && bus == []
    {
      w, regs, sensors, disturbed, bus := e.w, e.regs, q, false, [];
    }

    function View(): Ec
      reads this
    {
      Ec(w, regs)
    }

    /** What the controller comes to when nothing more is written. */
    function Settled(): Ec
      reads this
    {
      Finish(View(), sensors)
    }

    method Drift()
      modifies `w, `regs
      ensures Drifted(old(View()), View(), sensors)
    {
      if * {
        var e := Finish(Ec(w, regs), sensors);
        w, regs := e.w, e.regs;
      }
    }

    /** One bus transfer of a window write. */
    method Poke(r: WindowReg, v: u8) returns (t: Transfer)
      modifies this
      ensures t.Done? ==> Written(old(View()), View(), r, v)
      ensures !t.Done? ==> Written(old(View()), View(), r, v) || Drifted(old(View()), View(), sensors)
      ensures old(View()).Idle() || (r == Busy && v == old(w.busy)) ==> disturbed == old(disturbed)
      ensures bus == old(bus) + [Xfer(r, true, v, t)]
    {
      Drift();
      var lands: bool := *;
      if lands {
        if w.busy != 0 && !(r == Busy && v == w.busy) { disturbed := true; }
        var e := Put(Ec(w, regs), r, v);
        w, regs := e.w, e.regs;
      }
      Drift();
      t := *;
      if !lands && t.Done? { t := Fatal; }
      bus := bus + [Xfer(r, true, v, t)];
    }

    ghost predicate Written(e: Ec, f: Ec, r: WindowReg, v: u8) {
      Drifted(Put(e, r, v), f, sensors) || Drifted(Put(Finish(e, sensors), r, v), f, sensors)
    }

    /** One bus transfer of a window read. */
    method Peek(r: WindowReg) returns (t: Transfer, v: u8)
      modifies `w, `regs, `bus
      ensures Drifted(old(View()), View(), sensors)
      ensures v == w.Get(r) || (v == old(w.Get(r)) && !old(View()).Idle())
      ensures bus == old(bus) + [Xfer(r, false, v, t)]
    {
      Drift();
      v := w.Get(r);
      Drift();
      t := *;
      bus := bus + [Xfer(r, false, v, t)];
    }

    // ----- the driver's accesses, under ec_lock

    /** __ec_wb: up to three attempts; an attempt that failed may have taken effect. */
    method WriteByte(r: WindowReg, v: u8) returns (ok: bool)
      modifies this
      ensures old(View()).Idle() && r != Busy ==>
                View() == Put(old(View()), r, v) || (!ok && View() == old(View()))
      ensures old(View()).Idle() && r == Busy && v != 0 ==>
                Fired(old(View()), View(), v) || (!ok && View() == old(View()))
      ensures v == 0 && r != Regsel ==> Cleared(old(View()), View())
      ensures ok && r == Busy && v == 0 ==> View().Idle()
      ensures old(View()).Idle() ==> disturbed == old(disturbed)
      ensures old(bus) <= bus && Tries(bus[|old(bus)|..], r, Some(v), ok) && Ends(old(bus), bus, ok)
    {
      ghost var e := View();
      var attempt := 0;
      while attempt < XFER_RETRIES
        invariant |bus| == |old(bus)| + attempt && old(bus) <= bus && Retried(bus[|old(bus)|..], r, Some(v))
        invariant e.Idle() && r != Busy ==> View() == e || View() == Put(e, r, v)
        invariant e.Idle() && r == Busy && v != 0 ==> View() == e || Fired(e, View(), v)
        invariant v == 0 && r != Regsel ==> Cleared(e, View())
        invariant e.Idle() ==> disturbed == old(disturbed)
      {
        PokeKeeps(e, View(), r, v);
        var t := Poke(r, v);
        if t.Done? { return true; }
        if t.Fatal? { return false; }
        attempt := attempt + 1;
      }
      return false;
    }

    predicate Retried(xs: seq<Xfer>, reg: WindowReg, sent: Option<u8>) {
      |xs| <= XFER_RETRIES && forall i :: 0 <= i < |xs| ==> Moves(xs[i], reg, sent) && xs[i].end.Retry?
    }

    /** From an idle window, BUSY was written at least once: the command runs or has run. */
    ghost predicate Fired(e: Ec, f: Ec, major: u8) {
      var done := Finish(Put(e, Busy, major), sensors);
      Finish(f, sensors) == done && (f.regs == e.regs || f.regs == done.regs)
      && f.w.regsel == e.w.regsel && (f.Idle() || f.w.busy == major)
    }

    lemma PokeKeeps(e: Ec, f: Ec, r: WindowReg, v: u8)
      ensures forall g :: Written(f, g, r, v) || Drifted(f, g, sensors) ==>
                && (e.Idle() && r != Busy && (f == e || f == Put(e, r, v)) ==> g == e || g == Put(e, r, v))
                && (e.Idle() && r == Busy && v != 0 && (f == e || Fired(e, f, v)) ==> g == e || Fired(e, g, v))
                && (v == 0 && r != Regsel && Cleared(e, f) ==> Cleared(e, g))
    {
      forall g | Written(f, g, r, v) || Drifted(f, g, sensors)
        ensures e.Idle() && r == Busy && v != 0 && (f == e || Fired(e, f, v)) ==> g == e || Fired(e, g, v)
        ensures v == 0 && r != Regsel && Cleared(e, f) ==> Cleared(e, g)
      {
        if v == 0 && r != Regsel && Cleared(e, f) {
          ClearedOnwards(e, f, r, sensors);
          ClearedOnwards(e, Put(f, r, v), r, sensors);
          ClearedOnwards(e, Finish(f, sensors), r, sensors);
          ClearedOnwards(e, Put(Finish(f, sensors), r, v), r, sensors);
        }
      }
    }

    /** __ec_rb: a value that was read is what the register held, now unless a command completed. */
    method ReadByte(r: WindowReg) returns (ok: bool, v: u8)
      modifies `w, `regs, `bus
      ensures Drifted(old(View()), View(), sensors)
      ensures ok ==> v == w.Get(r) || (v == old(w.Get(r)) && !old(View()).Idle())
      ensures old(bus) <= bus && Tries(bus[|old(bus)|..], r, None, ok)
      ensures ok ==> bus[|bus| - 1].byte == v
    {
      var attempt := 0;
      ok, v := false, 0;
      while attempt < XFER_RETRIES
        invariant |bus| == |old(bus)| + attempt && old(bus) <= bus && Retried(bus[|old(bus)|..], r, None)
        invariant Drifted(old(View()), View(), sensors)
      {
        var t: Transfer;
        t, v := Peek(r);
        if t.Done? { return true, v; }
        if t.Fatal? { return false, v; }
        attempt := attempt + 1;
      }
    }

    /** __ec_settle: polls BUSY until it reads zero or the deadline passes, at least once. Success means
        the command in flight, if any, has completed; it fails only when a transfer did, or when BUSY
        read as set to the end. */
    method Settle() returns (ok: bool)
      modifies `w, `regs, `bus
      ensures Drifted(old(View()), View(), sensors)
      ensures ok ==> View() == old(Settled()) && View().Idle()
      ensures Ends(old(bus), bus, ok)
    {
      var polls: nat := *;
      while true
        invariant old(bus) <= bus
        invariant Drifted(old(View()), View(), sensors)
        decreases polls
      {
        var read, busy := ReadByte(Busy);
        if !read { return false; }
        if busy == 0 { return true; }
        if polls == 0 { return false; }
        polls := polls - 1;
      }
    }

    /** __ec_cr. It fails only when a transfer did or BUSY stayed set. A read leaves every register as it
        was settled, whether it succeeds or not; success gives the register's value. Only read minors are
        accepted. */
    method CompoundRead(major: u8, minor: u8) returns (ok: bool, v: u8)
      modifies this
      ensures Harmless(old(View()), View(), sensors)
      ensures minor >= 0x80 ==> !ok && View() == old(View())
      ensures ok && major != 0 ==> v == Answer(old(Settled()).regs, sensors, major, minor)
      ensures ok ==> View().Idle() && View().w.data == 0
      ensures InFlight(old(View()), View(), major, minor)
      ensures disturbed == old(disturbed)
      ensures if minor < 0x80 then Ends(old(bus), bus, ok) else bus == old(bus)
    {
      v := 0;
      if minor >= 0x80 { return false, v; }
      ok := Settle();
      if !ok { return; }
      ok := WriteByte(Regsel, minor);
      if !ok { return; }
      ok := WriteByte(Busy, major);
      if !ok { return; }
      ok := Settle();
      if !ok { return; }
      ok, v := ReadByte(Data);
      if !ok { return; }
      ok := WriteByte(Data, 0);
    }

    /** __ec_cw. Success: the window is idle and exactly this command was carried out, after the one
        that may have been in flight. Failure: this command was carried out or not, or still will be. */
    method CompoundWrite(major: u8, minor: u8, value: u8) returns (ok: bool)
      modifies this
      ensures ok ==> View().Idle() && View().regs == Execute(old(Settled()).regs, major, minor, value)
      ensures !ok ==> Attempted(old(View()), View(), Execute(old(Settled()).regs, major, minor, value), sensors)
      ensures InFlight(old(View()), View(), major, minor)
      ensures disturbed == old(disturbed)
      ensures Ends(old(bus), bus, ok)
    {
      ok := Settle();
      if !ok { return; }
      ok := WriteByte(Regsel, minor);
      if !ok { return; }
      ok := WriteByte(Data, value);
      if !ok { return; }
      ok := WriteByte(Busy, major);
      if !ok { return; }
      ok := Settle();
    }

    // ----- the driver's sections under ec_lock

    method ReadReg(major: u8, minor: u8) returns (ok: bool, v: u8)
      modifies this
      ensures Section(old(View()), ReadRegister(major, minor), ok, v, View(), sensors) && disturbed == old(disturbed)
      ensures if minor < 0x80 then Ends(old(bus), bus, ok) else bus == old(bus)
    {
      ok, v := CompoundRead(major, minor);
    }

    method SetFanMode(mode: u8) returns (ok: bool)
      modifies this
      ensures Section(old(View()), SetMode(mode), ok, 0, View(), sensors) && disturbed == old(disturbed)
      ensures Ends(old(bus), bus, ok)
    {
      ok := CompoundWrite(FAN_MAJ, FAN_MODE_WMIN, mode);
    }

    /** Selecting the fan and writing its PWM are one section. */
    method SetFanPwm(fan: nat, v: u8) returns (ok: bool)
      modifies this
      ensures Section(old(View()), SetPwm(fan, v), ok, 0, View(), sensors) && disturbed == old(disturbed)
      ensures if fan < NUM_FANS then Ends(old(bus), bus, ok) else bus == old(bus)
    {
      if fan >= NUM_FANS { return false; }
      ok := CompoundWrite(FAN_MAJ, FAN_SEL_WMIN, fan);
      if ok { ok := CompoundWrite(FAN_MAJ, PWM_WMIN, v); }
    }

    method ReadFanReg(fan: nat, minor: u8) returns (ok: bool, v: u8)
      modifies this
      ensures Section(old(View()), ReadFan(fan, minor), ok, v, View(), sensors) && disturbed == old(disturbed)
      ensures fan < NUM_FANS && minor < 0x80 ==> Ends(old(bus), bus, ok)
      ensures if fan < NUM_FANS then old(bus) < bus else bus == old(bus)
    {
      v := 0;
      if fan >= NUM_FANS { return false, v; }
      ok := CompoundWrite(FAN_MAJ, FAN_SEL_WMIN, fan);
      if ok { ok, v := CompoundRead(FAN_MAJ, minor); }
    }

    /** Clears DATA and BUSY without waiting for a command in flight, the second whether or not the
        first succeeds. */
    method MailboxQuiesce()
      modifies this
      ensures old(bus) <= bus && exists m, first, second :: Wipes(old(bus), bus, m, first, second)
      ensures bus != [] && bus[|bus| - 1].end.Done? ==> View().Idle()
      ensures Cleared(old(View()), View())
      ensures Section(old(View()), Quiesce, true, 0, View(), sensors)
    {
      ghost var e := View();
      var first := WriteByte(Data, 0);
      ghost var f, m, wiped := View(), |bus|, bus[|old(bus)|..];
      var second := WriteByte(Busy, 0);
      ClearedTwice(e, f, View());
      assert bus[|old(bus)|..m] == wiped;
      assert Wipes(old(bus), bus, m, first, second);
    }
  }

  // ----- what a section does, seen from outside

  /** What may be in flight afterwards: nothing, what was when nothing was done, or this command. */
  predicate InFlight(e: Ec, f: Ec, major: u8, minor: u8) {
    f.Idle() || f == e || (f.w.busy == major && f.w.regsel == minor)
  }

  datatype Call =
    | SetMode(mode: u8)
    | SetPwm(fan: nat, v: u8)
    | ReadRegister(major: u8, minor: u8)
    | ReadFan(fan: nat, minor: u8)
    | Quiesce

  /** The settled registers are unchanged; a command that was in flight may have completed. */
  ghost predicate Harmless(e: Ec, f: Ec, q: Sensors) {
    Finish(f, q).regs == Finish(e, q).regs && (f.regs == e.regs || f.regs == Finish(e, q).regs)
  }

  /** The settled registers are the old ones or `done`. */
  ghost predicate Attempted(e: Ec, f: Ec, done: Regs, q: Sensors) {
    || Harmless(e, f, q)
    || (Finish(f, q).regs == done && (f.regs == Finish(e, q).regs || f.regs == done))
  }

  /** The parts of the registers that only the driver's writes are meant to change. */
  datatype Cell = Mode | LeftPwm | RightPwm

  function PwmOf(fan: nat): Cell { if fan == 0 then LeftPwm else RightPwm }

  function Value(r: Regs, c: Cell): u8 {
    match c case Mode => r.mode case LeftPwm => r.left case RightPwm => r.right
  }

  /** The cell that the command in flight writes, if there is one. */
  function Target(e: Ec): Option<Cell> {
    if e.w.busy != FAN_MAJ then None
    else if e.w.regsel == FAN_MODE_WMIN then Some(Mode)
    else if e.w.regsel == PWM_WMIN && e.regs.fanSel < NUM_FANS then Some(PwmOf(e.regs.fanSel))
    else None
  }

  predicate NoWriteInFlight(e: Ec) { Target(e).None? }

  /** A cell now, and once the controller has settled, is what it was, or would have settled to, or `v`. */
  ghost predicate CellAmong(e: Ec, f: Ec, c: Cell, v: Option<u8>, q: Sensors) {
    && Known(e, c, Value(f.regs, c), v, q) && Known(e, c, Value(Finish(f, q).regs, c), v, q)
  }

  ghost predicate Known(e: Ec, c: Cell, x: u8, v: Option<u8>, q: Sensors) {
    x == Value(e.regs, c) || x == Value(Finish(e, q).regs, c) || v == Some(x)
  }

  /** What the call writes to the cell, if it does. */
  function Writes(call: Call, c: Cell): Option<u8> {
    match call
    case SetMode(m) => if c.Mode? then Some(m) else None
    case SetPwm(fan, v) => if fan < NUM_FANS && c == PwmOf(fan) then Some(v) else None
    case _ => None
  }

  /** What the call reads from the cell. */
  predicate Reads(call: Call, c: Cell) {
    match call
    case ReadRegister(major, minor) => c.Mode? && major == FAN_MAJ && minor == FAN_MODE_RMIN
    case ReadFan(fan, minor) => fan < NUM_FANS && c == PwmOf(fan) && minor == PWM_RMIN
    case _ => false
  }

  /** One section, from `e` to `f`: a successful write leaves exactly its registers changed in an idle
      window, a successful read gives the requested register, and a failure leaves every cell as it
      was, or as the section would have made it. Only a failed write leaves a write in flight. Clearing
      the window may run the command in flight, run it with its data zeroed, or drop it. */
  ghost predicate Section(e: Ec, call: Call, ok: bool, v: u8, f: Ec, q: Sensors) {
    && (Target(f).Some? ==> Target(f) == Target(e) || (!ok && Writes(call, Target(f).value).Some?))
    && (!call.Quiesce? ==> forall c: Cell :: CellAmong(e, f, c, Writes(call, c), q))
    && match call
       case SetMode(m) => ok ==> f.Idle() && f.regs == Finish(e, q).regs.(mode := m)
       case SetPwm(fan, x) =>
         ok ==> fan < NUM_FANS && f.Idle() && f.regs == Finish(e, q).regs.(fanSel := fan).PutPwm(fan, x)
       case ReadRegister(major, minor) =>
         ok ==> f.Idle() && f.regs == Finish(e, q).regs && (major != 0 ==> v == Answer(f.regs, q, major, minor))
       case ReadFan(fan, minor) =>
         ok ==> fan < NUM_FANS && f.Idle() && f.regs == Finish(e, q).regs.(fanSel := fan)
                && v == Answer(f.regs, q, FAN_MAJ, minor)
       case Quiesce => Cleared(e, f)
  }

  lemma ClearedTwice(e: Ec, f: Ec, g: Ec)
    requires Cleared(e, f) && Cleared(f, g)
    ensures Cleared(e, g)
  {
  }

  // ----- any sequence of sections, by any callers

  /** A served call, and how it ended. */
  datatype Served = Served(call: Call, ok: bool, value: u8)

  /** States of the controller with a section between each two; between sections it may complete a
      command in flight. */
  ghost predicate Serves(es: seq<Ec>, trace: seq<Served>, q: Sensors) {
    && |es| == |trace| + 1
    && forall i :: 0 <= i < |trace| ==> ServesAt(es, trace, q, i)
  }

  ghost predicate ServesAt(es: seq<Ec>, trace: seq<Served>, q: Sensors, i: nat)
    requires |es| == |trace| + 1 && i < |trace|
  {
    exists e :: Drifted(es[i], e, q) && Section(e, trace[i].call, trace[i].ok, trace[i].value, es[i + 1], q)
  }

  /** Whether a write to the cell may still be in flight: one failed, or the start is not known, and no
      section has succeeded since. */
  predicate Pending(trace: seq<Served>, c: Cell) {
    if trace == [] then true
    else
      var last, before := trace[|trace| - 1], trace[..|trace| - 1];
      if last.call.Quiesce? then Pending(before, c)
      else !last.ok && (Writes(last.call, c).Some? || Pending(before, c))
  }

  /** What a cell may hold: the last value written successfully, or one of a failed write after it;
      clearing the window adds a zero, but only when a write to the cell may be in flight. */
  function Candidates(trace: seq<Served>, c: Cell, start: set<u8>): set<u8> {
    if trace == [] then start
    else
      var last := trace[|trace| - 1];
      var before := Candidates(trace[..|trace| - 1], c, start);
      After(before, last, Pending(trace[..|trace| - 1], c), c)
  }

  function After(before: set<u8>, last: Served, pending: bool, c: Cell): set<u8> {
    if last.call.Quiesce? then (if pending then before + {0} else before)
    else match Writes(last.call, c)
      case None => before
      case Some(v) => if last.ok then {v} else before + {v}
  }

  ghost predicate Holds(e: Ec, c: Cell, vs: set<u8>, q: Sensors) {
    Value(e.regs, c) in vs && Value(Finish(e, q).regs, c) in vs
  }

  lemma SectionHolds(e: Ec, d: Served, f: Ec, c: Cell, vs: set<u8>, pending: bool, q: Sensors)
    requires Section(e, d.call, d.ok, d.value, f, q) && Holds(e, c, vs, q)
    requires Target(e) == Some(c) ==> pending
    ensures Holds(f, c, After(vs, d, pending, c), q)
    ensures d.ok && Reads(d.call, c) ==> d.value in vs
    ensures Target(f) == Some(c) ==>
              if d.call.Quiesce? then pending else !d.ok && (Writes(d.call, c).Some? || pending)
  {
    if !d.call.Quiesce? { assert CellAmong(e, f, c, Writes(d.call, c), q); }
  }

  /** Whatever sections ran, in whatever order and however they failed: every cell holds, and will
      still hold when the controller has settled, a value the history allows, and a successful read
      returns one. */
  lemma {:induction false} Linearizable(es: seq<Ec>, trace: seq<Served>, c: Cell, q: Sensors)
    requires Serves(es, trace, q)
    ensures var start := {Value(es[0].regs, c), Value(Finish(es[0], q).regs, c)};
            && Holds(es[|trace|], c, Candidates(trace, c, start), q)
            && (Target(es[|trace|]) == Some(c) ==> Pending(trace, c))
            && forall i :: 0 <= i < |trace| && trace[i].ok && Reads(trace[i].call, c) ==>
                 trace[i].value in Candidates(trace[..i], c, start)
  {
    if trace != [] {
      hide Section, Candidates, After, Writes, Reads, Target;
      var n := |trace| - 1;
      var start := {Value(es[0].regs, c), Value(Finish(es[0], q).regs, c)};
      var fs, head := es[..n + 1], trace[..n];
      assert Serves(fs, head, q) by {
        forall i | 0 <= i < n ensures ServesAt(fs, head, q, i) { assert ServesAt(es, trace, q, i); }
      }
      Linearizable(fs, head, c, q);
      assert ServesAt(es, trace, q, n);
      var e :| Drifted(es[n], e, q) && Section(e, trace[n].call, trace[n].ok, trace[n].value, es[n + 1], q);
      DriftHolds(es[n], e, c, Candidates(head, c, start), q);
      SectionHolds(e, trace[n], es[n + 1], c, Candidates(head, c, start), Pending(head, c), q);
      CandidatesGrow(trace, c, start);
      forall i | 0 <= i < |trace| && trace[i].ok && Reads(trace[i].call, c)
        ensures trace[i].value in Candidates(trace[..i], c, start)
      {
        if i < n { assert head[..i] == trace[..i] && head[i] == trace[i]; }
      }
    }
  }

  lemma DriftHolds(e: Ec, f: Ec, c: Cell, vs: set<u8>, q: Sensors)
    requires Drifted(e, f, q) && Holds(e, c, vs, q)
    ensures Holds(f, c, vs, q) && (Target(f) == Some(c) ==> Target(e) == Some(c))
  {
  }

  lemma CandidatesGrow(trace: seq<Served>, c: Cell, start: set<u8>)
    requires trace != []
    ensures var n := |trace| - 1;
            && Candidates(trace, c, start) == After(Candidates(trace[..n], c, start), trace[n], Pending(trace[..n], c), c)
            && Pending(trace, c) == if trace[n].call.Quiesce? then Pending(trace[..n], c)
                                    else !trace[n].ok && (Writes(trace[n].call, c).Some? || Pending(trace[..n], c))
  {
  }

  /** After a successful write, until the next write to the cell, only that value is allowed. */
  lemma {:induction false} LastWriteStands(trace: seq<Served>, k: nat, c: Cell, start: set<u8>, v: u8)
    requires k < |trace| && trace[k].ok && Writes(trace[k].call, c) == Some(v)
    requires forall i :: k < i < |trace| ==> Writes(trace[i].call, c).None?
    ensures Candidates(trace, c, start) == {v} && !Pending(trace, c)
    decreases |trace|
  {
    var n := |trace| - 1;
    if k < n {
      assert trace[..n][k] == trace[k];
      LastWriteStands(trace[..n], k, c, start, v);
    }
  }

  /** After a successful write to a cell and before the next write to it, a successful read returns
      exactly the value written, whatever other sections and clearings ran in between, and however they
      ended. */
  lemma ReadsLastWrite(es: seq<Ec>, trace: seq<Served>, k: nat, j: nat, c: Cell, v: u8, q: Sensors)
    requires Serves(es, trace, q) && k < j < |trace|
    requires trace[k].ok && Writes(trace[k].call, c) == Some(v)
    requires forall i :: k < i < j ==> Writes(trace[i].call, c).None?
    requires trace[j].ok && Reads(trace[j].call, c)
    ensures trace[j].value == v
  {
    var start := {Value(es[0].regs, c), Value(Finish(es[0], q).regs, c)};
    Linearizable(es, trace, c, q);
    LastWriteStands(trace[..j], k, c, start, v);
  }

  // ----- clearing a command in flight

  /** Every cell holds, and settles to, what it held before. */
  ghost predicate KeepsCells(e: Ec, f: Ec, q: Sensors) {
    forall c: Cell :: Value(f.regs, c) == Value(e.regs, c) && Value(Finish(f, q).regs, c) == Value(e.regs, c)
  }

  /** Clearing leaves every cell as it was, whatever becomes of the command in flight, exactly when no
      write to a cell is in flight, or the write of a zero to a cell that is zero. The three outcomes
      that tell are all reached: the command runs before anything lands, runs with its data zeroed, or
      is dropped. */
  lemma ClearingKeepsCells(e: Ec, q: Sensors)
    ensures var keeps := Target(e).None? || (e.w.data == 0 && Value(e.regs, Target(e).value) == 0);
            && ((forall f :: Cleared(e, f) ==> KeepsCells(e, f, q)) <==> keeps)
            && (var ran, zeroed, dropped := Finish(e, q), Finish(Put(e, Data, 0), q), Put(Put(e, Data, 0), Busy, 0);
                && Cleared(e, ran) && Cleared(e, zeroed) && Cleared(e, dropped)
                && (KeepsCells(e, ran, q) && KeepsCells(e, zeroed, q) && KeepsCells(e, dropped, q) <==> keeps))
  {
    var ran, zeroed := Finish(e, q), Finish(Put(e, Data, 0), q);
    assert Cleared(e, ran) && Cleared(e, zeroed);
    if Target(e).Some? {
      var c := Target(e).value;
      assert Value(ran.regs, c) == e.w.data && Value(zeroed.regs, c) == 0;
    }
  }

  /** No cell comes to hold a value that it neither held nor would have settled to. */
  ghost predicate NothingNew(e: Ec, f: Ec, q: Sensors) { forall c: Cell :: CellAmong(e, f, c, None, q) }

  /** Clearing brings up no value that nobody wrote, whatever becomes of the command in flight, exactly
      when no write to a cell is in flight, or it writes zero, or its cell is zero. The outcome that tells
      is reached: the command runs with its data zeroed. */
  lemma ClearingBringsNothingNew(e: Ec, q: Sensors)
    ensures var nothing := Target(e).None? || e.w.data == 0 || Value(e.regs, Target(e).value) == 0;
            var zeroed := Finish(Put(e, Data, 0), q);
            && ((forall f :: Cleared(e, f) ==> NothingNew(e, f, q)) <==> nothing)
            && Cleared(e, zeroed) && (NothingNew(e, zeroed, q) <==> nothing)
  {
    var zeroed := Finish(Put(e, Data, 0), q);
    assert Cleared(e, zeroed);
    if Target(e).Some? {
      var c := Target(e).value;
      assert Value(zeroed.regs, c) == 0 && Value(Finish(e, q).regs, c) == e.w.data;
      assert NothingNew(e, zeroed, q) ==> CellAmong(e, zeroed, c, None, q);
    }
  }

  /** With a PWM write in flight clearing can run it with its data zeroed: the register then holds a
      value that no caller wrote, below the spin floor. The write is one that a failed section left: it
      selected the fan, settled, triggered the write, and could not read BUSY again. */
  lemma ClearingCanZeroPwm(q: Sensors)
    ensures var e0 := Ec(Window(0, 0, 0), Regs(0, 100, 100, FAN_MODE_MANUAL));
            var selected := Finish(Put(Put(Put(e0, Regsel, FAN_SEL_WMIN), Data, 0), Busy, FAN_MAJ), q);
            var e := Put(Put(Put(selected, Regsel, PWM_WMIN), Data, 200), Busy, FAN_MAJ);
            var f := Put(Finish(Put(e, Data, 0), q), Busy, 0);
            && Section(e0, SetPwm(0, 200), false, 0, e, q) && Finish(e, q).regs.left == 200
            && Cleared(e, f) && Section(e, Quiesce, true, 0, f, q)
            && f.regs.left == 0 && f.regs.right == 100 && f.regs.mode == FAN_MODE_MANUAL
  {
  }

  /** Clearing changes a fan's PWM or the mode only when the command in flight is a write to it. */
  lemma ClearingQuiet(e: Ec, f: Ec, q: Sensors, c: Cell)
    requires Cleared(e, f) && Target(e) != Some(c)
    ensures Value(f.regs, c) == Value(e.regs, c) && Value(Finish(f, q).regs, c) == Value(e.regs, c)
  {
  }
}
