/** A run without a single failed call that ends at rest without a client, although the service is there. */
module LifecycleLoss {
  import opened Wrappers
  import opened Report
  import opened HpdState
  import opened Lifecycle
  import opened LifecycleProgress
  import opened LifecycleService

  ghost predicate NoneFails(ls: seq<Label>) { forall l :: l in ls && l.Operate? ==> l.ok }

  /** The run, with one user, leads here, and no call fails in it. */
  ghost predicate LeadsTo(ls: seq<Label>, s: State) { Run(1, ls) == Some(s) && NoneFails(ls) }

  lemma {:induction false} RunOneMore(s: State, ls: seq<Label>, l: Label)
    requires RunFrom(s, ls).Some? && Enabled(RunFrom(s, ls).value, l)
    ensures RunFrom(s, ls + [l]) == Some(Exec(RunFrom(s, ls).value, l))
    decreases ls
  {
    hide Enabled, Exec;
    if ls == [] {
      assert ls + [l] == [l] && [l][1..] == [];
      assert RunFrom(Exec(s, l), []) == Some(Exec(s, l));
    } else {
      assert (ls + [l])[1..] == ls[1..] + [l];
      RunOneMore(Exec(s, ls[0]), ls[1..], l);
    }
  }

  lemma Next(ls: seq<Label>, s: State, l: Label) returns (ms: seq<Label>, t: State)
    requires LeadsTo(ls, s) && Enabled(s, l) && (l.Operate? ==> l.ok)
    ensures t == Exec(s, l) && LeadsTo(ms, t)
  {
    hide Enabled, Exec, Init, RunFrom;
    RunOneMore(Init(1), ls, l);
    ms, t := ls + [l], Exec(s, l);
  }

  /** The states of the run: only the worker and the service lookup do anything. */
  function At(h: Hpd, client: bool, op: OpLock, queue: Queue, worker: WorkerPc, log: seq<Entry>): State {
    State(h, Handles(client, true), op, None, queue, worker, PmIdle, LookupIdle, CbIdle, [UserIdle], log, {})
  }

  const PRESENT := Arrived(PROBED)
  const CONNECTED := Connected(Initialized(PRESENT))

  lemma Starts() returns (ls: seq<Label>, s: State)
    ensures LeadsTo(ls, s) && s == At(PROBED, false, Free, Queue(false, false), WorkerIdle, [])
  {
    ls, s := [], Init(1);
    assert s.users == [UserIdle];
  }

  lemma ServiceCame(ls0: seq<Label>, q: Queue) returns (ls: seq<Label>, s: State)
    requires LeadsTo(ls0, At(PROBED, false, Free, q, WorkerIdle, []))
    ensures LeadsTo(ls, s) && s == At(PRESENT, false, Free, q.(connect := true), WorkerIdle, [])
  {
    hide LeadsTo;
    ls, s := Next(ls0, At(PROBED, false, Free, q, WorkerIdle, []), ServiceArrives);
    ls, s := Next(ls, s, Acquire(Lookup));
    ls, s := Next(ls, s, Look);
    ls, s := Next(ls, s, Look);
  }

  lemma ServiceLeft(ls0: seq<Label>, q: Queue) returns (ls: seq<Label>, s: State)
    requires LeadsTo(ls0, At(PRESENT, false, Free, q, WorkerIdle, []))
    ensures LeadsTo(ls, s) && s == At(PROBED, false, Free, q.(disconnect := true), WorkerIdle, [])
  {
    hide LeadsTo;
    ls, s := Next(ls0, At(PRESENT, false, Free, q, WorkerIdle, []), ServiceLeaves);
    ls, s := Next(ls, s, Acquire(Lookup));
    ls, s := Next(ls, s, Look);
    ls, s := Next(ls, s, Look);
  }

  lemma WorkerConnected(ls0: seq<Label>) returns (ls: seq<Label>, s: State)
    requires LeadsTo(ls0, At(PRESENT, false, Free, Queue(true, true), WorkerIdle, []))
    ensures LeadsTo(ls, s)
    ensures s == At(CONNECTED, true, Held(Worker, Find(FindArm, CameraHandshake)), Queue(false, true), WorkerInOp, [Opened])
  {
    ls, s := WorkerOpened(ls0);
    hide LeadsTo;
    ls, s := Next(ls, s, Acquire(Worker));
    ls, s := Next(ls, s, Operate(true));
    ls, s := Next(ls, s, Operate(true));
    ls, s := Next(ls, s, Acquire(Worker));
    ls, s := Next(ls, s, Operate(true));
  }

  lemma WorkerOpened(ls0: seq<Label>) returns (ls: seq<Label>, s: State)
    requires LeadsTo(ls0, At(PRESENT, false, Free, Queue(true, true), WorkerIdle, []))
    ensures LeadsTo(ls, s)
    ensures s == At(PRESENT, true, Held(Worker, Conn(ConnMark)), Queue(false, true), WorkerInOp, [Opened])
  {
    hide LeadsTo;
    ls, s := Next(ls0, At(PRESENT, false, Free, Queue(true, true), WorkerIdle, []), Pick(true));
    ls, s := Next(ls, s, Work);
    ls, s := Next(ls, s, Acquire(Worker));
    ls, s := Next(ls, s, Operate(true));
    ls, s := Next(ls, s, Operate(true));
  }

  /** A discovery that nobody answers. */
  lemma SensorTried(ls0: seq<Label>, d: Sensor, log: seq<Entry>) returns (ls: seq<Label>, s: State)
    requires LeadsTo(ls0, At(CONNECTED, true, Held(Worker, Find(FindArm, d)), Queue(false, true), WorkerInOp, log))
    ensures LeadsTo(ls, s)
    ensures s == At(CONNECTED, true, Held(Worker, NextSensor(d)), Queue(false, true), WorkerInOp, log + [SuidAsked(d)])
  {
    hide LeadsTo;
    ls, s := Next(ls0, At(CONNECTED, true, Held(Worker, Find(FindArm, d)), Queue(false, true), WorkerInOp, log), Operate(true));
    assert s.h == CONNECTED && s.log == log;
    ls, s := Next(ls, s, Operate(true));
    ls, s := Next(ls, s, Operate(true));
    assert !s.h.done.At(d) && s.log == log + [SuidAsked(d)];
    ls, s := Next(ls, s, Operate(true));
  }

  lemma WorkerDisconnected(ls0: seq<Label>, log: seq<Entry>) returns (ls: seq<Label>, s: State)
    requires LeadsTo(ls0, At(CONNECTED, true, Held(Worker, Conn(ConnUnlock)), Queue(false, true), WorkerInOp, log))
    ensures LeadsTo(ls, s)
    ensures s == At(Cleared(CONNECTED), false, Free, Queue(false, false), WorkerIdle, log + [Closed])
  {
    hide LeadsTo;
    ls, s := Next(ls0, At(CONNECTED, true, Held(Worker, Conn(ConnUnlock)), Queue(false, true), WorkerInOp, log), Operate(true));
    ls, s := Next(ls, s, Pick(false));
    ls, s := Next(ls, s, Work);
    assert s == At(CONNECTED, true, Held(Worker, Disc(DiscClear)), Queue(false, false), WorkerInOp, log);
    ls, s := DisconnectDone(ls, log);
  }

  lemma DisconnectDone(ls0: seq<Label>, log: seq<Entry>) returns (ls: seq<Label>, s: State)
    requires LeadsTo(ls0, At(CONNECTED, true, Held(Worker, Disc(DiscClear)), Queue(false, false), WorkerInOp, log))
    ensures LeadsTo(ls, s)
    ensures s == At(Cleared(CONNECTED), false, Free, Queue(false, false), WorkerIdle, log + [Closed])
  {
    hide LeadsTo;
    ls, s := Next(ls0, At(CONNECTED, true, Held(Worker, Disc(DiscClear)), Queue(false, false), WorkerInOp, log), Acquire(Worker));
    ls, s := Next(ls, s, Operate(true));
    ls, s := Next(ls, s, Operate(true));
    ls, s := Next(ls, s, Operate(true));
  }

  lemma WholeRun() returns (ls: seq<Label>, s: State, log: seq<Entry>)
    ensures LeadsTo(ls, s) && s == At(Cleared(CONNECTED), false, Free, Queue(false, false), WorkerIdle, log)
  {
    hide LeadsTo, Cleared, At;
    ls, s := Starts();
    ls, s := ServiceCame(ls, Queue(false, false));
    ls, s := ServiceLeft(ls, Queue(true, false));
    ls, s := ServiceCame(ls, Queue(true, true));
    ls, s := WorkerConnected(ls);
    log := [Opened];
    ls, s := SensorTried(ls, CameraHandshake, log);
    log := log + [SuidAsked(CameraHandshake)];
    ls, s := SensorTried(ls, HumanPresence, log);
    log := log + [SuidAsked(HumanPresence)];
    ls, s := SensorTried(ls, CameraFace, log);
    log := log + [SuidAsked(CameraFace)];
    ls, s := WorkerDisconnected(ls, log);
    log := log + [Closed];
  }

  lemma {:induction false} NeverFailed(s: State, ls: seq<Label>, w: Watch)
    requires RunFrom(s, ls).Some? && NoneFails(ls) && w.last != Failed
    ensures Watched(s, ls, w).last != Failed
    decreases ls
  {
    hide Enabled, Exec, AskedAfter, SearchedAfter;
    if ls != [] {
      assert ls[0] in ls;
      forall l | l in ls[1..] && l.Operate? ensures l.ok { assert l in ls; }
      NeverFailed(Exec(s, ls[0]), ls[1..], WatchStep(s, ls[0], w));
    }
  }

  lemma AtRest(h: Hpd, log: seq<Entry>)
    ensures Resting(At(h, false, Free, Queue(false, false), WorkerIdle, log))
    ensures CONNECTED.flags.servicePresent && Cleared(CONNECTED).flags.servicePresent && Running(Cleared(CONNECTED))
  {
  }

  /** The service arrives, leaves and comes back before the worker runs. Both work items are pending once,
      the connect work from the first arrival on, and run in that order: the worker connects to the service
      that came back, and then disconnects for the one that left. No call fails, nothing is suspended or
      removed, and the run rests without a client. */
  lemma ReturningServiceIsLost() returns (ls: seq<Label>)
    ensures Run(1, ls).Some? && NoneFails(ls)
    ensures var s := Run(1, ls).value;
            && Resting(s) && s.h.flags.servicePresent && Running(s.h)
            && !s.handles.client && Watched(Init(1), ls, NOTHING).last == Dropped(Worker)
  {
    var s, log;
    ls, s, log := WholeRun();
    AtRest(Cleared(CONNECTED), log);
    hide RunFrom, Init, Watched, Cleared, NoneFails, Resting;
    ServiceIsServed(1, ls);
    NeverFailed(Init(1), ls, NOTHING);
  }
}
