/** The power-profiles bridge: temporary holds over a chosen profile, written to the driver through a
    file whose writes may fail. */
module ProfileHolds {
  import opened Wrappers
  import opened Bytes

  const POWER_SAVER := "power-saver"
  const BALANCED := "balanced"
  const PERFORMANCE := "performance"

  const INTERFACE := "org.freedesktop.UPower.PowerProfiles"
  const LEGACY_INTERFACE := "net.hadess.PowerProfiles"

  predicate KnownInterface(name: string) { name == INTERFACE || name == LEGACY_INTERFACE }

  /** The names that a set and a hold accept. */
  predicate CanSet(name: string) { name == POWER_SAVER || name == BALANCED || name == PERFORMANCE }
  predicate CanHold(name: string) { name == POWER_SAVER || name == PERFORMANCE }

  /** What the driver calls a profile. */
  function DriverName(profile: string): string { if profile == POWER_SAVER then "quiet" else profile }

  /** The value of a property as D-Bus carries it. */
  datatype Variant = Text(text: string) | Flag(flag: bool)

  /** A flag's string is no profile. */
  predicate SettableVariant(v: Variant) { v.Text? && CanSet(v.text) }

  /** A text is true when it is not empty. */
  predicate Truth(v: Variant) { if v.Text? then v.text != "" else v.flag }

  datatype Hold = Hold(profile: string, reason: string, applicationId: string, owner: string)

  /** `driver` is the text last written to the driver; None after a write that failed. */
  datatype Bridge = Bridge(
    holds: map<nat, Hold>,
    nextCookie: nat,
    active: string,
    batteryAware: bool,
    driver: Option<string>)

  datatype Reply =
    | Done | Cookie(cookie: u32)
    | InvalidProfile | UnknownCookie | UnknownInterface | ReadOnly | WriteFailed | Overflow

  function HeldProfiles(holds: map<nat, Hold>): set<string> { set c | c in holds :: holds[c].profile }

  function Effective(b: Bridge): string {
    if POWER_SAVER in HeldProfiles(b.holds) then POWER_SAVER
    else if PERFORMANCE in HeldProfiles(b.holds) then PERFORMANCE
    else b.active
  }

  /** The driver has the effective profile. */
  predicate HasEffective(b: Bridge) { b.driver == Some(DriverName(Effective(b))) }

  function Written(b: Bridge, ok: bool): Bridge { b.(driver := if ok then Some(DriverName(Effective(b))) else None) }

  // ----- the calls, with the outcome of the writes they make

  datatype Call =
    | HoldProfile(profile: string, reason: string, applicationId: string, sender: string)
    | ReleaseProfile(cookie: u32, sender: string)
    | SetProperty(iface: string, prop: string, value: Variant)
    | OwnerChanged(was: string, now: string)
    | RestoreBalanced

  /** The first and, for a set that releases holds, the second write. */
  datatype Served = Served(call: Call, first: bool, second: bool)

  function Granted(call: Call): Option<Hold> {
    if call.HoldProfile? && CanHold(call.profile)
    then Some(Hold(call.profile, call.reason, call.applicationId, call.sender))
    else None
  }

  function Held(b: Bridge, call: Call, ok: bool): (Bridge, Reply) {
    match Granted(call)
    case None => (b, InvalidProfile)
    case Some(hold) =>
      var e := Written(b.(holds := b.holds[b.nextCookie := hold], nextCookie := b.nextCookie + 1), ok);
      (e, if !ok then WriteFailed else if b.nextCookie < TWO_32 then Cookie(b.nextCookie) else Overflow)
  }

  function Released(b: Bridge, cookie: u32, sender: string, ok: bool): (Bridge, Reply) {
    if cookie !in b.holds || b.holds[cookie].owner != sender then (b, UnknownCookie)
    else (Written(b.(holds := b.holds - {cookie}), ok), if ok then Done else WriteFailed)
  }

  /** The cookies of one owner, or of everyone. */
  function CookiesOf(holds: map<nat, Hold>, owner: Option<string>): set<nat> {
    set c | c in holds && (owner.None? || holds[c].owner == owner.value)
  }

  /** Whether telling the owners fails: a cookie beyond 32 bits cannot be put into the signal. */
  predicate Raises(cookies: set<nat>, emit: bool) { emit && exists c :: c in cookies && TWO_32 <= c }

  /** The cookies that are dropped, oldest first: all, or those up to the first that cannot be told. */
  function Dropped(cookies: set<nat>, emit: bool): set<nat> {
    set c | c in cookies && (!emit || forall k :: k in cookies && TWO_32 <= k ==> c <= k)
  }

  function HoldsReleased(b: Bridge, owner: Option<string>, emit: bool, ok: bool): (Bridge, Reply) {
    var cookies := CookiesOf(b.holds, owner);
    var e := b.(holds := b.holds - Dropped(cookies, emit));
    if cookies == {} then (b, Done)
    else if Raises(cookies, emit) then (e, Overflow)
    else (Written(e, ok), if ok then Done else WriteFailed)
  }

  function ProfileSet(b: Bridge, p: string, first: bool, second: bool): (Bridge, Reply) {
    var (e, r) := HoldsReleased(b, None, true, first);
    if r != Done then (e, r)
    else (Written(e.(active := p), second), if second then Done else WriteFailed)
  }

  function PropertySet(b: Bridge, iface: string, prop: string, value: Variant, first: bool, second: bool): (Bridge, Reply) {
    if !KnownInterface(iface) then (b, UnknownInterface)
    else if prop == "ActiveProfile" then
      if SettableVariant(value) then ProfileSet(b, value.text, first, second) else (b, InvalidProfile)
    else if prop == "BatteryAware" then (b.(batteryAware := Truth(value)), Done)
    else (b, ReadOnly)
  }

  function OwnerGone(b: Bridge, was: string, now: string, ok: bool): (Bridge, Reply) {
    if was != "" && now == "" then HoldsReleased(b, Some(was), false, ok) else (b, Done)
  }

  function Restored(b: Bridge, ok: bool): (Bridge, Reply) {
    (b.(holds := map[], active := BALANCED, driver := if ok then Some(BALANCED) else None), Done)
  }

  function Serve(b: Bridge, s: Served): (Bridge, Reply) {
    match s.call
    case HoldProfile(_, _, _, _) => Held(b, s.call, s.first)
    case ReleaseProfile(cookie, sender) => Released(b, cookie, sender, s.first)
    case SetProperty(iface, prop, value) => PropertySet(b, iface, prop, value, s.first, s.second)
    case OwnerChanged(was, now) => OwnerGone(b, was, now, s.first)
    case RestoreBalanced => Restored(b, s.first)
  }

  function Start(initial: string, ok: bool): Bridge { Written(Bridge(map[], 1, initial, false, None), ok) }

  function Run(b: Bridge, history: seq<Served>): Bridge {
    if history == [] then b else Serve(Run(b, history[..|history| - 1]), history[|history| - 1]).0
  }

  // ----- what the history alone says

  /** A set of the active profile that is not refused. */
  function Chosen(call: Call): Option<string> {
    if call.SetProperty? && KnownInterface(call.iface) && call.prop == "ActiveProfile" && SettableVariant(call.value)
    then Some(call.value.text)
    else if call.RestoreBalanced? then Some(BALANCED)
    else None
  }

  function Grants(history: seq<Served>): nat {
    if history == [] then 0
    else Grants(history[..|history| - 1]) + if Granted(history[|history| - 1].call).Some? then 1 else 0
  }

  /** The i-th call granted the hold under this cookie: cookies count the grants. */
  predicate GrantedAt(history: seq<Served>, i: nat, cookie: nat, hold: Hold) {
    i < |history| && Granted(history[i].call) == Some(hold) && cookie == 1 + Grants(history[..i])
  }

  /** Whether a call, after this history, ends a hold: its owner releases it or leaves the bus, the bridge
      restores, or a profile is set; but a set stops dropping holds after the first beyond 32 bits. */
  ghost predicate Ends(history: seq<Served>, call: Call, cookie: nat, hold: Hold)
    decreases |history|, 3
  {
    || (call.ReleaseProfile? && call.cookie == cookie && call.sender == hold.owner)
    || (call.OwnerChanged? && call.was != "" && call.now == "" && call.was == hold.owner)
    || call.RestoreBalanced?
    || (Chosen(call).Some? && !Spared(history, cookie))
  }

  /** An older hold beyond 32 bits is outstanding. */
  ghost predicate Spared(history: seq<Served>, cookie: nat)
    decreases |history|, 2
  {
    exists k: nat, g: Hold :: TWO_32 <= k < cookie && Outstanding(history, k, g)
  }

  ghost predicate Outstanding(history: seq<Served>, cookie: nat, hold: Hold)
    decreases |history|, 1
  {
    exists i :: GrantedAt(history, i, cookie, hold) && !EndedAfter(history, i, cookie, hold)
  }

  ghost predicate EndedAfter(history: seq<Served>, i: nat, cookie: nat, hold: Hold)
    decreases |history|, 0
  {
    exists j :: i < j < |history| && Ends(history[..j], history[j].call, cookie, hold)
  }

  /** A set that meets a hold beyond 32 bits, and so ends before it takes effect. */
  ghost predicate MeetsOverflow(history: seq<Served>, call: Call) {
    call.SetProperty? && Chosen(call).Some? && exists k: nat, g: Hold :: TWO_32 <= k && Outstanding(history, k, g)
  }

  ghost predicate NoSetRaises(history: seq<Served>) {
    forall j :: 0 <= j < |history| ==> !MeetsOverflow(history[..j], history[j].call)
  }

  function LastChosen(history: seq<Served>, initial: string): string {
    if history == [] then initial
    else
      var c := Chosen(history[|history| - 1].call);
      if c.Some? then c.value else LastChosen(history[..|history| - 1], initial)
  }

  predicate WritesSucceed(history: seq<Served>) { forall i :: 0 <= i < |history| ==> history[i].first && history[i].second }

  // ----- bookkeeping refines history

  lemma GrantsGrow(history: seq<Served>, i: nat)
    requires i < |history|
    ensures Grants(history[..i]) <= Grants(history)
    ensures Granted(history[i].call).Some? ==> Grants(history[..i]) < Grants(history)
    decreases |history|
  {
    var n := |history| - 1;
    if i < n {
      assert history[..n][..i] == history[..i] && history[..n][i] == history[i];
      GrantsGrow(history[..n], i);
    }
  }

  /** Cookies never repeat: two grants have different cookies, the later the larger. */
  lemma CookiesNeverRepeat(history: seq<Served>, i: nat, j: nat, c: nat, d: nat, g: Hold, h: Hold)
    requires i < j && GrantedAt(history, i, c, g) && GrantedAt(history, j, d, h)
    ensures c < d
  {
    assert history[..j][..i] == history[..i] && history[..j][i] == history[i];
    GrantsGrow(history[..j], i);
  }

  /** A later call changes an earlier grant only by ending it. */
  lemma EarlierGrant(history: seq<Served>, s: Served, i: nat, cookie: nat, hold: Hold)
    requires i < |history|
    ensures GrantedAt(history + [s], i, cookie, hold) <==> GrantedAt(history, i, cookie, hold)
    ensures EndedAfter(history + [s], i, cookie, hold) <==>
              EndedAfter(history, i, cookie, hold) || Ends(history, s.call, cookie, hold)
  {
    hide Ends, Granted, Grants;
    var now, n := history + [s], |history|;
    assert now[..i] == history[..i] && now[i] == history[i];
    assert now[..n] == history && now[n] == s;
    if j :| i < j < n && Ends(history[..j], history[j].call, cookie, hold) {
      assert now[..j] == history[..j] && now[j] == history[j];
      assert Ends(now[..j], now[j].call, cookie, hold);
    }
    if Ends(history, s.call, cookie, hold) { assert Ends(now[..n], now[n].call, cookie, hold); }
    if j :| i < j <= n && Ends(now[..j], now[j].call, cookie, hold) && j < n {
      assert now[..j] == history[..j] && now[j] == history[j];
      assert Ends(history[..j], history[j].call, cookie, hold);
    }
  }

  lemma OutstandingGrows(history: seq<Served>, s: Served, cookie: nat, hold: Hold)
    ensures Outstanding(history + [s], cookie, hold) <==>
              (Granted(s.call) == Some(hold) && cookie == 1 + Grants(history))
              || (Outstanding(history, cookie, hold) && !Ends(history, s.call, cookie, hold))
  {
    hide Ends, Granted, Grants, EndedAfter;
    var now, n := history + [s], |history|;
    assert now[..n] == history && now[n] == s;
    if Outstanding(history, cookie, hold) && !Ends(history, s.call, cookie, hold) {
      var i :| GrantedAt(history, i, cookie, hold) && !EndedAfter(history, i, cookie, hold);
      EarlierGrant(history, s, i, cookie, hold);
    }
    if Granted(s.call) == Some(hold) && cookie == 1 + Grants(history) {
      assert GrantedAt(now, n, cookie, hold);
      assert !EndedAfter(now, n, cookie, hold) by { NothingAfter(now, n, cookie, hold); }
    }
    if Outstanding(now, cookie, hold) {
      var i: nat :| GrantedAt(now, i, cookie, hold) && !EndedAfter(now, i, cookie, hold);
      if i < n { EarlierGrant(history, s, i, cookie, hold); }
    }
  }

  lemma NothingAfter(history: seq<Served>, i: nat, cookie: nat, hold: Hold)
    requires |history| <= i + 1
    ensures !EndedAfter(history, i, cookie, hold)
  {
  }

  /** The bridge holds an older hold beyond 32 bits. */
  predicate SparedIn(b: Bridge, cookie: nat) { exists k :: k in b.holds && TWO_32 <= k < cookie }

  predicate EndsIn(b: Bridge, call: Call, cookie: nat, hold: Hold) {
    || (call.ReleaseProfile? && call.cookie == cookie && call.sender == hold.owner)
    || (call.OwnerChanged? && call.was != "" && call.now == "" && call.was == hold.owner)
    || call.RestoreBalanced?
    || (Chosen(call).Some? && !SparedIn(b, cookie))
  }

  /** One call's effect on the holds. */
  lemma ServeHolds(b: Bridge, s: Served, cookie: nat, hold: Hold)
    requires b.nextCookie !in b.holds
    ensures var e := Serve(b, s).0;
            (cookie in e.holds && e.holds[cookie] == hold) <==>
              (Granted(s.call) == Some(hold) && cookie == b.nextCookie)
              || (cookie in b.holds && b.holds[cookie] == hold && !EndsIn(b, s.call, cookie, hold))
    ensures Serve(b, s).0.nextCookie == b.nextCookie + if Granted(s.call).Some? then 1 else 0
  {
    hide Effective, HoldsReleased, SparedIn, CanSet, CanHold, KnownInterface, Truth;
    match s.call {
      case HoldProfile(_, _, _, _) =>
      case ReleaseProfile(_, _) =>
      case SetProperty(_, _, _) => AllReleased(b, s.first);
      case OwnerChanged(was, _) => OwnerReleased(b, was, s.first);
      case RestoreBalanced =>
    }
  }

  lemma OwnerReleased(b: Bridge, owner: string, ok: bool)
    ensures var e := HoldsReleased(b, Some(owner), false, ok).0;
            && e.nextCookie == b.nextCookie
            && (forall c :: c in e.holds <==> c in b.holds && b.holds[c].owner != owner)
            && (forall c :: c in e.holds ==> e.holds[c] == b.holds[c])
  {
    hide Effective;
    var cookies := CookiesOf(b.holds, Some(owner));
    forall c | c in b.holds ensures c in cookies <==> b.holds[c].owner == owner {}
    assert Dropped(cookies, false) == cookies;
    var e := HoldsReleased(b, Some(owner), false, ok).0;
    forall c ensures c in e.holds <==> c in b.holds && b.holds[c].owner != owner {
      assert c in e.holds <==> c in b.holds && c !in cookies;
    }
  }

  lemma AllReleased(b: Bridge, ok: bool)
    ensures var e := HoldsReleased(b, None, true, ok).0;
            && e.nextCookie == b.nextCookie
            && (forall c :: c in e.holds <==> c in b.holds && SparedIn(b, c))
            && (forall c :: c in e.holds ==> e.holds[c] == b.holds[c])
    ensures HoldsReleased(b, None, true, ok).1 ==
            if b.holds == map[] then Done
            else if exists k :: k in b.holds && TWO_32 <= k then Overflow
            else if ok then Done else WriteFailed
  {
    hide Effective;
    var cookies := CookiesOf(b.holds, None);
    assert cookies == b.holds.Keys;
    if b.holds != map[] { assert b.holds.Keys != {}; }
    var e := HoldsReleased(b, None, true, ok).0;
    forall c ensures c in e.holds <==> c in b.holds && SparedIn(b, c) {
      if c in b.holds {
        assert c in Dropped(cookies, true) <==> !SparedIn(b, c);
      }
    }
  }

  ghost predicate Faithful(b: Bridge, history: seq<Served>) {
    && b.nextCookie == 1 + Grants(history)
    && (forall c, g :: (c in b.holds && b.holds[c] == g) <==> Outstanding(history, c, g))
  }

  lemma FreshCookie(b: Bridge, history: seq<Served>)
    requires Faithful(b, history)
    ensures b.nextCookie !in b.holds
  {
    if b.nextCookie in b.holds {
      var g := b.holds[b.nextCookie];
      assert Outstanding(history, b.nextCookie, g);
      var i :| GrantedAt(history, i, b.nextCookie, g);
      GrantsGrow(history, i);
      assert false;
    }
  }

  lemma EndsAgree(b: Bridge, history: seq<Served>, call: Call, cookie: nat, hold: Hold)
    requires Faithful(b, history)
    ensures Ends(history, call, cookie, hold) <==> EndsIn(b, call, cookie, hold)
  {
    hide Outstanding;
    assert Spared(history, cookie) <==> SparedIn(b, cookie) by {
      if k :| k in b.holds && TWO_32 <= k < cookie { assert Outstanding(history, k, b.holds[k]); }
      if k: nat, g: Hold :| TWO_32 <= k < cookie && Outstanding(history, k, g) { assert k in b.holds; }
    }
  }

  /** In every run, however its writes end, the outstanding holds are exactly the grants that nothing
      has ended: neither a release by their owner, nor their owner's leaving, nor a restore, nor a set
      that came to them. */
  lemma {:induction false} HoldsRefineHistory(initial: string, ok: bool, history: seq<Served>)
    ensures Faithful(Run(Start(initial, ok), history), history)
  {
    var b := Run(Start(initial, ok), history);
    if history == [] {
    } else {
      hide Serve, Ends, EndsIn, Granted, Outstanding, Grants;
      var n := |history| - 1;
      var before, s := history[..n], history[n];
      HoldsRefineHistory(initial, ok, before);
      var a := Run(Start(initial, ok), before);
      FreshCookie(a, before);
      assert history == before + [s];
      assert Grants(history) == Grants(before) + if Granted(s.call).Some? then 1 else 0 by { GrantsStep(before, s); }
      forall c, g ensures (c in b.holds && b.holds[c] == g) <==> Outstanding(history, c, g) {
        OutstandingGrows(before, s, c, g);
        EndsAgree(a, before, s.call, c, g);
        ServeHolds(a, s, c, g);
      }
      ServeHolds(a, s, 0, Hold("", "", "", ""));
    }
  }

  lemma GrantsStep(history: seq<Served>, s: Served)
    ensures Grants(history + [s]) == Grants(history) + if Granted(s.call).Some? then 1 else 0
  {
    assert (history + [s])[..|history|] == history;
  }

  // ----- the driver's profile

  predicate MeetsOverflowIn(b: Bridge, call: Call) {
    call.SetProperty? && Chosen(call).Some? && exists k :: k in b.holds && TWO_32 <= k
  }

  lemma ServeDriver(b: Bridge, s: Served)
    requires !MeetsOverflowIn(b, s.call)
    requires InStep(b)
    ensures InStep(Serve(b, s).0)
    ensures s.first && s.second && b.driver.Some? ==>
              var e := Serve(b, s).0;
              e.driver.Some? && e.active == match Chosen(s.call) case Some(p) => p case None => b.active
  {
    WritesAreInStep();
    hide Effective, HeldProfiles, CanSet, CanHold, KnownInterface, DriverName;
    match s.call {
      case HoldProfile(_, _, _, _) =>
      case ReleaseProfile(_, _) =>
      case SetProperty(_, _, value) =>
        FlagAside(b, Truth(value));
        hide Dropped;
      case OwnerChanged(_, _) => hide Dropped;
      case RestoreBalanced =>
        NoneHeld(Restored(b, s.first).0);
        OwnNames();
    }
  }

  /** The driver has the effective profile, unless the last write failed. */
  predicate InStep(b: Bridge) { b.driver.Some? ==> HasEffective(b) }

  /** After any call the driver is in step, but for two cases: the call is a set that raised, and left the
      driver and the active profile alone, or the driver was out of step and the call wrote nothing. */
  lemma OutOfStep(b: Bridge, s: Served)
    ensures var e := Serve(b, s).0;
            || InStep(e)
            || (MeetsOverflowIn(b, s.call) && e.driver == b.driver && e.active == b.active)
            || (!InStep(b) && e == b.(batteryAware := e.batteryAware))
  {
    WritesAreInStep();
    hide Effective, HeldProfiles, CanSet, CanHold, KnownInterface, DriverName;
    match s.call {
      case HoldProfile(_, _, _, _) =>
      case ReleaseProfile(_, _) =>
      case SetProperty(_, _, value) =>
        AllReleased(b, s.first);
        FlagAside(b, Truth(value));
        hide Dropped, Raises;
      case OwnerChanged(_, _) => hide Dropped;
      case RestoreBalanced =>
        NoneHeld(Restored(b, s.first).0);
        OwnNames();
    }
  }

  lemma FlagAside(b: Bridge, flag: bool)
    ensures Effective(b.(batteryAware := flag)) == Effective(b)
  {
  }

  lemma WritesAreInStep()
    ensures forall b, ok :: InStep(Written(b, ok)) && (ok ==> Written(b, ok).driver.Some?)
  {
  }

  lemma OwnNames()
    ensures DriverName(BALANCED) == BALANCED
  {
  }

  lemma NoneHeld(b: Bridge)
    requires b.holds == map[]
    ensures Effective(b) == b.active
  {
  }

  lemma OverflowAgrees(b: Bridge, history: seq<Served>, call: Call)
    requires Faithful(b, history)
    ensures MeetsOverflow(history, call) <==> MeetsOverflowIn(b, call)
  {
    hide Outstanding;
    if k :| k in b.holds && TWO_32 <= k { assert Outstanding(history, k, b.holds[k]); }
    if k: nat, g: Hold :| TWO_32 <= k && Outstanding(history, k, g) { assert k in b.holds; }
  }

  /** While no set raises, the driver has the effective profile after every call, unless the last write
      failed; when all writes succeed the active profile is the last one chosen. */
  lemma {:induction false} DriverFollows(initial: string, ok: bool, history: seq<Served>)
    requires NoSetRaises(history)
    ensures var b := Run(Start(initial, ok), history);
            && InStep(b)
            && (ok && WritesSucceed(history) ==> b.driver.Some? && b.active == LastChosen(history, initial))
  {
    if history != [] {
      hide Serve, Effective, MeetsOverflow, MeetsOverflowIn, Faithful;
      var n := |history| - 1;
      var before := history[..n];
      forall j | 0 <= j < n ensures !MeetsOverflow(before[..j], before[j].call) {
        assert before[..j] == history[..j] && before[j] == history[j];
      }
      DriverFollows(initial, ok, before);
      HoldsRefineHistory(initial, ok, before);
      OverflowAgrees(Run(Start(initial, ok), before), before, history[n].call);
      ServeDriver(Run(Start(initial, ok), before), history[n]);
    }
  }

  /** No set raises in a run of fewer than 2^32 grants. */
  lemma FewGrants(history: seq<Served>)
    requires Grants(history) < TWO_32
    ensures NoSetRaises(history)
  {
    hide EndedAfter;
    forall j | 0 <= j < |history| ensures !MeetsOverflow(history[..j], history[j].call) {
      if k: nat, g: Hold :| TWO_32 <= k && Outstanding(history[..j], k, g) {
        var i: nat :| GrantedAt(history[..j], i, k, g);
        GrantsGrow(history[..j], i);
        GrantsGrow(history, j);
        assert false;
      }
    }
  }

  /** In every run whose writes succeed and in which no set raises, the driver was told "quiet" when a
      hold of "power-saver" that nothing has ended is outstanding, else "performance" when one of
      "performance" is, else the driver's name of the profile last set, or the initial one. */
  lemma DriverProfile(initial: string, history: seq<Served>)
    requires WritesSucceed(history) && NoSetRaises(history)
    ensures Run(Start(initial, true), history).driver ==
            Some(if Wanted(history, "power-saver") then "quiet"
                 else if Wanted(history, "performance") then "performance"
                 else if LastChosen(history, initial) == "power-saver" then "quiet"
                 else LastChosen(history, initial))
  {
    hide Run, Wanted, LastChosen, NoSetRaises, Faithful;
    var b := Run(Start(initial, true), history);
    DriverFollows(initial, true, history);
    HoldsRefineHistory(initial, true, history);
    HeldAgrees(b, history, POWER_SAVER);
    HeldAgrees(b, history, PERFORMANCE);
  }

  /** A call for a hold of this profile was granted, and nothing has ended the hold. */
  ghost predicate Wanted(history: seq<Served>, name: string) {
    exists i: nat, c: nat, g: Hold :: WantedAt(history, i, c, g, name)
  }

  ghost predicate WantedAt(history: seq<Served>, i: nat, c: nat, g: Hold, name: string) {
    GrantedAt(history, i, c, g) && history[i].call.profile == name && !EndedAfter(history, i, c, g)
  }

  lemma HeldAgrees(b: Bridge, history: seq<Served>, name: string)
    requires Faithful(b, history)
    ensures name in HeldProfiles(b.holds) <==> Wanted(history, name)
  {
    hide EndedAfter;
    if name in HeldProfiles(b.holds) {
      var c :| c in b.holds && b.holds[c].profile == name;
      assert Outstanding(history, c, b.holds[c]);
      var i: nat :| GrantedAt(history, i, c, b.holds[c]) && !EndedAfter(history, i, c, b.holds[c]);
      assert WantedAt(history, i, c, b.holds[c], name);
    }
    if i: nat, c: nat, g: Hold :| WantedAt(history, i, c, g, name) {
      assert Outstanding(history, c, g);
      assert c in b.holds && b.holds[c] == g;
    }
  }

  /** A hold is refused exactly when it names neither "power-saver" nor "performance", and a set of the
      profile exactly when it is none of the three names; a set is refused too on any other interface than
      the two, and of any other property than the profile and the battery flag. What is refused changes
      nothing. */
  lemma Refusals(b: Bridge, s: Served)
    ensures var (e, r) := Serve(b, s);
            && (r.InvalidProfile? || r.UnknownInterface? || r.ReadOnly? ==> e == b)
            && (s.call.HoldProfile? ==> (r.InvalidProfile? <==> s.call.profile !in ["power-saver", "performance"]))
            && (s.call.SetProperty? ==>
                  var known := s.call.iface in ["org.freedesktop.UPower.PowerProfiles", "net.hadess.PowerProfiles"];
                  && (r.UnknownInterface? <==> !known)
                  && (r.ReadOnly? <==> known && s.call.prop !in ["ActiveProfile", "BatteryAware"])
                  && (r.InvalidProfile? <==>
                     && known && s.call.prop == "ActiveProfile"
                     && s.call.value !in [Text("power-saver"), Text("balanced"), Text("performance")]))
  {
    hide Effective, Dropped, Raises, CookiesOf;
    match s.call {
      case HoldProfile(_, _, _, _) =>
      case ReleaseProfile(_, _) =>
      case SetProperty(_, _, value) =>
      case OwnerChanged(_, _) =>
      case RestoreBalanced =>
    }
  }

  // ----- calls whose write fails

  /** A hold whose write failed is kept although the caller was refused and never learns its cookie; it
      is the same for a cookie beyond 32 bits, which no release can name. A hold is reported as granted
      exactly when its write succeeded and its cookie fits. */
  lemma RefusedHoldStays(b: Bridge, s: Served)
    requires Granted(s.call).Some?
    ensures var (e, r) := Serve(b, s);
            && e.holds == b.holds[b.nextCookie := Granted(s.call).value]
            && (r.Cookie? <==> s.first && b.nextCookie < TWO_32)
            && (r.Cookie? ==> r.cookie == b.nextCookie)
  {
  }

  /** The battery flag is the one last set, and no other call touches it. */
  lemma BatteryFlag(b: Bridge, s: Served)
    ensures Serve(b, s).0.batteryAware ==
            if s.call.SetProperty? && KnownInterface(s.call.iface) && s.call.prop == "BatteryAware" then
              (match s.call.value case Flag(flag) => flag case Text(text) => |text| > 0)
            else b.batteryAware
  {
    hide Effective, CanHold, Dropped, Raises, CookiesOf;
    match s.call {
      case HoldProfile(_, _, _, _) =>
      case ReleaseProfile(_, _) =>
      case SetProperty(_, _, _) =>
      case OwnerChanged(_, _) =>
      case RestoreBalanced =>
    }
  }

  /** A set drops every hold, and takes the new profile exactly when there was none to drop or the write
      after dropping them succeeded. It raises exactly when it meets a hold beyond 32 bits: then the holds
      after the first such stay, and neither the active profile nor the driver's changes, so that the
      driver keeps in step only when the dropped holds did not matter. */
  lemma SetTakesEffect(b: Bridge, s: Served, p: string)
    requires s.call.SetProperty? && Chosen(s.call) == Some(p)
    ensures var (e, r) := Serve(b, s);
            var stuck := MeetsOverflowIn(b, s.call);
            && (r == Overflow <==> stuck)
            && (forall c :: c in e.holds <==> c in b.holds && SparedIn(b, c))
            && (stuck ==> e.active == b.active && e.driver == b.driver)
            && (stuck && HasEffective(b) ==> (HasEffective(e) <==> DriverName(Effective(e)) == DriverName(Effective(b))))
            && (!stuck ==> e.holds == map[]
                           && e.active == (if b.holds == map[] || s.first then p else b.active)
                           && (r == Done <==> (b.holds == map[] || s.first) && s.second))
  {
    AllReleased(b, s.first);
    hide SparedIn, Dropped, Effective;
    var (e, r) := Serve(b, s);
    if !MeetsOverflowIn(b, s.call) {
      forall c | c in b.holds ensures !SparedIn(b, c) { NotSpared(b, c); }
      assert e.holds.Keys == {};
    }
  }

  lemma NotSpared(b: Bridge, cookie: nat)
    requires forall k :: k in b.holds ==> k < TWO_32
    ensures !SparedIn(b, cookie)
  {
  }

  // ----- the service object

  lemma DroppedSoFar(cookies: set<nat>, rest: set<nat>, cookie: nat)
    requires rest <= cookies && cookie in rest && TWO_32 <= cookie
    requires forall c :: c in rest ==> cookie <= c
    requires forall c :: c in cookies && c !in rest ==> c < TWO_32
    ensures cookies - (rest - {cookie}) == Dropped(cookies, true) && Raises(cookies, true)
  {
    var dropped := Dropped(cookies, true);
    forall c ensures c in cookies - (rest - {cookie}) <==> c in dropped {
      if c in cookies && c !in dropped {
        var k :| k in cookies && TWO_32 <= k && k < c;
        assert k in rest;
        assert cookie < c && c in rest by { if c !in rest { assert false; } }
      }
      if c in dropped { assert c <= cookie; }
    }
  }

  lemma LeastExists(s: set<nat>)
    requires s != {}
    ensures exists m :: m in s && forall c :: c in s ==> m <= c
  {
    var m := Least(s);
  }

  lemma Least(s: set<nat>) returns (m: nat)
    requires s != {}
    ensures m in s && forall c :: c in s ==> m <= c
  {
    var x :| x in s;
    m := x;
    if s != {x} {
      var r := Least(s - {x});
      if r < x { m := r; }
      forall c | c in s ensures m <= c {
        if c != x { assert c in s - {x}; }
      }
    }
  }

  class PowerProfilesBridge {
    var holds: map<nat, Hold>
    var nextCookie: nat
    var activeProfile: string
    var batteryAware: bool
    var driver: Option<string>

    function View(): Bridge
      reads this
    {
      Bridge(holds, nextCookie, activeProfile, batteryAware, driver)
    }

    /** Starts from the saved or the driver's profile, and writes it; a failed write ends the service. */
    constructor (initial: string)
      ensures View() == Start(initial, true)
    {
      holds, nextCookie, activeProfile, batteryAware, driver := map[], 1, initial, false, Some(DriverName(initial));
    }

    method WriteDriverProfile(profile: string) returns (ok: bool)
      modifies `driver
      ensures driver == if ok then Some(DriverName(profile)) else None
    {
      var text := DriverName(profile);
      ok := *;
      driver := if ok then Some(text) else None;
    }

    method ApplyEffectiveProfile() returns (ok: bool)
      modifies `driver
      ensures View() == Written(old(View()), ok)
    {
      var held := HeldProfiles(holds);
      var effective := activeProfile;
      if POWER_SAVER in held { effective := POWER_SAVER; } else if PERFORMANCE in held { effective := PERFORMANCE; }
      ok := WriteDriverProfile(effective);
    }

    /** Drops the holds of one owner, or all, oldest first. Told that way, a hold beyond 32 bits ends the
        loop after it was dropped. */
    method ReleaseHolds(owner: Option<string>, emit: bool) returns (r: Reply, ok: bool)
      modifies this
      ensures (View(), r) == HoldsReleased(old(View()), owner, emit, ok)
    {
      var cookies := CookiesOf(holds, owner);
      ok := true;
      if cookies == {} { return Done, ok; }
      var rest := cookies;
      while rest != {}
        invariant rest <= cookies
        invariant holds == old(holds) - (cookies - rest)
        invariant emit ==> forall c :: c in cookies && c !in rest ==> c < TWO_32
        invariant View() == old(View()).(holds := holds)
      {
        LeastExists(rest);
        var cookie :| cookie in rest && forall c :: c in rest ==> cookie <= c;
        holds := holds - {cookie};
        ghost var from := rest;
        rest := rest - {cookie};
        assert cookies - rest == (cookies - from) + {cookie};
        if emit && cookie >= TWO_32 {
          DroppedSoFar(cookies, from, cookie);
          assert holds == old(holds) - Dropped(cookies, true);
          assert HoldsReleased(old(View()), owner, true, ok).1 == Overflow;
          return Overflow, ok;
        }
      }
      assert cookies - {} == cookies;
      assert Dropped(cookies, emit) == cookies && !Raises(cookies, emit);
      ok := ApplyEffectiveProfile();
      r := if ok then Done else WriteFailed;
    }

    method NameOwnerChanged(was: string, now: string) returns (r: Reply, ok: bool)
      modifies this
      ensures (View(), r) == Serve(old(View()), Served(OwnerChanged(was, now), ok, true))
    {
      r, ok := Done, true;
      if was != "" && now == "" { r, ok := ReleaseHolds(Some(was), false); }
    }

    method Set(iface: string, prop: string, value: Variant) returns (r: Reply, first: bool, second: bool)
      modifies this
      ensures (View(), r) == Serve(old(View()), Served(SetProperty(iface, prop, value), first, second))
    {
      first, second := true, true;
      if !KnownInterface(iface) { return UnknownInterface, first, second; }
      if prop == "ActiveProfile" {
        if !SettableVariant(value) { return InvalidProfile, first, second; }
        r, first := ReleaseHolds(None, true);
        if r != Done { return; }
        activeProfile := value.text;
        second := ApplyEffectiveProfile();
        return if second then Done else WriteFailed, first, second;
      }
      if prop == "BatteryAware" {
        batteryAware := Truth(value);
        return Done, first, second;
      }
      return ReadOnly, first, second;
    }

    method HoldProfile(profile: string, reason: string, applicationId: string, sender: string) returns (r: Reply, ok: bool)
      modifies this
      ensures (View(), r) == Serve(old(View()), Served(Call.HoldProfile(profile, reason, applicationId, sender), ok, true))
    {
      ok := true;
      if !CanHold(profile) { return InvalidProfile, ok; }
      var cookie := nextCookie;
      nextCookie := nextCookie + 1;
      holds := holds[cookie := Hold(profile, reason, applicationId, sender)];
      ok := ApplyEffectiveProfile();
      r := if !ok then WriteFailed else if cookie < TWO_32 then Cookie(cookie) else Overflow;
    }

    method ReleaseProfile(cookie: u32, sender: string) returns (r: Reply, ok: bool)
      modifies this
      ensures (View(), r) == Serve(old(View()), Served(Call.ReleaseProfile(cookie, sender), ok, true))
    {
      ok := true;
      if cookie !in holds || holds[cookie].owner != sender { return UnknownCookie, ok; }
      holds := holds - {cookie};
      ok := ApplyEffectiveProfile();
      r := if ok then Done else WriteFailed;
    }

    method RestoreBalanced() returns (ok: bool)
      modifies this
      ensures View() == Serve(old(View()), Served(Call.RestoreBalanced, ok, true)).0
      ensures holds == map[] && activeProfile == "balanced" && driver == if ok then Some("balanced") else None
    {
      holds := map[];
      activeProfile := BALANCED;
      ok := WriteDriverProfile(BALANCED);
    }
  }
}
