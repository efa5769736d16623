/**
 * The Wi-Fi station as one machine (main/main.c): the credential transaction
 * `app_wifi_join` and `app_wifi_leave`, one driver call per step, interleaved with
 * the event handler, the reconnect timer, the watchdog and the console. Driver
 * results are part of each step. A driver call that fails changes nothing, and
 * callbacks run whole and on time.
 */
module WifiModel {
  import opened Bytes

  datatype Config = Config(ssid: string, pass: string)

  const EMPTY := Config("", "")

  predicate Stored(c: Config) { c.ssid != "" }

  datatype Storage = Ram | Flash

  datatype Verdict = Ok | Failed | DriverError | InvalidArgument | InvalidState | LockTimeout

  /** What waits for the radio to be quiet. */
  datatype Purpose =
    | ToStage(candidate: Config, previous: Config)
    | ToRestore(previous: Config, error: Verdict)
    | ToErase

  /** Where the holder of the operation lock is: always just before a driver call or a wait. */
  datatype Op =
    | Idle
    | Isolating(candidate: Config)
    | Snapshotting(candidate: Config)
    | Quieting(purpose: Purpose)
    | AwaitingQuiet(purpose: Purpose)
    | Clearing(candidate: Config, previous: Config)
    | Staging(candidate: Config, previous: Config)
    | Releasing(candidate: Config, previous: Config)
    | Connecting(candidate: Config, previous: Config)
    | Judging(candidate: Config, previous: Config)
    | Committing(candidate: Config)
    | Saving(candidate: Config)
    | Restoring(previous: Config, error: Verdict)
    | Reviving(previous: Config, error: Verdict)
    | Reconnecting(error: Verdict)
    | Finishing(verdict: Verdict)
    | Ending(verdict: Verdict)
    | Persisting
    | Erasing
    | Left(verdict: Verdict)

  /** One esp_wifi_connect(): under which hold, to what, and whether a candidate was on trial. */
  datatype Call = Call(held: bool, config: Config, trial: bool)

  datatype Link = Link(
    connected: bool, failed: bool, dropped: bool,   // event bits
    retries: nat, hold: bool, joining: bool, supervisor: bool, have: bool, backoff: nat)

  /** Times in microseconds; `made`: whether the reconnect timer could be created. */
  datatype Clock = Clock(made: bool, armed: Option<nat>, now: nat, watchdogAt: nat)

  datatype Radio = Radio(ram: Config, flash: Config, mode: Storage)

  /** `calls`, `observed` and `verdict` record what happened; nothing branches on them. */
  datatype State = State(
    link: Link, clock: Clock, radio: Radio, op: Op,
    calls: seq<Call>, observed: seq<Config>, verdict: Verdict)

  const BACKOFF_MS: seq<nat> := [0, 0, 0, 1000, 2000, 5000, 15000, 30000, 60000]
  const WATCHDOG_US: nat := 15_000_000
  const MAX_RETRIES: nat := 5
  const MAX_STEP: nat := 1000

  function BackoffUs(step: nat): nat {
    BACKOFF_MS[if step > 8 then 8 else step] * 1000 + 1
  }

  function Boot(flash: Config, made: bool, now: nat): State {
    State(Link(false, false, false, 0, false, false, true, Stored(flash), 0),
          Clock(made, None, now, now + WATCHDOG_US), Radio(flash, flash, Flash),
          Idle, [], [], Ok)
  }

  predicate OnTrial(op: Op) {
    op.Connecting? || op.Judging? || (op.Quieting? && op.purpose.ToRestore?)
  }

  function Connect(s: State): State {
    s.(calls := s.calls + [Call(s.link.hold, s.radio.ram, OnTrial(s.op))])
  }

  function Cancel(s: State): State {
    s.(clock := s.clock.(armed := None), link := s.link.(backoff := 0))
  }

  function Bounded(s: State): State {
    Connect(s.(link := s.link.(retries := s.link.retries + 1)))
  }

  function Schedule(s: State, armOk: bool): State {
    if !s.clock.made then (if s.link.retries < MAX_RETRIES then Bounded(s) else s)
    else
      var step := s.link.backoff;
      s.(link := s.link.(backoff := if step < MAX_STEP then step + 1 else step),
         clock := s.clock.(armed := if armOk then Some(s.clock.now + BackoffUs(step)) else None))
  }

  function SetConfig(r: Radio, c: Config): Radio {
    if r.mode == Flash then r.(ram := c, flash := c) else r.(ram := c)
  }

  // ---------------- callbacks ----------------

  function OnDisconnected(s: State, armOk: bool): State {
    var s1 := s.(link := s.link.(connected := false));
    var s2 :=
      if s.link.hold then Cancel(s1)
      else if s.link.joining || !s.link.supervisor then
        if s.link.retries < MAX_RETRIES then Bounded(s1) else s1.(link := s1.link.(failed := true))
      else Schedule(s1, armOk);
    s2.(link := s2.link.(dropped := true))
  }

  function OnGotIp(s: State): State {
    var s1 := Cancel(s);
    s1.(link := s1.link.(retries := 0, have := true, failed := false, connected := true))
  }

  function OnTimer(s: State, connectOk: bool, armOk: bool): State {
    var s1 := s.(clock := s.clock.(armed := None));
    if !s.link.supervisor || s.link.hold || s.link.joining || s.link.connected then s1
    else if connectOk then Connect(s1)
    else Schedule(Connect(s1), armOk)
  }

  function OnWatchdog(s: State, readOk: bool, armOk: bool): State {
    var s1 := s.(clock := s.clock.(watchdogAt := s.clock.watchdogAt + WATCHDOG_US));
    if !s.link.supervisor || s.link.joining || s.link.hold || s.link.connected then s1
    else
      var stored := readOk && Stored(s.radio.ram);
      var s2 := s1.(link := s1.link.(have := stored));
      if !stored || s.clock.armed.Some? then s2 else Schedule(s2, armOk)
  }

  function OnRetry(s: State, armOk: bool): State {
    Schedule(s.(link := s.link.(backoff := 0)), armOk)
  }

  function OnSwitch(s: State, on: bool): State {
    var s1 := s.(link := s.link.(supervisor := on));
    if on then s1 else Cancel(s1)
  }

  // ---------------- the operation holding the lock ----------------

  function Resumed(p: Purpose): Op {
    match p
    case ToStage(c, previous) => Clearing(c, previous)
    case ToRestore(previous, e) => Restoring(previous, e)
    case ToErase => Persisting
  }

  function Restored(previous: Config): Config { if Stored(previous) then previous else EMPTY }

  /** One driver call answering `ok`; `late` says that a wait has run out. */
  function OpNext(s: State, ok: bool, late: bool): State {
    match s.op
    case Idle => s
    case Isolating(c) =>
      if ok then s.(radio := s.radio.(mode := Ram), op := Snapshotting(c)) else s.(op := Finishing(DriverError))
    case Snapshotting(c) =>
      s.(op := if ok then Quieting(ToStage(c, s.radio.ram)) else Finishing(DriverError))
    case Quieting(p) =>
      s.(link := s.link.(hold := true, dropped := false), op := if ok then AwaitingQuiet(p) else Resumed(p))
    case AwaitingQuiet(p) =>
      if s.link.dropped || late then s.(link := s.link.(dropped := false), op := Resumed(p)) else s
    case Clearing(c, previous) =>
      s.(link := s.link.(connected := false, failed := false, dropped := false), op := Staging(c, previous))
    case Staging(c, previous) =>
      if ok then s.(radio := SetConfig(s.radio, c), op := Releasing(c, previous))
      else s.(op := Quieting(ToRestore(previous, DriverError)))
    case Releasing(c, previous) =>
      s.(link := s.link.(retries := 0, hold := false), op := Connecting(c, previous))
    case Connecting(c, previous) =>
      Connect(s).(op := if ok then Judging(c, previous) else Quieting(ToRestore(previous, DriverError)))
    case Judging(c, previous) =>
      if s.link.connected then s.(observed := s.observed + [c], op := Committing(c))
      else if s.link.failed || late then s.(op := Quieting(ToRestore(previous, Failed)))
      else s
    case Committing(c) =>
      if ok then s.(radio := s.radio.(mode := Flash), op := Saving(c)) else s.(op := Finishing(DriverError))
    case Saving(c) =>
      if ok then s.(radio := SetConfig(s.radio, c), link := s.link.(have := true), op := Finishing(Ok))
      else s.(op := Finishing(DriverError))
    case Restoring(previous, e) =>
      if ok then s.(radio := SetConfig(s.radio, Restored(previous)), op := Reviving(previous, e))
      else s.(link := s.link.(hold := true), op := Finishing(e))
    case Reviving(previous, e) =>
      s.(link := s.link.(retries := 0, connected := false, failed := false,
                         hold := !Stored(previous), have := Stored(previous)),
         op := if Stored(previous) then Reconnecting(e) else Finishing(e))
    case Reconnecting(e) => Connect(s).(op := Finishing(e))
    case Finishing(v) =>
      if ok then s.(radio := s.radio.(mode := Flash), op := Ending(v))
      else s.(op := Ending(if v == Ok then DriverError else v))
    case Ending(v) => s.(link := s.link.(joining := false), op := Idle, verdict := v)
    case Persisting =>
      if ok then s.(radio := s.radio.(mode := Flash), op := Erasing) else s.(op := Left(DriverError))
    case Erasing =>
      if ok then s.(radio := SetConfig(s.radio, EMPTY), link := s.link.(have := false), op := Left(Ok))
      else s.(op := Left(DriverError))
    case Left(v) => Cancel(s).(op := Idle, verdict := v)
  }

  // ---------------- steps and runs ----------------

  datatype Step =
    | Started                                     // the driver's start event, at boot
    | Disconnected(armOk: bool)
    | GotIp
    | TimerFires(connectOk: bool, armOk: bool)
    | Watchdog(readOk: bool, armOk: bool)
    | Retry(armOk: bool)                          // `link retry`
    | Switch(on: bool)                            // `link supervisor on|off`
    | Tick(until: nat)
    | Join(candidate: Config)
    | Leave
    | Work(ok: bool, late: bool)

  predicate Acceptable(c: Config) { 0 < |c.ssid| <= 32 && |c.pass| <= 64 }

  predicate Enabled(s: State, step: Step) {
    match step
    case TimerFires(_, _) => s.clock.made && s.clock.armed == Some(s.clock.now)
    case Watchdog(_, _) => s.clock.watchdogAt == s.clock.now
    case Tick(t) =>
      s.clock.now <= t <= s.clock.watchdogAt && (s.clock.armed.Some? ==> t <= s.clock.armed.value)
    case Join(c) => s.op == Idle && Acceptable(c)
    case Leave => s.op == Idle
    case Work(_, _) => s.op != Idle
    case _ => true
  }

  function Next(s: State, step: Step): State {
    match step
    case Started => Connect(s)
    case Disconnected(armOk) => OnDisconnected(s, armOk)
    case GotIp => OnGotIp(s)
    case TimerFires(connectOk, armOk) => OnTimer(s, connectOk, armOk)
    case Watchdog(readOk, armOk) => OnWatchdog(s, readOk, armOk)
    case Retry(armOk) => OnRetry(s, armOk)
    case Switch(on) => OnSwitch(s, on)
    case Tick(t) => s.(clock := s.clock.(now := t))
    case Join(c) => Cancel(s).(link := s.link.(joining := true, backoff := 0), op := Isolating(c))
    case Leave => s.(op := Quieting(ToErase))
    case Work(ok, late) => OpNext(s, ok, late)
  }

  predicate Callback(step: Step) { !step.Join? && !step.Leave? && !step.Work? && !step.Started? }

  /** A callback, or the next call of the operation in progress. */
  predicate Inside(step: Step) { Callback(step) || step.Work? }

  ghost predicate Path(s: State, steps: seq<Step>, t: State)
    decreases |steps|
  {
    if steps == [] then s == t
    else Enabled(s, steps[0]) && Path(Next(s, steps[0]), steps[1..], t)
  }

  predicate AllInside(steps: seq<Step>) { forall step :: step in steps ==> Inside(step) }

  predicate AllCallbacks(steps: seq<Step>) { forall step :: step in steps ==> Callback(step) }

  /** `t` follows `s` with no operation started in between. */
  ghost predicate Reaches(s: State, t: State) {
    exists steps: seq<Step> :: AllInside(steps) && Path(s, steps, t)
  }

  lemma ReachesSelf(s: State)
    ensures Reaches(s, s)
  {
    assert AllInside([]) && Path(s, [], s);
  }

  lemma {:induction false} PathConcat(s: State, a: seq<Step>, t: State, b: seq<Step>, u: State)
    requires Path(s, a, t) && Path(t, b, u)
    ensures Path(s, a + b, u)
    decreases |a|
  {
    hide Next, Enabled;
    if a == [] {
      assert a + b == b;
    } else {
      PathConcat(Next(s, a[0]), a[1..], t, b, u);
      assert (a + b)[0] == a[0] && (a + b)[1..] == a[1..] + b;
    }
  }

  lemma ReachesOn(s: State, t: State, step: Step)
    requires Reaches(s, t) && Inside(step) && Enabled(t, step)
    ensures Reaches(s, Next(t, step))
  {
    hide Next, Enabled, Inside;
    var steps :| AllInside(steps) && Path(s, steps, t);
    var u := Next(t, step);
    assert Path(u, [], u);
    assert [step][0] == step && [step][1..] == [];
    assert Path(t, [step], u);
    PathConcat(s, steps, t, [step], u);
    assert AllInside(steps + [step]);
  }

  lemma ReachesTrans(s: State, t: State, u: State)
    requires Reaches(s, t) && Reaches(t, u)
    ensures Reaches(s, u)
  {
    hide Next, Enabled, Inside, Path;
    var a: seq<Step> :| AllInside(a) && Path(s, a, t);
    var b: seq<Step> :| AllInside(b) && Path(t, b, u);
    PathConcat(s, a, t, b, u);
    assert AllInside(a + b);
  }

  /** The operation's next step takes a reached state to another. */
  lemma ReachesNext(s: State, before: State, t: State, ok: bool, late: bool)
    requires Reaches(s, before) && before.op != Idle && t == OpNext(before, ok, late)
    ensures Reaches(s, t)
  {
    hide Reaches, OpNext;
    ReachesOn(s, before, Work(ok, late));
  }
}
