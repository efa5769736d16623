/**
 * The station's variables, changed in place by the transaction, the event handler,
 * the timers and the console (main/main.c:49-60, 81-85, 143-238, 353-402, 437-633,
 * 800-826). Each method is one step, or one path, of the machine in WifiModel.
 */
module WifiStation {
  import opened Bytes
  import opened WifiModel
  import opened WifiTransaction
  import opened WifiSuccess

  /** What the world does around one driver call: callbacks run first, then the call answers or the wait ends. */
  datatype Moment = Moment(callbacks: seq<Step>, ok: bool)

  datatype Lock = Missing | Busy | Taken

  /** A station and how much of the world it has seen. */
  datatype Point = Point(state: State, moment: nat)

  /** The callbacks that are due, one after the other. */
  function Heard(s: State, callbacks: seq<Step>): State
    decreases callbacks
  {
    if callbacks == [] then s
    else Heard(if Callback(callbacks[0]) && Enabled(s, callbacks[0]) then Next(s, callbacks[0]) else s, callbacks[1..])
  }

  /** A driver call or a wait, as opposed to a change of the station's own variables. */
  predicate Asks(op: Op) {
    !op.Idle? && !op.Clearing? && !op.Releasing? && !op.Reviving? && !op.Ending? && !op.Left?
  }

  /** The operation's next step, in a world that decides what is called back and what is answered. */
  function Played(w: nat -> Moment, p: Point): Point {
    if Asks(p.state.op)
    then Point(OpNext(Heard(p.state, w(p.moment).callbacks), w(p.moment).ok, true), p.moment + 1)
    else Point(OpNext(p.state, true, true), p.moment)
  }

  function Turns(w: nat -> Moment, p: Point, n: nat): Point
    decreases n
  {
    if n == 0 then p else Turns(w, Played(w, p), n - 1)
  }

  /** The operation, left to itself in this world, comes from p to q. */
  ghost predicate Plays(w: nat -> Moment, p: Point, q: Point) {
    exists n: nat :: Turns(w, p, n) == q
  }

  lemma PlaysOnce(w: nat -> Moment, p: Point, q: Point)
    requires q == Played(w, p)
    ensures Plays(w, p, q)
  {
    hide Played;
    assert Turns(w, q, 0) == q;
    assert Turns(w, p, 1) == q;
  }

  lemma PlaysAsked(w: nat -> Moment, p: Point, heard: State, q: Point)
    requires Asks(p.state.op) && heard == Heard(p.state, w(p.moment).callbacks)
    requires q == Point(OpNext(heard, w(p.moment).ok, true), p.moment + 1)
    ensures Plays(w, p, q)
  {
    hide OpNext, Heard, Plays;
    PlaysOnce(w, p, q);
  }

  lemma PlaysOwn(w: nat -> Moment, p: Point, q: Point)
    requires !Asks(p.state.op) && q == Point(OpNext(p.state, true, true), p.moment)
    ensures Plays(w, p, q)
  {
    hide OpNext, Heard, Plays;
    PlaysOnce(w, p, q);
  }

  lemma {:induction false} TurnsAdd(w: nat -> Moment, p: Point, m: nat, n: nat)
    ensures Turns(w, p, m + n) == Turns(w, Turns(w, p, m), n)
    decreases m
  {
    hide Played;
    if m > 0 {
      TurnsAdd(w, Played(w, p), m - 1, n);
    }
  }

  lemma PlaysTrans(w: nat -> Moment, p: Point, q: Point, r: Point)
    requires Plays(w, p, q) && Plays(w, q, r)
    ensures Plays(w, p, r)
  {
    hide Turns;
    var m: nat :| Turns(w, p, m) == q;
    var n: nat :| Turns(w, q, n) == r;
    TurnsAdd(w, p, m, n);
    assert Turns(w, p, m + n) == r;
  }

  // ---------------- what such a run does and decides ----------------

  lemma {:induction false} HeardIsReached(s: State, callbacks: seq<Step>)
    ensures Reaches(s, Heard(s, callbacks)) && Spares(s, Heard(s, callbacks))
    decreases callbacks
  {
    hide Reaches, Next, Enabled, Callback;
    if callbacks == [] {
      ReachesSelf(s);
    } else {
      var step := callbacks[0];
      var s1 := if Callback(step) && Enabled(s, step) then Next(s, step) else s;
      HeardIsReached(s1, callbacks[1..]);
      if Callback(step) && Enabled(s, step) {
        ReachesSelf(s);
        ReachesOn(s, s, step);
        CallbackSpares(s, step);
        ReachesTrans(s, s1, Heard(s, callbacks));
      }
    }
  }

  lemma PlayedIsReached(w: nat -> Moment, p: Point)
    ensures Reaches(p.state, Played(w, p).state)
  {
    hide Reaches, OpNext, Heard;
    ReachesSelf(p.state);
    if Asks(p.state.op) {
      HeardIsReached(p.state, w(p.moment).callbacks);
      ReachesNext(p.state, Heard(p.state, w(p.moment).callbacks), Played(w, p).state, w(p.moment).ok, true);
    } else if p.state.op != Idle {
      ReachesNext(p.state, p.state, Played(w, p).state, true, true);
    } else {
      assert Played(w, p).state == p.state by { IdleStays(p.state); }
    }
  }

  lemma IdleStays(s: State)
    requires s.op == Idle
    ensures OpNext(s, true, true) == s
  {
  }

  lemma {:induction false} TurnsAreReached(w: nat -> Moment, p: Point, n: nat)
    ensures Reaches(p.state, Turns(w, p, n).state)
    decreases n
  {
    hide Reaches, Played;
    ReachesSelf(p.state);
    if n > 0 {
      PlayedIsReached(w, p);
      TurnsAreReached(w, Played(w, p), n - 1);
      ReachesTrans(p.state, Played(w, p).state, Turns(w, p, n).state);
    }
  }

  lemma PlaysReaches(w: nat -> Moment, p: Point, q: Point)
    requires Plays(w, p, q)
    ensures Reaches(p.state, q.state)
  {
    hide Reaches, Turns;
    var n: nat :| Turns(w, p, n) == q;
    TurnsAreReached(w, p, n);
  }

  /** The world grants this turn: the answer is yes, or the candidate is up when its wait ends. */
  predicate Grants(w: nat -> Moment, p: Point) {
    Asks(p.state.op) ==>
      Favours(Heard(p.state, w(p.moment).callbacks), Work(w(p.moment).ok, true))
  }

  predicate Granted(w: nat -> Moment, p: Point, n: nat)
    decreases n
  {
    n == 0 || (Grants(w, p) && Granted(w, Played(w, p), n - 1))
  }

  lemma PlayedDecides(w: nat -> Moment, p: Point, leaving: bool)
    ensures Winning(p.state, leaving) ==>
              if Grants(w, p) then Winning(Played(w, p).state, leaving) else Losing(Played(w, p).state)
    ensures Losing(p.state) ==> Losing(Played(w, p).state)
  {
    var m := w(p.moment);
    HeardIsReached(p.state, m.callbacks);
    var s := if Asks(p.state.op) then Heard(p.state, m.callbacks) else p.state;
    hide Heard, OpNext, Reaches;
    if Winning(p.state, leaving) {
      WorkKeepsWinning(s, leaving, if Asks(p.state.op) then m.ok else true, true);
    }
    if Losing(p.state) {
      WorkKeepsLosing(s, if Asks(p.state.op) then m.ok else true, true);
    }
  }

  lemma {:induction false} TurnsDecide(w: nat -> Moment, p: Point, n: nat, leaving: bool)
    ensures Winning(p.state, leaving) ==>
              if Granted(w, p, n) then Winning(Turns(w, p, n).state, leaving) else Losing(Turns(w, p, n).state)
    ensures Losing(p.state) ==> Losing(Turns(w, p, n).state)
    decreases n
  {
    hide Played, Winning, Losing, Grants;
    if n > 0 {
      PlayedDecides(w, p, leaving);
      TurnsDecide(w, Played(w, p), n - 1, leaving);
    }
  }

  /** Everything asked on the way from p to q was granted. */
  ghost predicate AllGranted(w: nat -> Moment, p: Point, q: Point) {
    exists n: nat :: Turns(w, p, n) == q && Granted(w, p, n)
  }

  lemma PlaysDecides(w: nat -> Moment, p: Point, q: Point, leaving: bool)
    requires Plays(w, p, q) && Winning(p.state, leaving) && q.state.op == Idle
    ensures q.state.verdict == Ok <==> AllGranted(w, p, q)
    ensures q.state.verdict == Ok ==> Winning(q.state, leaving)
  {
    hide Turns, Granted;
    var n: nat :| Turns(w, p, n) == q;
    forall k: nat | Turns(w, p, k) == q
      ensures q.state.verdict == Ok <==> Granted(w, p, k)
    {
      TurnsDecide(w, p, k, leaving);
    }
    TurnsDecide(w, p, n, leaving);
  }

  class Station {
    const world: nat -> Moment
    var moment: nat

    var connected: bool
    var failed: bool
    var dropped: bool
    var retries: nat
    var hold: bool
    var joining: bool
    var supervisor: bool
    var have: bool
    var backoff: nat

    const timerMade: bool
    var armed: Option<nat>
    var now: nat
    var watchdogAt: nat

    var ram: Config
    var flash: Config
    var mode: Storage

    ghost var op: Op
    ghost var calls: seq<Call>
    ghost var observed: seq<Config>
    ghost var verdict: Verdict

    ghost function View(): State
      reads this
    {
      State(Link(connected, failed, dropped, retries, hold, joining, supervisor, have, backoff),
            Clock(timerMade, armed, now, watchdogAt), Radio(ram, flash, mode), op, calls, observed, verdict)
    }

    ghost function At(): Point
      reads this
    {
      Point(View(), moment)
    }

    constructor (stored: Config, made: bool, time: nat, w: nat -> Moment)
      ensures View() == Boot(stored, made, time) && world == w
    {
      world, moment := w, 0;
      connected, failed, dropped, retries := false, false, false, 0;
      hold, joining, supervisor, have, backoff := false, false, true, Stored(stored), 0;
      timerMade, armed, now, watchdogAt := made, None, time, time + WATCHDOG_US;
      ram, flash, mode := stored, stored, Flash;
      op, calls, observed, verdict := Idle, [], [], Ok;
    }

    // ---------------- the reconnect supervisor ----------------

    /** esp_wifi_connect(); its answer is the caller's to use. */
    method CallConnect()
      modifies this
      ensures View() == Connect(old(View())) && moment == old(moment)
    {
      calls := calls + [Call(hold, ram, OnTrial(op))];
    }

    method ConnectBounded()
      modifies this
      ensures View() == Bounded(old(View())) && moment == old(moment)
    {
      retries := retries + 1;
      CallConnect();
    }

    method CancelReconnect()
      modifies this
      ensures View() == Cancel(old(View())) && moment == old(moment)
    {
      armed := None;
      backoff := 0;
    }

    method ScheduleReconnect(armOk: bool)
      modifies this
      ensures View() == Schedule(old(View()), armOk) && moment == old(moment)
    {
      if !timerMade {
        if retries < MAX_RETRIES {
          ConnectBounded();
        }
        return;
      }
      var delay := BackoffUs(backoff);
      if backoff < MAX_STEP {
        backoff := backoff + 1;
      }
      armed := if armOk then Some(now + delay) else None;
    }

    method ReconnectTimer(connectOk: bool, armOk: bool)
      modifies this
      ensures View() == OnTimer(old(View()), connectOk, armOk) && moment == old(moment)
    {
      armed := None;
      if !supervisor || hold || joining || connected {
        return;
      }
      CallConnect();
      if !connectOk {
        ScheduleReconnect(armOk);
      }
    }

    method WatchdogRun(readOk: bool, armOk: bool)
      modifies this
      ensures View() == OnWatchdog(old(View()), readOk, armOk) && moment == old(moment)
    {
      hide Schedule;
      watchdogAt := watchdogAt + WATCHDOG_US;
      if !supervisor || joining || hold || connected {
        return;
      }
      have := readOk && Stored(ram);
      if !have || armed.Some? {
        return;
      }
      ScheduleReconnect(armOk);
    }

    method HandleDisconnected(armOk: bool)
      modifies this
      ensures View() == OnDisconnected(old(View()), armOk) && moment == old(moment)
    {
      hide Schedule, Bounded, Cancel;
      connected := false;
      if hold {
        CancelReconnect();
      } else if joining || !supervisor {
        if retries < MAX_RETRIES {
          ConnectBounded();
        } else {
          failed := true;
        }
      } else {
        ScheduleReconnect(armOk);
      }
      dropped := true;
    }

    method HandleGotIp()
      modifies this
      ensures View() == OnGotIp(old(View())) && moment == old(moment)
    {
      NoteAddress();
      CancelReconnect();
      SetConnected();
    }

    method NoteAddress()
      modifies this
      ensures View() == old(View()).(link := old(View()).link.(retries := 0, have := true)) && moment == old(moment)
    {
      retries := 0;
      have := true;
    }

    method SetConnected()
      modifies this
      ensures View() == old(View()).(link := old(View()).link.(failed := false, connected := true))
      ensures moment == old(moment)
    {
      failed := false;
      connected := true;
    }

    method LinkRetry(armOk: bool)
      modifies this
      ensures View() == OnRetry(old(View()), armOk) && moment == old(moment)
    {
      backoff := 0;
      ScheduleReconnect(armOk);
    }

    method LinkSupervisor(on: bool)
      modifies this
      ensures View() == OnSwitch(old(View()), on) && moment == old(moment)
    {
      supervisor := on;
      if !on {
        CancelReconnect();
      }
    }

    // ---------------- the world between two driver calls ----------------

    method RunCallback(step: Step)
      requires Callback(step) && Enabled(View(), step)
      modifies this
      ensures View() == Next(old(View()), step) && op == old(op) && moment == old(moment)
    {
      match step
      case Disconnected(armOk) => HandleDisconnected(armOk);
      case GotIp => HandleGotIp();
      case TimerFires(connectOk, armOk) => ReconnectTimer(connectOk, armOk);
      case Watchdog(readOk, armOk) => WatchdogRun(readOk, armOk);
      case Retry(armOk) => LinkRetry(armOk);
      case Switch(on) => LinkSupervisor(on);
      case Tick(t) => now := t;
    }

    predicate Possible(step: Step)
      reads this
    {
      match step
      case TimerFires(_, _) => timerMade && armed == Some(now)
      case Watchdog(_, _) => watchdogAt == now
      case Tick(t) => now <= t <= watchdogAt && (armed.Some? ==> t <= armed.value)
      case _ => true
    }

    /** The callbacks the world has in store for this moment, then the answer to the driver call. */
    method Ask() returns (ok: bool)
      modifies this
      ensures View() == Heard(old(View()), world(old(moment)).callbacks) && op == old(op)
      ensures ok == world(old(moment)).ok && moment == old(moment) + 1
    {
      var m := world(moment);
      moment := moment + 1;
      ghost var goal := Heard(View(), m.callbacks);
      assert m.callbacks[0..] == m.callbacks;
      hide Next;
      for i := 0 to |m.callbacks|
        invariant Heard(View(), m.callbacks[i..]) == goal && op == old(op) && moment == old(moment) + 1
      {
        var step := m.callbacks[i];
        assert m.callbacks[i..][0] == step && m.callbacks[i..][1..] == m.callbacks[i + 1..];
        if Callback(step) && Possible(step) {
          RunCallback(step);
        }
      }
      ok := m.ok;
    }

    // ---------------- the transaction, driver call by driver call ----------------

    method Begin(c: Config)
      requires op == Idle
      modifies this
      ensures View() == Next(old(View()), Join(c)) && moment == old(moment)
    {
      joining := true;
      CancelReconnect();
      op := Isolating(c);
    }

    method Isolate(c: Config) returns (ok: bool)
      requires op == Isolating(c)
      modifies this
      ensures Plays(world, old(At()), At())
      ensures op == if ok then Snapshotting(c) else Finishing(DriverError)
    {
      hide Plays, Heard;
      ok := Ask();
      ghost var heard := View();
      if ok {
        mode := Ram;
      }
      op := if ok then Snapshotting(c) else Finishing(DriverError);
      PlaysAsked(world, old(At()), heard, At());
    }

    method Snapshot(c: Config) returns (previous: Option<Config>)
      requires op == Snapshotting(c)
      modifies this
      ensures Plays(world, old(At()), At())
      ensures op == if previous.Some? then Quieting(ToStage(c, previous.value)) else Finishing(DriverError)
    {
      hide Plays, Heard;
      var ok := Ask();
      ghost var heard := View();
      previous := if ok then Some(ram) else None;
      op := if ok then Quieting(ToStage(c, ram)) else Finishing(DriverError);
      PlaysAsked(world, old(At()), heard, At());
    }

    method Disconnect(ghost p: Purpose)
      requires op == Quieting(p)
      modifies this
      ensures Plays(world, old(At()), At())
      ensures op == Resumed(p)
    {
      hide Plays;
      var ok := AskDisconnect(p);
      if ok {
        ghost var s1 := At();
        AwaitQuiet(p);
        PlaysTrans(world, old(At()), s1, At());
      }
    }

    method AskDisconnect(ghost p: Purpose) returns (ok: bool)
      requires op == Quieting(p)
      modifies this
      ensures Plays(world, old(At()), At())
      ensures op == if ok then AwaitingQuiet(p) else Resumed(p)
    {
      hide Plays, Heard;
      ok := Ask();
      ghost var heard := View();
      hold := true;
      dropped := false;
      op := if ok then AwaitingQuiet(p) else Resumed(p);
      PlaysAsked(world, old(At()), heard, At());
    }

    method AwaitQuiet(ghost p: Purpose)
      requires op == AwaitingQuiet(p)
      modifies this
      ensures Plays(world, old(At()), At())
      ensures op == Resumed(p)
    {
      hide Plays, Heard;
      var ok := Ask();
      ghost var heard := View();
      dropped := false;
      op := Resumed(p);
      PlaysAsked(world, old(At()), heard, At());
    }

    method ClearBits(keepDropped: bool)
      modifies this
      ensures var was := old(View());
              View() == was.(link := was.link.(connected := false, failed := false, dropped := keepDropped))
      ensures moment == old(moment)
    {
      connected, failed, dropped := false, false, keepDropped;
    }

    method Stage(c: Config, ghost previous: Config) returns (ok: bool)
      requires op == Clearing(c, previous)
      modifies this
      ensures Plays(world, old(At()), At())
      ensures op == if ok then Releasing(c, previous) else Quieting(ToRestore(previous, DriverError))
    {
      hide Plays, Heard;
      ClearBits(false);
      op := Staging(c, previous);
      ghost var s1 := At();
      PlaysOwn(world, old(At()), s1);
      ok := TrySetConfig(c, previous);
      PlaysTrans(world, old(At()), s1, At());
    }

    method Write(c: Config)
      modifies this
      ensures View() == old(View()).(radio := SetConfig(old(View()).radio, c)) && moment == old(moment)
    {
      ram := c;
      if mode == Flash {
        flash := c;
      }
    }

    method TrySetConfig(c: Config, ghost previous: Config) returns (ok: bool)
      requires op == Staging(c, previous)
      modifies this
      ensures Plays(world, old(At()), At())
      ensures op == if ok then Releasing(c, previous) else Quieting(ToRestore(previous, DriverError))
    {
      hide Plays, Heard;
      ok := Ask();
      ghost var heard := View();
      if ok {
        Write(c);
      }
      op := if ok then Releasing(c, previous) else Quieting(ToRestore(previous, DriverError));
      PlaysAsked(world, old(At()), heard, At());
    }

    method Release(ghost c: Config, ghost previous: Config)
      requires op == Releasing(c, previous)
      modifies this
      ensures Plays(world, old(At()), At())
      ensures op == Connecting(c, previous)
    {
      hide Plays, Heard;
      retries := 0;
      hold := false;
      op := Connecting(c, previous);
      PlaysOwn(world, old(At()), At());
    }

    method TryConnect(ghost c: Config, ghost previous: Config) returns (ok: bool)
      requires op == Connecting(c, previous)
      modifies this
      ensures Plays(world, old(At()), At())
      ensures op == if ok then Judging(c, previous) else Quieting(ToRestore(previous, DriverError))
    {
      hide Plays, Heard;
      ok := Ask();
      ghost var heard := View();
      CallConnect();
      op := if ok then Judging(c, previous) else Quieting(ToRestore(previous, DriverError));
      PlaysAsked(world, old(At()), heard, At());
    }

    /** Waits for the connected or the failed bit, until the timeout. */
    method Judge(ghost c: Config, ghost previous: Config) returns (up: bool)
      requires op == Judging(c, previous)
      modifies this
      ensures Plays(world, old(At()), At())
      ensures up == connected
      ensures op == if up then Committing(c) else Quieting(ToRestore(previous, Failed))
    {
      hide Plays, Heard;
      var ok := Ask();
      ghost var heard := View();
      up := connected;
      if up {
        observed := observed + [c];
      }
      op := if up then Committing(c) else Quieting(ToRestore(previous, Failed));
      PlaysAsked(world, old(At()), heard, At());
    }

    method Commit(ghost c: Config) returns (ok: bool)
      requires op == Committing(c)
      modifies this
      ensures Plays(world, old(At()), At())
      ensures op == if ok then Saving(c) else Finishing(DriverError)
    {
      hide Plays, Heard;
      ok := Ask();
      ghost var heard := View();
      if ok {
        mode := Flash;
      }
      op := if ok then Saving(c) else Finishing(DriverError);
      PlaysAsked(world, old(At()), heard, At());
    }

    method Save(c: Config) returns (ok: bool)
      requires op == Saving(c)
      modifies this
      ensures Plays(world, old(At()), At())
      ensures op == Finishing(if ok then Ok else DriverError)
    {
      hide Plays, Heard;
      ok := Ask();
      ghost var heard := View();
      if ok {
        Write(c);
        have := true;
      }
      op := Finishing(if ok then Ok else DriverError);
      PlaysAsked(world, old(At()), heard, At());
    }

    method Restore(previous: Config, ghost e: Verdict) returns (ok: bool)
      requires op == Restoring(previous, e)
      modifies this
      ensures Plays(world, old(At()), At())
      ensures op == if ok then Reviving(previous, e) else Finishing(e)
    {
      hide Plays, Heard;
      ok := Ask();
      ghost var heard := View();
      if ok {
        Write(if Stored(previous) then previous else EMPTY);
      } else {
        hold := true;
      }
      op := if ok then Reviving(previous, e) else Finishing(e);
      PlaysAsked(world, old(At()), heard, At());
    }

    method HoldUnless(stored: bool)
      modifies this
      ensures View() == old(View()).(link := old(View()).link.(hold := !stored, have := stored))
      ensures moment == old(moment)
    {
      if stored {
        hold, have := false, true;
      } else {
        hold, have := true, false;
      }
    }

    method Revive(previous: Config, ghost e: Verdict)
      requires op == Reviving(previous, e)
      modifies this
      ensures Plays(world, old(At()), At())
      ensures op == if Stored(previous) then Reconnecting(e) else Finishing(e)
    {
      hide Plays, Heard;
      retries := 0;
      ClearBits(dropped);
      HoldUnless(Stored(previous));
      op := if Stored(previous) then Reconnecting(e) else Finishing(e);
      PlaysOwn(world, old(At()), At());
    }

    method ConnectAgain(ghost e: Verdict)
      requires op == Reconnecting(e)
      modifies this
      ensures Plays(world, old(At()), At())
      ensures op == Finishing(e)
    {
      hide Plays, Heard;
      var ok := Ask();
      ghost var heard := View();
      CallConnect();
      op := Finishing(e);
      PlaysAsked(world, old(At()), heard, At());
    }

    method Finish(v: Verdict) returns (r: Verdict)
      requires op == Finishing(v)
      modifies this
      ensures Plays(world, old(At()), At())
      ensures op == Ending(r)
    {
      hide Plays, Heard;
      var ok := Ask();
      ghost var heard := View();
      r := v;
      if ok {
        mode := Flash;
      } else if v == Ok {
        r := DriverError;
      }
      op := Ending(r);
      PlaysAsked(world, old(At()), heard, At());
    }

    method End(v: Verdict)
      requires op == Ending(v)
      modifies this
      ensures Plays(world, old(At()), At())
      ensures op == Idle && verdict == v
    {
      hide Plays, Heard;
      joining := false;
      op, verdict := Idle, v;
      PlaysOwn(world, old(At()), At());
    }

    method Rollback(previous: Config, e: Verdict)
      requires op == Quieting(ToRestore(previous, e))
      modifies this
      ensures Plays(world, old(At()), At())
      ensures op == Finishing(e)
    {
      hide Plays;
      Disconnect(ToRestore(previous, e));
      ghost var s1 := At();
      var ok := Restore(previous, e);
      PlaysTrans(world, old(At()), s1, At());
      if ok {
        ghost var s2 := At();
        Revive(previous, e);
        PlaysTrans(world, old(At()), s2, At());
        if Stored(previous) {
          ghost var s3 := At();
          ConnectAgain(e);
          PlaysTrans(world, old(At()), s3, At());
        }
      }
    }

    /** From the quiet radio to the verdict on the candidate: staged, connected and saved, or rolled back. */
    method Try(c: Config, previous: Config) returns (v: Verdict)
      requires op == Quieting(ToStage(c, previous))
      modifies this
      ensures Plays(world, old(At()), At())
      ensures op == Finishing(v)
    {
      hide Plays;
      Disconnect(ToStage(c, previous));
      ghost var s1 := At();
      var ok := Stage(c, previous);
      PlaysTrans(world, old(At()), s1, At());
      v := DriverError;
      if ok {
        ghost var s2 := At();
        Release(c, previous);
        PlaysTrans(world, old(At()), s2, At());
        ghost var s3 := At();
        ok := TryConnect(c, previous);
        PlaysTrans(world, old(At()), s3, At());
        if ok {
          ghost var s4 := At();
          var up := Judge(c, previous);
          PlaysTrans(world, old(At()), s4, At());
          if up {
            ghost var s5 := At();
            v := Keep(c);
            PlaysTrans(world, old(At()), s5, At());
            return;
          }
          v := Failed;
        }
      }
      ghost var s6 := At();
      Rollback(previous, v);
      PlaysTrans(world, old(At()), s6, At());
    }

    method Keep(c: Config) returns (v: Verdict)
      requires op == Committing(c)
      modifies this
      ensures Plays(world, old(At()), At())
      ensures op == Finishing(v)
    {
      hide Plays;
      var ok := Commit(c);
      v := DriverError;
      if ok {
        ghost var s1 := At();
        ok := Save(c);
        v := if ok then Ok else DriverError;
        PlaysTrans(world, old(At()), s1, At());
      }
    }

    method Attempt(c: Config) returns (v: Verdict)
      requires op == Isolating(c)
      modifies this
      ensures Plays(world, old(At()), At())
      ensures op == Finishing(v)
    {
      hide Plays;
      var ok := Isolate(c);
      v := DriverError;
      if ok {
        ghost var s1 := At();
        var previous := Snapshot(c);
        PlaysTrans(world, old(At()), s1, At());
        if previous.Some? {
          ghost var s2 := At();
          v := Try(c, previous.value);
          PlaysTrans(world, old(At()), s2, At());
        }
      }
    }

    method JoinNetwork(c: Config, lock: Lock) returns (v: Verdict)
      requires lock == Taken ==> op == Idle
      modifies this
      ensures !(1 <= |c.ssid| <= 32 && |c.pass| <= 64) ==> v == InvalidArgument && View() == old(View())
      ensures 1 <= |c.ssid| <= 32 && |c.pass| <= 64 && lock == Missing ==> v == InvalidState && View() == old(View())
      ensures 1 <= |c.ssid| <= 32 && |c.pass| <= 64 && lock == Busy ==> v == LockTimeout && View() == old(View())
      ensures 1 <= |c.ssid| <= 32 && |c.pass| <= 64 && lock == Taken ==>
                && Plays(world, Point(Next(old(View()), Join(c)), old(moment)), At())
                && (v == Ok <==> AllGranted(world, Point(Next(old(View()), Join(c)), old(moment)), At()))
                && op == Idle && Settled(View(), Start(old(View()), c), v)
                && (v == Ok ==> ram == flash == c && mode == Flash && observed == old(observed) + [c] && !hold)
    {
      if !Acceptable(c) {
        return InvalidArgument;
      }
      if lock == Missing {
        return InvalidState;
      }
      if lock == Busy {
        return LockTimeout;
      }
      Begin(c);
      ghost var s0 := At();
      v := Attempt(c);
      ghost var s1 := At();
      v := Finish(v);
      ghost var s2 := At();
      End(v);
      hide Plays, Next, Settled;
      PlaysTrans(world, s0, s1, s2);
      PlaysTrans(world, s0, s2, At());
      JoinRuns(world, old(View()), c, old(moment), At());
    }

    method BeginLeave()
      requires op == Idle
      modifies this
      ensures View() == Next(old(View()), Leave) && op == Quieting(ToErase) && moment == old(moment)
    {
      op := Quieting(ToErase);
    }

    method Persist() returns (ok: bool)
      requires op == Persisting
      modifies this
      ensures Plays(world, old(At()), At())
      ensures op == if ok then Erasing else Left(DriverError)
    {
      hide Plays, Heard;
      ok := Ask();
      ghost var heard := View();
      if ok {
        mode := Flash;
      }
      op := if ok then Erasing else Left(DriverError);
      PlaysAsked(world, old(At()), heard, At());
    }

    method Erase() returns (ok: bool)
      requires op == Erasing
      modifies this
      ensures Plays(world, old(At()), At())
      ensures op == Left(if ok then Ok else DriverError)
    {
      hide Plays, Heard;
      ok := Ask();
      ghost var heard := View();
      if ok {
        Write(EMPTY);
        have := false;
      }
      op := Left(if ok then Ok else DriverError);
      PlaysAsked(world, old(At()), heard, At());
    }

    method EndLeave(v: Verdict)
      requires op == Left(v)
      modifies this
      ensures Plays(world, old(At()), At())
      ensures op == Idle && verdict == v
    {
      hide Plays, Heard;
      CancelReconnect();
      op, verdict := Idle, v;
      PlaysOwn(world, old(At()), At());
    }

    method LeaveNetwork(lockMade: bool) returns (v: Verdict)
      requires op == Idle
      modifies this
      ensures !lockMade ==> v == InvalidState && View() == old(View())
      ensures lockMade ==>
                && Plays(world, Point(Next(old(View()), Leave), old(moment)), At())
                && (v == Ok <==> AllGranted(world, Point(Next(old(View()), Leave), old(moment)), At()))
                && op == Idle && Erased(View(), old(View()).radio, v)
    {
      hide Plays, Next, Erased;
      if !lockMade {
        return InvalidState;
      }
      BeginLeave();
      ghost var s0 := At();
      Disconnect(ToErase);
      ghost var s1 := At();
      var ok := Persist();
      PlaysTrans(world, s0, s1, At());
      v := DriverError;
      if ok {
        ghost var s2 := At();
        ok := Erase();
        v := if ok then Ok else DriverError;
        PlaysTrans(world, s0, s2, At());
      }
      ghost var s3 := At();
      EndLeave(v);
      PlaysTrans(world, s0, s3, At());
      LeaveRuns(world, old(View()), old(moment), At());
    }
  }

  lemma LeaveRuns(w: nat -> Moment, s: State, moment: nat, q: Point)
    requires s.op == Idle && Plays(w, Point(Next(s, Leave), moment), q) && q.state.op == Idle
    ensures Erased(q.state, s.radio, q.state.verdict)
    ensures q.state.verdict == Ok <==> AllGranted(w, Point(Next(s, Leave), moment), q)
  {
    var s1 := Next(s, Leave);
    assert InLeave(s1, s.radio) && Winning(s1, true);
    hide Next, Path, Erased, InLeave, Plays, Turns, AllGranted, Winning;
    PlaysReaches(w, Point(s1, moment), q);
    var steps: seq<Step> :| AllInside(steps) && Path(s1, steps, q.state);
    LeaveErases(s1, s.radio, steps, q.state);
    PlaysDecides(w, Point(s1, moment), q, true);
  }

  lemma JoinRuns(w: nat -> Moment, s: State, c: Config, moment: nat, q: Point)
    requires Enabled(s, Join(c)) && Plays(w, Point(Next(s, Join(c)), moment), q) && q.state.op == Idle
    ensures Settled(q.state, Start(s, c), q.state.verdict)
    ensures q.state.verdict == Ok ==>
              q.state.radio == Radio(c, c, Flash) && q.state.observed == s.observed + [c] && !q.state.link.hold
    ensures q.state.verdict == Ok <==> AllGranted(w, Point(Next(s, Join(c)), moment), q)
  {
    var s1 := Next(s, Join(c));
    assert Winning(s1, false);
    hide Settled, Next, Path, Plays, Turns, AllGranted;
    PlaysReaches(w, Point(s1, moment), q);
    var steps: seq<Step> :| AllInside(steps) && Path(s1, steps, q.state);
    FlashKeepsWhatWorked(s, c, steps, q.state);
    PlaysDecides(w, Point(s1, moment), q, false);
  }
}
