/**
 * What the reconnect supervisor guarantees (main/main.c:136-238, 353-402, 800-826):
 * it never connects under a hold, and left alone it never gives up.
 */
module WifiSupervisor {
  import opened Bytes
  import opened WifiModel
  import opened WifiTransaction

  // ---------------- a hold is kept ----------------

  /** A join has lifted the hold whenever it is about to connect. */
  predicate LiftsFirst(s: State) {
    (s.op.Connecting? || s.op.Reconnecting? ==> !s.link.hold)
  }

  lemma WorkLiftsFirst(s: State, ok: bool, late: bool)
    ensures LiftsFirst(OpNext(s, ok, late))
  {
    hide OnTrial;
  }

  lemma StepLiftsFirst(s: State, step: Step)
    requires LiftsFirst(s) && Enabled(s, step)
    ensures LiftsFirst(Next(s, step))
  {
    if step.Work? {
      WorkLiftsFirst(s, step.ok, step.late);
    } else if Callback(step) {
      CallbackSpares(s, step);
      hide Next, Callback;
    }
  }

  /** The retry command, with no timer to arm and retries left, is the only way around a hold. */
  predicate WayAround(s: State, step: Step) {
    step.Started? || (step.Retry? && !s.clock.made && s.link.retries < MAX_RETRIES)
  }

  predicate ConnectsHeld(s: State, t: State) {
    |t.calls| > |s.calls| && t.calls[|s.calls|].held
  }

  /** After boot, a step connects under a hold exactly when it is `link retry` without the timer. */
  lemma ConnectsUnderHold(s: State, step: Step)
    requires LiftsFirst(s) && Enabled(s, step)
    ensures ConnectsHeld(s, Next(s, step)) <==> s.link.hold && WayAround(s, step)
  {
    if step.Work? {
      WorkConnectsHeld(s, step.ok, step.late);
    }
  }

  lemma WorkConnectsHeld(s: State, ok: bool, late: bool)
    requires LiftsFirst(s)
    ensures !ConnectsHeld(s, OpNext(s, ok, late))
  {
    hide OnTrial;
  }

  predicate NoneHeld(s: State) { forall i :: 0 <= i < |s.calls| ==> !s.calls[i].held }

  predicate AfterBoot(steps: seq<Step>) { forall step :: step in steps ==> !step.Started? }

  lemma MadeStays(s: State, step: Step)
    ensures Next(s, step).clock.made == s.clock.made
  {
  }

  /** With the timer created, no connect is ever made under a hold, in any history of joins, leaves and callbacks. */
  lemma {:induction false} NoConnectUnderHold(s: State, steps: seq<Step>, t: State)
    requires s.clock.made && LiftsFirst(s) && NoneHeld(s) && AfterBoot(steps) && Path(s, steps, t)
    ensures NoneHeld(t)
    decreases |steps|
  {
    if steps != [] {
      var s1 := Next(s, steps[0]);
      StepLiftsFirst(s, steps[0]);
      ConnectsUnderHold(s, steps[0]);
      AtMostOneCall(s, steps[0]);
      MadeStays(s, steps[0]);
      hide Next, LiftsFirst, Enabled;
      assert steps[0] in steps;
      NoConnectUnderHold(s1, steps[1..], t);
    }
  }

  /**
   * A hold lasts, the radio is left alone and nothing connects until the next join or
   * leave: in particular after a failed rollback, which ends with the hold set.
   */
  lemma {:induction false} HoldLasts(s: State, steps: seq<Step>, t: State)
    requires s.clock.made && s.op == Idle && s.link.hold && AllCallbacks(steps) && Path(s, steps, t)
    ensures t.op == Idle && t.link.hold && t.calls == s.calls && t.radio == s.radio
    decreases |steps|
  {
    if steps != [] {
      var s1 := Next(s, steps[0]);
      assert steps[0] in steps;
      CallbackSpares(s, steps[0]);
      MadeStays(s, steps[0]);
      ConnectsUnderHold(s, steps[0]);
      AtMostOneCall(s, steps[0]);
      hide Next, Enabled;
      HoldLasts(s1, steps[1..], t);
    }
  }

  // ---------------- it never gives up ----------------

  const CEILING_US: nat := 60_000_001

  /** Timers are never further away than their longest delay. */
  predicate Punctual(s: State) {
    && s.clock.now <= s.clock.watchdogAt <= s.clock.now + WATCHDOG_US
    && (s.clock.armed.Some? ==> s.clock.made && s.clock.now <= s.clock.armed.value <= s.clock.now + CEILING_US)
  }

  lemma BackoffAtMostCeiling(step: nat)
    ensures BackoffUs(step) <= CEILING_US
  {
  }

  lemma StepPunctual(s: State, step: Step)
    requires Punctual(s) && Enabled(s, step)
    ensures Punctual(Next(s, step))
  {
    hide BackoffUs;
    BackoffAtMostCeiling(s.link.backoff);
    BackoffAtMostCeiling(0);
    if step.Work? {
      WorkClock(s, step.ok, step.late);
      hide OpNext;
    }
  }

  lemma WorkClock(s: State, ok: bool, late: bool)
    ensures OpNext(s, ok, late).clock in {s.clock, s.clock.(armed := None)}
  {
  }

  lemma {:induction false} AlwaysPunctual(s: State, steps: seq<Step>, t: State)
    requires Punctual(s) && Path(s, steps, t)
    ensures Punctual(t)
    decreases |steps|
  {
    if steps != [] {
      StepPunctual(s, steps[0]);
      hide Next, Punctual, Enabled;
      AlwaysPunctual(Next(s, steps[0]), steps[1..], t);
    }
  }

  /** The supervisor owns the radio, and there is something to connect to. */
  predicate Stranded(s: State) {
    && s.clock.made && s.link.supervisor && !s.link.hold && !s.link.joining && !s.link.connected
    && Stored(s.radio.ram)
  }

  /** Time passes and timers run; nothing else happens. */
  predicate Quiet(step: Step) { step.Tick? || step.TimerFires? || step.Watchdog? }

  predicate AllQuiet(steps: seq<Step>) { forall step :: step in steps ==> Quiet(step) }

  /** Watchdog runs that could not read the driver's configuration or not arm the timer. */
  function Misfires(steps: seq<Step>): nat {
    if steps == [] then 0
    else (if steps[0].Watchdog? && !(steps[0].readOk && steps[0].armOk) then 1 else 0) + Misfires(steps[1..])
  }

  lemma MisfiresOn(step: Step, rest: seq<Step>)
    ensures Misfires([step] + rest) == Misfires([step]) + Misfires(rest)
  {
    assert [step][1..] == [] && ([step] + rest)[1..] == rest && ([step] + rest)[0] == step;
  }

  /** Something is due to try again in time for an attempt by `limit`, given `wait` for the watchdog. */
  predicate Pending(s: State, limit: nat) {
    if s.clock.armed.Some? then s.clock.now <= s.clock.armed.value <= limit
    else s.clock.now <= s.clock.watchdogAt && s.clock.watchdogAt + CEILING_US <= limit
  }

  lemma QuietStep(s: State, step: Step, limit: nat)
    requires Stranded(s) && Pending(s, limit) && Quiet(step) && Enabled(s, step)
    ensures var t := Next(s, step);
            && Stranded(t)
            && (|t.calls| > |s.calls| || (t.calls == s.calls
               && Pending(t, limit + Misfires([step]) * WATCHDOG_US)))
  {
    BackoffAtMostCeiling(s.link.backoff);
    hide BackoffUs;
    assert [step][0] == step && [step][1..] == [];
  }

  lemma {:induction false} QuietPath(s: State, steps: seq<Step>, t: State, limit: nat)
    requires Stranded(s) && Pending(s, limit) && AllQuiet(steps) && Path(s, steps, t)
    ensures |t.calls| >= |s.calls|
    ensures |t.calls| == |s.calls| ==> t.clock.now <= limit + Misfires(steps) * WATCHDOG_US
    decreases |steps|
  {
    if steps != [] {
      var step := steps[0];
      var s1 := Next(s, step);
      assert step in steps;
      QuietStep(s, step, limit);
      var m := Misfires([step]);
      MisfiresOn(step, steps[1..]);
      assert [step] + steps[1..] == steps;
      hide Next, Misfires, Stranded, Pending, Enabled;
      if s1.calls == s.calls {
        QuietPath(s1, steps[1..], t, limit + m * WATCHDOG_US);
      } else {
        CallsOnlyGrow(s1, steps[1..], t);
      }
    }
  }

  lemma {:induction false} CallsOnlyGrow(s: State, steps: seq<Step>, t: State)
    requires Path(s, steps, t)
    ensures |t.calls| >= |s.calls|
    decreases |steps|
  {
    if steps != [] {
      AtMostOneCall(s, steps[0]);
      hide Next, Enabled;
      CallsOnlyGrow(Next(s, steps[0]), steps[1..], t);
    }
  }

  /**
   * Left alone while disconnected, the supervisor calls connect within the watchdog
   * period plus the ladder's ceiling, 75 s and one microsecond; each watchdog run that
   * fails to read the configuration or to arm the timer costs one more period.
   */
  lemma TriesAgain(s: State, steps: seq<Step>, t: State)
    requires Stranded(s) && Punctual(s) && AllQuiet(steps) && Path(s, steps, t)
    requires t.clock.now > s.clock.now + 75_000_001 + Misfires(steps) * 15_000_000
    ensures |t.calls| > |s.calls|
  {
    QuietPath(s, steps, t, s.clock.now + WATCHDOG_US + CEILING_US);
  }

  // ---------------- the bound is exact ----------------

  /** Time and timers lead from `s` to `t`, with nothing going wrong. */
  ghost predicate Leads(s: State, t: State) {
    exists steps: seq<Step> :: AllQuiet(steps) && Misfires(steps) == 0 && Path(s, steps, t)
  }

  lemma LeadsBack(s: State, step: Step, t: State)
    requires Enabled(s, step) && Quiet(step) && Leads(Next(s, step), t)
    requires step.Watchdog? ==> step.readOk && step.armOk
    ensures Leads(s, t)
  {
    hide Next, Enabled;
    var steps :| AllQuiet(steps) && Misfires(steps) == 0 && Path(Next(s, step), steps, t);
    assert ([step] + steps)[0] == step && ([step] + steps)[1..] == steps;
    assert [step][1..] == [];
    MisfiresOn(step, steps);
    assert AllQuiet([step] + steps) && Path(s, [step] + steps, t);
  }

  lemma LeadsOnce(s: State, step: Step)
    requires Enabled(s, step) && step.Tick?
    ensures Leads(s, Next(s, step))
  {
    hide Next, Enabled;
    var t := Next(s, step);
    assert Path(t, [], t) && AllQuiet([]) && Misfires([]) == 0;
    LeadsBack(s, step, t);
  }

  lemma WatchdogLetsBe(s: State)
    requires Stranded(s) && s.clock.armed.Some? && s.clock.now <= s.clock.watchdogAt <= s.clock.armed.value
    ensures var s1 := Next(s, Tick(s.clock.watchdogAt));
            var s2 := Next(s1, Watchdog(true, true));
            && Enabled(s, Tick(s.clock.watchdogAt)) && Enabled(s1, Watchdog(true, true))
            && Stranded(s2) && s2.calls == s.calls && s2.clock.armed == s.clock.armed
            && s2.clock.now == s.clock.watchdogAt && s2.clock.watchdogAt == s.clock.watchdogAt + WATCHDOG_US
  {
  }

  /** An armed timer is waited out, the watchdog letting it be. */
  lemma {:induction false} WaitedOut(s: State)
    requires Stranded(s) && s.clock.armed.Some?
    requires s.clock.now <= s.clock.watchdogAt && s.clock.now <= s.clock.armed.value
    ensures exists t :: Leads(s, t) && t.calls == s.calls && s.clock.armed == t.clock.armed == Some(t.clock.now)
    decreases s.clock.armed.value + WATCHDOG_US - s.clock.watchdogAt
  {
    var d := s.clock.armed.value;
    if d < s.clock.watchdogAt {
      LeadsOnce(s, Tick(d));
      assert Next(s, Tick(d)).clock.now == d;
    } else {
      WatchdogLetsBe(s);
      var s1 := Next(s, Tick(s.clock.watchdogAt));
      var s2 := Next(s1, Watchdog(true, true));
      hide Next, Enabled, Leads;
      WaitedOut(s2);
      var t :| Leads(s2, t) && t.calls == s2.calls && s2.clock.armed == t.clock.armed == Some(t.clock.now);
      LeadsBack(s1, Watchdog(true, true), t);
      LeadsBack(s, Tick(s.clock.watchdogAt), t);
    }
  }

  lemma Rearmed(s: State)
    requires Stranded(s) && s.clock.armed == None && s.link.backoff >= 8 && s.clock.now <= s.clock.watchdogAt
    ensures var s1 := Next(s, Tick(s.clock.watchdogAt));
            var s2 := Next(s1, Watchdog(true, true));
            && Enabled(s, Tick(s.clock.watchdogAt)) && Enabled(s1, Watchdog(true, true))
            && Stranded(s2) && s2.calls == s.calls && s2.clock.now == s.clock.watchdogAt
            && s2.clock.armed == Some(s.clock.watchdogAt + CEILING_US)
            && s2.clock.watchdogAt == s.clock.watchdogAt + WATCHDOG_US
  {
    assert BackoffUs(s.link.backoff) == CEILING_US;
    hide BackoffUs;
  }

  /** The bound is exact: an arm that failed just after the watchdog ran is made good that late. */
  lemma TheBoundIsReached(s: State)
    requires Stranded(s) && s.clock.armed == None && s.link.backoff >= 8
    requires s.clock.watchdogAt == s.clock.now + WATCHDOG_US
    ensures exists t :: Leads(s, t) && t.clock.now == s.clock.now + 75_000_001
                        && t.calls == s.calls && t.clock.armed == Some(t.clock.now)
  {
    Rearmed(s);
    var s1 := Next(s, Tick(s.clock.watchdogAt));
    var s2 := Next(s1, Watchdog(true, true));
    hide Next, Enabled, Leads;
    WaitedOut(s2);
    var t :| Leads(s2, t) && t.calls == s2.calls && s2.clock.armed == t.clock.armed == Some(t.clock.now);
    LeadsBack(s1, Watchdog(true, true), t);
    LeadsBack(s, Tick(s.clock.watchdogAt), t);
  }

  /** A burst of disconnects at boot: `k` that arm the timer, then one whose arm fails. */
  function Burst(k: nat): seq<Step> { seq(k, _ => Disconnected(true)) + [Disconnected(false)] }

  lemma DisconnectClimbs(s: State, armOk: bool)
    requires Stranded(s) && s.link.backoff < MAX_STEP
    ensures var t := Next(s, Disconnected(armOk));
            && Enabled(s, Disconnected(armOk)) && Stranded(t) && t.link.backoff == s.link.backoff + 1
            && t.clock.now == s.clock.now && t.clock.watchdogAt == s.clock.watchdogAt && t.calls == s.calls
            && (!armOk ==> t.clock.armed == None)
  {
    hide BackoffUs;
  }

  lemma {:induction false} BurstStrands(s: State, k: nat) returns (t: State)
    requires Stranded(s) && s.link.backoff + k < MAX_STEP
    ensures Path(s, Burst(k), t) && Stranded(t) && t.clock.armed == None && t.link.backoff == s.link.backoff + k + 1
    ensures t.clock.now == s.clock.now && t.clock.watchdogAt == s.clock.watchdogAt && t.calls == s.calls
    decreases k
  {
    if k == 0 {
      DisconnectClimbs(s, false);
      t := Next(s, Disconnected(false));
      OneStep(s, Disconnected(false));
      assert Burst(0) == [Disconnected(false)];
    } else {
      DisconnectClimbs(s, true);
      var s1 := Next(s, Disconnected(true));
      hide Next, Enabled, Stranded;
      t := BurstStrands(s1, k - 1);
      assert Burst(k) == [Disconnected(true)] + Burst(k - 1);
      StepThen(s, Disconnected(true), Burst(k - 1), t);
    }
  }

  lemma OneStep(s: State, step: Step)
    requires Enabled(s, step)
    ensures Path(s, [step], Next(s, step))
  {
    hide Next, Enabled;
    assert [step][1..] == [] && Path(Next(s, step), [], Next(s, step));
  }

  lemma StepThen(s: State, step: Step, steps: seq<Step>, t: State)
    requires Enabled(s, step) && Path(Next(s, step), steps, t)
    ensures Path(s, [step] + steps, t)
  {
    hide Next, Enabled;
    assert ([step] + steps)[0] == step && ([step] + steps)[1..] == steps;
  }

  /**
   * And from boot: eight disconnects climb the ladder, the ninth fails to arm, and 75 s
   * and one microsecond pass without an attempt.
   */
  lemma TheBoundIsReachedFromBoot(flash: Config, now: nat)
    requires Stored(flash)
    ensures exists s, t ::
              && Path(Boot(flash, true, now), Burst(8), s) && Leads(s, t)
              && s.clock.now == now && t.clock.now == now + 75_000_001
              && t.calls == [] && t.clock.armed == Some(t.clock.now)
  {
    var boot := Boot(flash, true, now);
    assert Stranded(boot) && boot.clock.watchdogAt == now + WATCHDOG_US && boot.link.backoff == 0 && boot.calls == [];
    hide Boot, Stranded, Path, Leads;
    var s := BurstStrands(boot, 8);
    TheBoundIsReached(s);
    var t :| Leads(s, t) && t.clock.now == s.clock.now + 75_000_001
             && t.calls == s.calls && t.clock.armed == Some(t.clock.now);
  }

  // ---------------- how soon it tries ----------------

  /** Seconds before the attempt that follows the k-th disconnect in a row, the first being 0. */
  function Delay(k: nat): nat {
    if k < 3 then 0 else if k == 3 then 1 else if k == 4 then 2 else if k == 5 then 5
    else if k == 6 then 15 else if k == 7 then 30 else 60
  }

  /** k disconnects in a row, each finding the timer willing. */
  function Drops(s: State, k: nat): State {
    if k == 0 then s else OnDisconnected(Drops(s, k - 1), true)
  }

  /** The supervisor owns the radio: the timer was created and nothing holds it back. */
  predicate Supervised(s: State) { s.clock.made && s.link.supervisor && !s.link.hold && !s.link.joining }

  lemma {:induction false} DropsClimb(s: State, k: nat)
    requires Supervised(s) && s.link.backoff == 0
    ensures var t := Drops(s, k);
            && Supervised(t) && t.link.backoff == Min(k, MAX_STEP) && t.calls == s.calls && t.clock.now == s.clock.now
  {
    if k > 0 {
      DropsClimb(s, k - 1);
      DropClimbs(Drops(s, k - 1));
      hide Supervised, OnDisconnected;
    }
  }

  lemma DropClimbs(s: State)
    requires Supervised(s)
    ensures var t := OnDisconnected(s, true);
            && Supervised(t)
            && t.link.backoff == (if s.link.backoff < MAX_STEP then s.link.backoff + 1 else s.link.backoff)
            && t.calls == s.calls && t.clock.now == s.clock.now
            && t.clock.armed == Some(s.clock.now + BackoffUs(s.link.backoff))
  {
    hide BackoffUs;
  }

  /**
   * After an address the first three disconnects are answered at once, then after 1, 2, 5,
   * 15 and 30 seconds, then after a minute each time (a microsecond later, throughout).
   */
  lemma NextAttempt(s: State, k: nat)
    requires Supervised(s)
    ensures Drops(OnGotIp(s), k + 1).clock.armed == Some(s.clock.now + Delay(k) * 1_000_000 + 1)
  {
    var a := OnGotIp(s);
    assert Supervised(a) && a.link.backoff == 0 && a.clock.now == s.clock.now;
    DropsClimb(a, k);
    DropClimbs(Drops(a, k));
    hide OnGotIp, OnDisconnected, Supervised;
    DropsOn(a, k);
  }

  lemma DropsOn(s: State, k: nat)
    ensures Drops(s, k + 1) == OnDisconnected(Drops(s, k), true)
  {
  }

  /** Whoever asks for a retry is heard at once; a join, or switching the supervisor off, cancels what is armed. */
  lemma ConsoleIsHeard(s: State)
    ensures s.clock.made ==> OnRetry(s, true).clock.armed == Some(s.clock.now + 1) && OnRetry(s, true).calls == s.calls
    ensures var t := OnSwitch(s, false);
            && t.clock.armed == None && t.link.backoff == 0
            && forall ok, armOk :: OnTimer(t, ok, armOk).calls == OnWatchdog(t, ok, armOk).calls == s.calls
    ensures forall c :: var t := Next(s, Join(c)); t.clock.armed == None && t.link.backoff == 0 && t.calls == s.calls
  {
  }

  /** A rejected call is made again; the watchdog arms for stored credentials it can read, and only then. */
  lemma NothingIsForgotten(s: State, armOk: bool)
    requires Supervised(s) && !s.link.connected
    ensures OnTimer(s, false, true).clock.armed.Some? && OnTimer(s, true, armOk).clock.armed == None
    ensures forall readOk :: var t := OnWatchdog(s, readOk, true);
              && t.calls == s.calls
              && t.clock.armed == (if s.clock.armed == None && readOk && Stored(s.radio.ram)
                                   then Some(s.clock.now + BackoffUs(s.link.backoff)) else s.clock.armed)
  {
    hide BackoffUs;
  }

  /** On trial, or without the supervisor, five disconnects connect again and the sixth fails. */
  lemma RetriesAreBounded(s: State)
    requires !s.link.hold && (s.link.joining || !s.link.supervisor) && s.link.retries == 0
    ensures forall k :: 1 <= k <= 5 ==>
              && |Drops(s, k).calls| == |s.calls| + k && Drops(s, k).link.failed == s.link.failed
    ensures Drops(s, 6).link.failed && Drops(s, 6).calls == Drops(s, 5).calls
  {
    hide OnTrial;
    forall k | 1 <= k <= 5
      ensures |Drops(s, k).calls| == |s.calls| + k && Drops(s, k).link.failed == s.link.failed
    {
      DropsRetry(s, k);
    }
    DropsRetry(s, 5);
    DropRetries(Drops(s, 5));
    DropsOn(s, 5);
    hide OnDisconnected;
  }

  /** So they are from boot, and again after every address, which clears a failure. */
  lemma RetriesStartOver(s: State, flash: Config, made: bool, now: nat)
    ensures var b := OnSwitch(Boot(flash, made, now), false);
            |Drops(b, 5).calls| == 5 && !Drops(b, 5).link.failed && Drops(b, 6).link.failed
    ensures !s.link.hold && (s.link.joining || !s.link.supervisor) ==>
              var a := OnGotIp(s);
              && |Drops(a, 5).calls| == |s.calls| + 5 && !Drops(a, 5).link.failed && Drops(a, 6).link.failed
  {
    var b, a := OnSwitch(Boot(flash, made, now), false), OnGotIp(s);
    assert b.calls == [] && a.calls == s.calls && !a.link.failed;
    hide Drops;
    RetriesAreBounded(b);
    if !s.link.hold && (s.link.joining || !s.link.supervisor) {
      RetriesAreBounded(a);
    }
  }

  lemma {:induction false} DropsRetry(s: State, k: nat)
    requires !s.link.hold && (s.link.joining || !s.link.supervisor) && s.link.retries == 0 && k <= 5
    ensures var t := Drops(s, k);
            && !t.link.hold && (t.link.joining || !t.link.supervisor) && t.link.retries == k
            && |t.calls| == |s.calls| + k && t.link.failed == s.link.failed
  {
    if k > 0 {
      DropsRetry(s, k - 1);
      DropRetries(Drops(s, k - 1));
      hide OnDisconnected;
    }
  }

  lemma DropRetries(s: State)
    requires !s.link.hold && (s.link.joining || !s.link.supervisor)
    ensures var t := OnDisconnected(s, true);
            && !t.link.hold && (t.link.joining || !t.link.supervisor)
            && (if s.link.retries < 5
                then t.link.retries == s.link.retries + 1 && |t.calls| == |s.calls| + 1
                     && t.link.failed == s.link.failed
                else t.link.failed && t.calls == s.calls)
  {
    hide OnTrial;
  }

  // ---------------- the way around a hold, from boot ----------------

  /** A leave whose erasing fails, then `link retry`. */
  const LEAVE_THEN_RETRY: seq<Step> :=
    [Leave] + ([Work(false, true)] + ([Work(false, true)] + ([Work(true, true)] + [Retry(true)])))

  lemma LeaveHolds(s: State)
    requires s.op == Idle
    ensures Enabled(s, Leave)
    ensures var a := Next(s, Leave);
            var b := Next(a, Work(false, true));
            var c := Next(b, Work(false, true));
            var d := Next(c, Work(true, true));
            && Enabled(a, Work(false, true)) && Enabled(b, Work(false, true)) && Enabled(c, Work(true, true))
            && d.op == Idle && d.link.hold && d.link.retries == s.link.retries && d.clock.made == s.clock.made
            && d.calls == s.calls && d.radio == s.radio
  {
  }

  /** Without the reconnect timer, `link retry` connects although the station was told to leave. */
  lemma RetryConnectsAfterLeave(flash: Config, now: nat)
    ensures exists t ::
              && Path(Boot(flash, false, now), LEAVE_THEN_RETRY, t)
              && t.op == Idle && t.link.hold && t.calls == [Call(true, flash, false)]
  {
    var s := Boot(flash, false, now);
    LeaveHolds(s);
    var a := Next(s, Leave);
    var b := Next(a, Work(false, true));
    var c := Next(b, Work(false, true));
    var d := Next(c, Work(true, true));
    var t := Next(d, Retry(true));
    assert t.op == Idle && t.link.hold && t.calls == [Call(true, flash, false)];
    hide Next, Boot, Enabled;
    assert Enabled(d, Retry(true)) by { RetryAlways(d); }
    OneStep(d, Retry(true));
    StepThen(c, Work(true, true), [Retry(true)], t);
    StepThen(b, Work(false, true), [Work(true, true)] + [Retry(true)], t);
    StepThen(a, Work(false, true), [Work(false, true)] + ([Work(true, true)] + [Retry(true)]), t);
    StepThen(s, Leave, [Work(false, true)] + ([Work(false, true)] + ([Work(true, true)] + [Retry(true)])), t);
  }

  lemma RetryAlways(s: State)
    ensures Enabled(s, Retry(true))
  {
  }
}
