/**
 * What the credential transaction guarantees under every interleaving and every
 * combination of driver failures: at each point the flash holds the configuration
 * from before the call or a candidate seen connected in it (main/main.c:454-633).
 */
module WifiTransaction {
  import opened Bytes
  import opened WifiModel

  /** What a join was given to start from. */
  datatype Given = Given(candidate: Config, radio: Radio, hold: bool, observed: seq<Config>)

  predicate Untouched(s: State, g: Given) {
    s.radio.flash == g.radio.flash && s.observed == g.observed
  }

  predicate Trying(s: State, g: Given) {
    Untouched(s, g) && s.radio.mode == Ram
  }

  /** The candidate was seen connected in this call. */
  predicate Proven(s: State, g: Given) {
    s.observed == g.observed + [g.candidate] && s.radio.ram == g.candidate
  }

  predicate FlashSafe(s: State, g: Given) {
    || (s.radio.flash == g.radio.flash && s.observed in {g.observed, g.observed + [g.candidate]})
    || (s.radio.flash == g.candidate && s.observed == g.observed + [g.candidate])
  }

  /** How a join may have ended; callbacks change none of it. */
  predicate Settled(s: State, g: Given, v: Verdict) {
    || (Proven(s, g) && s.radio.flash == g.candidate)
    || (v != Ok && Proven(s, g) && s.radio.flash == g.radio.flash)
    || (v != Ok && Untouched(s, g) && RolledBack(s, g))
  }

  predicate RolledBack(s: State, g: Given) {
    || (s.radio.ram == g.radio.ram && s.link.hold == g.hold)                // never begun
    || (s.radio.ram == Restored(g.radio.ram) && s.link.hold == !Stored(g.radio.ram))
    || (s.radio.ram in {g.radio.ram, g.candidate} && s.link.hold)           // rollback failed
  }

  predicate OnPurpose(s: State, g: Given, p: Purpose) {
    match p
    case ToStage(c, previous) =>
      c == g.candidate && previous == g.radio.ram && Trying(s, g) && s.radio.ram == previous
    case ToRestore(previous, e) =>
      previous == g.radio.ram && e != Ok && Trying(s, g) && s.radio.ram in {previous, g.candidate}
    case ToErase => false
  }

  /** What holds of a join at each of its points. */
  predicate InJoin(s: State, g: Given) {
    match s.op
    case Isolating(c) => c == g.candidate && Untouched(s, g) && s.radio.ram == g.radio.ram && s.link.hold == g.hold
    case Snapshotting(c) => c == g.candidate && Trying(s, g) && s.radio.ram == g.radio.ram && s.link.hold == g.hold
    case Quieting(p) => OnPurpose(s, g, p)
    case AwaitingQuiet(p) => OnPurpose(s, g, p) && s.link.hold
    case Clearing(c, previous) => OnPurpose(s, g, ToStage(c, previous))
    case Staging(c, previous) => OnPurpose(s, g, ToStage(c, previous))
    case Releasing(c, previous) => c == g.candidate && previous == g.radio.ram && Trying(s, g) && s.radio.ram == c
    case Connecting(c, previous) => c == g.candidate && previous == g.radio.ram && Trying(s, g) && s.radio.ram == c
    case Judging(c, previous) => c == g.candidate && previous == g.radio.ram && Trying(s, g) && s.radio.ram == c
    case Committing(c) => c == g.candidate && Proven(s, g) && s.radio.flash == g.radio.flash
    case Saving(c) => c == g.candidate && Proven(s, g) && s.radio.flash == g.radio.flash && s.radio.mode == Flash
    case Restoring(previous, e) => OnPurpose(s, g, ToRestore(previous, e)) && s.link.hold
    case Reviving(previous, e) =>
      previous == g.radio.ram && e != Ok && Trying(s, g) && s.radio.ram == Restored(previous)
    case Reconnecting(e) => e != Ok && Settled(s, g, e) && Untouched(s, g)
    case Finishing(v) => Settled(s, g, v)
    case Ending(v) => Settled(s, g, v) && (v == Ok ==> s.radio.mode == Flash)
    case Idle => Settled(s, g, s.verdict) && (s.verdict == Ok ==> s.radio.mode == Flash)
    case _ => false
  }

  predicate Spares(s: State, t: State) {
    && t.radio == s.radio && t.op == s.op && t.observed == s.observed && t.verdict == s.verdict
    && t.link.hold == s.link.hold && t.link.joining == s.link.joining
  }

  lemma ScheduleSpares(s: State, armOk: bool)
    ensures Spares(s, Schedule(s, armOk))
  {
  }

  lemma DisconnectedSpares(s: State, armOk: bool)
    ensures Spares(s, OnDisconnected(s, armOk))
  {
    ScheduleSpares(s.(link := s.link.(connected := false)), armOk);
    hide Schedule, OnTrial;
  }

  lemma TimerSpares(s: State, connectOk: bool, armOk: bool)
    ensures Spares(s, OnTimer(s, connectOk, armOk))
  {
    ScheduleSpares(Connect(s.(clock := s.clock.(armed := None))), armOk);
    hide Schedule, OnTrial;
  }

  lemma WatchdogSpares(s: State, readOk: bool, armOk: bool)
    ensures Spares(s, OnWatchdog(s, readOk, armOk))
  {
    var t := s.(clock := s.clock.(watchdogAt := s.clock.watchdogAt + WATCHDOG_US), link := s.link.(have := true));
    ScheduleSpares(t, armOk);
    hide Schedule;
  }

  lemma RetrySpares(s: State, armOk: bool)
    ensures Spares(s, OnRetry(s, armOk))
  {
    ScheduleSpares(s.(link := s.link.(backoff := 0)), armOk);
    hide Schedule;
  }

  /** Callbacks never touch the radio's configuration, the hold or the operation. */
  lemma CallbackSpares(s: State, step: Step)
    requires Callback(step)
    ensures Spares(s, Next(s, step))
  {
    hide OnDisconnected, OnTimer, OnWatchdog, OnRetry;
    match step
    case Disconnected(armOk) => DisconnectedSpares(s, armOk);
    case TimerFires(connectOk, armOk) => TimerSpares(s, connectOk, armOk);
    case Watchdog(readOk, armOk) => WatchdogSpares(s, readOk, armOk);
    case Retry(armOk) => RetrySpares(s, armOk);
    case _ =>
  }

  lemma WorkKeepsJoin(s: State, g: Given, ok: bool, late: bool)
    requires InJoin(s, g) && s.op != Idle
    ensures InJoin(OpNext(s, ok, late), g)
  {
  }

  lemma StepKeepsJoin(s: State, g: Given, step: Step)
    requires InJoin(s, g) && Inside(step) && Enabled(s, step)
    ensures InJoin(Next(s, step), g)
  {
    if step.Work? {
      WorkKeepsJoin(s, g, step.ok, step.late);
    } else {
      CallbackSpares(s, step);
      hide Next, Callback;
    }
  }

  lemma {:induction false} PathKeepsJoin(s: State, g: Given, steps: seq<Step>, t: State)
    requires InJoin(s, g) && AllInside(steps) && Path(s, steps, t)
    ensures InJoin(t, g)
    decreases |steps|
  {
    hide Next, InJoin, Enabled, Inside;
    if steps != [] {
      StepKeepsJoin(s, g, steps[0]);
      PathKeepsJoin(Next(s, steps[0]), g, steps[1..], t);
    }
  }

  function Start(s: State, c: Config): Given { Given(c, s.radio, s.link.hold, s.observed) }

  lemma InJoinIsSafe(s: State, g: Given)
    requires InJoin(s, g)
    ensures FlashSafe(s, g)
  {
  }

  /**
   * However callbacks interleave and whatever fails, wherever the power is cut: the
   * flash holds what it held before the call, or the candidate, seen connected during
   * the call. When the call is over it has settled, and a success means saved.
   */
  lemma FlashKeepsWhatWorked(s: State, c: Config, steps: seq<Step>, t: State)
    requires Enabled(s, Join(c)) && AllInside(steps) && Path(Next(s, Join(c)), steps, t)
    ensures FlashSafe(t, Start(s, c))
    ensures t.op == Idle ==> Settled(t, Start(s, c), t.verdict)
    ensures t.op == Idle && t.verdict == Ok ==>
              t.radio == Radio(c, c, Flash) && t.observed == s.observed + [c]
  {
    var s1 := Next(s, Join(c));
    assert InJoin(s1, Start(s, c));
    PathKeepsJoin(s1, Start(s, c), steps, t);
    InJoinIsSafe(t, Start(s, c));
  }

  // ---------------- leaving ----------------

  predicate Erased(s: State, before: Radio, v: Verdict) {
    && s.link.hold
    && (if v == Ok then s.radio == Radio(EMPTY, EMPTY, Flash)
        else s.radio.ram == before.ram && s.radio.flash == before.flash)
  }

  predicate InLeave(s: State, before: Radio) {
    match s.op
    case Quieting(p) => p == ToErase && s.radio == before
    case AwaitingQuiet(p) => p == ToErase && s.link.hold && s.radio == before
    case Persisting => s.link.hold && s.radio == before
    case Erasing => s.link.hold && s.radio == before.(mode := Flash)
    case Left(v) => Erased(s, before, v)
    case Idle => Erased(s, before, s.verdict)
    case _ => false
  }

  lemma StepKeepsLeave(s: State, before: Radio, step: Step)
    requires InLeave(s, before) && Inside(step) && Enabled(s, step)
    ensures InLeave(Next(s, step), before)
  {
    if step.Work? {
      assert InLeave(OpNext(s, step.ok, step.late), before);
    } else {
      CallbackSpares(s, step);
      hide Next, Callback;
    }
  }

  /** A leave ends held down, with both copies erased, or neither when it reports an error. */
  lemma {:induction false} LeaveErases(s: State, before: Radio, steps: seq<Step>, t: State)
    requires InLeave(s, before) && AllInside(steps) && Path(s, steps, t)
    ensures InLeave(t, before)
    ensures t.op == Idle ==> Erased(t, before, t.verdict)
    decreases |steps|
  {
    if steps != [] {
      StepKeepsLeave(s, before, steps[0]);
      hide Next, Enabled, Inside, InLeave;
      LeaveErases(Next(s, steps[0]), before, steps[1..], t);
    }
  }

  // ---------------- whole histories ----------------

  /** Everything the flash has a right to hold. */
  predicate Earned(c: Config, boot: Config, observed: seq<Config>) {
    c == boot || c == EMPTY || c in observed
  }

  predicate Worthy(s: State, boot: Config) {
    && Earned(s.radio.flash, boot, s.observed)
    && (s.op.Saving? || s.op.Committing? ==> s.op.candidate in s.observed)
    && (Isolated(s.op) ==> s.radio.mode == Ram)
  }

  predicate Isolated(op: Op) {
    || op.Snapshotting? || op.Clearing? || op.Staging? || op.Releasing? || op.Connecting? || op.Judging?
    || op.Restoring? || op.Reviving? || ((op.Quieting? || op.AwaitingQuiet?) && !op.purpose.ToErase?)
  }

  lemma WorkKeepsWorthy(s: State, boot: Config, ok: bool, late: bool)
    requires Worthy(s, boot)
    ensures Worthy(OpNext(s, ok, late), boot)
  {
  }

  lemma StepKeepsWorthy(s: State, boot: Config, step: Step)
    requires Worthy(s, boot) && Enabled(s, step)
    ensures Worthy(Next(s, step), boot)
  {
    if step.Work? {
      WorkKeepsWorthy(s, boot, step.ok, step.late);
    } else if Callback(step) {
      CallbackSpares(s, step);
      hide Next, Callback;
    }
  }

  /**
   * Over every history of joins, leaves and callbacks, the flash holds the boot
   * configuration, nothing, or a configuration that was seen connected.
   */
  lemma {:induction false} FlashIsEarned(s: State, boot: Config, steps: seq<Step>, t: State)
    requires Worthy(s, boot) && Path(s, steps, t)
    ensures Worthy(t, boot) && Earned(t.radio.flash, boot, t.observed)
    decreases |steps|
  {
    if steps == [] {
    } else {
      StepKeepsWorthy(s, boot, steps[0]);
      hide Next, Worthy, Enabled;
      FlashIsEarned(Next(s, steps[0]), boot, steps[1..], t);
    }
  }

  // ---------------- which configuration is retried ----------------

  predicate Trusted(c: Config, boot: Config, observed: seq<Config>) {
    !Stored(c) || c == boot || c in observed
  }

  predicate TrustedIn(s: State, boot: Config, p: Purpose) {
    match p
    case ToStage(_, previous) => Trusted(previous, boot, s.observed) && s.radio.ram == previous
    case ToRestore(previous, _) => Trusted(previous, boot, s.observed)
    case ToErase => s.link.hold || Trusted(s.radio.ram, boot, s.observed)
  }

  /** Off trial, whatever is not held back is a configuration that has worked. */
  predicate Careful(s: State, boot: Config) {
    match s.op
    case Quieting(p) => TrustedIn(s, boot, p)
    case AwaitingQuiet(p) => s.link.hold && TrustedIn(s, boot, p)
    case Clearing(_, previous) => s.link.hold && Trusted(previous, boot, s.observed)
    case Staging(_, previous) => s.link.hold && Trusted(previous, boot, s.observed)
    case Releasing(c, previous) => s.link.hold && s.radio.ram == c && Trusted(previous, boot, s.observed)
    case Connecting(c, previous) => s.radio.ram == c && Trusted(previous, boot, s.observed)
    case Judging(c, previous) => s.radio.ram == c && Trusted(previous, boot, s.observed)
    case Restoring(previous, _) => s.link.hold && Trusted(previous, boot, s.observed)
    case Isolating(_) => Trusted(s.radio.ram, boot, s.observed)
    case Snapshotting(_) => Trusted(s.radio.ram, boot, s.observed)
    case Committing(c) => c in s.observed && Trusted(s.radio.ram, boot, s.observed)
    case Saving(c) => c in s.observed && Trusted(s.radio.ram, boot, s.observed)
    case Reviving(_, _) => Trusted(s.radio.ram, boot, s.observed)
    case Reconnecting(_) => Trusted(s.radio.ram, boot, s.observed)
    case _ => s.link.hold || Trusted(s.radio.ram, boot, s.observed)
  }

  predicate CallsTrusted(s: State, boot: Config) {
    forall i :: 0 <= i < |s.calls| ==> CallTrusted(s.calls[i], boot, s.observed)
  }

  predicate CallTrusted(c: Call, boot: Config, observed: seq<Config>) {
    c.held || c.trial || Trusted(c.config, boot, observed)
  }

  /** A call made now is held, on trial, or to a configuration that has worked. */
  lemma CarefulCall(s: State, boot: Config)
    requires Careful(s, boot)
    ensures s.link.hold || OnTrial(s.op) || Trusted(s.radio.ram, boot, s.observed)
  {
  }

  /** Every step makes at most one call, of the configuration in the driver. */
  predicate OneCall(s: State, t: State) {
    t.calls == s.calls || t.calls == s.calls + [Call(s.link.hold, s.radio.ram, OnTrial(s.op))]
  }

  lemma AtMostOneCall(s: State, step: Step)
    requires Enabled(s, step)
    ensures OneCall(s, Next(s, step)) && s.observed <= Next(s, step).observed
  {
    if step.Work? {
      WorkCalls(s, step.ok, step.late);
    }
  }

  lemma WorkCalls(s: State, ok: bool, late: bool)
    ensures OneCall(s, OpNext(s, ok, late)) && s.observed <= OpNext(s, ok, late).observed
  {
    hide OnTrial;
  }

  lemma CallsStayTrusted(s: State, t: State, boot: Config)
    requires CallsTrusted(s, boot) && Careful(s, boot) && s.observed <= t.observed
    requires OneCall(s, t)
    ensures CallsTrusted(t, boot)
  {
    CarefulCall(s, boot);
    hide Careful, OnTrial;
    forall i | 0 <= i < |t.calls| ensures CallTrusted(t.calls[i], boot, t.observed) {
      assert i < |s.calls| ==> t.calls[i] == s.calls[i] && CallTrusted(s.calls[i], boot, s.observed);
    }
  }

  lemma QuietKeepsCareful(s: State, boot: Config, ok: bool, late: bool)
    requires Careful(s, boot) && (s.op.Quieting? || s.op.AwaitingQuiet?)
    ensures Careful(OpNext(s, ok, late), boot)
  {
    hide Trusted;
  }

  /** Between the quiet radio and the verdict. */
  predicate UnderWay(op: Op) {
    op.Clearing? || op.Staging? || op.Releasing? || op.Connecting? || op.Judging?
  }

  lemma TrialKeepsCareful(s: State, boot: Config, ok: bool, late: bool)
    requires Careful(s, boot)
    requires s.op.Snapshotting? || UnderWay(s.op)
    ensures Careful(OpNext(s, ok, late), boot)
  {
    if s.op.Judging? && s.link.connected {
      assert s.op.candidate in s.observed + [s.op.candidate];
    } else {
      hide Trusted;
    }
  }

  lemma WorkKeepsCareful(s: State, boot: Config, ok: bool, late: bool)
    requires Careful(s, boot)
    ensures Careful(OpNext(s, ok, late), boot)
  {
    if s.op.Quieting? || s.op.AwaitingQuiet? {
      QuietKeepsCareful(s, boot, ok, late);
    } else if s.op.Snapshotting? || UnderWay(s.op) {
      TrialKeepsCareful(s, boot, ok, late);
    } else {
      hide OnTrial;
    }
  }

  /** A join under a hold must find in the driver nothing, or a configuration that has worked. */
  predicate Sensible(s: State, step: Step, boot: Config) {
    step.Join? && s.link.hold ==> Trusted(s.radio.ram, boot, s.observed)
  }

  lemma StepKeepsCareful(s: State, boot: Config, step: Step)
    requires Careful(s, boot) && Enabled(s, step) && Sensible(s, step, boot)
    ensures Careful(Next(s, step), boot)
  {
    if step.Work? {
      WorkKeepsCareful(s, boot, step.ok, step.late);
    } else if Callback(step) {
      CallbackSpares(s, step);
      hide Next, Callback;
    }
  }

  ghost predicate SensiblePath(s: State, steps: seq<Step>, boot: Config)
    decreases |steps|
  {
    steps == [] || (Sensible(s, steps[0], boot) && SensiblePath(Next(s, steps[0]), steps[1..], boot))
  }

  /**
   * Over every history in which no join begins under a hold with rejected credentials in
   * the driver, each connect is to a configuration that has worked, unless it is a join
   * trying its candidate (or made under a hold, see WifiSupervisor.ConnectsUnderHold).
   */
  lemma {:induction false} OnlyWorkingConfigsAreRetried(s: State, boot: Config, steps: seq<Step>, t: State)
    requires Careful(s, boot) && CallsTrusted(s, boot) && Path(s, steps, t) && SensiblePath(s, steps, boot)
    ensures Careful(t, boot) && CallsTrusted(t, boot)
    decreases |steps|
  {
    if steps != [] {
      var s1 := Next(s, steps[0]);
      StepKeepsCareful(s, boot, steps[0]);
      AtMostOneCall(s, steps[0]);
      hide Next, Careful, CallsTrusted, Enabled, Sensible;
      CallsStayTrusted(s, s1, boot);
      OnlyWorkingConfigsAreRetried(s1, boot, steps[1..], t);
    }
  }

  lemma BootIsCareful(boot: Config, made: bool, now: nat)
    ensures Careful(Boot(boot, made, now), boot) && CallsTrusted(Boot(boot, made, now), boot)
    ensures Worthy(Boot(boot, made, now), boot)
  {
  }

  /**
   * A join that failed without ever seeing its candidate connected, and left the
   * station free to reconnect, left in the driver exactly what it found there, so a
   * configuration that has worked exactly when that one had.
   */
  lemma RollbackRestoresWhatItFound(s: State, c: Config, steps: seq<Step>, t: State)
    requires Enabled(s, Join(c)) && AllInside(steps) && Path(Next(s, Join(c)), steps, t)
    requires t.op == Idle && t.observed == s.observed && !t.link.hold
    ensures t.radio.ram == s.radio.ram && t.radio.flash == s.radio.flash
  {
    FlashKeepsWhatWorked(s, c, steps, t);
    hide Path, Next;
  }

  function Worked(s: State, oks: seq<bool>): State
    decreases |oks|
  {
    if oks == [] then s else Worked(OpNext(s, oks[0], true), oks[1..])
  }

  lemma {:induction false} WorkedThenWorked(s: State, a: seq<bool>, b: seq<bool>)
    ensures Worked(s, a + b) == Worked(Worked(s, a), b)
    decreases |a|
  {
    hide OpNext;
    if a == [] {
      assert a + b == b;
    } else {
      assert (a + b)[0] == a[0] && (a + b)[1..] == a[1..] + b;
      WorkedThenWorked(OpNext(s, a[0], true), a[1..], b);
    }
  }

  /** Staged, then refused by connect, up to the moment of restoring. */
  const STAGED: seq<bool> := [true, true, false, true]
  const REFUSED: seq<bool> := [true, true, false, false]
  const NOT_RESTORED: seq<bool> := [false, true, true]
  const RESTORED: seq<bool> := [true, true, true, true, true]

  lemma AfterStaged(s: State, c: Config)
    requires s.op == Isolating(c)
    ensures var t := Worked(s, STAGED);
            && t.op == Staging(c, s.radio.ram) && t.radio == s.radio.(mode := Ram)
            && t.observed == s.observed && t.link.joining == s.link.joining
  {
  }

  lemma AfterRefused(s: State)
    requires s.op.Staging? && s.radio.mode == Ram
    ensures var t := Worked(s, REFUSED);
            && t.op == Restoring(s.op.previous, DriverError) && t.radio == s.radio.(ram := s.op.candidate)
            && t.observed == s.observed && t.link.joining == s.link.joining && t.link.hold
  {
  }

  lemma AfterNotRestored(s: State)
    requires s.op.Restoring?
    ensures var t := Worked(s, NOT_RESTORED);
            t.op == Idle && t.radio == s.radio.(mode := Flash) && t.observed == s.observed && t.link.hold
  {
  }

  lemma AfterRestored(s: State)
    requires s.op.Restoring? && Stored(s.op.previous) && s.radio.mode == Ram
    ensures var t := Worked(s, RESTORED);
            && t.op == Idle && t.radio == Radio(s.op.previous, s.radio.flash, Flash) && t.observed == s.observed
            && !t.link.hold && t.calls != [] && t.calls[|t.calls| - 1] == Call(false, s.op.previous, false)
  {
  }

  /**
   * The condition is needed: whatever a join under a hold finds in the driver, it may
   * fail, restore that, lift the hold and reconnect to it.
   */
  lemma WhatAJoinFindsMayComeBack(s: State, c: Config)
    requires Enabled(s, Join(c)) && Stored(s.radio.ram)
    ensures var t := Worked(Next(s, Join(c)), STAGED + REFUSED + RESTORED);
            && t.op == Idle && !t.link.hold && t.radio == Radio(s.radio.ram, s.radio.flash, Flash)
            && t.calls != [] && t.calls[|t.calls| - 1] == Call(false, s.radio.ram, false)
            && t.observed == s.observed
  {
    var s1 := Next(s, Join(c));
    WorkedThenWorked(s1, STAGED + REFUSED, RESTORED);
    WorkedThenWorked(s1, STAGED, REFUSED);
    hide Worked, STAGED, REFUSED, RESTORED;
    AfterStaged(s1, c);
    AfterRefused(Worked(s1, STAGED));
    AfterRestored(Worked(s1, STAGED + REFUSED));
  }

  lemma FailedTwiceIsHeld(s: State, c: Config)
    requires Enabled(s, Join(c))
    ensures var t := Worked(Next(s, Join(c)), STAGED + REFUSED + NOT_RESTORED);
            t.op == Idle && t.link.hold && t.radio == Radio(c, s.radio.flash, Flash) && t.observed == s.observed
  {
    var s1 := Next(s, Join(c));
    WorkedThenWorked(s1, STAGED + REFUSED, NOT_RESTORED);
    WorkedThenWorked(s1, STAGED, REFUSED);
    hide Worked, STAGED, REFUSED, NOT_RESTORED;
    AfterStaged(s1, c);
    AfterRefused(Worked(s1, STAGED));
    AfterNotRestored(Worked(s1, STAGED + REFUSED));
  }

  /**
   * And it can be broken from a clean boot. A join whose candidate and rollback are
   * both refused leaves its rejected candidate in the driver under a hold; the next
   * failing join takes it for the known-good configuration and reconnects to it, while
   * the flash still holds the configuration that worked.
   */
  lemma RejectedCandidateComesBack(good: Config, a: Config, b: Config)
    requires Acceptable(a) && Acceptable(b) && a != good
    ensures var s1 := Worked(Next(Boot(good, true, 0), Join(a)), STAGED + REFUSED + NOT_RESTORED);
            var s2 := Worked(Next(s1, Join(b)), STAGED + REFUSED + RESTORED);
            && s1.op == Idle && s1.link.hold
            && s2.op == Idle && !s2.link.hold && s2.radio == Radio(a, good, Flash)
            && s2.calls != [] && !CallTrusted(s2.calls[|s2.calls| - 1], good, s2.observed)
  {
    var boot := Boot(good, true, 0);
    assert Enabled(boot, Join(a)) && boot.radio == Radio(good, good, Flash) && boot.observed == [];
    FailedTwiceIsHeld(boot, a);
    var s1 := Worked(Next(boot, Join(a)), STAGED + REFUSED + NOT_RESTORED);
    assert Stored(a);
    hide Worked, STAGED, REFUSED, NOT_RESTORED, RESTORED, Next, Boot;
    WhatAJoinFindsMayComeBack(s1, b);
  }
}
