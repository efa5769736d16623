/**
 * When a join or a leave succeeds (main/main.c:454-633): exactly when every driver call
 * of it answered and the candidate was connected when its wait ended. Nothing restores a
 * candidate that was seen connected, and a join can succeed wherever it can begin.
 */
module WifiSuccess {
  import opened Bytes
  import opened WifiModel
  import opened WifiTransaction
  import opened WifiSupervisor

  // ---------------- the verdict ----------------

  /** This step does not decide against the operation. */
  predicate Favours(s: State, step: Step) {
    step.Work? ==>
      match s.op
      case Isolating(_) => step.ok
      case Snapshotting(_) => step.ok
      case Staging(_, _) => step.ok
      case Connecting(_, _) => step.ok
      case Judging(_, _) => s.link.connected || (!s.link.failed && !step.late)   // up, or still waiting
      case Committing(_) => step.ok
      case Saving(_) => step.ok
      case Finishing(_) => step.ok
      case Persisting => step.ok
      case Erasing => step.ok
      case _ => true
  }

  predicate Favoured(s: State, steps: seq<Step>)
    decreases steps
  {
    steps == [] || (Favours(s, steps[0]) && Favoured(Next(s, steps[0]), steps[1..]))
  }

  /** Nothing has gone wrong yet; once a join connects its candidate, the hold is off. */
  predicate Winning(s: State, leaving: bool) {
    match s.op
    case Idle => s.verdict == Ok && (leaving || !s.link.hold)
    case Quieting(p) => if leaving then p.ToErase? else p.ToStage?
    case AwaitingQuiet(p) => if leaving then p.ToErase? else p.ToStage?
    case Persisting => leaving
    case Erasing => leaving
    case Left(v) => leaving && v == Ok
    case Restoring(_, _) => false
    case Reviving(_, _) => false
    case Reconnecting(_) => false
    case Finishing(v) => !leaving && v == Ok && !s.link.hold
    case Ending(v) => !leaving && v == Ok && !s.link.hold
    case op => !leaving && (op.Connecting? || op.Judging? || op.Committing? || op.Saving? ==> !s.link.hold)
  }

  /** The operation will report an error. */
  predicate Losing(s: State) {
    match s.op
    case Idle => s.verdict != Ok
    case Quieting(p) => p.ToRestore? && p.error != Ok
    case AwaitingQuiet(p) => p.ToRestore? && p.error != Ok
    case Restoring(_, e) => e != Ok
    case Reviving(_, e) => e != Ok
    case Reconnecting(e) => e != Ok
    case Finishing(v) => v != Ok
    case Ending(v) => v != Ok
    case Left(v) => v != Ok
    case _ => false
  }

  lemma WorkKeepsWinning(s: State, leaving: bool, ok: bool, late: bool)
    requires Winning(s, leaving)
    ensures if Favours(s, Work(ok, late)) then Winning(OpNext(s, ok, late), leaving) else Losing(OpNext(s, ok, late))
  {
  }

  lemma WorkKeepsLosing(s: State, ok: bool, late: bool)
    requires Losing(s)
    ensures Losing(OpNext(s, ok, late))
  {
  }

  lemma StepDecides(s: State, leaving: bool, step: Step)
    requires Inside(step)
    ensures Winning(s, leaving) ==> if Favours(s, step) then Winning(Next(s, step), leaving) else Losing(Next(s, step))
    ensures Losing(s) ==> Losing(Next(s, step))
  {
    if step.Work? {
      if Winning(s, leaving) {
        WorkKeepsWinning(s, leaving, step.ok, step.late);
      }
      if Losing(s) {
        WorkKeepsLosing(s, step.ok, step.late);
      }
      hide OpNext, Winning, Losing, Favours;
    } else {
      CallbackSpares(s, step);
      hide Next, Callback;
    }
  }

  lemma {:induction false} LosingIsLost(s: State, steps: seq<Step>, t: State)
    requires Losing(s) && AllInside(steps) && Path(s, steps, t)
    ensures Losing(t)
    decreases steps
  {
    hide Next, Losing, Enabled, Inside;
    if steps != [] {
      StepDecides(s, false, steps[0]);
      LosingIsLost(Next(s, steps[0]), steps[1..], t);
    }
  }

  lemma {:induction false} PathDecides(s: State, leaving: bool, steps: seq<Step>, t: State)
    requires Winning(s, leaving) && AllInside(steps) && Path(s, steps, t)
    ensures if Favoured(s, steps) then Winning(t, leaving) else Losing(t)
    decreases steps
  {
    hide Next, Winning, Losing, Favours, Enabled, Inside;
    if steps != [] {
      StepDecides(s, leaving, steps[0]);
      if Favours(s, steps[0]) {
        PathDecides(Next(s, steps[0]), leaving, steps[1..], t);
      } else {
        LosingIsLost(Next(s, steps[0]), steps[1..], t);
      }
    }
  }

  /**
   * A join that is over succeeded if and only if storage could be switched, the old
   * configuration read, the candidate staged and connected to, seen connected when the
   * wait ended, and committed, saved and finished without an error; the hold is then off.
   */
  lemma JoinVerdict(s: State, c: Config, steps: seq<Step>, t: State)
    requires Enabled(s, Join(c)) && AllInside(steps) && Path(Next(s, Join(c)), steps, t) && t.op == Idle
    ensures t.verdict == Ok <==> Favoured(Next(s, Join(c)), steps)
    ensures Favoured(Next(s, Join(c)), steps) ==>
              t.radio == Radio(c, c, Flash) && t.observed == s.observed + [c] && !t.link.hold
  {
    PathDecides(Next(s, Join(c)), false, steps, t);
    FlashKeepsWhatWorked(s, c, steps, t);
    hide Favoured, Path, FlashSafe, Settled;
  }

  /** A leave that is over succeeded if and only if storage could be switched and the configuration erased. */
  lemma LeaveVerdict(s: State, steps: seq<Step>, t: State)
    requires Enabled(s, Leave) && AllInside(steps) && Path(Next(s, Leave), steps, t) && t.op == Idle
    ensures t.verdict == Ok <==> Favoured(Next(s, Leave), steps)
  {
    PathDecides(Next(s, Leave), true, steps, t);
    hide Favoured, Path;
  }

  // ---------------- a candidate seen connected stays ----------------

  /** The candidate is in the driver for good, whatever else fails. */
  predicate Kept(s: State, c: Config, observed: seq<Config>) {
    && (s.op.Committing? || s.op.Saving? ==> s.op.candidate == c)
    && (s.op.Committing? || s.op.Saving? || s.op.Finishing? || s.op.Ending? || s.op == Idle)
    && s.radio.ram == c && s.observed == observed
  }

  lemma {:induction false} KeptStays(s: State, c: Config, observed: seq<Config>, hold: bool, steps: seq<Step>, t: State)
    requires Kept(s, c, observed) && s.link.hold == hold && AllInside(steps) && Path(s, steps, t)
    ensures Kept(t, c, observed) && t.link.hold == hold
    decreases steps
  {
    hide Next, Kept, Enabled, Inside;
    if steps != [] {
      KeptStep(s, c, observed, steps[0]);
      KeptStays(Next(s, steps[0]), c, observed, hold, steps[1..], t);
    }
  }

  lemma KeptStep(s: State, c: Config, observed: seq<Config>, step: Step)
    requires Kept(s, c, observed) && Inside(step)
    ensures Kept(Next(s, step), c, observed) && Next(s, step).link.hold == s.link.hold
  {
    if !step.Work? {
      CallbackSpares(s, step);
      hide Next, Callback;
    }
  }

  lemma JoinStarts(s: State, c: Config)
    requires Enabled(s, Join(c))
    ensures InJoin(Next(s, Join(c)), Start(s, c))
  {
  }

  lemma JudgedUp(u: State, g: Given, ok: bool, late: bool)
    requires InJoin(u, g) && u.op.Judging? && u.link.connected
    ensures var t := OpNext(u, ok, late);
            Kept(t, g.candidate, g.observed + [g.candidate]) && t.link.hold == u.link.hold
  {
  }

  lemma WorkIs(u: State, work: Step)
    requires work.Work?
    ensures Next(u, work) == OpNext(u, work.ok, work.late)
  {
    hide OpNext;
  }

  /**
   * A candidate that is connected when its wait ends is never rolled back: it stays in
   * the driver, and the hold stays as it is, whatever fails and happens afterwards.
   */
  lemma SeenUpIsNeverRestored(s: State, c: Config, before: seq<Step>, u: State, work: Step, after: seq<Step>, t: State)
    requires Enabled(s, Join(c)) && AllInside(before) && Path(Next(s, Join(c)), before, u)
    requires u.op.Judging? && u.link.connected && work.Work?
    requires AllInside(after) && Path(Next(u, work), after, t)
    ensures Kept(t, c, s.observed + [c]) && t.link.hold == u.link.hold
  {
    JoinStarts(s, c);
    hide Next, Kept, Path, Enabled, InJoin, Inside;
    PathKeepsJoin(Next(s, Join(c)), Start(s, c), before, u);
    JudgedUp(u, Start(s, c), work.ok, work.late);
    WorkIs(u, work);
    KeptStays(Next(u, work), c, s.observed + [c], u.link.hold, after, t);
  }

  // ---------------- and a rejected one is undone ----------------

  predicate RestoreAnswers(s: State, step: Step) { step.Work? && s.op.Restoring? ==> step.ok }

  predicate RestoresAnswered(s: State, steps: seq<Step>)
    decreases steps
  {
    steps == [] || (RestoreAnswers(s, steps[0]) && RestoresAnswered(Next(s, steps[0]), steps[1..]))
  }

  /** As it was found, or restored: held down without a configuration, connected to with one. */
  predicate Undone(s: State, g: Given) {
    || (s.radio.ram == g.radio.ram && s.link.hold == g.hold)
    || (s.radio.ram == Restored(g.radio.ram) && s.link.hold == !Stored(g.radio.ram)
        && (Stored(g.radio.ram) ==> Call(false, g.radio.ram, false) in s.calls))
  }

  predicate Undoing(s: State, g: Given) {
    && InJoin(s, g)
    && (s.op.Reconnecting? ==> Stored(g.radio.ram) && s.radio.ram == g.radio.ram && !s.link.hold)
    && (s.observed == g.observed && (s.op.Finishing? || s.op.Ending? || s.op == Idle) ==> Undone(s, g))
  }

  lemma UndoneStays(s: State, g: Given, t: State)
    requires Undone(s, g) && t.radio == s.radio && t.link.hold == s.link.hold && OneCall(s, t)
    ensures Undone(t, g)
  {
  }

  lemma UndoingWork(s: State, g: Given, ok: bool, late: bool)
    requires Undoing(s, g) && s.op != Idle && RestoreAnswers(s, Work(ok, late))
    ensures Undoing(OpNext(s, ok, late), g)
  {
    WorkKeepsJoin(s, g, ok, late);
    if s.op.Reconnecting? {
      var t := OpNext(s, ok, late);
      assert t.calls[|s.calls|] == Call(false, g.radio.ram, false);
    }
  }

  lemma UndoingStep(s: State, g: Given, step: Step)
    requires Undoing(s, g) && Inside(step) && Enabled(s, step) && RestoreAnswers(s, step)
    ensures Undoing(Next(s, step), g)
  {
    if step.Work? {
      UndoingWork(s, g, step.ok, step.late);
      hide Undoing, InJoin, OpNext;
    } else {
      StepKeepsJoin(s, g, step);
      CallbackSpares(s, step);
      AtMostOneCall(s, step);
      hide Next, InJoin, Undone, OneCall;
      if Undone(s, g) {
        UndoneStays(s, g, Next(s, step));
      }
    }
  }

  lemma {:induction false} UndoingPath(s: State, g: Given, steps: seq<Step>, t: State)
    requires Undoing(s, g) && AllInside(steps) && RestoresAnswered(s, steps) && Path(s, steps, t)
    ensures Undoing(t, g)
    decreases steps
  {
    hide Next, Undoing, Enabled, Inside, RestoreAnswers;
    if steps != [] {
      UndoingStep(s, g, steps[0]);
      UndoingPath(Next(s, steps[0]), g, steps[1..], t);
    }
  }

  /**
   * A join that ends without having seen its candidate connected, the driver having taken
   * the old configuration back if asked to, leaves what it found, or restored it and
   * connected to it; with nothing to restore, it holds the station down.
   */
  lemma RejectedIsUndone(s: State, c: Config, steps: seq<Step>, t: State)
    requires Enabled(s, Join(c)) && AllInside(steps) && Path(Next(s, Join(c)), steps, t)
    requires RestoresAnswered(Next(s, Join(c)), steps) && t.op == Idle && t.observed == s.observed
    ensures Undone(t, Start(s, c)) && t.radio.flash == s.radio.flash
  {
    JoinStarts(s, c);
    assert Undoing(Next(s, Join(c)), Start(s, c));
    UndoingPath(Next(s, Join(c)), Start(s, c), steps, t);
    hide Path, RestoresAnswered, Next, Undone;
  }

  // ---------------- and is one that got an address ----------------

  /** No candidate has been seen, nor can one be seen before an address arrives. */
  predicate Unseen(s: State, observed: seq<Config>) {
    && s.observed == observed && !s.op.Committing? && !s.op.Saving?
    && (s.op.Staging? || s.op.Releasing? || s.op.Connecting? || s.op.Judging? ==> !s.link.connected)
  }

  lemma UnseenStep(s: State, observed: seq<Config>, step: Step)
    requires Unseen(s, observed) && Inside(step) && step != GotIp
    ensures Unseen(Next(s, step), observed)
  {
    if step.Work? {
      UnseenWork(s, observed, step.ok, step.late);
    } else {
      NotConnected(s, step);
      CallbackSpares(s, step);
      hide Next, Callback;
    }
  }

  lemma UnseenWork(s: State, observed: seq<Config>, ok: bool, late: bool)
    requires Unseen(s, observed)
    ensures Unseen(OpNext(s, ok, late), observed)
  {
    hide OpNext, Unseen;
    if UnderWay(s.op) {
      UnseenTrial(s, observed, ok, late);
    } else {
      UnseenElsewhere(s, observed, ok, late);
    }
  }

  lemma UnseenTrial(s: State, observed: seq<Config>, ok: bool, late: bool)
    requires Unseen(s, observed) && UnderWay(s.op)
    ensures Unseen(OpNext(s, ok, late), observed)
  {
    hide OnTrial, SetConfig;
  }

  lemma UnseenElsewhere(s: State, observed: seq<Config>, ok: bool, late: bool)
    requires Unseen(s, observed) && !UnderWay(s.op)
    ensures Unseen(OpNext(s, ok, late), observed)
  {
    hide OnTrial, SetConfig, Restored;
  }

  /** Only an address sets the connected bit. */
  lemma NotConnected(s: State, step: Step)
    requires step != GotIp && Callback(step)
    ensures Next(s, step).link.connected ==> s.link.connected
  {
    hide OnTrial;
    match step
    case Disconnected(armOk) => NeverConnects(s.(link := s.link.(connected := false)), armOk); hide Schedule;
    case TimerFires(_, armOk) => NeverConnects(Connect(s.(clock := s.clock.(armed := None))), armOk); hide Schedule;
    case Watchdog(_, armOk) => WatchdogNeverConnects(s, step.readOk, armOk);
    case Retry(armOk) => NeverConnects(s.(link := s.link.(backoff := 0)), armOk); hide Schedule;
    case _ =>
  }

  lemma NeverConnects(s: State, armOk: bool)
    ensures Schedule(s, armOk).link.connected == s.link.connected
  {
    hide OnTrial, BackoffUs;
  }

  lemma WatchdogNeverConnects(s: State, readOk: bool, armOk: bool)
    ensures OnWatchdog(s, readOk, armOk).link.connected == s.link.connected
  {
    var t := s.(clock := s.clock.(watchdogAt := s.clock.watchdogAt + WATCHDOG_US), link := s.link.(have := true));
    NeverConnects(t, armOk);
    hide Schedule;
  }

  lemma {:induction false} UnseenPath(s: State, observed: seq<Config>, steps: seq<Step>, t: State)
    requires Unseen(s, observed) && AllInside(steps) && GotIp !in steps && Path(s, steps, t)
    ensures Unseen(t, observed)
    decreases steps
  {
    hide Next, Unseen, Enabled, Inside;
    if steps != [] {
      UnseenStep(s, observed, steps[0]);
      UnseenPath(Next(s, steps[0]), observed, steps[1..], t);
    }
  }

  /** No join sees its candidate connected, let alone succeeds, without an address arriving meanwhile. */
  lemma SuccessNeedsAnAddress(s: State, c: Config, steps: seq<Step>, t: State)
    requires Enabled(s, Join(c)) && AllInside(steps) && Path(Next(s, Join(c)), steps, t) && GotIp !in steps
    ensures t.observed == s.observed && (t.op == Idle ==> t.verdict != Ok)
  {
    UnseenPath(Next(s, Join(c)), s.observed, steps, t);
    FlashKeepsWhatWorked(s, c, steps, t);
    hide Path, FlashSafe, Settled;
  }

  // ---------------- the waits and the flags ----------------

  predicate Joins(op: Op) {
    match op
    case Idle => false
    case Quieting(p) => !p.ToErase?
    case AwaitingQuiet(p) => !p.ToErase?
    case Persisting => false
    case Erasing => false
    case Left(_) => false
    case _ => true
  }

  /** An operation holding the lock is a join exactly while the flag says so. */
  predicate JoiningTells(s: State) { s.link.joining <==> Joins(s.op) }

  lemma WorkTellsJoining(s: State, ok: bool, late: bool)
    requires JoiningTells(s)
    ensures JoiningTells(OpNext(s, ok, late))
  {
    JoiningMoves(s, ok, late);
    JoinMoves(s, ok, late);
    hide OpNext, Joins;
  }

  lemma JoiningMoves(s: State, ok: bool, late: bool)
    ensures OpNext(s, ok, late).link.joining == (s.link.joining && !s.op.Ending?)
  {
    if !s.op.Ending? {
      hide OpNext;
      if UnderWay(s.op) || s.op.Quieting? || s.op.AwaitingQuiet? {
        TrialJoining(s, ok, late);
      } else {
        OtherJoining(s, ok, late);
      }
    }
  }

  lemma TrialJoining(s: State, ok: bool, late: bool)
    requires UnderWay(s.op) || s.op.Quieting? || s.op.AwaitingQuiet?
    ensures OpNext(s, ok, late).link.joining == s.link.joining
  {
    ConnectKeepsLink(s);
    hide Connect, SetConfig, Resumed;
  }

  lemma OtherJoining(s: State, ok: bool, late: bool)
    requires !UnderWay(s.op) && !s.op.Quieting? && !s.op.AwaitingQuiet? && !s.op.Ending?
    ensures OpNext(s, ok, late).link.joining == s.link.joining
  {
    ConnectKeepsLink(s);
    hide Connect, SetConfig, Restored, Resumed;
  }

  lemma ConnectKeepsLink(s: State)
    ensures Connect(s).link == s.link
  {
    hide OnTrial;
  }

  lemma JoinMoves(s: State, ok: bool, late: bool)
    ensures Joins(OpNext(s, ok, late).op) == (Joins(s.op) && !s.op.Ending?)
  {
    hide OnTrial, SetConfig, Restored;
  }

  lemma StepTellsJoining(s: State, step: Step)
    requires JoiningTells(s) && Enabled(s, step)
    ensures JoiningTells(Next(s, step))
  {
    if step.Work? {
      WorkTellsJoining(s, step.ok, step.late);
      hide OpNext, Joins;
    } else if Callback(step) {
      CallbackSpares(s, step);
      hide Next, Callback;
    }
  }

  lemma {:induction false} JoiningTellsAlways(s: State, steps: seq<Step>, t: State)
    requires JoiningTells(s) && Path(s, steps, t)
    ensures JoiningTells(t)
    decreases steps
  {
    if steps != [] {
      var step := steps[0];
      StepTellsJoining(s, step);
      hide Next, Enabled, JoiningTells;
      JoiningTellsAlways(Next(s, step), steps[1..], t);
    }
  }

  /** The wait for the radio ends with a disconnect event raised since it was asked for, or when it has run out. */
  lemma WaitEndsWithDisconnect(s: State, p: Purpose, armOk: bool, ok: bool)
    requires s.op == Quieting(p)
    ensures var a := OpNext(s, true, true);
            && a.op == AwaitingQuiet(p) && OpNext(a, ok, false) == a
            && OpNext(a, ok, true).op == Resumed(p)
            && OpNext(OnDisconnected(a, armOk), ok, false).op == Resumed(p)
  {
    hide OnTrial, Schedule, Bounded;
  }

  /** Disconnects, and retries asked for. */
  function Tries(steps: seq<Step>): nat
    decreases steps
  {
    if steps == [] then 0
    else (if steps[0].Disconnected? || steps[0].Retry? then 1 else 0) + Tries(steps[1..])
  }

  /** The trial after n tries: no more retries than that, and no failure before the sixth. */
  predicate TrialCounts(s: State, n: nat) {
    match s.op
    case Clearing(_, _) => s.link.hold
    case Staging(_, _) => s.link.hold && !s.link.failed
    case Releasing(_, _) => s.link.hold && !s.link.failed
    case Connecting(_, _) => !s.link.hold && s.link.joining && s.link.retries <= n && (s.link.failed ==> n >= 6)
    case Judging(_, _) => !s.link.hold && s.link.joining && s.link.retries <= n && (s.link.failed ==> n >= 6)
    case AwaitingQuiet(_) => s.link.hold
    case _ => true
  }

  lemma TrialWork(s: State, n: nat, ok: bool, late: bool)
    requires TrialCounts(s, n) && JoiningTells(s)
    ensures TrialCounts(OpNext(s, ok, late), n)
  {
    hide OnTrial, SetConfig, Restored;
  }

  lemma TrialCallback(s: State, n: nat, step: Step)
    requires TrialCounts(s, n) && Callback(step)
    ensures TrialCounts(Next(s, step), if step.Disconnected? || step.Retry? then n + 1 else n)
  {
    CallbackSpares(s, step);
    if s.link.joining {
      CallbackCounts(s, step);
    } else {
      HeldNeverFails(s, step);
    }
    hide Next, Callback;
  }

  /** Under a hold no callback fails the trial. */
  lemma HeldNeverFails(s: State, step: Step)
    requires Callback(step)
    ensures s.link.hold && !s.link.failed ==> !Next(s, step).link.failed
  {
    hide OnTrial, BackoffUs;
    match step
    case Disconnected(armOk) => DisconnectedCounts(s, armOk);
    case TimerFires(ok, armOk) => hide Schedule;
    case Watchdog(ok, armOk) => hide Schedule;
    case Retry(armOk) => ScheduleCounts(s.(link := s.link.(backoff := 0)), armOk); hide Schedule;
    case _ =>
  }

  /** What a step does to the retries and to the failure. */
  predicate Counts(s: State, t: State, tries: bool) {
    && t.link.retries <= (if tries then s.link.retries + 1 else s.link.retries)
    && (t.link.failed && !s.link.failed ==> tries && s.link.retries >= 5 && !s.link.hold)
  }

  lemma ScheduleCounts(s: State, armOk: bool)
    ensures Counts(s, Schedule(s, armOk), true) && Schedule(s, armOk).link.failed == s.link.failed
  {
    hide OnTrial, BackoffUs;
  }

  lemma DisconnectedCounts(s: State, armOk: bool)
    ensures Counts(s, OnDisconnected(s, armOk), true)
  {
    ScheduleCounts(s.(link := s.link.(connected := false)), armOk);
    hide Schedule, OnTrial;
  }

  lemma JoiningIsLeftAlone(s: State, ok: bool, armOk: bool)
    requires s.link.joining
    ensures Counts(s, OnTimer(s, ok, armOk), false) && Counts(s, OnWatchdog(s, ok, armOk), false)
  {
    hide Schedule, Connect;
  }

  lemma CallbackCounts(s: State, step: Step)
    requires Callback(step) && s.link.joining
    ensures Counts(s, Next(s, step), step.Disconnected? || step.Retry?)
  {
    hide OnDisconnected, OnTimer, OnWatchdog, Schedule;
    match step
    case Disconnected(armOk) => DisconnectedCounts(s, armOk);
    case TimerFires(ok, armOk) => JoiningIsLeftAlone(s, ok, armOk);
    case Watchdog(ok, armOk) => JoiningIsLeftAlone(s, ok, armOk);
    case Retry(armOk) => ScheduleCounts(s.(link := s.link.(backoff := 0)), armOk);
    case _ =>
  }

  lemma {:induction false} TrialPath(s: State, n: nat, steps: seq<Step>, t: State)
    requires TrialCounts(s, n) && JoiningTells(s) && AllInside(steps) && Path(s, steps, t)
    ensures TrialCounts(t, n + Tries(steps))
    decreases steps
  {
    if steps != [] {
      var step := steps[0];
      assert step in steps && Inside(step);
      StepTellsJoining(s, step);
      if step.Work? {
        TrialWork(s, n, step.ok, step.late);
      } else {
        TrialCallback(s, n, step);
      }
      hide OpNext, TrialCounts, JoiningTells, Inside;
      TrialPath(Next(s, step), n + (if step.Disconnected? || step.Retry? then 1 else 0), steps[1..], t);
    }
  }

  /** Whatever was pending before, a candidate fails early only by six disconnects or retries of its own time. */
  lemma FailureTakesSix(s: State, c: Config, steps: seq<Step>, t: State)
    requires JoiningTells(s) && Enabled(s, Join(c)) && AllInside(steps) && Path(Next(s, Join(c)), steps, t)
    requires t.op.Judging? && t.link.failed
    ensures Tries(steps) >= 6
  {
    TrialPath(Next(s, Join(c)), 0, steps, t);
  }

  /** The flag for stored credentials tells what an operation has saved, erased or put back. */
  lemma FlagFollowsDriver(s: State, late: bool)
    requires || (s.op.Saving? && Stored(s.op.candidate)) || s.op.Erasing?
             || (s.op.Reviving? && s.radio.ram == Restored(s.op.previous))
    ensures var t := OpNext(s, true, late); t.link.have == Stored(t.radio.ram)
  {
  }

  /** A configuration put back is tried like any other: not connected, no failure, all retries ahead. */
  lemma RevivedStartsOver(s: State, ok: bool, late: bool)
    requires s.op.Reviving? && Stored(s.op.previous)
    ensures var t := OpNext(s, ok, late);
            && !t.link.connected && !t.link.failed && !t.link.hold
            && |Drops(t.(link := t.link.(joining := true)), 5).calls| == |s.calls| + 5
            && !Drops(t.(link := t.link.(joining := true)), 5).link.failed
  {
    var t := OpNext(s, ok, late);
    hide Drops;
    RetriesAreBounded(t.(link := t.link.(joining := true)));
  }

  // ---------------- joins do succeed ----------------

  lemma Began(s: State, c: Config)
    requires s.op == Isolating(c)
    ensures var a := OpNext(s, true, true);
            var b := OpNext(a, true, true);
            var d := OpNext(b, true, true);
            && a.op == Snapshotting(c) && b.op == Quieting(ToStage(c, s.radio.ram))
            && d.op == AwaitingQuiet(ToStage(c, s.radio.ram))
            && OpNext(d, true, true).op == Clearing(c, s.radio.ram)
  {
  }

  lemma Tried(s: State, c: Config, previous: Config)
    requires s.op == Clearing(c, previous)
    ensures var a := OpNext(s, true, true);
            var b := OpNext(a, true, true);
            var d := OpNext(b, true, true);
            && a.op == Staging(c, previous) && b.op == Releasing(c, previous) && d.op == Connecting(c, previous)
            && OpNext(d, true, true).op == Judging(c, previous) && !OpNext(d, true, true).link.hold
  {
    hide OnTrial;
  }

  lemma Saved(s: State, c: Config, previous: Config)
    requires s.op == Judging(c, previous) && s.link.connected
    ensures var a := OpNext(s, true, true);
            var b := OpNext(a, true, true);
            var d := OpNext(b, true, true);
            var e := OpNext(d, true, true);
            && a.op == Committing(c) && b.op == Saving(c) && d.op == Finishing(Ok) && e.op == Ending(Ok)
            && OpNext(e, true, true).op == Idle && OpNext(e, true, true).verdict == Ok
            && OpNext(e, true, true).radio == Radio(c, c, Flash) && OpNext(e, true, true).link.hold == s.link.hold
  {
  }

  /** The next four steps of an operation in progress, all answered. */
  function Four(s: State): State {
    OpNext(OpNext(OpNext(OpNext(s, true, true), true, true), true, true), true, true)
  }

  lemma ReachesFour(s: State, t: State)
    requires Reaches(s, t) && t.op != Idle && OpNext(t, true, true).op != Idle
    requires var b := OpNext(OpNext(t, true, true), true, true); b.op != Idle && OpNext(b, true, true).op != Idle
    ensures Reaches(s, Four(t))
  {
    hide OpNext, Reaches;
    var a := OpNext(t, true, true);
    var b := OpNext(a, true, true);
    var d := OpNext(b, true, true);
    ReachesNext(s, t, a, true, true);
    ReachesNext(s, a, b, true, true);
    ReachesNext(s, b, d, true, true);
    ReachesNext(s, d, OpNext(d, true, true), true, true);
  }

  lemma AddressArrives(s: State)
    ensures Inside(GotIp) && Enabled(s, GotIp)
    ensures var t := Next(s, GotIp); t.link.connected && t.op == s.op && t.link.hold == s.link.hold
  {
  }

  /** Wherever a join may begin, it can succeed: answered throughout, its candidate given an address. */
  lemma JoinCanSucceed(s: State, c: Config)
    requires Enabled(s, Join(c))
    ensures exists t ::
              && Reaches(Next(s, Join(c)), t)
              && t.op == Idle && t.verdict == Ok && t.radio == Radio(c, c, Flash) && !t.link.hold
  {
    var s0 := Next(s, Join(c));
    assert s0.op == Isolating(c);
    hide Reaches, OpNext, Next, Enabled, Inside;
    ReachesSelf(s0);
    Began(s0, c);
    ReachesFour(s0, s0);
    var s1 := Four(s0);
    Tried(s1, c, s0.radio.ram);
    ReachesFour(s0, s1);
    var s2 := Four(s1);
    AddressArrives(s2);
    ReachesOn(s0, s2, GotIp);
    var s3 := Next(s2, GotIp);
    Saved(s3, c, s0.radio.ram);
    ReachesFour(s0, s3);
    ReachesNext(s0, Four(s3), OpNext(Four(s3), true, true), true, true);
  }

  /** So from boot, whatever the flash holds, acceptable credentials can be joined and saved. */
  lemma JoinSucceedsFromBoot(flash: Config, made: bool, now: nat, c: Config)
    requires Acceptable(c)
    ensures exists t ::
              && Reaches(Next(Boot(flash, made, now), Join(c)), t)
              && t.op == Idle && t.verdict == Ok && t.radio == Radio(c, c, Flash) && !t.link.hold
  {
    JoinCanSucceed(Boot(flash, made, now), c);
  }
}
