/**
 * The memory of the log and its follower in one run: every store, write-back, reset and
 * power cut of LogMemory, initialisation included, with polls while a boot is running.
 * An initialisation that is cut short is a boot of its own; a boot that draws an ID
 * draws its number among the boots.
 */
module LogFirmware {
  import opened Bytes
  import opened LogSlot
  import opened LogPages
  import opened LogSystem
  import M = LogMemory
  import T = LogTail
  import F = LogLife

  /** The log a memory would have recovered. */
  function Retained(m: M.Memory): Option<Log>
    requires M.Shape(m)
  {
    match M.Recover(m)
    case None => None
    case Some(r) => Some(RecoveredLog(m, r))
  }

  /** What the boot under way serves, or is about to serve, as PREVIOUS. */
  function Serving(s: M.State): Option<Log>
    requires M.Shape(s.view)
  {
    if s.phase == M.Start then Retained(s.view)
    else match s.prev
      case None => None
      case Some(r) => if r.half < 2 then Some(RecoveredLog(s.view, r)) else None
  }

  predicate Undrawn(p: M.Phase) { F.Remaining(p) >= 5 }

  /** The boot's number is stored as its ID. */
  predicate Bears(s: M.State) { M.Running(s) || 2 <= F.Remaining(s.phase) < 5 }

  predicate DrawnUpTo(s: M.State, boot: BootId) {
    forall id :: id in s.past.drawn ==> id < boot || (id == boot && !Undrawn(s.phase))
  }

  /** The memory and the world its follower sees. */
  ghost predicate Agree(s: M.State, w: T.World) {
    && M.Inv(s) && w.truth == s.past.lines && w.previous == Serving(s) && DrawnUpTo(s, w.current.id)
    && (!M.Running(s) ==> w.current == Log(w.current.id, 0, map[]))
    && (Bears(s) ==> M.BootOf(s) == w.current.id)
    && (M.Running(s) ==> Shows(s, w))
  }

  /** IDs are drawn in boot order. */
  predicate InOrder(s: M.State, step: M.Step, w: T.World) {
    step.Draw? && s.phase == M.StoreIdHigh ==> step.id == w.current.id
  }

  /** What a step is to the follower's device. */
  function Followed(s: M.State, step: M.Step, w: T.World): T.World
    requires M.Enabled(s, step)
  {
    if step.Reset? then T.Rebooted(w, Retained(s.ram))
    else if step.PowerCut? then T.Rebooted(w, None)
    else Seen(s, step, w)
  }

  // ---------------- each step ----------------

  /** The half served as PREVIOUS does not change, so neither does its log. */
  lemma ServingStays(s: M.State, step: M.Step)
    requires M.Inv(s) && M.Enabled(s, step) && !step.Reset? && !step.PowerCut? && s.phase != M.Start
    ensures M.Shape(M.Apply(s, step).view) && Serving(M.Apply(s, step)) == Serving(s)
  {
    M.StepKeeps(s, step);
    PrevStays(s, step);
    if s.prev.Some? {
      M.PreviousIsStable(s, step);
    }
    hide M.Inv, M.Apply, LogOf;
  }

  lemma PrevStays(s: M.State, step: M.Step)
    requires M.Enabled(s, step) && !step.Reset? && !step.PowerCut? && s.phase != M.Start
    ensures M.Apply(s, step).prev == s.prev && M.Apply(s, step).phase != M.Start
  {
    hide M.WithHeader, M.WithSlot, M.CopyLine, M.PutText, M.Shape;
  }

  lemma FirstStoreServes(s: M.State)
    requires M.Inv(s) && s.phase == M.Start
    ensures M.Enabled(s, M.Proceed)
    ensures M.Shape(M.Apply(s, M.Proceed).view) && Serving(M.Apply(s, M.Proceed)) == Serving(s)
  {
    var t := M.Apply(s, M.Proceed);
    M.StepKeeps(s, M.Proceed);
    assert t.prev == M.Recover(s.view) && t.view.half == s.view.half && t.phase != M.Start;
    hide M.Inv, LogOf;
  }

  lemma WriteBackServes(s: M.State, step: M.Step)
    requires M.Inv(s) && M.Enabled(s, step) && step.WriteBack?
    ensures M.Apply(s, step).view == s.view && Serving(M.Apply(s, step)) == Serving(s)
  {
    hide M.CopyLine, M.Inv;
  }

  /** What initialisation does to the IDs drawn and the ID borne. */
  lemma InitIds(s: M.State, step: M.Step, boot: BootId)
    requires M.Inv(s) && M.Enabled(s, step) && !M.Running(s) && (step.Proceed? || step.Draw? || step.WriteBack?)
    requires DrawnUpTo(s, boot) && (Bears(s) ==> M.BootOf(s) == boot)
    requires step.Draw? && s.phase == M.StoreIdHigh ==> step.id == boot
    ensures var t := M.Apply(s, step);
            && M.Inv(t) && DrawnUpTo(t, boot) && (Bears(t) ==> M.BootOf(t) == boot)
            && t.past.lines == s.past.lines && !t.phase.Writing? && (t.phase.Idle? ==> t.latest == 0)
  {
    M.StepKeeps(s, step);
    if step.WriteBack? {
      WriteBackServes(s, step);
    }
    hide M.SealsKnown, M.HeadersKnown, M.KeysDrawn, M.PrevApart, M.Committed, M.AllPlaced;
  }

  lemma EmptyLog(s: M.State)
    requires M.WellShaped(s) && s.phase.Idle? && s.latest == 0
    ensures CurrentLog(s) == Log(M.BootOf(s), 0, map[])
  {
    CurrentLatest(s);
    hide LogOf;
    forall n: nat | n in CurrentLog(s).readable ensures false {
      WithinRange(CurrentLog(s), n);
    }
    assert CurrentLog(s).readable == map[];
  }

  lemma InitAgrees(s: M.State, step: M.Step, w: T.World)
    requires Agree(s, w) && M.Enabled(s, step) && !M.Running(s) && (step.Proceed? || step.Draw? || step.WriteBack?)
    requires InOrder(s, step, w)
    ensures Agree(M.Apply(s, step), w)
  {
    var t := M.Apply(s, step);
    InitIds(s, step, w.current.id);
    if step.WriteBack? {
      WriteBackServes(s, step);
    } else if s.phase == M.Start {
      FirstStoreServes(s);
    } else {
      ServingStays(s, step);
    }
    hide M.Inv, M.Apply, Serving, DrawnUpTo, CurrentLog;
    if t.phase.Idle? {
      EmptyLog(t);
    }
  }

  lemma RunningIds(s: M.State, step: M.Step)
    requires M.Inv(s) && M.Enabled(s, step) && M.Running(s) && !step.Reset? && !step.PowerCut?
    ensures var t := M.Apply(s, step);
            M.Inv(t) && M.Running(t) && t.past.drawn == s.past.drawn && M.BootOf(t) == M.BootOf(s)
  {
    M.StepKeeps(s, step);
    hide M.SealsKnown, M.HeadersKnown, M.KeysDrawn, M.PrevApart, M.Progress, M.Committed, M.AllPlaced;
  }

  lemma ShownTruth(s: M.State, w: T.World)
    requires Shows(s, w)
    ensures M.Inv(s) && M.Running(s) && w.truth == s.past.lines && w.current.id == M.BootOf(s)
  {
  }

  lemma SeenStays(s: M.State, step: M.Step, w: T.World)
    requires M.Enabled(s, step)
    ensures Seen(s, step, w).previous == w.previous && Seen(s, step, w).current.id == w.current.id
  {
    hide InHand;
  }

  lemma RunningAgrees(s: M.State, step: M.Step, w: T.World)
    requires Agree(s, w) && M.Enabled(s, step) && M.Running(s) && !step.Reset? && !step.PowerCut?
    ensures Agree(M.Apply(s, step), Followed(s, step, w))
  {
    hide M.Inv, M.Apply, Serving, CurrentLog, InHand, Shows, Seen;
    RunningIds(s, step);
    RunningStepShows(s, step, w);
    ServingStays(s, step);
    SeenStays(s, step, w);
    ShownTruth(M.Apply(s, step), Seen(s, step, w));
  }

  /** A log recovered from RAM is of a boot so far, and true. */
  lemma RetainedIsTrue(s: M.State, w: T.World)
    requires Agree(s, w)
    ensures T.MayRetain(w, Retained(s.ram))
  {
    if M.Recover(s.ram).Some? {
      var r := M.Recover(s.ram).value;
      assert M.HeaderKnown(s.ram.half[r.half].header, s.past);
      assert r.id in s.past.drawn;
      M.ServedIsTrue(s.ram, r, s.past);
      var log := RecoveredLog(s.ram, r);
      forall n | n in log.readable
        ensures (r.id, n) in w.truth && w.truth[(r.id, n)] == log.readable[n]
      {
        assert M.Served(s.ram, r, n) == Some(log.readable[n]);
      }
    }
  }

  lemma LossAgrees(s: M.State, step: M.Step, w: T.World)
    requires Agree(s, w) && M.Enabled(s, step) && (step.Reset? || step.PowerCut?)
    ensures Agree(M.Apply(s, step), Followed(s, step, w))
  {
    M.StepKeeps(s, step);
    hide M.Inv, LogOf, M.Slots;
  }

  /** Every step of the memory is a step, or none, of the follower's device. */
  lemma StepAgrees(s: M.State, step: M.Step, w: T.World)
    requires Agree(s, w) && M.Enabled(s, step) && InOrder(s, step, w)
    ensures Agree(M.Apply(s, step), Followed(s, step, w))
  {
    if step.Reset? || step.PowerCut? {
      LossAgrees(s, step, w);
    } else if M.Running(s) {
      RunningAgrees(s, step, w);
    } else {
      InitAgrees(s, step, w);
    }
  }

  // ---------------- the run ----------------

  datatype Happening = Store(step: M.Step) | Poll(answers: seq<bool>)

  /** The memory, the world its boots make up, and the follower. */
  datatype System = System(s: M.State, w: T.World, t: T.Follower)

  function Quiet(answers: seq<bool>): seq<T.Weather> {
    seq(|answers|, i requires 0 <= i < |answers| => T.Weather([], answers[i]))
  }

  predicate Possible(c: System, h: Happening) {
    match h
    case Store(step) => M.Enabled(c.s, step) && InOrder(c.s, step, c.w)
    case Poll(_) => c.s.phase.Idle? && T.WorldOk(c.w)
  }

  ghost function Happened(c: System, h: Happening): System
    requires Possible(c, h)
  {
    match h
    case Store(step) => System(M.Apply(c.s, step), Followed(c.s, step, c.w), c.t)
    case Poll(answers) => var o := T.Polled(c.w, c.t, Quiet(answers)); System(c.s, o.w, o.t)
  }

  ghost predicate Run(c: System, hs: seq<Happening>)
    decreases |hs|
  {
    hs == [] || (Possible(c, hs[0]) && Run(Happened(c, hs[0]), hs[1..]))
  }

  ghost function End(c: System, hs: seq<Happening>): System
    requires Run(c, hs)
    decreases |hs|
  {
    if hs == [] then c else End(Happened(c, hs[0]), hs[1..])
  }

  predicate Silent(env: seq<T.Weather>) { forall e :: e in env ==> e.logged == [] }

  lemma SilentArrival(w: T.World, env: seq<T.Weather>)
    requires Silent(env)
    ensures T.Arrived(w, env) == w && Silent(T.Later(env))
  {
  }

  lemma {:induction false} SilentDrain(w: T.World, t: T.Follower, which: T.Which, env: seq<T.Weather>)
    requires T.WorldOk(w) && Silent(env)
    ensures var o := T.Drained(w, t, which, env); o.w == w && Silent(o.env)
    decreases |env|, T.Remaining(w, which, t.cursor)
  {
    T.DrainedStep(w, t, which, env);
    T.DrainedNearer(w, t, which, env);
    SilentArrival(w, env);
    hide T.WorldOk, T.Drained, T.Fetched, T.AfterPage, T.WantsMore, T.Arrived;
    if T.Next(env).answered && T.Fetched(w, which, t.cursor).Some? {
      var r := T.Fetched(w, which, t.cursor).value;
      if T.WantsMore(T.Adopted(t, r), r) {
        SilentDrain(w, T.AfterPage(T.Adopted(t, r), r), which, T.Later(env));
      }
    }
  }

  lemma SilentBridge(w: T.World, t: T.Follower, env: seq<T.Weather>)
    requires T.WorldOk(w) && t.boot.Some? && Silent(env)
    ensures var o := T.Bridged(w, t, env); o.w == w && Silent(o.env)
  {
    SilentArrival(w, env);
    hide T.WorldOk, T.Drained, T.Arrived, T.WantsMore;
    if w.previous.Some? {
      var r := T.Fetched(w, T.Previous, t.cursor).value;
      SilentDrain(w, T.Consumed(t, r), T.Previous, T.Later(env));
    }
  }

  lemma SilentPoll(w: T.World, t: T.Follower, env: seq<T.Weather>)
    requires T.WorldOk(w) && Silent(env)
    ensures T.Polled(w, t, env).w == w
  {
    SilentArrival(w, env);
    hide T.WorldOk, T.Drained, T.Bridged, T.Arrived, T.WantsMore;
    if t.boot.Some? && w.current.id != t.boot.value {
      SilentBridge(w, t, T.Later(env));
      var b := T.Bridged(w, t, T.Later(env));
      SilentDrain(w, T.Restarted(b.t, w.current.id), T.Current, b.env);
    } else {
      var t1 := t.(boot := Some(w.current.id));
      var r := T.Fetched(w, T.Current, if t.boot.Some? then t.cursor else 0).value;
      SilentDrain(w, T.Consumed(t1, r), T.Current, T.Later(env));
    }
  }

  lemma StoreIsGood(c: System, step: M.Step)
    requires Agree(c.s, c.w) && T.Good(c.w, c.t) && M.Enabled(c.s, step)
    ensures T.Good(Followed(c.s, step, c.w), c.t)
  {
    var before := T.Config(c.w, c.t);
    if step.Reset? {
      RetainedIsTrue(c.s, c.w);
      hide Agree, T.Good, T.MayRetain, T.Rebooted;
      T.EventKeeps(before, T.Reboot(Retained(c.s.ram)));
    } else if step.PowerCut? {
      hide Agree, T.Good, T.Rebooted;
      T.EventKeeps(before, T.Reboot(None));
    } else {
      hide Agree, T.Good, InHand, T.Logged;
      if step.SetCheck? && c.s.phase.Writing? && c.s.phase.seqNo >= 1 {
        T.EventKeeps(before, T.Logs(InHand(c.s)));
      }
    }
  }

  lemma HappeningKeeps(c: System, h: Happening)
    requires Agree(c.s, c.w) && T.Good(c.w, c.t) && Possible(c, h)
    ensures var d := Happened(c, h); Agree(d.s, d.w) && T.Good(d.w, d.t)
  {
    match h
    case Store(step) =>
      hide Agree, T.Good, Followed;
      StepAgrees(c.s, step, c.w);
      StoreIsGood(c, step);
    case Poll(answers) =>
      hide Agree, T.Good, T.Polled;
      SilentPoll(c.w, c.t, Quiet(answers));
      assert T.PollOk(c.w, c.t, T.Polled(c.w, c.t, Quiet(answers))) by {
        T.PollKeeps(c.w, c.t, Quiet(answers));
      }
  }

  lemma {:induction false} RunKeeps(c: System, hs: seq<Happening>)
    requires Agree(c.s, c.w) && T.Good(c.w, c.t) && Run(c, hs)
    ensures var e := End(c, hs); Agree(e.s, e.w) && T.Good(e.w, e.t)
    decreases |hs|
  {
    if hs != [] {
      HappeningKeeps(c, hs[0]);
      hide Agree, T.Good, Happened, Possible;
      RunKeeps(Happened(c, hs[0]), hs[1..]);
    }
  }

  lemma PowerOnAgrees(s: M.State)
    requires M.PoweredOn(s)
    ensures Agree(s, T.START.w) && T.Good(T.START.w, T.START.t)
  {
    T.StartIsGood();
  }

  /**
   * Every run of the firmware's log and its follower from power-on: the follower always
   * sees the two logs the memory serves; and what it has written is, in order and
   * without repetition, lines that boots sealed in memory under those numbers, and of a
   * boot never retained with a torn line makes up the cursor with what it reported.
   */
  lemma FirmwareIsFollowed(s: M.State, hs: seq<Happening>)
    requires M.PoweredOn(s) && Run(System(s, T.START.w, T.START.t), hs)
    ensures var e := End(System(s, T.START.w, T.START.t), hs);
            && M.WellShaped(e.s) && e.w.previous == Serving(e.s)
            && (e.s.phase.Idle? ==> e.w.current == CurrentLog(e.s))
            && (forall i, j :: 0 <= i < j < |e.t.out| ==> T.Before(e.t.out[i], e.t.out[j]))
            && (e.t.boot.Some? && e.t.boot.value !in e.w.torn ==>
                  T.Count(e.t.out, e.t.boot.value) + T.Reported(e.t.notes, e.t.boot.value) == e.t.cursor)
            && (forall x :: x in e.t.out ==>
                  (x.boot, x.line.seqNo) in e.s.past.lines && e.s.past.lines[(x.boot, x.line.seqNo)] == x.line)
  {
    PowerOnAgrees(s);
    RunKeeps(System(s, T.START.w, T.START.t), hs);
    hide M.Inv, Serving, CurrentLog;
  }
}
