/**
 * From the RAM to the follower: what a reset leaves in the no-init RAM is something
 * the follower's device may retain.
 */
module LogSystem {
  import opened Bytes
  import opened LogSlot
  import LogText
  import opened LogRing
  import opened LogPages
  import M = LogMemory
  import T = LogTail
  import F = LogLife

  /** The log that the next boot serves as PREVIOUS. */
  function RecoveredLog(m: M.Memory, r: M.Recovery): (log: Log)
    requires M.Shape(m) && r.half < 2
    ensures LogOk(log)
  {
    LogOf(M.Slots(m.half[r.half]), r.id, r.latest)
  }

  /** After a crash at any moment, every line of the recovered log is a true one. */
  lemma RecoveredLogIsTrue(s: M.State, steps: seq<M.Step>)
    requires M.PoweredOn(s) && M.Trace(s, steps)
    ensures var e := M.Final(s, steps);
            && M.Shape(e.ram)
            && (M.Recover(e.ram).Some? ==>
                  M.Recover(e.ram).value.half < 2
                  && T.True(RecoveredLog(e.ram, M.Recover(e.ram).value), e.past.lines))
  {
    M.CrashSafety(s, steps);
    var e := M.Final(s, steps);
    if M.Recover(e.ram).Some? {
      var r := M.Recover(e.ram).value;
      var log := RecoveredLog(e.ram, r);
      forall n | n in log.readable
        ensures (r.id, n) in e.past.lines && e.past.lines[(r.id, n)] == log.readable[n]
      {
        assert M.Served(e.ram, r, n) == Some(log.readable[n]);
      }
    }
  }

  /**
   * A line served after the reset was readable before it, unless a newer line in
   * the same slot had been stored but not written back.
   */
  lemma NothingComesBack(s: M.State, n: nat)
    requires M.Inv(s) && M.Running(s) && M.Recover(s.ram).Some?
    requires n >= 1 && s.ram.half[M.Active(s)].slots[Index(n)] == s.view.half[M.Active(s)].slots[Index(n)]
    ensures var r := M.Recover(s.ram).value;
            && r.half == M.Active(s)
            && (n in RecoveredLog(s.ram, r).readable ==>
                  n in LogOf(M.Slots(s.view.half[M.Active(s)]), M.BootOf(s), s.latest).readable)
  {
    M.RunningRecovers(s);
    var r := M.Recover(s.ram).value;
    if n in RecoveredLog(s.ram, r).readable {
      var slot := s.view.half[M.Active(s)].slots[Index(n)];
      assert M.Slots(s.ram.half[M.Active(s)])[Index(n)] == M.AsSlot(slot);
      assert M.Slots(s.view.half[M.Active(s)])[Index(n)] == M.AsSlot(slot);
      assert M.Placed(slot, Index(n), M.BootOf(s), s.latest);
    }
  }

  /** The line just committed, once written back, heads what the next boot serves. */
  lemma LastWordsSurvive(s: M.State)
    requires M.Inv(s) && M.Running(s) && s.latest >= 1 && M.Durable(s, s.latest)
    ensures M.Recover(s.ram).Some? && (M.BootOf(s), s.latest) in s.past.lines
    ensures var log := RecoveredLog(s.ram, M.Recover(s.ram).value);
            && log.latest == s.latest && log.id == M.BootOf(s)
            && s.latest in log.readable && log.readable[s.latest] == s.past.lines[(M.BootOf(s), s.latest)]
  {
    M.DurableServed(s, s.latest);
  }

  // ---------------- the firmware is a device the follower may have ----------------

  /** What the running boot offers. */
  function CurrentLog(s: M.State): (log: Log)
    requires M.WellShaped(s) && M.Running(s)
    ensures LogOk(log)
  {
    LogOf(M.Slots(s.view.half[M.Active(s)]), M.BootOf(s), s.latest)
  }

  /**
   * The memory shows the follower's world: what was ever sealed, and the running log;
   * in the middle of a commit the world still stands at the line before.
   */
  ghost predicate Shows(s: M.State, w: T.World) {
    && M.Inv(s) && M.Running(s) && w.truth == s.past.lines && w.current.id == M.BootOf(s)
    && (s.phase.Idle? ==> w.current == CurrentLog(s))
    && (s.phase.Writing? ==>
          w.current.latest + 1 == s.latest && CurrentLog(s).readable == Older(w.current.readable, s.latest))
  }

  /** The lines still in range of a newer number. */
  function Older(readable: map<nat, Line>, latest: nat): map<nat, Line> {
    map k | k in readable && InRange(k, latest) :: readable[k]
  }

  /** A number's look-up reads its own slot only. */
  lemma LookupReads(a: M.Half, b: M.Half, boot: BootId, latest: nat, n: nat)
    requires |a.slots| == LINES && |b.slots| == LINES
    requires n >= 1 ==> a.slots[Index(n)] == b.slots[Index(n)]
    ensures Lookup(M.Slots(a), boot, latest, n) == Lookup(M.Slots(b), boot, latest, n)
  {
    if n >= 1 {
      assert M.Slots(a)[Index(n)] == M.AsSlot(a.slots[Index(n)]);
      assert M.Slots(b)[Index(n)] == M.AsSlot(b.slots[Index(n)]);
    }
  }

  /** A look-up under a newer number, for what is in range of both. */
  lemma LookupLater(slots: seq<Slot>, boot: BootId, latest: nat, n: nat)
    requires |slots| == LINES && n <= latest
    ensures Lookup(slots, boot, latest + 1, n)
         == if InRange(n, latest + 1) then Lookup(slots, boot, latest, n) else None
  {
  }

  /** Only the slot of the line in hand may differ between two views. */
  predicate OneSlotApart(s: M.State, t: M.State)
    requires M.WellShaped(s) && M.Running(s) && M.WellShaped(t) && M.Running(t)
  {
    && t.latest >= 1 && M.Active(t) == M.Active(s) && M.BootOf(t) == M.BootOf(s)
    && forall i :: 0 <= i < LINES && i != Index(t.latest) ==>
         t.view.half[M.Active(s)].slots[i] == s.view.half[M.Active(s)].slots[i]
  }

  /** Of such views the logs agree on every number but the one in hand. */
  lemma SameButNewest(s: M.State, t: M.State, n: nat)
    requires M.WellShaped(s) && M.Running(s) && M.WellShaped(t) && M.Running(t) && OneSlotApart(s, t)
    requires s.latest <= t.latest <= s.latest + 1 && 1 <= n < t.latest
    ensures (n in CurrentLog(t).readable <==> n in CurrentLog(s).readable && InRange(n, t.latest))
    ensures n in CurrentLog(t).readable ==> CurrentLog(t).readable[n] == CurrentLog(s).readable[n]
  {
    var a, b := s.view.half[M.Active(s)], t.view.half[M.Active(s)];
    ReadsBack(M.Slots(a), M.BootOf(s), s.latest, n);
    ReadsBack(M.Slots(b), M.BootOf(s), t.latest, n);
    if InRange(n, t.latest) {
      IndexInjective(n, t.latest);
      LookupReads(a, b, M.BootOf(s), t.latest, n);
    }
    if t.latest == s.latest + 1 {
      LookupLater(M.Slots(a), M.BootOf(s), s.latest, n);
    }
    hide LogOf, M.Slots;
  }

  lemma StoresOneSlot(s: M.State, step: M.Step)
    requires M.Inv(s) && M.Running(s) && M.Enabled(s, step)
    requires step.Begin? || step.Put? || step.SetUptime? || step.SetSeq? || step.SetCheck?
    ensures var t := M.Apply(s, step);
            && M.Inv(t) && M.Running(t) && OneSlotApart(s, t)
            && t.latest == (if step.Begin? then s.latest + 1 else s.latest)
            && (t.phase.Writing? <==> !step.SetCheck?)
            && (!step.SetCheck? ==> t.past == s.past)
  {
    M.StepKeeps(s, step);
  }

  /** Until its check is stored the line in hand cannot be read. */
  lemma UnsealedIsUnread(s: M.State)
    requires M.Inv(s) && s.phase.Writing?
    ensures s.latest !in CurrentLog(s).readable
  {
    var h := s.view.half[M.Active(s)];
    var slot := h.slots[Index(s.latest)];
    assert M.Slots(h)[Index(s.latest)] == M.AsSlot(slot);
    assert M.Known(slot.front.check, s.past.lines);
    ReadsBack(M.Slots(h), M.BootOf(s), s.latest, s.latest);
    hide LogOf, M.Slots;
  }

  lemma WithinRange(log: Log, n: nat)
    requires LogOk(log) && n in log.readable
    ensures 1 <= n <= log.latest
  {
  }

  /** A line of the log is what the world has under its number, and the other way round. */
  ghost predicate Agrees(log: Log, readable: map<nat, Line>, n: nat) {
    (n in log.readable <==> n in readable) && (n in readable ==> n in log.readable && log.readable[n] == readable[n])
  }

  lemma AllAgree(log: Log, readable: map<nat, Line>)
    requires forall n: nat :: Agrees(log, readable, n)
    ensures log.readable == readable
  {
    forall n: nat | n in log.readable ensures n in readable && log.readable[n] == readable[n] {
      assert Agrees(log, readable, n);
    }
    forall n: nat | n in readable ensures n in log.readable {
      assert Agrees(log, readable, n);
    }
  }

  /** The numbers below the one in hand, after any store of a commit. */
  lemma OlderAgree(s: M.State, t: M.State, w: T.World, n: nat)
    requires Shows(s, w) && M.WellShaped(t) && M.Running(t) && OneSlotApart(s, t)
    requires t.latest == if s.phase.Idle? then s.latest + 1 else s.latest
    requires n < t.latest
    ensures Agrees(CurrentLog(t), Older(w.current.readable, t.latest), n)
  {
    assert LogOk(CurrentLog(t)) && LogOk(CurrentLog(s));
    if n >= 1 {
      SameButNewest(s, t, n);
    } else if n in CurrentLog(s).readable {
      WithinRange(CurrentLog(s), n);
    }
    hide CurrentLog, M.Inv, OneSlotApart;
  }

  lemma NewerAbsent(s: M.State, w: T.World, latest: nat, n: nat)
    requires Shows(s, w) && latest == (if s.phase.Idle? then s.latest + 1 else s.latest) && n >= latest
    ensures n !in Older(w.current.readable, latest)
  {
    if n in Older(w.current.readable, latest) {
      if s.phase.Idle? {
        WithinRange(w.current, n);
      } else {
        assert n in CurrentLog(s).readable;
        WithinRange(CurrentLog(s), n);
        UnsealedIsUnread(s);
      }
    }
  }

  /** A store of a commit but its last leaves the world as it is. */
  lemma StoreShows(s: M.State, step: M.Step, w: T.World)
    requires Shows(s, w) && M.Enabled(s, step) && (step.Begin? || step.Put? || step.SetUptime? || step.SetSeq?)
    ensures Shows(M.Apply(s, step), w)
  {
    hide M.Inv, OneSlotApart, M.Apply, CurrentLog, Older, M.Shape, M.SlotShape, M.Current;
    var t := M.Apply(s, step);
    StoresOneSlot(s, step);
    UnsealedIsUnread(t);
    CurrentLatest(t);
    CurrentLatest(s);
    forall n: nat ensures Agrees(CurrentLog(t), Older(w.current.readable, t.latest), n) {
      if n < t.latest {
        OlderAgree(s, t, w, n);
      } else {
        NewerAbsent(s, w, t.latest, n);
        if n in CurrentLog(t).readable {
          WithinRange(CurrentLog(t), n);
        }
      }
    }
    AllAgree(CurrentLog(t), Older(w.current.readable, t.latest));
  }

  /** The text in the slot in hand. */
  function InHand(s: M.State): T.Message
    requires M.WellShaped(s) && s.phase.Writing? && s.phase.seqNo >= 1
  {
    T.Message(M.Current(s).front.uptime, LogText.Visible(M.AsSlot(M.Current(s)).text))
  }

  lemma SealedIsRead(s: M.State)
    requires M.Inv(s) && M.Enabled(s, M.SetCheck)
    ensures var t, m := M.Apply(s, M.SetCheck), InHand(s);
            && M.WellShaped(t) && M.Running(t) && s.latest in CurrentLog(t).readable
            && CurrentLog(t).readable[s.latest] == Line(s.latest, m.uptime, m.text)
            && t.past.lines == s.past.lines[(M.BootOf(s), s.latest) := Line(s.latest, m.uptime, m.text)]
  {
    M.CommitSeals(s);
    var t := M.Apply(s, M.SetCheck);
    var h := t.view.half[M.Active(t)];
    assert M.Slots(h)[Index(s.latest)] == M.AsSlot(h.slots[Index(s.latest)]);
    assert M.AsSlot(h.slots[Index(s.latest)]).text == M.AsSlot(M.Current(s)).text;
    ReadsBack(M.Slots(h), M.BootOf(t), t.latest, s.latest);
    hide LogOf, M.Slots, M.Inv;
  }

  lemma SealedLog(s: M.State, w: T.World)
    requires Shows(s, w) && M.Enabled(s, M.SetCheck)
    ensures var t, m := M.Apply(s, M.SetCheck), InHand(s);
            && M.WellShaped(t) && M.Running(t)
            && CurrentLog(t).readable
            == Older(w.current.readable, s.latest)[s.latest := Line(s.latest, m.uptime, m.text)]
  {
    hide M.Inv, OneSlotApart, M.Apply, InHand, CurrentLog, Older, M.Shape, M.SlotShape, M.Current;
    var t, m := M.Apply(s, M.SetCheck), InHand(s);
    StoresOneSlot(s, M.SetCheck);
    SealedIsRead(s);
    var readable := Older(w.current.readable, s.latest)[s.latest := Line(s.latest, m.uptime, m.text)];
    forall n: nat ensures Agrees(CurrentLog(t), readable, n) {
      if n < t.latest {
        OlderAgree(s, t, w, n);
      } else if n > t.latest {
        NewerAbsent(s, w, t.latest, n);
        CurrentLatest(t);
        if n in CurrentLog(t).readable {
          WithinRange(CurrentLog(t), n);
        }
      }
    }
    AllAgree(CurrentLog(t), readable);
  }

  lemma CurrentLatest(s: M.State)
    requires M.WellShaped(s) && M.Running(s)
    ensures CurrentLog(s).latest == s.latest && CurrentLog(s).id == M.BootOf(s)
  {
  }

  /** What the world's logging makes of the log. */
  lemma LoggedLog(w: T.World, m: T.Message)
    ensures var n := w.current.latest + 1;
            T.Logged(w, m) == w.(
              current := Log(w.current.id, n, Older(w.current.readable, n)[n := Line(n, m.uptime, m.text)]),
              truth := w.truth[(w.current.id, n) := Line(n, m.uptime, m.text)])
  {
  }

  /** The last store is the world's logging of the line. */
  lemma SealShows(s: M.State, w: T.World)
    requires Shows(s, w) && M.Enabled(s, M.SetCheck)
    ensures Shows(M.Apply(s, M.SetCheck), T.Logged(w, InHand(s)))
  {
    hide M.Inv, OneSlotApart, M.Apply, InHand, CurrentLog, Older, T.Logged, M.Shape, M.SlotShape, M.Current;
    var t := M.Apply(s, M.SetCheck);
    StoresOneSlot(s, M.SetCheck);
    SealedIsRead(s);
    SealedLog(s, w);
    LoggedLog(w, InHand(s));
    CurrentLatest(t);
  }

  lemma WriteBackShows(s: M.State, p: M.Place, w: T.World)
    requires Shows(s, w) && M.Enabled(s, M.WriteBack(p))
    ensures Shows(M.Apply(s, M.WriteBack(p)), w)
  {
    M.StepKeeps(s, M.WriteBack(p));
    hide M.Inv, M.CopyLine;
  }

  /** The world after a step of a running boot: only the last store of a commit logs a line. */
  function Seen(s: M.State, step: M.Step, w: T.World): T.World
    requires M.Enabled(s, step)
  {
    if step.SetCheck? && s.phase.Writing? && s.phase.seqNo >= 1 then T.Logged(w, InHand(s)) else w
  }

  /** Every step of a running boot is a step, or none, of the follower's device. */
  lemma RunningStepShows(s: M.State, step: M.Step, w: T.World)
    requires Shows(s, w) && M.Enabled(s, step) && !step.Reset? && !step.PowerCut?
    ensures Shows(M.Apply(s, step), Seen(s, step, w))
  {
    match step
    case SetCheck => SealShows(s, w);
    case WriteBack(p) => WriteBackShows(s, p, w);
    case Begin => StoreShows(s, step, w);
    case Put(_, _) => StoreShows(s, step, w);
    case SetUptime(_) => StoreShows(s, step, w);
    case SetSeq => StoreShows(s, step, w);
    case _ =>
  }

  /** What a reset at any moment leaves in RAM is something the device may retain. */
  lemma ResetMayReboot(s: M.State, w: T.World)
    requires Shows(s, w)
    ensures M.Recover(s.ram).Some?
    ensures var r := M.Recover(s.ram).value;
            r.half < 2 && T.MayRetain(w, Some(RecoveredLog(s.ram, r)))
  {
    M.RunningRecovers(s);
    var r := M.Recover(s.ram).value;
    var log := RecoveredLog(s.ram, r);
    M.ServedIsTrue(s.ram, r, s.past);
    forall n | n in log.readable
      ensures (r.id, n) in w.truth && w.truth[(r.id, n)] == log.readable[n]
    {
      assert M.Served(s.ram, r, n) == Some(log.readable[n]);
    }
    hide M.Inv;
  }

  /**
   * The next boot, come to run with an ID drawn in boot order, shows the world after
   * that reboot: nothing logged yet, and what it serves as PREVIOUS is what was retained.
   */
  lemma NextBootShows(s: M.State, w: T.World, t: M.State)
    requires Shows(s, w) && M.Inv(t) && t.phase.Idle? && t.latest == 0
    requires t.past.lines == s.past.lines && M.BootOf(t) == M.BootOf(s) + 1
    requires M.Recover(s.ram).Some? && t.prev == M.Recover(s.ram) && t.prev.value.half < 2
    requires forall n :: M.Served(t.view, t.prev.value, n) == M.Served(s.ram, t.prev.value, n)
    ensures var r := t.prev.value;
            && Shows(t, T.Rebooted(w, Some(RecoveredLog(s.ram, r))))
            && RecoveredLog(t.view, r) == RecoveredLog(s.ram, r)
  {
    var r := t.prev.value;
    var a, b := RecoveredLog(t.view, r), RecoveredLog(s.ram, r);
    forall n: nat ensures Agrees(a, b.readable, n) {
      if 1 <= n <= r.latest {
        assert M.Served(t.view, r, n) == M.Served(s.ram, r, n);
        ReadsBack(M.Slots(t.view.half[r.half]), r.id, r.latest, n);
        ReadsBack(M.Slots(s.ram.half[r.half]), r.id, r.latest, n);
      } else {
        if n in a.readable {
          WithinRange(a, n);
        }
        if n in b.readable {
          WithinRange(b, n);
        }
      }
    }
    AllAgree(a, b.readable);
    forall n: nat | n in CurrentLog(t).readable ensures false {
      WithinRange(CurrentLog(t), n);
    }
    assert CurrentLog(t).readable == map[];
    hide M.Inv, LogOf;
  }

  /** So a reset of the firmware, and the boot it leads to, is a reboot of the follower's device. */
  lemma ResetIsAReboot(s: M.State, w: T.World) returns (kept: Log, t: M.State)
    requires Shows(s, w) && M.BootOf(s) + 1 !in s.past.drawn
    ensures T.MayRetain(w, Some(kept)) && F.Leads(s, t) && Shows(t, T.Rebooted(w, Some(kept)))
    ensures t.prev.Some? && t.prev.value.half < 2 && RecoveredLog(t.view, t.prev.value) == kept
  {
    ResetMayReboot(s, w);
    F.LeadsSelf(s);
    kept := RecoveredLog(s.ram, M.Recover(s.ram).value);
    t := F.NextInitRecovers(s, s, M.BootOf(s) + 1);
    hide M.Inv, F.Leads;
    NextBootShows(s, w, t);
  }

  /** And the first boot after power-on is where the follower's runs start. */
  lemma FirstBootIsTheStart(s: M.State) returns (t: M.State)
    requires M.PoweredOn(s) && M.Inv(s)
    ensures F.Leads(s, t) && Shows(t, T.START.w)
  {
    F.LeadsSelf(s);
    t := F.EveryBootRuns(s, s, 0);
    CurrentLatest(t);
    hide M.Inv, F.Leads, M.Garbage, LogOf;
    forall n: nat | n in CurrentLog(t).readable ensures false {
      WithinRange(CurrentLog(t), n);
    }
    assert CurrentLog(t).readable == map[];
  }

  lemma ReadableOf(slots: seq<Slot>, id: BootId, lines: seq<Line>, k: nat)
    requires Represents(slots, id, lines)
    ensures k in LogOf(slots, id, |lines|).readable <==> 1 <= k && InRange(k, |lines|)
    ensures 1 <= k && InRange(k, |lines|) ==>
              k in LogOf(slots, id, |lines|).readable && LogOf(slots, id, |lines|).readable[k] == lines[k - 1]
  {
    RunningLog(slots, id, lines);
    hide LogOf, Represents;
  }

  lemma OlderAt(readable: map<nat, Line>, latest: nat, k: nat)
    ensures k in Older(readable, latest) <==> k in readable && InRange(k, latest)
    ensures k in Older(readable, latest) ==> Older(readable, latest)[k] == readable[k]
  {
  }

  /** A commit of the class that keeps the running half is a logging of the device too. */
  lemma CommitIsLogged(slots: seq<Slot>, next: seq<Slot>, id: BootId, lines: seq<Line>, m: T.Message, w: T.World)
    requires Represents(slots, id, lines) && w.current == LogOf(slots, id, |lines|)
    requires Represents(next, id, lines + [Line(|lines| + 1, m.uptime, m.text)])
    ensures T.Logged(w, m).current == LogOf(next, id, |lines| + 1)
  {
    var n := |lines| + 1;
    var line := Line(n, m.uptime, m.text);
    hide LogOf, Represents, T.Logged, Older;
    var readable := Older(w.current.readable, n)[n := line];
    forall k: nat ensures Agrees(LogOf(next, id, n), readable, k) {
      ReadableOf(slots, id, lines, k);
      ReadableOf(next, id, lines + [line], k);
      OlderAt(w.current.readable, n, k);
    }
    hide Agrees;
    AllAgree(LogOf(next, id, n), readable);
    LatestOf(next, id, n);
    LatestOf(slots, id, |lines|);
    LoggedLog(w, m);
  }

  lemma LatestOf(slots: seq<Slot>, id: BootId, latest: nat)
    requires |slots| == LINES
    ensures LogOf(slots, id, latest).latest == latest && LogOf(slots, id, latest).id == id
  {
  }
}
