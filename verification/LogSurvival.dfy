/**
 * What a reset must bring back (main/log_ring.c:160-195, 321-369): every line that
 * lies whole in RAM, among the last 1024 up to the recovered latest, and no other of
 * that slot. The running boot may have gone further, and may be writing over it.
 */
module LogSurvival {
  import opened Bytes
  import LogText
  import opened LogSlot
  import opened LogMemory

  /** Line `n` of a boot lies whole in its slot of a half. */
  predicate Whole(h: Half, boot: BootId, n: nat)
    requires |h.slots| == LINES
  {
    n >= 1 && h.slots[Index(n)].front.seqNo == n && SlotValid(AsSlot(h.slots[Index(n)]), boot)
  }

  /**
   * In whatever state the memory was left: a line whole in the recovered half counts
   * towards the recovered latest, and is served, with the text that was sealed,
   * exactly when it is among the last 1024 up to it.
   */
  lemma WholeIsServed(m: Memory, past: History, n: nat)
    requires Shape(m) && SealsKnown(m, past) && Recover(m).Some?
    requires var r := Recover(m).value; Whole(m.half[r.half], r.id, n)
    ensures var r := Recover(m).value;
            && n <= r.latest && (r.id, n) in past.lines
            && Served(m, r, n) == if r.latest < n + LINES then Some(past.lines[(r.id, n)]) else None
  {
    var r := Recover(m).value;
    var h := m.half[r.half];
    assert Slots(h)[Index(n)] == AsSlot(h.slots[Index(n)]);
    assert Known(h.slots[Index(n)].front.check, past.lines);
  }

  /** And nothing else of that half is: what is served lies whole in its slot. */
  lemma OnlyWholeIsServed(m: Memory, n: nat)
    requires Shape(m) && Recover(m).Some?
    ensures var r := Recover(m).value;
            Served(m, r, n).Some? <==> Whole(m.half[r.half], r.id, n) && n <= r.latest < n + LINES
  {
    var h := m.half[Recover(m).value.half];
    if n >= 1 {
      assert Slots(h)[Index(n)] == AsSlot(h.slots[Index(n)]);
    }
  }

  /** Line `n` of the running boot lies whole in RAM. */
  predicate Intact(s: State, n: nat)
    requires WellShaped(s) && Running(s)
  {
    (BootOf(s), n) in s.past.lines && Whole(s.ram.half[Active(s)], BootOf(s), n)
  }

  lemma IntactServed(s: State, n: nat)
    requires Inv(s) && Running(s) && Intact(s, n)
    ensures Recover(s.ram).Some?
    ensures var r := Recover(s.ram).value;
            && r.id == BootOf(s) && r.half == Active(s) && n <= r.latest <= s.latest
            && Served(s.ram, r, n) == if r.latest < n + LINES then Some(s.past.lines[(BootOf(s), n)]) else None
  {
    RunningRecovers(s);
    WholeIsServed(s.ram, s.past, n);
  }

  lemma DurableIsIntact(s: State, n: nat)
    requires Inv(s) && Running(s) && Durable(s, n)
    ensures Intact(s, n)
  {
    DurableServed(s, n);
    assert Pushed(s, n, InFront) && Pushed(s, n, InMiddle) && Pushed(s, n, InBack);
  }

  /** The write-backs that reach the slot of a number. */
  predicate Reaches(s: State, step: Step, n: nat)
    requires WellShaped(s) && Running(s) && n >= 1
  {
    step.WriteBack? && !step.p.RingLine? && !step.p.HeaderLine? && step.p.h == Active(s) && step.p.i == Index(n)
  }

  /** Between losses, only a write-back of its slot can take a line out of RAM. */
  lemma IntactKept(s: State, step: Step, n: nat)
    requires Inv(s) && Running(s) && Intact(s, n) && Enabled(s, step)
    requires !step.Reset? && !step.PowerCut? && !Reaches(s, step, n)
    ensures var t := Apply(s, step);
            && Inv(t) && Running(t) && Intact(t, n) && BootOf(t) == BootOf(s)
            && t.past.lines[(BootOf(s), n)] == s.past.lines[(BootOf(s), n)]
  {
    StepKeeps(s, step);
    LinesStay(s, step, n);
    SlotStays(s, step, n);
    hide Inv, Apply, SlotValid;
  }

  lemma SlotStays(s: State, step: Step, n: nat)
    requires Inv(s) && Running(s) && Enabled(s, step) && !step.Reset? && !step.PowerCut?
    requires n >= 1 && !Reaches(s, step, n)
    ensures Shape(Apply(s, step).ram)
    ensures Apply(s, step).ram.half[Active(s)].slots[Index(n)] == s.ram.half[Active(s)].slots[Index(n)]
  {
    StepKeeps(s, step);
  }

  // ---------------- over a whole run ----------------

  /** From some point on: durable, or at least whole in RAM once the ring has come round. */
  predicate Flushed(s: State, n: nat)
    requires WellShaped(s) && Running(s)
  {
    if s.latest < n + LINES then Durable(s, n) else Intact(s, n)
  }

  /** No loss, and once the ring has come round no write-back of the slot of `n`. */
  ghost predicate Undisturbed(s: State, steps: seq<Step>, n: nat)
    requires n >= 1
    decreases |steps|
  {
    steps == [] ||
    (WellShaped(s) && Running(s) && Enabled(s, steps[0]) && !steps[0].Reset? && !steps[0].PowerCut?
     && (s.latest >= n + LINES ==> !Reaches(s, steps[0], n))
     && Undisturbed(Apply(s, steps[0]), steps[1..], n))
  }

  lemma FlushedIsIntact(s: State, n: nat)
    requires Inv(s) && Running(s) && Flushed(s, n)
    ensures Intact(s, n)
  {
    if s.latest < n + LINES {
      DurableIsIntact(s, n);
    }
  }

  lemma RoundIsBegin(s: State, step: Step, n: nat)
    requires Inv(s) && Running(s) && Enabled(s, step) && !step.Reset? && !step.PowerCut?
    requires s.latest < n + LINES <= Apply(s, step).latest
    ensures step.Begin?
  {
    hide WithHeader, WithSlot, CopyLine, PutText;
  }

  lemma InsideTheWindow(s: State, step: Step, n: nat)
    requires Inv(s) && Running(s) && Durable(s, n) && Enabled(s, step) && !step.Reset? && !step.PowerCut?
    requires Apply(s, step).latest < n + LINES
    ensures WellShaped(Apply(s, step)) && Running(Apply(s, step)) && Durable(Apply(s, step), n)
  {
    SealedKept(s, step, n, InFront);
    SealedKept(s, step, n, InMiddle);
    SealedKept(s, step, n, InBack);
    hide Inv, Apply, Enabled, Sealed, Pushed;
    forall part: Part ensures Pushed(Apply(s, step), n, part) {
      match part case InFront => case InMiddle => case InBack =>
    }
  }

  lemma FlushedKept(s: State, step: Step, n: nat)
    requires Inv(s) && Running(s) && Flushed(s, n) && Enabled(s, step) && !step.Reset? && !step.PowerCut?
    requires s.latest >= n + LINES ==> n >= 1 && !Reaches(s, step, n)
    ensures var t := Apply(s, step);
            && Inv(t) && Running(t) && Flushed(t, n) && BootOf(t) == BootOf(s)
            && (BootOf(s), n) in s.past.lines && (BootOf(s), n) in t.past.lines
            && t.past.lines[(BootOf(s), n)] == s.past.lines[(BootOf(s), n)]
  {
    var t := Apply(s, step);
    StepKeeps(s, step);
    FlushedIsIntact(s, n);
    LinesStay(s, step, n);
    if t.latest < n + LINES {
      if s.latest < n + LINES {
        InsideTheWindow(s, step, n);
      } else {
        LatestStays(s, step);
      }
    } else {
      if s.latest < n + LINES {
        RoundIsBegin(s, step, n);
      }
      IntactKept(s, step, n);
    }
    hide Inv, Apply, Enabled, Durable, Intact;
  }

  lemma LatestStays(s: State, step: Step)
    requires WellShaped(s) && Running(s) && Enabled(s, step) && !step.Reset? && !step.PowerCut?
    ensures s.latest <= Apply(s, step).latest
  {
    hide WithHeader, WithSlot, CopyLine, PutText;
  }

  /**
   * A line once written back outlives whatever its boot does next, as long as its slot
   * is not written back after the ring has come round to it: a reset at the end of any
   * such run recovers that boot, and serves the line exactly while it is among the last
   * 1024 up to the recovered latest, however far the boot itself had gone.
   */
  lemma {:induction false} WrittenBackSurvives(s: State, n: nat, steps: seq<Step>)
    requires Inv(s) && Running(s) && Flushed(s, n) && n >= 1
    requires Trace(s, steps) && Undisturbed(s, steps, n)
    ensures (BootOf(s), n) in s.past.lines
    ensures var e := Final(s, steps);
            && Shape(e.ram) && Recover(e.ram).Some?
            && var r := Recover(e.ram).value;
            && r.id == BootOf(s) && n <= r.latest
            && Served(e.ram, r, n) == if r.latest < n + LINES then Some(s.past.lines[(BootOf(s), n)]) else None
    decreases |steps|
  {
    FlushedIsIntact(s, n);
    if steps == [] {
      IntactServed(s, n);
    } else {
      FlushedKept(s, steps[0], n);
      hide Inv, Apply, Enabled, Flushed, Intact, Served, Recover, Reaches;
      WrittenBackSurvives(Apply(s, steps[0]), n, steps[1..]);
    }
  }

  /** Short of coming round nothing disturbs it: an earlier crash always brings the line back. */
  lemma {:induction false} NothingDisturbsBefore(s: State, n: nat, steps: seq<Step>)
    requires Inv(s) && Running(s) && n >= 1 && Trace(s, steps)
    requires forall i :: 0 <= i < |steps| ==> !steps[i].Reset? && !steps[i].PowerCut?
    requires Final(s, steps).latest < n + LINES
    ensures s.latest < n + LINES && Undisturbed(s, steps, n) && Final(s, steps).latest >= s.latest
    decreases |steps|
  {
    if steps != [] {
      LatestStays(s, steps[0]);
      RunningStays(s, steps[0]);
      hide Inv, Apply, Enabled, Reaches;
      NothingDisturbsBefore(Apply(s, steps[0]), n, steps[1..]);
    }
  }

  lemma RunningStays(s: State, step: Step)
    requires Inv(s) && Running(s) && Enabled(s, step) && !step.Reset? && !step.PowerCut?
    ensures Inv(Apply(s, step)) && Running(Apply(s, step))
  {
    StepKeeps(s, step);
  }
}
