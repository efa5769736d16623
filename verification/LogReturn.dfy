/**
 * How an overwritten line comes back, store by store: the first 1024 lines are committed
 * and written back, the next overwrites the first, and a reset strikes before any of its
 * slot reaches RAM. What is recovered is the log of LogDelivery.AReturnedLineIsLost.
 */
module LogReturn {
  import opened Bytes
  import LogText
  import opened LogSlot
  import opened LogPages
  import opened LogMemory
  import opened LogLife
  import opened LogSystem
  import LogSurvival
  import T = LogTail
  import D = LogDelivery

  /** The message cleaned: the text of every line. */
  predicate Clean(m: T.Message) { |m.text| <= LogText.CAP && 0 !in m.text }

  predicate Stands(s: State, n: nat, m: T.Message)
    requires WellShaped(s) && Running(s)
  {
    && Durable(s, n) && (BootOf(s), n) in s.past.lines
    && s.past.lines[(BootOf(s), n)] == Line(n, m.uptime, m.text)
  }

  /** The first `k` lines are logged and durable. */
  predicate Filled(s: State, k: nat, m: T.Message) {
    && WellShaped(s) && s.phase == Idle && s.latest == k && BootOf(s) == 0
    && forall n :: 1 <= n <= k ==> Stands(s, n, m)
  }

  /** What a commit or write-back of line `k` leaves of another line's slot. */
  predicate SlotsStay(s: State, t: State, k: nat)
    requires k >= 1 && WellShaped(s) && Running(s) && WellShaped(t) && Running(t)
  {
    && Active(t) == Active(s) && BootOf(t) == BootOf(s)
    && forall i :: 0 <= i < LINES && i != Index(k) ==>
         && t.view.half[Active(s)].slots[i] == s.view.half[Active(s)].slots[i]
         && t.ram.half[Active(s)].slots[i] == s.ram.half[Active(s)].slots[i]
  }

  lemma DurableStays(s: State, t: State, k: nat, n: nat)
    requires k >= 1 && WellShaped(s) && Running(s) && WellShaped(t) && Running(t) && SlotsStay(s, t, k)
    requires Durable(s, n) && Index(n) != Index(k)
    ensures Durable(t, n)
  {
    forall part: Part ensures Pushed(t, n, part) {
      assert Pushed(s, n, part);
    }
  }

  lemma OthersStaySlots(s: State, t: State, k: nat)
    requires k >= 1 && Inv(s) && Running(s) && Inv(t) && Running(t) && OthersStay(s, t, k)
    ensures SlotsStay(s, t, k)
  {
  }

  lemma RamStaySlots(s: State, t: State, k: nat)
    requires k >= 1 && Inv(s) && Running(s) && Inv(t) && Running(t) && BootOf(t) == BootOf(s) && RamOthersStay(s, t, k)
    ensures SlotsStay(s, t, k)
  {
  }

  /** One more line committed and written back. */
  lemma FillOne(s0: State, s: State, k: nat, m: T.Message) returns (t: State)
    requires Leads(s0, s) && Inv(s) && Filled(s, k, m) && k < LINES && Clean(m)
    ensures Leads(s0, t) && Inv(t) && Filled(t, k + 1, m)
  {
    hide Inv, Leads, Durable, Sealed, OthersStay, RamOthersStay, SlotsStay;
    var c := AnyLineCommits(s0, s, m.text, m.uptime);
    assert WellShaped(c) by { InvShapes(c); }
    OthersStaySlots(s, c, k + 1);
    t := NewestIsWrittenBack(s0, c);
    assert WellShaped(t) by { InvShapes(t); }
    RamStaySlots(c, t, k + 1);
    forall n | 1 <= n <= k + 1 ensures Stands(t, n, m) {
      if n <= k {
        assert Stands(s, n, m);
        IndexInjective(n, k + 1);
        DurableStays(s, c, k + 1, n);
        DurableStays(c, t, k + 1, n);
      }
    }
  }

  lemma InvShapes(s: State)
    requires Inv(s)
    ensures WellShaped(s)
  {
  }

  lemma {:induction false} Fill(s0: State, s: State, k: nat, m: T.Message) returns (t: State)
    requires Leads(s0, s) && Inv(s) && Filled(s, k, m) && k <= LINES && Clean(m)
    ensures Leads(s0, t) && Inv(t) && Filled(t, LINES, m)
    decreases LINES - k
  {
    if k == LINES {
      t := s;
    } else {
      hide Inv, Leads, Filled;
      var u := FillOne(s0, s, k, m);
      t := Fill(s0, u, k + 1, m);
    }
  }

  lemma FilledLatest(s: State, m: T.Message)
    requires Inv(s) && Filled(s, LINES, m)
    ensures Recover(s.ram).Some?
    ensures var r := Recover(s.ram).value; r.half < 2 && r.id == 0 && r.latest == LINES
  {
    assert Stands(s, LINES, m);
    LogSurvival.DurableIsIntact(s, LINES);
    LogSurvival.IntactServed(s, LINES);
  }

  /** With every slot holding its line whole, the log a reset recovers is those lines. */
  lemma FilledIsRecovered(s: State, m: T.Message)
    requires Inv(s) && Filled(s, LINES, m)
    ensures Recover(s.ram).Some?
    ensures var r := Recover(s.ram).value; r.half < 2 && RecoveredLog(s.ram, r) == D.Returned(m)
  {
    FilledLatest(s, m);
    assert Shape(s.ram);
    hide Inv, LogOf, Filled, Recover, Shape, Slots;
    var r := Recover(s.ram).value;
    var log := RecoveredLog(s.ram, r);
    LatestOf(Slots(s.ram.half[r.half]), r.id, r.latest);
    forall n: nat ensures Agrees(log, D.Returned(m).readable, n) {
      if 1 <= n <= LINES {
        LineRecovered(s, s.ram, n, m);
      } else if n in log.readable {
        WithinRange(log, n);
      }
    }
    AllAgree(log, D.Returned(m).readable);
  }

  lemma LineRecovered(s: State, ram: Memory, n: nat, m: T.Message)
    requires Inv(s) && Filled(s, LINES, m) && ram == s.ram && Recover(ram).Some? && 1 <= n <= LINES
    requires Recover(ram).value.latest == LINES && Recover(ram).value.half < 2
    ensures var log := RecoveredLog(ram, Recover(ram).value);
            n in log.readable && log.readable[n] == Line(n, m.uptime, m.text)
  {
    var r := Recover(ram).value;
    assert Stands(s, n, m);
    LogSurvival.DurableIsIntact(s, n);
    LogSurvival.IntactServed(s, n);
    ReadsBack(Slots(ram.half[r.half]), r.id, r.latest, n);
    hide Inv, LogOf;
  }

  /**
   * From power-on: a running boot reaches 1025 lines, the first of them overwritten, and a
   * reset at that moment recovers lines 1 to 1024.
   */
  lemma FirstLineComesBack(s: State, m: T.Message) returns (t: State)
    requires PoweredOn(s) && Inv(s) && Clean(m)
    ensures Leads(s, t) && Inv(t) && t.phase == Idle && t.latest == D.FULL
    ensures 1 !in CurrentLog(t).readable
    ensures Recover(t.ram).Some?
    ensures var r := Recover(t.ram).value; r.half < 2 && RecoveredLog(t.ram, r) == D.Returned(m)
  {
    LeadsSelf(s);
    var a := EveryBootRuns(s, s, 0);
    InvShapes(a);
    hide Inv, Leads, Filled, PoweredOn, OthersStay, Sealed;
    assert Filled(a, 0, m) by { FilledStarts(a, m); }
    var b := Fill(s, a, 0, m);
    FilledIsRecovered(b, m);
    FilledIdles(b, m);
    t := AnyLineCommits(s, b, m.text, m.uptime);
    InvShapes(t);
    CurrentLatest(t);
    assert t.ram == b.ram by { RamStays(b, t, t.latest); }
    assert LogOk(CurrentLog(t)) && !InRange(1, D.FULL);
  }

  lemma FilledStarts(s: State, m: T.Message)
    requires WellShaped(s) && s.phase == Idle && s.latest == 0 && BootOf(s) == 0
    ensures Filled(s, 0, m)
  {
  }

  lemma FilledIdles(s: State, m: T.Message)
    requires Filled(s, LINES, m)
    ensures s.phase == Idle && s.latest == LINES
  {
  }

  lemma RamStays(s: State, t: State, n: nat)
    requires n >= 1 && OthersStay(s, t, n)
    ensures t.ram == s.ram
  {
  }
}
