/**
 * The life of a log line: initialisation always completes, any line can then be
 * committed and written back, and the boot after a reset serves it as PREVIOUS.
 * The runs are built from the very stores of main/log_ring.c, so the crash theorems
 * of LogMemory are about states that occur.
 */
module LogLife {
  import opened Bytes
  import LogText
  import opened LogSlot
  import opened LogRing
  import opened LogMemory

  /** Some steps lead from one state to the other. */
  ghost predicate Leads(s: State, t: State) {
    exists steps: seq<Step> :: Trace(s, steps) && Final(s, steps) == t
  }

  lemma LeadsSelf(s: State)
    ensures Leads(s, s)
  {
    hide Enabled, Apply;
    assert Trace(s, []) && Final(s, []) == s;
  }

  lemma {:induction false} TraceOn(s: State, steps: seq<Step>, step: Step)
    requires Trace(s, steps) && Enabled(Final(s, steps), step)
    ensures Trace(s, steps + [step]) && Final(s, steps + [step]) == Apply(Final(s, steps), step)
    decreases |steps|
  {
    hide Enabled, Apply;
    if steps == [] {
      assert [] + [step] == [step] && [step][0] == step && [step][1..] == [];
    } else {
      assert (steps + [step])[0] == steps[0] && (steps + [step])[1..] == steps[1..] + [step];
      TraceOn(Apply(s, steps[0]), steps[1..], step);
    }
  }

  lemma LeadsOn(s: State, t: State, step: Step)
    requires Leads(s, t) && Enabled(t, step)
    ensures Leads(s, Apply(t, step))
  {
    hide Enabled, Apply, Trace, Final;
    var steps: seq<Step> :| Trace(s, steps) && Final(s, steps) == t;
    TraceOn(s, steps, step);
  }

  // ---------------- initialisation completes ----------------

  /** Stores and flushes left until the boot runs. */
  function Remaining(p: Phase): nat {
    match p
    case Start => 12
    case ResetLayout => 11
    case ResetCount => 10
    case ResetActive => 9
    case FlipActive => 9
    case ClearMagic => 8
    case StoreCount => 7
    case StoreIdLow => 6
    case StoreIdHigh => 5
    case StoreMagic => 4
    case FlushRing => 3
    case FlushHalf => 2
    case _ => 0
  }

  function InitStep(s: State, id: BootId): Step {
    if s.phase == StoreIdLow || s.phase == StoreIdHigh then Draw(id) else Proceed
  }

  predicate Drawable(s: State, id: BootId) { Remaining(s.phase) >= 5 ==> id !in s.past.drawn }

  /** Once its ID is drawn, the boot bears it. */
  predicate Named(s: State, id: BootId)
    requires WellShaped(s)
  {
    s.phase.StoreMagic? || s.phase.FlushRing? || s.phase.FlushHalf? || s.phase.Idle? ==> BootOf(s) == id
  }

  lemma InitGoes(s: State, id: BootId)
    requires WellShaped(s) && !Running(s) && Drawable(s, id)
    ensures Enabled(s, InitStep(s, id))
    ensures var t := Apply(s, InitStep(s, id));
            && Remaining(t.phase) < Remaining(s.phase) && Drawable(t, id) && !t.phase.Writing?
            && (Remaining(t.phase) == 0 ==> t.phase == Idle && t.latest == 0)
            && (s.phase != Start ==> t.phase != Start && t.prev == s.prev)
            && t.past.lines == s.past.lines && t.past.drawn <= s.past.drawn + {id}
  {
    hide Trusted, Recover, WithHeader, Garbage, Shape;
  }

  lemma InitNames(s: State, id: BootId)
    requires Inv(s) && !Running(s) && Drawable(s, id) && Named(s, id)
    ensures Enabled(s, InitStep(s, id)) && Inv(Apply(s, InitStep(s, id))) && Named(Apply(s, InitStep(s, id)), id)
  {
    InitGoes(s, id);
    StepKeeps(s, InitStep(s, id));
  }

  /** The number of a boot that found `prev`, and the half it takes. */
  function NextCount(prev: Option<Recovery>): nat { if prev.Some? then prev.value.count + 1 else 1 }

  function NextHalf(prev: Option<Recovery>): int { if prev.Some? then 1 - prev.value.half else 0 }

  /** The boot under way counts one from the boot it found, in the other half; without one, it is the first. */
  predicate Numbered(s: State, prev: Option<Recovery>)
    requires WellShaped(s)
  {
    match s.phase
    case Start => true
    case FlipActive => prev.Some? && s.view.ring.count == NextCount(prev) && Active(s) == prev.value.half
    case ResetLayout => prev == None
    case ResetCount => prev == None
    case ResetActive => prev == None && s.view.ring.count == 1
    case _ => s.view.ring.count == NextCount(prev) && Active(s) == NextHalf(prev)
  }

  /** What initialisation keeps: PREVIOUS, the slots served of it, and the other half's header in RAM. */
  datatype Found = Found(prev: Option<Recovery>, slots: seq<Slot>, other: HalfHeader)

  predicate Keeps(s: State, f: Found) {
    && WellShaped(s) && s.phase != Start && s.prev == f.prev && 0 <= NextHalf(f.prev) < 2
    && (f.prev.Some? ==> f.prev.value.half < 2 && Slots(s.view.half[f.prev.value.half]) == f.slots)
    && s.ram.half[1 - NextHalf(f.prev)].header == f.other && Numbered(s, f.prev)
  }

  lemma InitStepKeeps(s: State, id: BootId, f: Found)
    requires Inv(s) && !Running(s) && Drawable(s, id) && Keeps(s, f)
    ensures Enabled(s, InitStep(s, id))
    ensures Inv(Apply(s, InitStep(s, id))) && Keeps(Apply(s, InitStep(s, id)), f)
  {
    InitGoes(s, id);
    StepKeeps(s, InitStep(s, id));
    InitStepNumbers(s, id, f);
    if f.prev.Some? {
      PreviousIsStable(s, InitStep(s, id));
    }
    hide Inv, Apply, Enabled, Slots, Numbered;
  }

  lemma InitStepNumbers(s: State, id: BootId, f: Found)
    requires Inv(s) && !Running(s) && Keeps(s, f) && Enabled(s, InitStep(s, id))
    ensures var t := Apply(s, InitStep(s, id));
            && WellShaped(t) && Numbered(t, f.prev)
            && t.ram.half[1 - NextHalf(f.prev)].header == s.ram.half[1 - NextHalf(f.prev)].header
  {
    StepKeeps(s, InitStep(s, id));
    hide SealsKnown, HeadersKnown, Committed, AllPlaced, KeysDrawn, PrevApart, Slots, SlotShape, Garbage;
  }

  /** From any point of initialisation on. */
  lemma {:induction false} InitFinishes(s0: State, s: State, id: BootId, f: Found)
    returns (t: State)
    requires Leads(s0, s) && Inv(s) && Drawable(s, id) && Named(s, id) && !s.phase.Writing? && Keeps(s, f)
    requires s.phase == Idle ==> s.latest == 0
    ensures Leads(s0, t) && Inv(t) && t.phase == Idle && t.latest == 0 && Keeps(t, f)
    ensures BootOf(t) == id && t.past.lines == s.past.lines && t.past.drawn <= s.past.drawn + {id}
    decreases Remaining(s.phase)
  {
    if s.phase == Idle {
      t := s;
    } else {
      InitGoes(s, id);
      InitNames(s, id);
      InitStepKeeps(s, id, f);
      LeadsOn(s0, s, InitStep(s, id));
      hide Leads, Keeps, Apply, Enabled, SealsKnown, HeadersKnown, Progress, PrevApart, Committed, AllPlaced;
      t := InitFinishes(s0, Apply(s, InitStep(s, id)), id, f);
    }
  }

  lemma FirstStore(s: State, id: BootId)
    requires Inv(s) && s.phase == Start && id !in s.past.drawn
    ensures Enabled(s, Proceed)
    ensures var t := Apply(s, Proceed);
            && Inv(t) && Drawable(t, id) && Named(t, id) && !t.phase.Writing? && t.phase != Idle && t.phase != Start
            && t.prev == Recover(s.view) && t.view.half == s.view.half && t.ram == s.ram && t.past == s.past
            && (t.prev.Some? ==> t.prev.value.half < 2) && Numbered(t, t.prev)
  {
    InitGoes(s, id);
    StepKeeps(s, Proceed);
    hide Inv;
  }

  /** The boot that runs has the number and half that follow from what it found, and left the other half's header. */
  predicate Follows(t: State, prev: Option<Recovery>, ram: Memory) {
    && WellShaped(t) && Shape(ram) && Active(t) < 2
    && Active(t) == NextHalf(prev) && t.view.ring.count == NextCount(prev)
    && t.view.half[Active(t)].header == t.ram.half[Active(t)].header
    && t.view.half[Active(t)].header.count == NextCount(prev) && t.ram.ring == t.view.ring
    && t.ram.half[1 - Active(t)].header == ram.half[1 - Active(t)].header
  }

  lemma KeptFollows(t: State, f: Found, ram: Memory)
    requires Inv(t) && t.phase == Idle && Keeps(t, f) && Shape(ram)
    requires f.other == ram.half[1 - NextHalf(f.prev)].header
    ensures Follows(t, f.prev, ram)
  {
    hide SealsKnown, HeadersKnown, Committed, AllPlaced, KeysDrawn, PrevApart, Slots, SlotShape;
  }

  /**
   * Wherever a boot starts, it comes to run under its ID, serving as PREVIOUS what it
   * found and counting one from it, in the other half; 1, in the first half, if nothing.
   */
  lemma EveryBootRuns(s0: State, s: State, id: BootId) returns (t: State)
    requires Leads(s0, s) && Inv(s) && s.phase == Start && id !in s.past.drawn
    ensures Leads(s0, t) && Inv(t) && t.phase == Idle && t.latest == 0 && t.prev == Recover(s.view)
    ensures BootOf(t) == id && t.past.lines == s.past.lines && t.past.drawn <= s.past.drawn + {id}
    ensures Follows(t, Recover(s.view), s.ram)
    ensures t.prev.Some? ==>
              && t.prev.value.half < 2 && Shape(s.view) && Shape(t.view)
              && forall n :: Served(t.view, t.prev.value, n) == Served(s.view, t.prev.value, n)
  {
    FirstStore(s, id);
    LeadsOn(s0, s, Proceed);
    var u := Apply(s, Proceed);
    assert Shape(s.view) && Shape(s.ram) && WellShaped(u);
    var slots := if u.prev.Some? then Slots(u.view.half[u.prev.value.half]) else [];
    var f := Found(u.prev, slots, s.ram.half[1 - NextHalf(u.prev)].header);
    hide Inv, Leads, Apply, Enabled, Slots;
    t := InitFinishes(s0, u, id, f);
    KeptFollows(t, f, s.ram);
    hide Follows;
  }

  // ---------------- a commit completes ----------------

  /** Nothing but the slot of `n` in the running half differs. */
  predicate OthersStay(s: State, t: State, n: nat)
    requires n >= 1
  {
    && Shape(s.view) && Shape(t.view) && t.view.ring == s.view.ring && t.ram == s.ram
    && (forall h :: 0 <= h < 2 ==> t.view.half[h].header == s.view.half[h].header)
    && (forall h, i :: 0 <= h < 2 && 0 <= i < LINES && (h != s.view.ring.active || i != Index(n)) ==>
          t.view.half[h].slots[i] == s.view.half[h].slots[i])
  }

  lemma OthersStayOn(s: State, t: State, u: State, n: nat)
    requires n >= 1 && OthersStay(s, t, n) && OthersStay(t, u, n)
    ensures OthersStay(s, u, n)
  {
    hide Shape, Index;
  }

  lemma StoreTouchesOne(s: State, step: Step)
    requires Inv(s) && Enabled(s, step) && (step.Begin? || s.phase.Writing?)
    requires !step.WriteBack? && !step.Reset? && !step.PowerCut?
    ensures Apply(s, step).latest >= 1 && OthersStay(s, Apply(s, step), Apply(s, step).latest)
  {
    StepKeeps(s, step);
  }

  /** In the middle of storing a text, `k` octets of it in place. */
  predicate Filling(s: State, text: seq<byte>, k: nat)
    requires k <= |text| <= LogText.TEXT_BYTES
  {
    && WellShaped(s) && s.phase.Writing? && s.phase.stage == Stage.Filling
    && |AsSlot(Current(s)).text| == LogText.TEXT_BYTES && AsSlot(Current(s)).text[..k] == text[..k]
  }

  lemma PutGoes(s: State, text: seq<byte>, k: nat)
    requires k < |text| <= LogText.TEXT_BYTES && Filling(s, text, k)
    ensures Enabled(s, Put(k, text[k]))
    ensures var t := Apply(s, Put(k, text[k]));
            Filling(t, text, k + 1) && t.latest == s.latest && t.past == s.past && t.phase == s.phase
            && Active(t) == Active(s) && BootOf(t) == BootOf(s)
  {
    var t := Apply(s, Put(k, text[k]));
    var before, after := AsSlot(Current(s)).text, AsSlot(Current(t)).text;
    assert after == before[k := text[k]];
    assert after[..k + 1] == before[..k] + [text[k]];
    assert text[..k + 1] == text[..k] + [text[k]];
  }

  /** The commit under way, whatever is left of it. */
  predicate Same(s: State, t: State) {
    && WellShaped(s) && WellShaped(t) && Running(s) && Running(t)
    && t.latest == s.latest >= 1 && t.past == s.past && t.phase == s.phase && BootOf(t) == BootOf(s)
    && OthersStay(s, t, s.latest)
  }

  lemma SameOn(s: State, t: State, u: State)
    requires Same(s, t) && Same(t, u)
    ensures Same(s, u)
  {
    OthersStayOn(s, t, u, s.latest);
    hide OthersStay, WellShaped;
  }

  lemma SameSelf(s: State)
    requires WellShaped(s) && Running(s) && s.latest >= 1
    ensures Same(s, s)
  {
  }

  lemma {:induction false} TextIsStored(s0: State, s: State, text: seq<byte>, k: nat) returns (t: State)
    requires k <= |text| <= LogText.TEXT_BYTES && Leads(s0, s) && Inv(s) && Filling(s, text, k) && s.latest >= 1
    ensures Leads(s0, t) && Inv(t) && Filling(t, text, |text|) && Same(s, t)
    decreases |text| - k
  {
    if k == |text| {
      t := s;
      SameSelf(s);
    } else {
      PutGoes(s, text, k);
      StepKeeps(s, Put(k, text[k]));
      LeadsOn(s0, s, Put(k, text[k]));
      StoreTouchesOne(s, Put(k, text[k]));
      var u := Apply(s, Put(k, text[k]));
      hide Inv, Leads, Filling, Apply, Enabled, OthersStay;
      assert Same(s, u);
      t := TextIsStored(s0, u, text, k + 1);
      SameOn(s, u, t);
    }
  }

  lemma BeginGoes(s: State, text: seq<byte>)
    requires Inv(s) && s.phase == Idle && |text| <= LogText.TEXT_BYTES
    ensures Enabled(s, Begin)
    ensures var t := Apply(s, Begin);
            && Inv(t) && Filling(t, text, 0) && t.latest == s.latest + 1 && t.past == s.past && BootOf(t) == BootOf(s)
  {
    StepKeeps(s, Begin);
    var t := Apply(s, Begin);
    assert SlotShape(Current(t));
    hide Inv;
  }

  /** Sealing: the uptime, the number and the check. */
  lemma SealGoes(s: State, text: seq<byte>, uptime: nat)
    requires Inv(s) && |text| <= LogText.CAP && 0 !in text && Filling(s, text + [0], |text| + 1)
    ensures Enabled(s, SetUptime(uptime))
    ensures var a := Apply(s, SetUptime(uptime));
            && Enabled(a, SetSeq)
            && var b := Apply(a, SetSeq);
            && Enabled(b, SetCheck)
            && Inv(b) && b.latest == s.latest && b.past == s.past && BootOf(b) == BootOf(s)
            && Current(b).front.uptime == uptime && LogText.Visible(AsSlot(Current(b)).text) == text
  {
    var slot := AsSlot(Current(s));
    var full := text + [0];
    assert slot.text[..|full|] == full;
    assert slot.text[|text|] == full[|text|] == 0;
    assert slot.text == full + slot.text[|full|..];
    VisiblePrefix(text, slot.text[|full|..]);
    StepKeeps(s, SetUptime(uptime));
    var a := Apply(s, SetUptime(uptime));
    assert AsSlot(Current(a)).text == slot.text && Current(a).front.uptime == uptime;
    hide Inv, LogText.Visible;
    SeqGoes(a, uptime);
  }

  lemma SeqGoes(a: State, uptime: nat)
    requires Inv(a) && WellShaped(a) && a.phase.Writing? && a.phase.stage == UptimeStored
    requires Current(a).front.uptime == uptime
    ensures Enabled(a, SetSeq)
    ensures var b := Apply(a, SetSeq);
            && Enabled(b, SetCheck) && Inv(b) && b.latest == a.latest && b.past == a.past && BootOf(b) == BootOf(a)
            && Current(b).front.uptime == uptime && AsSlot(Current(b)).text == AsSlot(Current(a)).text
  {
    StepKeeps(a, SetSeq);
    hide Inv;
  }

  /** From the last octet of the text on: sealed. */
  lemma TextIsSealed(s0: State, s: State, text: seq<byte>, uptime: nat) returns (t: State)
    requires Leads(s0, s) && Inv(s) && |text| <= LogText.CAP && 0 !in text && s.latest >= 1
    requires Filling(s, text + [0], |text| + 1)
    ensures Leads(s0, t) && Inv(t) && t.phase == Idle && t.latest == s.latest && BootOf(t) == BootOf(s)
    ensures Sealed(t, t.latest) && OthersStay(s, t, s.latest)
    ensures t.past == s.past.(lines := s.past.lines[(BootOf(s), t.latest) := Line(t.latest, uptime, text)])
  {
    SealGoes(s, text, uptime);
    LeadsOn(s0, s, SetUptime(uptime));
    StoreTouchesOne(s, SetUptime(uptime));
    StepKeeps(s, SetUptime(uptime));
    var a := Apply(s, SetUptime(uptime));
    assert a.latest == s.latest && a.phase.Writing?;
    LeadsOn(s0, a, SetSeq);
    StoreTouchesOne(a, SetSeq);
    var b := Apply(a, SetSeq);
    assert b.phase.Writing?;
    LeadsOn(s0, b, SetCheck);
    StoreTouchesOne(b, SetCheck);
    CheckGoes(b, text, uptime);
    t := Apply(b, SetCheck);
    hide Inv, Apply, Enabled, Filling, OthersStay, Sealed, Leads;
    OthersStayOn(s, a, b, s.latest);
    OthersStayOn(s, b, t, s.latest);
  }

  lemma CheckGoes(s: State, text: seq<byte>, uptime: nat)
    requires Inv(s) && Enabled(s, SetCheck) && s.latest >= 1
    requires Current(s).front.uptime == uptime && LogText.Visible(AsSlot(Current(s)).text) == text
    ensures var t := Apply(s, SetCheck);
            && Inv(t) && t.phase == Idle && t.latest == s.latest && BootOf(t) == BootOf(s) && Sealed(t, s.latest)
            && t.past == s.past.(lines := s.past.lines[(BootOf(s), s.latest) := Line(s.latest, uptime, text)])
  {
    CommitSeals(s);
    hide Inv, Sealed;
  }

  /** A running boot can commit any line, every other slot of both halves untouched. */
  lemma AnyLineCommits(s0: State, s: State, text: seq<byte>, uptime: nat) returns (t: State)
    requires Leads(s0, s) && Inv(s) && s.phase == Idle && |text| <= LogText.CAP && 0 !in text
    ensures Leads(s0, t) && Inv(t) && t.phase == Idle && t.latest == s.latest + 1 && BootOf(t) == BootOf(s)
    ensures Sealed(t, t.latest) && OthersStay(s, t, t.latest)
    ensures t.past == s.past.(lines := s.past.lines[(BootOf(s), t.latest) := Line(t.latest, uptime, text)])
  {
    BeginGoes(s, text + [0]);
    LeadsOn(s0, s, Begin);
    StoreTouchesOne(s, Begin);
    var a := Apply(s, Begin);
    hide Inv, Apply, Enabled, Filling, OthersStay, Sealed, Leads;
    var b := TextIsStored(s0, a, text + [0], 0);
    t := TextIsSealed(s0, b, text, uptime);
    OthersStayOn(s, a, b, a.latest);
    OthersStayOn(s, b, t, a.latest);
  }

  // ---------------- and outlives a reset ----------------

  lemma PushGoes(s: State, part: Part)
    requires Inv(s) && s.phase == Idle && s.latest >= 1 && Sealed(s, s.latest)
    ensures var step := WriteBack(PartPlace(s, s.latest, part));
            && Enabled(s, step)
            && var t := Apply(s, step);
            && Inv(t) && t.phase == Idle && t.latest == s.latest && t.past == s.past && BootOf(t) == BootOf(s)
            && Sealed(t, s.latest) && Pushed(t, s.latest, part)
            && forall other :: Pushed(s, s.latest, other) ==> Pushed(t, s.latest, other)
  {
    var step := WriteBack(PartPlace(s, s.latest, part));
    assert Enabled(s, step);
    WriteBackPushes(s, s.latest, part);
    SealedKept(s, step, s.latest, part);
    var t := Apply(s, step);
    assert t.phase == s.phase && t.latest == s.latest && t.past == s.past;
    forall other | Pushed(s, s.latest, other) ensures Pushed(t, s.latest, other) {
      SealedKept(s, step, s.latest, other);
    }
  }

  /** A write-back of a slot's line leaves every view and every other slot of RAM. */
  predicate RamOthersStay(s: State, t: State, n: nat)
    requires n >= 1
  {
    && t.view == s.view && Shape(s.ram) && Shape(t.ram)
    && forall h, i :: 0 <= h < 2 && 0 <= i < LINES && (h != s.view.ring.active || i != Index(n)) ==>
         t.ram.half[h].slots[i] == s.ram.half[h].slots[i]
  }

  lemma PushTouchesOne(s: State, part: Part)
    requires Inv(s) && s.phase == Idle && s.latest >= 1
    ensures var step := WriteBack(PartPlace(s, s.latest, part));
            Enabled(s, step) && RamOthersStay(s, Apply(s, step), s.latest)
  {
    StepKeeps(s, WriteBack(PartPlace(s, s.latest, part)));
  }

  lemma RamOthersStayOn(s: State, t: State, u: State, n: nat)
    requires n >= 1 && RamOthersStay(s, t, n) && RamOthersStay(t, u, n)
    ensures RamOthersStay(s, u, n)
  {
    hide Shape, Index;
  }

  /** write_back of the newest line, which touches nothing else. */
  lemma NewestIsWrittenBack(s0: State, s: State) returns (t: State)
    requires Leads(s0, s) && Inv(s) && s.phase == Idle && s.latest >= 1 && Sealed(s, s.latest)
    ensures Leads(s0, t) && Inv(t) && t.phase == Idle
    ensures t.latest == s.latest && t.past == s.past && BootOf(t) == BootOf(s)
    ensures Durable(t, t.latest) && RamOthersStay(s, t, s.latest)
  {
    hide Inv, Leads, Sealed, Pushed, Enabled, Apply, RamOthersStay;
    PushGoes(s, InFront);
    PushTouchesOne(s, InFront);
    LeadsOn(s0, s, WriteBack(PartPlace(s, s.latest, InFront)));
    var a := Apply(s, WriteBack(PartPlace(s, s.latest, InFront)));
    PushGoes(a, InMiddle);
    PushTouchesOne(a, InMiddle);
    LeadsOn(s0, a, WriteBack(PartPlace(a, a.latest, InMiddle)));
    var b := Apply(a, WriteBack(PartPlace(a, a.latest, InMiddle)));
    PushGoes(b, InBack);
    PushTouchesOne(b, InBack);
    LeadsOn(s0, b, WriteBack(PartPlace(b, b.latest, InBack)));
    t := Apply(b, WriteBack(PartPlace(b, b.latest, InBack)));
    RamOthersStayOn(s, a, b, s.latest);
    RamOthersStayOn(s, b, t, s.latest);
    forall part: Part ensures Pushed(t, t.latest, part) {
      match part case InFront => case InMiddle => case InBack =>
    }
  }

  lemma ResetGoes(s: State)
    requires Inv(s)
    ensures Enabled(s, Reset)
    ensures var t := Apply(s, Reset);
            Inv(t) && t.phase == Start && t.view == s.ram && t.ram == s.ram && t.past == s.past
  {
    StepKeeps(s, Reset);
  }

  /** A reset at any moment, and the next boot comes to run on exactly what a reset recovers. */
  lemma NextInitRecovers(s0: State, s: State, id: BootId) returns (t: State)
    requires Leads(s0, s) && Inv(s) && id !in s.past.drawn
    ensures Leads(s0, t) && Inv(t) && t.phase == Idle && t.latest == 0 && t.prev == Recover(s.ram)
    ensures BootOf(t) == id && t.past.lines == s.past.lines && Follows(t, Recover(s.ram), s.ram)
    ensures t.prev.Some? ==>
              && t.prev.value.half < 2 && Shape(s.ram) && Shape(t.view)
              && forall n :: Served(t.view, t.prev.value, n) == Served(s.ram, t.prev.value, n)
  {
    hide Inv, Leads, Enabled, Apply, Served, Recover, Follows;
    ResetGoes(s);
    LeadsOn(s0, s, Reset);
    t := EveryBootRuns(s0, Apply(s, Reset), id);
  }

  /**
   * The whole life: a running boot logs any cleaned text and writes it back; a reset
   * strikes; the next boot runs and serves, as PREVIOUS, that line under its number.
   */
  lemma LineOutlivesReset(s: State, text: seq<byte>, uptime: nat, id: BootId) returns (t: State)
    requires Inv(s) && s.phase == Idle && |text| <= LogText.CAP && 0 !in text && id !in s.past.drawn
    ensures Leads(s, t) && Inv(t) && t.phase == Idle && t.prev.Some?
    ensures var r := t.prev.value;
            && r.id == BootOf(s) && r.half < 2 && r.latest == s.latest + 1
            && Served(t.view, r, r.latest) == Some(Line(r.latest, uptime, text))
  {
    var n := s.latest + 1;
    LeadsSelf(s);
    hide Inv, Leads, Enabled, Apply, Served, Recover, Sealed, Durable;
    var a := AnyLineCommits(s, s, text, uptime);
    var b := NewestIsWrittenBack(s, a);
    DurableServed(b, n);
    t := NextInitRecovers(s, b, id);
  }

  /** Memory at power-on exists, and the machine there satisfies its invariant. */
  lemma PowerOnHappens()
    ensures exists s :: PoweredOn(s) && Inv(s)
  {
    var slot := SlotLines(Front(0, 0, Noise(0), Zeros(FRONT_TEXT)), Zeros(LINE_TEXT), Zeros(LINE_TEXT));
    var half := Half(HalfHeader(0, 0, 0), seq(LINES, _ => slot));
    var m := Memory(RingHeader(0, 0, 0, 0), [half, half]);
    var s := State(m, m, Start, None, 0, History({}, {}, map[]));
    assert PoweredOn(s) && Inv(s);
  }

  function Zeros(n: nat): seq<byte> { seq(n, _ => 0) }
}
