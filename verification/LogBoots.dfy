/**
 * Which boot a reset recovers (`log_ring_init`, main/log_ring.c): over every run, the
 * one that came to run last or a later one, unless the counter was restarted since it
 * stored its header.
 */
module LogBoots {
  import opened Bytes
  import opened LogSlot
  import opened LogMemory
  import opened LogLife

  // ---------------- the ledger of boots ----------------

  /** A header stored whole: how many were before it, under which counter, and its count. */
  datatype Mark = Mark(at: nat, era: nat, count: nat)

  /** Every header stored whole, how often the counter was restarted, and the boot that came to run last. */
  datatype Ledger = Ledger(stored: map<BootId, Mark>, era: nat, last: Option<BootId>)

  const BLANK := Ledger(map[], 0, None)

  function Restarted(l: Ledger): Ledger { l.(era := l.era + 1) }

  function Stored(l: Ledger, id: BootId, count: nat): Ledger {
    l.(stored := l.stored[id := Mark(|l.stored|, l.era, count)])
  }

  function Ran(l: Ledger, id: BootId): Ledger { l.(last := Some(id)) }

  /** A power cut, and an init that does not trust what it finds, restart the counter. */
  function Ledgered(l: Ledger, s: State, step: Step): Ledger
    requires Enabled(s, step)
  {
    if step.PowerCut? || (step.Proceed? && s.phase == Start && !Trusted(s.view)) then Restarted(l)
    else if step.Proceed? && s.phase == StoreMagic then Stored(l, BootOf(s), s.view.ring.count)
    else if step.Proceed? && s.phase == FlushHalf then Ran(l, BootOf(s))
    else l
  }

  function LedgerOf(l: Ledger, s: State, steps: seq<Step>): Ledger
    requires Trace(s, steps)
    decreases steps
  {
    if steps == [] then l else LedgerOf(Ledgered(l, s, steps[0]), Apply(s, steps[0]), steps[1..])
  }

  // ---------------- the headers alone ----------------

  datatype Heads = Heads(ring: RingHeader, low: HalfHeader, high: HalfHeader)

  datatype Sketch = Sketch(view: Heads, ram: Heads, phase: Phase, drawn: set<BootId>)

  function HeadsOf(m: Memory): Heads
    requires Shape(m)
  {
    Heads(m.ring, m.half[0].header, m.half[1].header)
  }

  function SketchOf(s: State): Sketch
    requires WellShaped(s)
  {
    Sketch(HeadsOf(s.view), HeadsOf(s.ram), s.phase, s.past.drawn)
  }

  function At(v: Heads, h: nat): HalfHeader { if h == 0 then v.low else v.high }

  function WithAt(v: Heads, h: nat, header: HalfHeader): Heads {
    if h == 0 then v.(low := header) else v.(high := header)
  }

  /** The header of the half in use. */
  function Own(k: Sketch): HalfHeader { At(k.view, k.view.ring.active) }

  function WithOwn(k: Sketch, header: HalfHeader, phase: Phase): Sketch {
    k.(view := WithAt(k.view, k.view.ring.active, header), phase := phase)
  }

  function WithRing(k: Sketch, ring: RingHeader, phase: Phase): Sketch {
    k.(view := k.view.(ring := ring), phase := phase)
  }

  predicate TrustedHeads(v: Heads) {
    && v.ring.magic == RING_MAGIC && v.ring.layout == LAYOUT && v.ring.active < 2
    && At(v, v.ring.active).magic == HALF_MAGIC && At(v, v.ring.active).count == v.ring.count
  }

  predicate Runs(p: Phase) { p.Idle? || p.Writing? }

  /** Init on the headers. */
  function Initialized(k: Sketch): Sketch {
    var r := k.view.ring;
    match k.phase
    case Start =>
      if TrustedHeads(k.view) then WithRing(k, r.(count := r.count + 1), FlipActive)
      else WithRing(k, r.(magic := RING_MAGIC), ResetLayout)
    case FlipActive => WithRing(k, r.(active := if r.active <= 1 then 1 - r.active else 0), ClearMagic)
    case ResetLayout => WithRing(k, r.(layout := LAYOUT), ResetCount)
    case ResetCount => WithRing(k, r.(count := 1), ResetActive)
    case ResetActive => WithRing(k, r.(active := 0), ClearMagic)
    case ClearMagic => WithOwn(k, Own(k).(magic := 0), StoreCount)
    case StoreCount => WithOwn(k, Own(k).(count := r.count), StoreIdLow)
    case StoreMagic => WithOwn(k, Own(k).(magic := HALF_MAGIC), FlushRing)
    case FlushRing => k.(ram := k.ram.(ring := r), phase := FlushHalf)
    case FlushHalf => k.(ram := WithAt(k.ram, r.active, Own(k)), phase := Idle)
    case _ => k
  }

  lemma RingStoreSketch(s: State)
    requires Enabled(s, Proceed)
    requires s.phase in {Start, FlipActive, ResetLayout, ResetCount, ResetActive, FlushRing}
    ensures WellShaped(Initialize(s)) && SketchOf(Initialize(s)) == Initialized(SketchOf(s))
  {
    hide Recover, SlotShape;
  }

  lemma HeaderStoreSketch(s: State)
    requires Enabled(s, Proceed) && s.phase in {ClearMagic, StoreCount, StoreMagic, FlushHalf}
    ensures WellShaped(Initialize(s)) && SketchOf(Initialize(s)) == Initialized(SketchOf(s))
  {
    hide SlotShape;
  }

  lemma DrawSketch(s: State, id: BootId)
    requires Enabled(s, Draw(id))
    ensures var t := Apply(s, Draw(id)); var k := SketchOf(s);
            && WellShaped(t)
            && SketchOf(t) ==
               if s.phase == StoreIdLow then WithOwn(k, Own(k).(id := id), StoreIdHigh)
               else WithOwn(k, Own(k).(id := id), StoreMagic).(drawn := k.drawn + {id})
  {
    hide SlotShape;
  }

  predicate OneLineBack(k: Sketch, k': Sketch) {
    || k' == k
    || k' == k.(ram := k.ram.(ring := k.view.ring))
    || k' == k.(ram := k.ram.(low := k.view.low))
    || k' == k.(ram := k.ram.(high := k.view.high))
  }

  lemma WriteBackSketch(s: State, p: Place)
    requires Enabled(s, WriteBack(p)) && Inv(s)
    ensures var t := Apply(s, WriteBack(p)); WellShaped(t) && OneLineBack(SketchOf(s), SketchOf(t))
  {
    StepKeeps(s, WriteBack(p));
    hide Inv, SlotShape;
  }

  lemma CommitSketch(s: State, step: Step)
    requires Inv(s) && Enabled(s, step) && Stores(step)
    ensures var t := Apply(s, step);
            WellShaped(t) && Runs(t.phase) && Runs(s.phase) && SketchOf(t) == SketchOf(s).(phase := t.phase)
  {
    StepKeeps(s, step);
    hide SealsKnown, HeadersKnown, KeysDrawn, PrevApart, Progress, AllPlaced, Committed, SlotShape;
  }

  lemma TrustedSketch(m: Memory)
    requires Shape(m)
    ensures Trusted(m) <==> TrustedHeads(HeadsOf(m))
  {
  }

  // ---------------- what every step keeps ----------------

  /** How far init has come, as LogMemory.Progress has it of the headers. */
  predicate Sound(k: Sketch) {
    match k.phase
    case Start => k.view == k.ram
    case FlipActive => k.view.ring.active < 2
    case ClearMagic => k.view.ring.active < 2
    case _ =>
      Restarting(k.phase) ||
        (&& k.view.ring.active < 2
         && (k.phase in {StoreCount, StoreIdLow, StoreIdHigh, StoreMagic} ==> Own(k).magic == 0)
         && (k.phase != StoreCount ==> Own(k).count == k.view.ring.count)
         && (k.phase == FlushHalf || Runs(k.phase) ==> k.ram.ring == k.view.ring))
  }

  predicate Restarting(p: Phase) { p.ResetLayout? || p.ResetCount? || p.ResetActive? }

  /** Later headers are of the same counter or a later one, and no two were stored at the same time. */
  predicate Ordered(l: Ledger) {
    && (forall x :: x in l.stored ==> l.stored[x].at < |l.stored| && l.stored[x].era <= l.era)
    && (forall x, y :: x in l.stored && y in l.stored ==> Agree(l.stored[x], l.stored[y], x == y))
  }

  predicate Agree(a: Mark, b: Mark, same: bool) {
    (a.at < b.at ==> a.era <= b.era) && (a.at == b.at ==> same)
  }

  /** Of one counter, what was stored before the last running boot counted no further; what came after, did. */
  predicate AroundLast(l: Ledger) {
    l.last.Some? ==>
      && l.last.value in l.stored
      && var m := l.stored[l.last.value];
         forall x :: x in l.stored && l.stored[x].era == m.era ==>
           && (l.stored[x].at < m.at ==> l.stored[x].count <= m.count)
           && (l.stored[x].at > m.at ==> l.stored[x].count > m.count)
  }

  /** The half of a count. */
  function HalfOf(count: nat): nat { if count % 2 == 1 then 0 else 1 }

  /** A whole header lies in the half of its count; the half of the last running boot holds nothing older. */
  predicate Marked(header: HalfHeader, h: nat, l: Ledger) {
    header.magic == HALF_MAGIC ==>
      && header.count >= 1 && h == HalfOf(header.count)
      && header.id in l.stored && l.stored[header.id].count == header.count
      && (l.last.Some? && l.last.value in l.stored && h == HalfOf(l.stored[l.last.value].count) ==>
            l.stored[l.last.value].at <= l.stored[header.id].at)
  }

  predicate BothMarked(v: Heads, l: Ledger) { Marked(v.low, 0, l) && Marked(v.high, 1, l) }

  /** The count goes with the half, from the flip on. */
  predicate RingCounts(k: Sketch) {
    match k.phase
    case Start => true
    case FlipActive => k.view.ring.count >= 2 && k.view.ring.active == 1 - HalfOf(k.view.ring.count)
    case ResetLayout => true
    case ResetCount => true
    case ResetActive => k.view.ring.count == 1
    case _ => k.view.ring.count >= 1 && k.view.ring.active == HalfOf(k.view.ring.count)
  }

  /** How the counts of the present counter compare with the ring's, as the processor and as RAM has it. */
  predicate Bounded(k: Sketch, l: Ledger) {
    && k.view.ring.count <= k.ram.ring.count + 1
    && (forall x :: x in l.stored && l.stored[x].era == l.era ==>
          && l.stored[x].count <= k.ram.ring.count + 1 && !Restarting(k.phase)
          && (k.phase != Start ==> l.stored[x].count <= k.view.ring.count))
    && (l.last.Some? && l.last.value in l.stored && l.stored[l.last.value].era == l.era ==>
          var m := l.stored[l.last.value];
          && m.count <= k.ram.ring.count && m.count <= k.view.ring.count
          && (k.phase == Start || Runs(k.phase) || m.count < k.view.ring.count))
  }

  /** The boot under way: not in the ledger before its magic is stored, the newest in it from then on. */
  predicate Entered(k: Sketch, l: Ledger) {
    && (forall x :: x in l.stored ==> x in k.drawn)
    && (k.phase == StoreMagic ==> Own(k).id !in l.stored)
    && (k.phase in {FlushRing, FlushHalf} ==>
          Own(k).magic == HALF_MAGIC && Own(k).id in l.stored
          && l.stored[Own(k).id] == Mark(|l.stored| - 1, l.era, k.view.ring.count))
  }

  predicate Books(k: Sketch, l: Ledger) {
    && Sound(k) && Ordered(l) && AroundLast(l) && BothMarked(k.view, l) && BothMarked(k.ram, l)
    && RingCounts(k) && Bounded(k, l) && Entered(k, l)
  }

  lemma EraEnds(l: Ledger)
    requires Ordered(l) && AroundLast(l)
    ensures Ordered(Restarted(l)) && AroundLast(Restarted(l))
    ensures forall x :: x in l.stored ==> l.stored[x].era != Restarted(l).era
    ensures forall header, h :: Marked(header, h, Restarted(l)) <==> Marked(header, h, l)
  {
  }

  lemma ResetBooks(k: Sketch, l: Ledger)
    requires Books(k, l)
    ensures Books(k.(view := k.ram, phase := Start), l)
  {
    hide Ordered, AroundLast, Marked;
  }

  lemma PowerCutBooks(k: Sketch, l: Ledger, v: Heads)
    requires Books(k, l) && v.low.magic != HALF_MAGIC && v.high.magic != HALF_MAGIC
    ensures Books(k.(view := v, ram := v, phase := Start), Restarted(l))
  {
    EraEnds(l);
    hide Ordered, AroundLast;
  }

  lemma WriteBackBooks(k: Sketch, l: Ledger, k': Sketch)
    requires Books(k, l) && OneLineBack(k, k')
    requires k.phase == FlushHalf || Runs(k.phase) ==> k'.ram.ring == k'.view.ring
    ensures Books(k', l)
  {
    hide Ordered, AroundLast, Marked;
  }

  lemma CommitBooks(k: Sketch, l: Ledger, phase: Phase)
    requires Books(k, l) && Runs(k.phase) && Runs(phase)
    ensures Books(k.(phase := phase), l)
  {
    hide Ordered, AroundLast, Marked;
  }

  lemma DrawBooks(k: Sketch, l: Ledger, id: BootId)
    requires Books(k, l) && k.phase in {StoreIdLow, StoreIdHigh} && (k.phase == StoreIdHigh ==> id !in k.drawn)
    ensures Books(if k.phase == StoreIdLow then WithOwn(k, Own(k).(id := id), StoreIdHigh)
                  else WithOwn(k, Own(k).(id := id), StoreMagic).(drawn := k.drawn + {id}), l)
  {
    hide Ordered, AroundLast;
  }

  lemma UntrustedBooks(k: Sketch, l: Ledger)
    requires Books(k, l) && k.phase == Start && !TrustedHeads(k.view)
    ensures Books(Initialized(k), Restarted(l))
  {
    EraEnds(l);
    hide Ordered, AroundLast, Marked;
  }

  /** A trusted ring header agrees with the half it names. */
  lemma TrustedRing(v: Heads, l: Ledger)
    requires TrustedHeads(v) && BothMarked(v, l)
    ensures v.ring.count >= 1 && v.ring.active == HalfOf(v.ring.count)
    ensures HalfOf(v.ring.count) == 1 - HalfOf(v.ring.count + 1)
  {
  }

  lemma TrustedBooks(k: Sketch, l: Ledger)
    requires Books(k, l) && k.phase == Start && TrustedHeads(k.view)
    ensures Books(Initialized(k), l)
  {
    TrustedRing(k.view, l);
    hide Ordered, AroundLast, Marked, HalfOf;
  }

  lemma RingBooks(k: Sketch, l: Ledger)
    requires Books(k, l) && k.phase in {FlipActive, ResetLayout, ResetCount, ResetActive}
    ensures Books(Initialized(k), l)
  {
    hide Ordered, AroundLast, Marked;
  }

  lemma HeaderBooks(k: Sketch, l: Ledger)
    requires Books(k, l) && k.phase in {ClearMagic, StoreCount}
    ensures Books(Initialized(k), l)
  {
    hide Ordered, AroundLast;
  }

  // ---- a header stored whole joins the ledger as its newest entry

  lemma StoredSize(l: Ledger, id: BootId, count: nat)
    requires id !in l.stored
    ensures |Stored(l, id, count).stored| == |l.stored| + 1
  {
    var l' := Stored(l, id, count);
    assert l'.stored.Keys == l.stored.Keys + {id};
    assert |l'.stored.Keys| == |l'.stored| && |l.stored.Keys| == |l.stored|;
  }

  lemma StoredOrdered(l: Ledger, id: BootId, count: nat)
    requires Ordered(l) && id !in l.stored
    ensures Ordered(Stored(l, id, count)) && |Stored(l, id, count).stored| == |l.stored| + 1
  {
    StoredSize(l, id, count);
    var m := Stored(l, id, count).stored;
    forall x, y | x in m && y in m
      ensures Agree(m[x], m[y], x == y)
    {
      if x != id && y != id {
        assert Agree(l.stored[x], l.stored[y], x == y);
      }
    }
  }

  lemma StoredAroundLast(l: Ledger, id: BootId, count: nat)
    requires Ordered(l) && AroundLast(l) && id !in l.stored
    requires l.last.Some? && l.stored[l.last.value].era == l.era ==> count > l.stored[l.last.value].count
    ensures AroundLast(Stored(l, id, count))
  {
  }

  lemma StoredMarked(l: Ledger, id: BootId, count: nat, header: HalfHeader, h: nat)
    requires AroundLast(l) && id !in l.stored && Marked(header, h, l)
    ensures Marked(header, h, Stored(l, id, count))
  {
    hide HalfOf;
  }

  lemma NewIsMarked(l: Ledger, id: BootId, count: nat, header: HalfHeader)
    requires Ordered(l) && AroundLast(l) && id !in l.stored && header.id == id && header.count == count >= 1
    ensures Marked(header, HalfOf(count), Stored(l, id, count))
  {
    hide HalfOf;
  }

  lemma MagicMarks(k: Sketch, l: Ledger)
    requires Books(k, l) && k.phase == StoreMagic
    ensures var l' := Stored(l, Own(k).id, k.view.ring.count);
            BothMarked(Initialized(k).view, l') && BothMarked(Initialized(k).ram, l')
  {
    var id, count := Own(k).id, k.view.ring.count;
    StoredMarked(l, id, count, k.view.low, 0);
    StoredMarked(l, id, count, k.view.high, 1);
    StoredMarked(l, id, count, k.ram.low, 0);
    StoredMarked(l, id, count, k.ram.high, 1);
    NewIsMarked(l, id, count, Own(k).(magic := HALF_MAGIC));
    hide Ordered, AroundLast, Marked, Bounded;
  }

  lemma MagicBounds(k: Sketch, l: Ledger)
    requires Books(k, l) && k.phase == StoreMagic
    ensures Bounded(Initialized(k), Stored(l, Own(k).id, k.view.ring.count))
  {
    StoreEnters(k);
    hide Ordered, Marked, Initialized, Own, Sound, RingCounts;
  }

  lemma MagicEnters(k: Sketch, l: Ledger)
    requires Books(k, l) && k.phase == StoreMagic && Own(k).id in k.drawn
    ensures Entered(Initialized(k), Stored(l, Own(k).id, k.view.ring.count))
  {
    StoredSize(l, Own(k).id, k.view.ring.count);
    StoreEnters(k);
    hide Ordered, Marked, Initialized, Own, Sound, RingCounts, Bounded;
  }

  lemma StoreEnters(k: Sketch)
    requires k.phase == StoreMagic && Sound(k)
    ensures var k' := Initialized(k);
            && k'.view.ring == k.view.ring && k'.ram == k.ram && k'.phase == FlushRing && k'.drawn == k.drawn
            && Own(k') == Own(k).(magic := HALF_MAGIC)
  {
  }

  lemma MagicBooks(k: Sketch, l: Ledger)
    requires Books(k, l) && k.phase == StoreMagic && Own(k).id in k.drawn
    ensures Books(Initialized(k), Stored(l, Own(k).id, k.view.ring.count))
  {
    StoredOrdered(l, Own(k).id, k.view.ring.count);
    StoredAroundLast(l, Own(k).id, k.view.ring.count);
    MagicMarks(k, l);
    MagicBounds(k, l);
    MagicEnters(k, l);
    StoreEnters(k);
    hide Ordered, AroundLast, BothMarked, Bounded, Entered, Initialized;
  }

  lemma FlushRingBooks(k: Sketch, l: Ledger)
    requires Books(k, l) && k.phase == FlushRing
    ensures Books(Initialized(k), l)
  {
    hide Ordered, AroundLast, Marked;
  }

  lemma RanMarked(k: Sketch, l: Ledger, header: HalfHeader, h: nat)
    requires Books(k, l) && k.phase == FlushHalf && Marked(header, h, l)
    requires h == k.view.ring.active ==> header == Own(k)
    ensures Marked(header, h, Ran(l, Own(k).id))
  {
  }

  lemma RanAroundLast(k: Sketch, l: Ledger)
    requires Books(k, l) && k.phase == FlushHalf
    ensures AroundLast(Ran(l, Own(k).id))
  {
  }

  lemma FlushHalfBooks(k: Sketch, l: Ledger)
    requires Books(k, l) && k.phase == FlushHalf
    ensures Books(Initialized(k), Ran(l, Own(k).id))
  {
    var k' := Initialized(k);
    RanAroundLast(k, l);
    RanMarked(k, l, k'.view.low, 0);
    RanMarked(k, l, k'.view.high, 1);
    RanMarked(k, l, k'.ram.low, 0);
    RanMarked(k, l, k'.ram.high, 1);
    hide AroundLast, Marked;
  }

  // ---------------- over every run ----------------

  ghost predicate Kept(s: State, l: Ledger) { Inv(s) && WellShaped(s) && Books(SketchOf(s), l) }

  lemma SoundFromInv(s: State)
    requires Inv(s) && (s.phase == FlushHalf || Running(s))
    ensures s.ram.ring == s.view.ring
  {
  }

  lemma DrawnFromInv(s: State)
    requires Inv(s) && s.phase == StoreMagic
    ensures BootOf(s) in s.past.drawn
  {
  }

  lemma OwnHeader(s: State)
    requires WellShaped(s) && Active(s) < 2
    ensures Own(SketchOf(s)) == s.view.half[Active(s)].header
  {
  }

  lemma InitBooks(s: State, l: Ledger)
    requires Kept(s, l) && Enabled(s, Proceed)
    ensures Kept(Initialize(s), Ledgered(l, s, Proceed))
  {
    var k := SketchOf(s);
    StepKeeps(s, Proceed);
    TrustedSketch(s.view);
    if s.phase == StoreMagic {
      DrawnFromInv(s);
    }
    if s.phase in {StoreMagic, FlushHalf} {
      OwnHeader(s);
    }
    hide Inv, Books, SketchOf, Initialize, Initialized, Trusted, TrustedHeads, Own;
    if s.phase in {ClearMagic, StoreCount, StoreMagic, FlushHalf} {
      HeaderStoreSketch(s);
    } else {
      RingStoreSketch(s);
    }
    SketchSays(s);
    match s.phase
    case Start =>
      if Trusted(s.view) {
        TrustedBooks(k, l);
      } else {
        UntrustedBooks(k, l);
      }
    case ClearMagic => HeaderBooks(k, l);
    case StoreCount => HeaderBooks(k, l);
    case StoreMagic => MagicBooks(k, l);
    case FlushRing => FlushRingBooks(k, l);
    case FlushHalf => FlushHalfBooks(k, l);
    case _ => RingBooks(k, l);
  }

  lemma SketchSays(s: State)
    requires WellShaped(s)
    ensures var k := SketchOf(s);
            k.phase == s.phase && k.drawn == s.past.drawn && k.view == HeadsOf(s.view) && k.ram == HeadsOf(s.ram)
            && k.view.ring == s.view.ring && k.ram.ring == s.ram.ring
  {
  }

  lemma OtherBooks(s: State, l: Ledger, step: Step)
    requires Kept(s, l) && Enabled(s, step) && !step.Proceed?
    ensures Kept(Apply(s, step), Ledgered(l, s, step))
  {
    var k, t := SketchOf(s), Apply(s, step);
    StepKeeps(s, step);
    hide Inv, Books, Apply, Own, WithOwn, HeadsOf;
    SketchSays(s);
    match step
    case Draw(id) => DrawSketch(s, id); DrawBooks(k, l, id);
    case WriteBack(p) =>
      WriteBackSketch(s, p);
      SketchSays(t);
      if t.phase == FlushHalf || Runs(t.phase) {
        SoundFromInv(t);
      }
      WriteBackBooks(k, l, SketchOf(t));
    case Reset => LossSketch(s, step); ResetBooks(k, l);
    case PowerCut(m) => LossSketch(s, step); PowerCutBooks(k, l, HeadsOf(m));
    case _ => CommitSketch(s, step); CommitBooks(k, l, t.phase);
  }

  lemma LossSketch(s: State, step: Step)
    requires Enabled(s, step) && (step.Reset? || step.PowerCut?)
    ensures var t := Apply(s, step);
            && WellShaped(t)
            && (step.Reset? ==> SketchOf(t) == SketchOf(s).(view := SketchOf(s).ram, phase := Start))
            && (step.PowerCut? ==>
                  var v := HeadsOf(step.m);
                  && SketchOf(t) == SketchOf(s).(view := v, ram := v, phase := Start)
                  && v.low.magic != HALF_MAGIC && v.high.magic != HALF_MAGIC)
  {
    hide SlotShape;
  }

  lemma StepBooks(s: State, l: Ledger, step: Step)
    requires Kept(s, l) && Enabled(s, step)
    ensures Kept(Apply(s, step), Ledgered(l, s, step))
  {
    hide Kept, Ledgered, Initialize;
    if step.Proceed? {
      InitBooks(s, l);
    } else {
      OtherBooks(s, l, step);
    }
  }

  lemma {:induction false} TraceBooks(s: State, l: Ledger, steps: seq<Step>)
    requires Kept(s, l) && Trace(s, steps)
    ensures Kept(Final(s, steps), LedgerOf(l, s, steps))
    decreases steps
  {
    hide Kept, Ledgered, Apply, Enabled;
    if steps != [] {
      StepBooks(s, l, steps[0]);
      TraceBooks(Apply(s, steps[0]), Ledgered(l, s, steps[0]), steps[1..]);
    }
  }

  /** What is recovered, against the boot that came to run last. */
  predicate NoneNewer(r: Recovery, l: Ledger) {
    && r.id in l.stored && l.stored[r.id].count == r.count >= 1 && r.half == HalfOf(r.count)
    && (l.last.Some? ==>
          && l.last.value in l.stored
          && var m, n := l.stored[l.last.value], l.stored[r.id];
             && (m.at <= n.at <==> m.era < n.era || (m.era == n.era && m.count <= n.count))
             && (n.era == l.era ==> m.at <= n.at))
  }

  lemma BooksTell(k: Sketch, l: Ledger, h: nat)
    requires Books(k, l) && TrustedHeads(k.ram) && h == k.ram.ring.active
    ensures var header := At(k.ram, h);
            && header.id in l.stored && l.stored[header.id].count == header.count == k.ram.ring.count >= 1
            && h == HalfOf(header.count)
            && (l.last.Some? ==>
                  && l.last.value in l.stored
                  && var m, n := l.stored[l.last.value], l.stored[header.id];
                     && (m.at <= n.at <==> m.era < n.era || (m.era == n.era && m.count <= n.count))
                     && (n.era == l.era ==> m.at <= n.at))
  {
    var header := At(k.ram, h);
    assert Marked(header, h, l);
    if l.last.Some? {
      var m, n := l.stored[l.last.value], l.stored[header.id];
      assert Agree(m, n, l.last.value == header.id) && Agree(n, m, l.last.value == header.id);
      hide HalfOf;
    }
  }

  /**
   * After any run, broken off anywhere: what the next init takes for the previous boot
   * stored its header whole, with the count recovered, in the half of that count. It is
   * the boot that came to run last, or a later one, if and only if it counted under a
   * later counter, or no less under the same; always so unless the counter was restarted
   * since it stored its header.
   */
  lemma RecoveredIsNewest(s: State, steps: seq<Step>)
    requires PoweredOn(s) && Trace(s, steps)
    ensures var e, l := Final(s, steps), LedgerOf(BLANK, s, steps);
            && Shape(e.ram)
            && (Recover(e.ram).Some? ==> NoneNewer(Recover(e.ram).value, l))
  {
    PowerOnBooks(s);
    TraceBooks(s, BLANK, steps);
    var e, l := Final(s, steps), LedgerOf(BLANK, s, steps);
    hide Books, Inv, Trace, Final, LedgerOf, PoweredOn;
    assert WellShaped(e) && Shape(e.ram);
    if Recover(e.ram).Some? {
      TrustedSketch(e.ram);
      SketchSays(e);
      BooksTell(SketchOf(e), l, e.ram.ring.active);
    }
  }

  lemma PowerOnBooks(s: State)
    requires PoweredOn(s)
    ensures Kept(s, BLANK)
  {
    assert Inv(s);
    hide Inv;
    assert WellShaped(s);
  }

  // ---------------- boots that are passed over, or come back ----------------

  /** Initialisation up to its first flush, with nothing written back. */
  lemma {:induction false} HeaderIsStored(s0: State, s: State, id: BootId) returns (t: State)
    requires Leads(s0, s) && Inv(s) && Drawable(s, id) && Named(s, id) && Remaining(s.phase) >= 3
    ensures Leads(s0, t) && Inv(t) && t.phase == FlushRing && BootOf(t) == id && t.ram == s.ram
    decreases Remaining(s.phase)
  {
    if s.phase == FlushRing {
      t := s;
    } else {
      InitGoes(s, id);
      InitNames(s, id);
      LeadsOn(s0, s, InitStep(s, id));
      RamWaits(s, id);
      hide Leads, Apply, Enabled, Inv;
      t := HeaderIsStored(s0, Apply(s, InitStep(s, id)), id);
    }
  }

  lemma RamWaits(s: State, id: BootId)
    requires WellShaped(s) && Remaining(s.phase) > 3 && Enabled(s, InitStep(s, id))
    ensures var t := Apply(s, InitStep(s, id)); t.ram == s.ram && Remaining(t.phase) >= 3
  {
    hide Trusted, Recover, WithHeader, Garbage, Shape;
  }

  /** A boot that stored its header whole is passed over when none of it has reached RAM. */
  lemma StoredBootIsPassedOver(s: State, id: BootId) returns (t: State)
    requires Inv(s) && Running(s) && id !in s.past.drawn
    ensures Leads(s, t) && t.phase == FlushRing && WellShaped(t) && BootOf(t) == id
    ensures Recover(t.ram).Some? && Recover(t.ram).value.id == BootOf(s)
  {
    RunningRecovers(s);
    LeadsSelf(s);
    LeadsOn(s, s, Reset);
    StepKeeps(s, Reset);
    t := HeaderIsStored(s, Apply(s, Reset), id);
    hide Inv, Recover;
  }

  /** The next store of the ring header. */
  lemma StoreLeads(s0: State, s: State)
    requires Leads(s0, s) && Inv(s)
    requires s.phase in {Start, FlipActive, ResetLayout, ResetCount, ResetActive}
    ensures Enabled(s, Proceed)
    ensures var t := Apply(s, Proceed);
            Leads(s0, t) && Inv(t) && WellShaped(s) && WellShaped(t) && SketchOf(t) == Initialized(SketchOf(s))
  {
    assert Enabled(s, Proceed);
    StepKeeps(s, Proceed);
    LeadsOn(s0, s, Proceed);
    RingStoreSketch(s);
    hide Inv, Leads, Initialized;
  }

  lemma EvictionLeads(s0: State, s: State)
    requires Leads(s0, s) && Inv(s)
    ensures Enabled(s, WriteBack(RingLine))
    ensures var t := Apply(s, WriteBack(RingLine));
            && Leads(s0, t) && Inv(t) && WellShaped(s) && WellShaped(t)
            && SketchOf(t) == SketchOf(s).(ram := HeadsOf(s.ram).(ring := s.view.ring))
  {
    StepKeeps(s, WriteBack(RingLine));
    LeadsOn(s0, s, WriteBack(RingLine));
    hide Inv, Leads;
  }

  lemma ResetLeads(s0: State, s: State)
    requires Leads(s0, s) && Inv(s)
    ensures Enabled(s, Reset)
    ensures var t := Apply(s, Reset);
            && Leads(s0, t) && Inv(t) && WellShaped(s) && WellShaped(t)
            && SketchOf(t) == SketchOf(s).(view := HeadsOf(s.ram), phase := Start)
  {
    StepKeeps(s, Reset);
    LeadsOn(s0, s, Reset);
    hide Inv, Leads;
  }

  /** A reset during the next init, its count in RAM but its header not: the ring header no longer fits its half. */
  lemma CountAlone(s0: State, s: State) returns (t: State)
    requires Leads(s0, s) && Inv(s) && WellShaped(s) && TrustedHeads(HeadsOf(s.ram))
    ensures Leads(s0, t) && Inv(t) && WellShaped(t) && t.phase == Start
    ensures var r := s.ram.ring; HeadsOf(t.view) == HeadsOf(t.ram) == HeadsOf(s.ram).(ring := r.(count := r.count + 1))
  {
    hide Inv, Leads, Apply, Enabled;
    ResetLeads(s0, s);
    var a := Apply(s, Reset);
    StoreLeads(s0, a);
    var b := Apply(a, Proceed);
    EvictionLeads(s0, b);
    var c := Apply(b, WriteBack(RingLine));
    ResetLeads(s0, c);
    t := Apply(c, Reset);
  }

  /** An init that starts over, until its ring header is in RAM. */
  lemma StartsOver(s0: State, s: State) returns (t: State)
    requires Leads(s0, s) && Inv(s) && WellShaped(s) && s.phase == Start && !TrustedHeads(HeadsOf(s.view))
    ensures Leads(s0, t) && Inv(t) && WellShaped(t)
    ensures HeadsOf(t.ram) == HeadsOf(s.ram).(ring := RingHeader(RING_MAGIC, LAYOUT, 1, 0))
  {
    hide Inv, Leads, Apply, Enabled;
    StoreLeads(s0, s);
    var a := Apply(s, Proceed);
    SketchSays(a);
    StoreLeads(s0, a);
    var b := Apply(a, Proceed);
    SketchSays(b);
    StoreLeads(s0, b);
    var c := Apply(b, Proceed);
    SketchSays(c);
    StoreLeads(s0, c);
    var d := Apply(c, Proceed);
    SketchSays(d);
    EvictionLeads(s0, d);
    t := Apply(d, WriteBack(RingLine));
  }

  /** After the first boot from power-on: count 1, in the first half. */
  lemma FirstRuns(s: State, a: BootId) returns (t: State)
    requires PoweredOn(s)
    ensures Leads(s, t) && Inv(t) && WellShaped(t) && t.phase == Idle && BootOf(t) == a && Follows(t, None, s.ram)
    ensures t.past.drawn <= {a}
  {
    LeadsSelf(s);
    assert Inv(s) && !Trusted(s.view) && Recover(s.view) == None && s.past.drawn + {a} == {a};
    hide Inv, Leads, PoweredOn, Follows;
    t := EveryBootRuns(s, s, a);
  }

  /** Its header, whole, as RAM holds it. */
  lemma RunningHead(t: State, prev: Option<Recovery>, ram: Memory)
    requires Inv(t) && Running(t) && Follows(t, prev, ram)
    ensures var v := HeadsOf(t.ram);
            && v.ring == RingHeader(RING_MAGIC, LAYOUT, NextCount(prev), Active(t)) && Active(t) == NextHalf(prev) < 2
            && At(v, Active(t)) == HalfHeader(HALF_MAGIC, NextCount(prev), BootOf(t))
            && At(v, 1 - Active(t)) == ram.half[1 - Active(t)].header
  {
    hide SealsKnown, HeadersKnown, Committed, AllPlaced, KeysDrawn, PrevApart, SlotShape;
  }

  /** What RAM's headers alone say of the boot recovered. */
  lemma HeadsRecover(m: Memory)
    requires Shape(m) && TrustedHeads(HeadsOf(m))
    ensures Recover(m).Some?
    ensures var v := HeadsOf(m); var r := Recover(m).value;
            r.half == v.ring.active && r.id == At(v, v.ring.active).id && r.count == v.ring.count
  {
    TrustedSketch(m);
  }

  /** The second boot: count 2, in the second half, beside the first. */
  lemma SecondRuns(t: State, ram: Memory, a: BootId, b: BootId) returns (u: State)
    requires Inv(t) && WellShaped(t) && t.phase == Idle && BootOf(t) == a && b !in t.past.drawn
    requires Follows(t, None, ram)
    ensures Leads(t, u) && Inv(u) && WellShaped(u) && u.phase == Idle && BootOf(u) == b
    ensures HeadsOf(u.ram) == Heads(RingHeader(RING_MAGIC, LAYOUT, 2, 1), HalfHeader(HALF_MAGIC, 1, a),
                                    HalfHeader(HALF_MAGIC, 2, b))
  {
    RunningHead(t, None, ram);
    HeadsRecover(t.ram);
    LeadsSelf(t);
    hide Inv, Leads, Recover, Follows;
    u := NextInitRecovers(t, t, b);
    assert Running(u);
    RunningHead(u, Recover(t.ram), t.ram);
  }

  /**
   * Why the counter matters. From power-on boot a runs, then boot b; the next init is
   * reset with its ring header in RAM and nothing else, so the one after it starts over,
   * and is reset just the same. What is recovered then is boot a.
   */
  lemma OlderBootComesBack(s: State, a: BootId, b: BootId) returns (t: State, u: State, e: State)
    requires PoweredOn(s) && a != b
    ensures Leads(s, t) && WellShaped(t) && t.phase == Idle && BootOf(t) == a
    ensures Leads(t, u) && WellShaped(u) && u.phase == Idle && BootOf(u) == b
    ensures Leads(u, e) && WellShaped(e) && Recover(e.ram).Some? && Recover(e.ram).value.id == a
  {
    t := FirstRuns(s, a);
    u := SecondRuns(t, s.ram, a, b);
    LeadsSelf(u);
    hide Inv, Leads, Follows, Recover, PoweredOn;
    var v := CountAlone(u, u);
    e := StartsOver(u, v);
    HeadsRecover(e.ram);
  }
}
