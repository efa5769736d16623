/**
 * The no-init RAM of the log (main/log_ring.c) behind a write-back cache, over any
 * number of boots. Every store of log_ring_init and of a commit is a step; any
 * cache line may be written back at any moment; a reset keeps only what was
 * written back; a power cut leaves garbage.
 *
 * A header is one 64-octet cache line, a slot three of them.
 */
module LogMemory {
  import opened Bytes
  import opened LogText
  import opened LogSlot

  const RING_MAGIC: nat := 0x52474f4c
  const HALF_MAGIC: nat := 0x48474f4c
  const LAYOUT: nat := 393408          // sizeof(ring_t)
  const FRONT_TEXT: nat := 52          // text octets beside seq, uptime_ms and check
  const LINE_TEXT: nat := 64

  datatype RingHeader = RingHeader(magic: nat, layout: nat, count: nat, active: nat)
  datatype HalfHeader = HalfHeader(magic: nat, count: nat, id: BootId)
  datatype Front = Front(seqNo: nat, uptime: nat, check: Check, text: seq<byte>)
  datatype SlotLines = SlotLines(front: Front, middle: seq<byte>, back: seq<byte>)
  datatype Half = Half(header: HalfHeader, slots: seq<SlotLines>)
  datatype Memory = Memory(ring: RingHeader, half: seq<Half>)

  predicate SlotShape(s: SlotLines) {
    |s.front.text| == FRONT_TEXT && |s.middle| == LINE_TEXT && |s.back| == LINE_TEXT
  }

  predicate Shape(m: Memory) {
    |m.half| == 2 && forall h :: 0 <= h < 2 ==>
      |m.half[h].slots| == LINES && forall i :: 0 <= i < LINES ==> SlotShape(m.half[h].slots[i])
  }

  function AsSlot(s: SlotLines): Slot {
    Slot(s.front.seqNo, s.front.uptime, s.front.check, s.front.text + s.middle + s.back)
  }

  function Slots(h: Half): (r: seq<Slot>)
    ensures |r| == |h.slots|
  {
    seq(|h.slots|, i requires 0 <= i < |h.slots| => AsSlot(h.slots[i]))
  }

  // ---------------- recovery ----------------

  predicate Trusted(m: Memory)
    requires Shape(m)
  {
    && m.ring.magic == RING_MAGIC && m.ring.layout == LAYOUT && m.ring.active < 2
    && m.half[m.ring.active].header.magic == HALF_MAGIC
    && m.half[m.ring.active].header.count == m.ring.count
  }

  /** latest is the newest valid number of the slots, zero when there is none. */
  ghost predicate IsNewest(slots: seq<Slot>, boot: BootId, latest: nat) {
    && (forall i :: 0 <= i < |slots| && SlotValid(slots[i], boot) ==> slots[i].seqNo <= latest)
    && (latest == 0 || exists i :: 0 <= i < |slots| && SlotValid(slots[i], boot) && slots[i].seqNo == latest)
  }

  function Newest(slots: seq<Slot>, boot: BootId): (latest: nat)
    ensures IsNewest(slots, boot, latest)
  {
    if slots == [] then 0 else
      var before := Newest(slots[..|slots| - 1], boot);
      var s := slots[|slots| - 1];
      assert forall i :: 0 <= i < |slots| - 1 ==> slots[..|slots| - 1][i] == slots[i];
      if s.seqNo > before && SlotValid(s, boot) then s.seqNo else before
  }

  lemma NewestUnique(slots: seq<Slot>, boot: BootId, a: nat, b: nat)
    requires IsNewest(slots, boot, a) && IsNewest(slots, boot, b)
    ensures a == b
  {
  }

  /** The scan of recover_previous. */
  method RecoverPrevious(slots: array<Slot>, boot: BootId) returns (latest: nat, lastMs: nat)
    ensures latest == Newest(slots[..], boot)
    ensures latest == 0 ==> lastMs == 0
    ensures latest != 0 ==> exists i :: 0 <= i < slots.Length && SlotValid(slots[i], boot)
                                        && slots[i].seqNo == latest && slots[i].uptime == lastMs
  {
    latest, lastMs := 0, 0;
    for i := 0 to slots.Length
      invariant forall k :: 0 <= k < i && SlotValid(slots[k], boot) ==> slots[k].seqNo <= latest
      invariant latest == 0 ==> lastMs == 0
      invariant latest != 0 ==> exists k :: 0 <= k < i && SlotValid(slots[k], boot)
                                            && slots[k].seqNo == latest && slots[k].uptime == lastMs
    {
      var s := slots[i];
      if s.seqNo > latest && SlotValid(s, boot) {
        latest, lastMs := s.seqNo, s.uptime;
      }
    }
    NewestUnique(slots[..], boot, latest, Newest(slots[..], boot));
  }

  /** The previous boot as the next init finds it. */
  datatype Recovery = Recovery(half: nat, count: nat, id: BootId, latest: nat)

  function Recover(m: Memory): Option<Recovery>
    requires Shape(m)
  {
    if Trusted(m) then
      var h := m.half[m.ring.active];
      Some(Recovery(m.ring.active, h.header.count, h.header.id, Newest(Slots(h), h.header.id)))
    else None
  }

  function Served(m: Memory, r: Recovery, seqNo: nat): Option<Line>
    requires Shape(m) && r.half < 2
  {
    Lookup(Slots(m.half[r.half]), r.id, r.latest, seqNo)
  }

  // ---------------- the machine ----------------

  datatype Stage = Filling | UptimeStored | SeqStored

  /** Where the running boot is: each constructor's next store is the one named. */
  datatype Phase =
    | Start                       // decide, and the first store
    | FlipActive                  // boot_count stored; active next
    | ResetLayout | ResetCount | ResetActive
    | ClearMagic | StoreCount | StoreIdLow | StoreIdHigh | StoreMagic
    | FlushRing | FlushHalf
    | Idle
    | Writing(seqNo: nat, stage: Stage)

  /** What was ever true, for stating properties: the machine never reads it. */
  datatype History = History(
    headers: set<(nat, BootId)>,                  // headers some boot stored completely
    drawn: set<BootId>,                           // boot IDs drawn so far
    lines: map<(BootId, nat), Line>)              // lines sealed so far

  datatype State = State(
    view: Memory,                                 // as the processor sees it
    ram: Memory,                                  // as a reset would leave it
    phase: Phase,
    prev: Option<Recovery>,
    latest: nat,
    past: History)

  datatype Place =
    | RingLine
    | HeaderLine(h: nat)
    | FrontLine(h: nat, i: nat)
    | MiddleLine(h: nat, i: nat)
    | BackLine(h: nat, i: nat)

  datatype Step =
    | Proceed                                     // the next store or flush of init
    | Draw(id: BootId)                            // the stores that fill boot_id
    | Begin | Put(k: nat, b: byte) | SetUptime(u: nat) | SetSeq | SetCheck
    | WriteBack(p: Place)                         // an eviction, or one line of an msync
    | Reset
    | PowerCut(m: Memory)

  predicate PlaceOk(p: Place) {
    match p
    case RingLine => true
    case HeaderLine(h) => h < 2
    case FrontLine(h, i) => h < 2 && i < LINES
    case MiddleLine(h, i) => h < 2 && i < LINES
    case BackLine(h, i) => h < 2 && i < LINES
  }

  function WithHeader(m: Memory, h: nat, header: HalfHeader): Memory
    requires Shape(m) && h < 2
  {
    m.(half := m.half[h := m.half[h].(header := header)])
  }

  function WithSlot(m: Memory, h: nat, i: nat, s: SlotLines): Memory
    requires Shape(m) && h < 2 && i < LINES
  {
    m.(half := m.half[h := m.half[h].(slots := m.half[h].slots[i := s])])
  }

  function CopyLine(from: Memory, to: Memory, p: Place): Memory
    requires Shape(from) && Shape(to) && PlaceOk(p)
  {
    match p
    case RingLine => to.(ring := from.ring)
    case HeaderLine(h) => WithHeader(to, h, from.half[h].header)
    case FrontLine(h, i) => WithSlot(to, h, i, to.half[h].slots[i].(front := from.half[h].slots[i].front))
    case MiddleLine(h, i) => WithSlot(to, h, i, to.half[h].slots[i].(middle := from.half[h].slots[i].middle))
    case BackLine(h, i) => WithSlot(to, h, i, to.half[h].slots[i].(back := from.half[h].slots[i].back))
  }

  function PutText(s: SlotLines, k: nat, b: byte): (r: SlotLines)
    requires SlotShape(s) && k < TEXT_BYTES
    ensures SlotShape(r) && AsSlot(r) == AsSlot(s).(text := AsSlot(s).text[k := b])
  {
    if k < FRONT_TEXT then s.(front := s.front.(text := s.front.text[k := b]))
    else if k < FRONT_TEXT + LINE_TEXT then s.(middle := s.middle[k - FRONT_TEXT := b])
    else s.(back := s.back[k - FRONT_TEXT - LINE_TEXT := b])
  }

  /** Power-on contents: neither magic, and no check that would validate. */
  predicate Garbage(m: Memory) {
    && Shape(m) && m.ring.magic != RING_MAGIC
    && forall h :: 0 <= h < 2 ==>
         && m.half[h].header.magic != HALF_MAGIC
         && forall i :: 0 <= i < LINES ==> m.half[h].slots[i].front.check.Noise?
  }

  predicate Running(s: State) { s.phase.Idle? || s.phase.Writing? }

  /** The half the running boot writes. */
  function Active(s: State): nat { s.view.ring.active }

  function Current(s: State): SlotLines
    requires Shape(s.view) && Active(s) < 2 && s.phase.Writing? && s.phase.seqNo >= 1
  {
    s.view.half[Active(s)].slots[Index(s.phase.seqNo)]
  }

  function BootOf(s: State): BootId
    requires Shape(s.view) && Active(s) < 2
  {
    s.view.half[Active(s)].header.id
  }

  predicate WellShaped(s: State) {
    && Shape(s.view) && Shape(s.ram)
    && (s.phase !in {Start, ResetLayout, ResetCount, ResetActive} ==> Active(s) < 2)
    && (s.phase.Writing? ==> s.phase.seqNo >= 1)
  }

  predicate Enabled(s: State, step: Step) {
    WellShaped(s) &&
    match step
    case Proceed => !Running(s) && s.phase !in {StoreIdLow, StoreIdHigh}
    case Draw(id) => s.phase == StoreIdLow || (s.phase == StoreIdHigh && id !in s.past.drawn)
    case Begin => s.phase == Idle
    case Put(k, b) => s.phase.Writing? && s.phase.stage == Filling && k < TEXT_BYTES
    case SetUptime(u) => s.phase.Writing? && s.phase.stage == Filling && 0 in AsSlot(Current(s)).text
    case SetSeq => s.phase.Writing? && s.phase.stage == UptimeStored
    case SetCheck => s.phase.Writing? && s.phase.stage == SeqStored
    case WriteBack(p) => PlaceOk(p)
    case Reset => true
    case PowerCut(m) => Garbage(m)
  }

  /** Init from its first store to its last flush. */
  function Initialize(s: State): State
    requires Enabled(s, Proceed)
  {
    var v := s.view;
    match s.phase
    case Start =>
      if Trusted(v) then
        s.(view := v.(ring := v.ring.(count := v.ring.count + 1)), phase := FlipActive, prev := Recover(v))
      else
        s.(view := v.(ring := v.ring.(magic := RING_MAGIC)), phase := ResetLayout, prev := None)
    case FlipActive => s.(view := v.(ring := v.ring.(active := 1 - v.ring.active)), phase := ClearMagic)
    case ResetLayout => s.(view := v.(ring := v.ring.(layout := LAYOUT)), phase := ResetCount)
    case ResetCount => s.(view := v.(ring := v.ring.(count := 1)), phase := ResetActive)
    case ResetActive => s.(view := v.(ring := v.ring.(active := 0)), phase := ClearMagic)
    case ClearMagic => s.(view := WithHeader(v, Active(s), v.half[Active(s)].header.(magic := 0)), phase := StoreCount)
    case StoreCount =>
      s.(view := WithHeader(v, Active(s), v.half[Active(s)].header.(count := v.ring.count)), phase := StoreIdLow)
    case StoreMagic =>
      var header := v.half[Active(s)].header.(magic := HALF_MAGIC);
      s.(view := WithHeader(v, Active(s), header), phase := FlushRing,
         past := s.past.(headers := s.past.headers + {(header.count, header.id)}))
    case FlushRing => s.(ram := s.ram.(ring := v.ring), phase := FlushHalf)
    case FlushHalf =>
      s.(ram := WithHeader(s.ram, Active(s), v.half[Active(s)].header), phase := Idle, latest := 0)
    case _ => s
  }

  function Commit(s: State, step: Step): State
    requires Enabled(s, step) && (step.Begin? || s.phase.Writing?)
  {
    if step.Begin? then
      var n := s.latest + 1;
      var slot := s.view.half[Active(s)].slots[Index(n)];
      s.(view := WithSlot(s.view, Active(s), Index(n), slot.(front := slot.front.(seqNo := 0))),
         phase := Writing(n, Filling), latest := n)
    else
      var n, slot := s.phase.seqNo, Current(s);
      match step
      case Put(k, b) => s.(view := WithSlot(s.view, Active(s), Index(n), PutText(slot, k, b)))
      case SetUptime(u) =>
        s.(view := WithSlot(s.view, Active(s), Index(n), slot.(front := slot.front.(uptime := u))),
           phase := Writing(n, UptimeStored))
      case SetSeq =>
        s.(view := WithSlot(s.view, Active(s), Index(n), slot.(front := slot.front.(seqNo := n))),
           phase := Writing(n, SeqStored))
      case SetCheck =>
        var line := Line(n, slot.front.uptime, Visible(AsSlot(slot).text));
        var check := Seal(BootOf(s), slot.front.seqNo, line.uptime, line.text);
        s.(view := WithSlot(s.view, Active(s), Index(n), slot.(front := slot.front.(check := check))),
           phase := Idle, past := s.past.(lines := s.past.lines[(BootOf(s), n) := line]))
      case _ => s
  }

  function Apply(s: State, step: Step): State
    requires Enabled(s, step)
  {
    match step
    case Proceed => Initialize(s)
    case Draw(id) =>
      var header := s.view.half[Active(s)].header.(id := id);
      if s.phase == StoreIdLow then
        s.(view := WithHeader(s.view, Active(s), header), phase := StoreIdHigh)
      else
        s.(view := WithHeader(s.view, Active(s), header), phase := StoreMagic,
           past := s.past.(drawn := s.past.drawn + {id}))
    case WriteBack(p) => s.(ram := CopyLine(s.view, s.ram, p))
    case Reset => s.(view := s.ram, phase := Start, prev := None, latest := 0)
    case PowerCut(m) => s.(view := m, ram := m, phase := Start, prev := None, latest := 0)
    case _ => if step.Begin? || s.phase.Writing? then Commit(s, step) else s
  }

  predicate Trace(s: State, steps: seq<Step>)
    decreases steps
  {
    steps == [] || (Enabled(s, steps[0]) && Trace(Apply(s, steps[0]), steps[1..]))
  }

  function Final(s: State, steps: seq<Step>): State
    requires Trace(s, steps)
    decreases steps
  {
    if steps == [] then s else Final(Apply(s, steps[0]), steps[1..])
  }

  // ---------------- what every step keeps ----------------

  predicate Known(check: Check, lines: map<(BootId, nat), Line>) {
    check.Seal? ==>
      && (check.boot, check.seqNo) in lines
      && lines[(check.boot, check.seqNo)] == Line(check.seqNo, check.uptime, check.text)
  }

  predicate SealsKnown(m: Memory, past: History)
    requires Shape(m)
  {
    forall h, i :: 0 <= h < 2 && 0 <= i < LINES ==> Known(m.half[h].slots[i].front.check, past.lines)
  }

  predicate HeaderKnown(header: HalfHeader, past: History) {
    header.magic == HALF_MAGIC ==> (header.count, header.id) in past.headers && header.id in past.drawn
  }

  predicate HeadersKnown(m: Memory, past: History)
    requires Shape(m)
  {
    forall h :: 0 <= h < 2 ==> HeaderKnown(m.half[h].header, past)
  }

  predicate KeysDrawn(past: History) {
    forall k :: k in past.lines ==> k.0 in past.drawn
  }

  /** No line of this boot yet. */
  predicate Fresh(id: BootId, past: History) {
    id in past.drawn && forall k :: k in past.lines ==> k.0 != id
  }

  predicate RingReady(r: RingHeader) {
    r.magic == RING_MAGIC && r.layout == LAYOUT && r.active < 2
  }

  /** How far init has come. */
  predicate Progress(s: State)
    requires WellShaped(s)
  {
    match s.phase
    case Start => true
    case FlipActive => RingReady(s.view.ring)
    case ResetLayout => s.view.ring.magic == RING_MAGIC
    case ResetCount => s.view.ring.magic == RING_MAGIC && s.view.ring.layout == LAYOUT
    case ResetActive => s.view.ring.magic == RING_MAGIC && s.view.ring.layout == LAYOUT
    case ClearMagic => RingReady(s.view.ring)
    case _ =>
      var header := s.view.half[Active(s)].header;
      && RingReady(s.view.ring)
      && (s.phase in {StoreCount, StoreIdLow, StoreIdHigh, StoreMagic} ==> header.magic == 0)
      && (s.phase != StoreCount ==> header.count == s.view.ring.count)
      && (s.phase in {StoreMagic, FlushRing, FlushHalf} ==> Fresh(header.id, s.past))
      && (s.phase in {FlushRing, FlushHalf} || Running(s) ==> header.magic == HALF_MAGIC)
      && (s.phase == FlushHalf || Running(s) ==> s.ram.ring == s.view.ring)
      && (Running(s) ==> s.ram.half[Active(s)].header == header)
  }

  /** The running boot's lines so far, and where its seals lie. */
  predicate Committed(s: State)
    requires WellShaped(s) && Active(s) < 2
  {
    && (forall k :: k in s.past.lines && k.0 == BootOf(s) ==> 1 <= k.1 <= s.latest)
    && (s.phase.Writing? ==> s.phase.seqNo == s.latest && (BootOf(s), s.latest) !in s.past.lines)
    && (s.phase.Writing? ==> Current(s).front.seqNo == (if s.phase.stage == SeqStored then s.latest else 0))
    && (s.phase.Writing? && s.phase.stage != Filling ==> 0 in AsSlot(Current(s)).text)
  }

  predicate Placed(s: SlotLines, i: nat, boot: BootId, latest: nat) {
    && s.front.seqNo != 0 && s.front.check.Seal?
    && s.front.check.boot == boot && s.front.check.seqNo == s.front.seqNo
    ==> Index(s.front.seqNo) == i && s.front.seqNo <= latest < s.front.seqNo + LINES
  }

  predicate AllPlaced(s: State)
    requires WellShaped(s) && Active(s) < 2
  {
    forall i :: 0 <= i < LINES ==> Placed(s.view.half[Active(s)].slots[i], i, BootOf(s), s.latest)
  }

  /** PREVIOUS lies in the half this boot does not write. */
  predicate PrevApart(s: State)
    requires WellShaped(s)
  {
    s.prev.Some? && s.phase != Start ==>
      && s.prev.value.half < 2
      && (s.prev.value.count, s.prev.value.id) in s.past.headers
      && (s.phase == FlipActive ==> Active(s) == s.prev.value.half)
      && (s.phase != FlipActive ==> s.phase !in {ResetLayout, ResetCount, ResetActive}
                                     && Active(s) == 1 - s.prev.value.half)
  }

  predicate Inv(s: State) {
    && WellShaped(s)
    && SealsKnown(s.view, s.past) && SealsKnown(s.ram, s.past)
    && HeadersKnown(s.view, s.past) && HeadersKnown(s.ram, s.past)
    && KeysDrawn(s.past)
    && Progress(s)
    && PrevApart(s)
    && (Running(s) ==> Committed(s) && AllPlaced(s))
  }

  lemma HeaderWriteKeeps(m: Memory, h: nat, header: HalfHeader, past: History)
    requires Shape(m) && h < 2 && SealsKnown(m, past) && HeadersKnown(m, past) && HeaderKnown(header, past)
    ensures Shape(WithHeader(m, h, header))
    ensures SealsKnown(WithHeader(m, h, header), past) && HeadersKnown(WithHeader(m, h, header), past)
  {
  }

  lemma SlotWriteKeeps(m: Memory, h: nat, i: nat, slot: SlotLines, past: History)
    requires Shape(m) && h < 2 && i < LINES && SlotShape(slot) && Known(slot.front.check, past.lines)
    requires SealsKnown(m, past) && HeadersKnown(m, past)
    ensures Shape(WithSlot(m, h, i, slot))
    ensures SealsKnown(WithSlot(m, h, i, slot), past) && HeadersKnown(WithSlot(m, h, i, slot), past)
  {
  }

  lemma StartKeeps(s: State)
    requires Inv(s) && s.phase == Start
    ensures Inv(Initialize(s))
  {
  }

  lemma RingStoresKeep(s: State)
    requires Inv(s) && Enabled(s, Proceed)
    requires s.phase in {FlipActive, ResetLayout, ResetCount, ResetActive, FlushRing}
    ensures Inv(Initialize(s))
  {
  }

  lemma HeaderStoresKeep(s: State)
    requires Inv(s) && Enabled(s, Proceed)
    requires s.phase in {ClearMagic, StoreCount, StoreMagic}
    ensures Inv(Initialize(s))
  {
    var s' := Initialize(s);
    assert s'.view == WithHeader(s.view, Active(s), s'.view.half[Active(s)].header);
    HeaderWriteKeeps(s.view, Active(s), s'.view.half[Active(s)].header, s'.past);
  }

  lemma FlushHalfKeeps(s: State)
    requires Inv(s) && s.phase == FlushHalf
    ensures Inv(Initialize(s))
  {
    HeaderWriteKeeps(s.ram, Active(s), s.view.half[Active(s)].header, s.past);
  }

  lemma DrawKeeps(s: State, id: BootId)
    requires Inv(s) && Enabled(s, Draw(id))
    ensures Inv(Apply(s, Draw(id)))
  {
    var s' := Apply(s, Draw(id));
    HeaderWriteKeeps(s.view, Active(s), s'.view.half[Active(s)].header, s'.past);
  }

  /** A write-back changes RAM alone, and only one line of it. */
  lemma HeaderBackKeeps(s: State, h: nat)
    requires Inv(s) && h < 2
    ensures var r := WithHeader(s.ram, h, s.view.half[h].header);
            Shape(r) && SealsKnown(r, s.past) && HeadersKnown(r, s.past)
  {
    HeaderWriteKeeps(s.ram, h, s.view.half[h].header, s.past);
    hide Progress, PrevApart, Committed, AllPlaced, SealsKnown, Shape, KeysDrawn;
  }

  lemma SlotBackKeeps(s: State, h: nat, i: nat, slot: SlotLines)
    requires Inv(s) && h < 2 && i < LINES && SlotShape(slot)
    requires slot.front in {s.ram.half[h].slots[i].front, s.view.half[h].slots[i].front}
    ensures var r := WithSlot(s.ram, h, i, slot);
            Shape(r) && SealsKnown(r, s.past) && HeadersKnown(r, s.past)
  {
    SlotWriteKeeps(s.ram, h, i, slot, s.past);
  }

  /** The rest of the invariant asks of RAM only the ring header and the running half's header. */
  lemma RamMayChange(s: State, ram: Memory)
    requires Inv(s) && Shape(ram) && SealsKnown(ram, s.past) && HeadersKnown(ram, s.past)
    requires ram.ring in {s.ram.ring, s.view.ring}
    requires forall h :: 0 <= h < 2 ==> ram.half[h].header in {s.ram.half[h].header, s.view.half[h].header}
    ensures Inv(s.(ram := ram))
  {
    hide Shape, SealsKnown, HeadersKnown, KeysDrawn, Placed, SlotShape;
  }

  lemma WriteBackKeeps(s: State, p: Place)
    requires Inv(s) && Enabled(s, WriteBack(p))
    ensures Inv(Apply(s, WriteBack(p)))
  {
    var ram := CopyLine(s.view, s.ram, p);
    match p {
      case RingLine =>
        assert ram.half == s.ram.half;
      case HeaderLine(h) =>
        HeaderBackKeeps(s, h);
      case _ =>
        SlotBackKeeps(s, p.h, p.i, ram.half[p.h].slots[p.i]);
    }
    hide Inv, Shape, SlotShape;
    RamMayChange(s, ram);
  }

  lemma LossKeeps(s: State, step: Step)
    requires Inv(s) && Enabled(s, step) && (step.Reset? || step.PowerCut?)
    ensures Inv(Apply(s, step))
  {
  }

  lemma BeginKeeps(s: State)
    requires Inv(s) && Enabled(s, Begin)
    ensures Inv(Commit(s, Begin))
  {
    var s', n := Commit(s, Begin), s.latest + 1;
    var slot := s'.view.half[Active(s)].slots[Index(n)];
    SlotWriteKeeps(s.view, Active(s), Index(n), slot, s.past);
    forall i | 0 <= i < LINES
      ensures Placed(s'.view.half[Active(s)].slots[i], i, BootOf(s), n)
    {
      var was := s.view.half[Active(s)].slots[i];
      assert Placed(was, i, BootOf(s), s.latest);
      if i != Index(n) && was.front.seqNo != 0 && s.latest == was.front.seqNo + LINES - 1 {
        IndexWraps(was.front.seqNo);
      }
    }
  }

  lemma FillKeeps(s: State, step: Step)
    requires Inv(s) && Enabled(s, step) && (step.Put? || step.SetUptime? || step.SetSeq?)
    ensures Inv(Commit(s, step))
  {
    var s', n := Commit(s, step), s.phase.seqNo;
    var slot := s'.view.half[Active(s)].slots[Index(n)];
    SlotWriteKeeps(s.view, Active(s), Index(n), slot, s.past);
  }

  lemma SealKeeps(s: State)
    requires Inv(s) && Enabled(s, SetCheck)
    ensures Inv(Commit(s, SetCheck))
  {
    var s', n := Commit(s, SetCheck), s.phase.seqNo;
    var slot := s'.view.half[Active(s)].slots[Index(n)];
    assert SealsKnown(s.view, s'.past) && SealsKnown(s.ram, s'.past);
    SlotWriteKeeps(s.view, Active(s), Index(n), slot, s'.past);
  }

  lemma StepKeeps(s: State, step: Step)
    requires Inv(s) && Enabled(s, step)
    ensures Inv(Apply(s, step))
  {
    match step
    case Proceed =>
      if s.phase == Start {
        StartKeeps(s);
      } else if s.phase in {FlipActive, ResetLayout, ResetCount, ResetActive, FlushRing} {
        RingStoresKeep(s);
      } else if s.phase == FlushHalf {
        FlushHalfKeeps(s);
      } else {
        HeaderStoresKeep(s);
      }
    case Draw(id) => DrawKeeps(s, id);
    case WriteBack(p) => WriteBackKeeps(s, p);
    case Reset => LossKeeps(s, step);
    case PowerCut(m) => LossKeeps(s, step);
    case Begin => BeginKeeps(s);
    case SetCheck => SealKeeps(s);
    case _ => FillKeeps(s, step);
  }

  lemma {:induction false} TraceKeeps(s: State, steps: seq<Step>)
    requires Inv(s) && Trace(s, steps)
    ensures Inv(Final(s, steps))
    decreases steps
  {
    if steps != [] {
      StepKeeps(s, steps[0]);
      TraceKeeps(Apply(s, steps[0]), steps[1..]);
    }
  }

  // ---------------- what a reset can bring back ----------------

  /** The machine before its first boot. */
  predicate PoweredOn(s: State) {
    && Garbage(s.view) && s.ram == s.view && s.phase == Start && s.prev == None && s.latest == 0
    && s.past == History({}, {}, map[])
  }

  /** Everything offered under r is a line the boot r.id sealed under that very number. */
  ghost predicate OnlyTrueLines(m: Memory, r: Recovery, past: History)
    requires Shape(m) && r.half < 2
  {
    forall n: nat :: Served(m, r, n).Some? ==>
      (r.id, n) in past.lines && Served(m, r, n) == Some(past.lines[(r.id, n)])
  }

  lemma ServedIsTrue(m: Memory, r: Recovery, past: History)
    requires Shape(m) && SealsKnown(m, past) && r.half < 2
    ensures OnlyTrueLines(m, r, past)
  {
    forall n: nat | Served(m, r, n).Some?
      ensures (r.id, n) in past.lines && Served(m, r, n) == Some(past.lines[(r.id, n)])
    {
      var slot := m.half[r.half].slots[Index(n)];
      assert Slots(m.half[r.half])[Index(n)] == AsSlot(slot);
      assert Known(slot.front.check, past.lines);
    }
  }

  /**
   * Crash safety: after any run, broken off between any two stores or write-backs,
   * what the next init takes for the previous boot has a header one boot stored
   * completely, and no torn or foreign slot is ever served from it.
   */
  lemma CrashSafety(s: State, steps: seq<Step>)
    requires PoweredOn(s) && Trace(s, steps)
    ensures var e := Final(s, steps);
            && Shape(e.ram)
            && (Recover(e.ram).Some? ==>
                  var r := Recover(e.ram).value;
                  && (r.count, r.id) in e.past.headers
                  && OnlyTrueLines(e.ram, r, e.past))
  {
    TraceKeeps(s, steps);
    var e := Final(s, steps);
    if Recover(e.ram).Some? {
      ServedIsTrue(e.ram, Recover(e.ram).value, e.past);
    }
  }

  /** The same for PREVIOUS as a running boot serves it, at every moment. */
  lemma PreviousIsTrue(s: State, steps: seq<Step>)
    requires PoweredOn(s) && Trace(s, steps)
    ensures var e := Final(s, steps);
            e.prev.Some? && e.phase != Start ==>
              && e.prev.value.half < 2 && Shape(e.view)
              && (e.prev.value.count, e.prev.value.id) in e.past.headers
              && OnlyTrueLines(e.view, e.prev.value, e.past)
  {
    TraceKeeps(s, steps);
    var e := Final(s, steps);
    if e.prev.Some? && e.phase != Start {
      ServedIsTrue(e.view, e.prev.value, e.past);
    }
  }

  /** Nothing a boot does changes the half it serves as PREVIOUS, so not what it serves of it. */
  lemma PreviousIsStable(s: State, step: Step)
    requires Inv(s) && Enabled(s, step) && !step.Reset? && !step.PowerCut?
    requires s.prev.Some? && s.phase != Start
    ensures Apply(s, step).prev == s.prev
    ensures Shape(Apply(s, step).view) && s.prev.value.half < 2
    ensures Slots(Apply(s, step).view.half[s.prev.value.half]) == Slots(s.view.half[s.prev.value.half])
    ensures forall n :: Served(Apply(s, step).view, s.prev.value, n) == Served(s.view, s.prev.value, n)
  {
    StepKeeps(s, step);
    var h := s.prev.value.half;
    assert Slots(Apply(s, step).view.half[h]) == Slots(s.view.half[h]);
  }

  // ---------------- what a reset must bring back ----------------

  datatype Part = InFront | InMiddle | InBack

  predicate Sealed(s: State, n: nat)
    requires WellShaped(s) && Running(s)
  {
    n >= 1 && AsSlot(s.view.half[Active(s)].slots[Index(n)]).seqNo == n
    && SlotValid(AsSlot(s.view.half[Active(s)].slots[Index(n)]), BootOf(s))
  }

  predicate Pushed(s: State, n: nat, part: Part)
    requires WellShaped(s) && Running(s) && n >= 1
  {
    var a, b := s.view.half[Active(s)].slots[Index(n)], s.ram.half[Active(s)].slots[Index(n)];
    match part
    case InFront => a.front == b.front
    case InMiddle => a.middle == b.middle
    case InBack => a.back == b.back
  }

  predicate Durable(s: State, n: nat)
    requires WellShaped(s) && Running(s)
  {
    Sealed(s, n) && forall part :: Pushed(s, n, part)
  }

  function PartPlace(s: State, n: nat, part: Part): Place
    requires n >= 1
  {
    match part
    case InFront => FrontLine(Active(s), Index(n))
    case InMiddle => MiddleLine(Active(s), Index(n))
    case InBack => BackLine(Active(s), Index(n))
  }

  /** The last store of a commit seals its line and records exactly the visible text. */
  lemma CommitSeals(s: State)
    requires Inv(s) && Enabled(s, SetCheck)
    ensures var s', n := Apply(s, SetCheck), s.latest;
            && Inv(s') && Running(s') && Sealed(s', n)
            && s'.past.lines == s.past.lines[(BootOf(s), n) :=
                 Line(n, Current(s).front.uptime, Visible(AsSlot(Current(s)).text))]
  {
    StepKeeps(s, SetCheck);
  }

  /** The three line write-backs of write_back, in whatever company, make a sealed line durable. */
  lemma WriteBackPushes(s: State, n: nat, part: Part)
    requires Inv(s) && Running(s) && n >= 1 && Enabled(s, WriteBack(PartPlace(s, n, part)))
    ensures var s' := Apply(s, WriteBack(PartPlace(s, n, part)));
            WellShaped(s') && Running(s') && Pushed(s', n, part)
  {
    StepKeeps(s, WriteBack(PartPlace(s, n, part)));
  }

  /** A line once sealed stays recorded as it is. */
  lemma LinesStay(s: State, step: Step, n: nat)
    requires Inv(s) && Running(s) && Enabled(s, step) && !step.Reset? && !step.PowerCut?
    requires (BootOf(s), n) in s.past.lines
    ensures var t := Apply(s, step);
            && WellShaped(t) && Running(t) && Active(t) == Active(s) && BootOf(t) == BootOf(s)
            && (BootOf(s), n) in t.past.lines
            && t.past.lines[(BootOf(s), n)] == s.past.lines[(BootOf(s), n)]
  {
    StepKeeps(s, step);
    assert step.SetCheck? ==> (BootOf(s), s.latest) !in s.past.lines;
  }

  predicate Stores(step: Step) { step.Begin? || step.Put? || step.SetUptime? || step.SetSeq? || step.SetCheck? }

  /** A store of a commit touches the slot in hand alone, and never RAM. */
  lemma StoreStays(s: State, step: Step, i: nat)
    requires Inv(s) && Running(s) && Enabled(s, step) && Stores(step) && i < LINES
    requires Apply(s, step).latest >= 1 ==> i != Index(Apply(s, step).latest)
    ensures var t := Apply(s, step);
            && Shape(t.view) && Active(t) == Active(s) && t.ram == s.ram && s.latest <= t.latest
            && t.view.half[Active(s)].slots[i] == s.view.half[Active(s)].slots[i]
  {
    hide SealsKnown, HeadersKnown, KeysDrawn, PrevApart, Progress, AllPlaced;
  }

  /** A sealed line within reach is not the one in hand. */
  lemma SealedIsElsewhere(s: State, step: Step, n: nat)
    requires Inv(s) && Running(s) && Sealed(s, n) && Enabled(s, step) && Stores(step)
    requires Apply(s, step).latest < n + LINES
    ensures Apply(s, step).latest >= 1 && Index(n) != Index(Apply(s, step).latest)
  {
    assert Placed(s.view.half[Active(s)].slots[Index(n)], Index(n), BootOf(s), s.latest);
    if step.Begin? {
      IndexInjective(n, s.latest + 1);
    } else {
      assert Known(Current(s).front.check, s.past.lines);
      assert n != s.latest;
      IndexInjective(n, s.latest);
    }
  }

  lemma WriteBackStays(s: State, step: Step, n: nat, part: Part)
    requires Inv(s) && Running(s) && Enabled(s, step) && !Stores(step) && !step.Reset? && !step.PowerCut? && n >= 1
    ensures var t := Apply(s, step);
            && WellShaped(t) && Running(t) && t.view == s.view && t.latest == s.latest
            && (Pushed(s, n, part) ==> Pushed(t, n, part))
  {
    StepKeeps(s, step);
    hide Placed, SealsKnown, HeadersKnown, KeysDrawn, PrevApart, Progress, Index, Committed, AllPlaced;
  }

  lemma SlotKept(s: State, step: Step, n: nat, part: Part)
    requires Inv(s) && Running(s) && Sealed(s, n)
    requires Enabled(s, step) && !step.Reset? && !step.PowerCut?
    requires Apply(s, step).latest < n + LINES
    ensures var s' := Apply(s, step);
            && WellShaped(s') && Running(s') && Active(s') == Active(s) && s.latest <= s'.latest
            && s'.view.half[Active(s)].slots[Index(n)] == s.view.half[Active(s)].slots[Index(n)]
            && (Pushed(s, n, part) ==> Pushed(s', n, part))
  {
    if Stores(step) {
      SealedIsElsewhere(s, step, n);
      StoreStays(s, step, Index(n));
      StepKeeps(s, step);
      hide Inv, Sealed, Index;
      assert Running(Apply(s, step));
    } else {
      WriteBackStays(s, step, n, part);
    }
  }

  /** Only the line 1024 later undoes that. */
  lemma SealedKept(s: State, step: Step, n: nat, part: Part)
    requires Inv(s) && Running(s) && Sealed(s, n)
    requires Enabled(s, step) && !step.Reset? && !step.PowerCut?
    requires Apply(s, step).latest < n + LINES
    ensures var s' := Apply(s, step);
            && Inv(s') && Running(s') && Sealed(s', n) && BootOf(s') == BootOf(s)
            && s.latest <= s'.latest
            && (Pushed(s, n, part) ==> Pushed(s', n, part))
  {
    StepKeeps(s, step);
    assert SlotValid(AsSlot(s.view.half[Active(s)].slots[Index(n)]), BootOf(s));
    assert Known(s.view.half[Active(s)].slots[Index(n)].front.check, s.past.lines);
    SlotKept(s, step, n, part);
    LinesStay(s, step, n);
    hide Inv, Apply, SlotValid, Index, Pushed;
  }

  /** From a running boot, a reset recovers that boot, up to a number it really reached. */
  lemma RunningRecovers(s: State)
    requires Inv(s) && Running(s)
    ensures Recover(s.ram).Some?
    ensures var r := Recover(s.ram).value;
            && r.half == Active(s) && r.id == BootOf(s) && r.latest <= s.latest
            && r.latest == Newest(Slots(s.ram.half[Active(s)]), BootOf(s))
  {
    var h := s.ram.half[Active(s)];
    var latest := Newest(Slots(h), BootOf(s));
    if latest != 0 {
      var i :| 0 <= i < LINES && SlotValid(Slots(h)[i], BootOf(s)) && Slots(h)[i].seqNo == latest;
      assert Slots(h)[i] == AsSlot(h.slots[i]);
      assert Known(h.slots[i].front.check, s.past.lines);
    }
  }

  /** A durable line is served after a reset at this very moment. */
  lemma DurableServed(s: State, n: nat)
    requires Inv(s) && Running(s) && Durable(s, n)
    ensures Recover(s.ram).Some? && (BootOf(s), n) in s.past.lines
    ensures var r := Recover(s.ram).value;
            && r.id == BootOf(s) && r.half == Active(s) && n <= r.latest <= s.latest
            && Served(s.ram, r, n) == Some(s.past.lines[(BootOf(s), n)])
  {
    RunningRecovers(s);
    var h := s.ram.half[Active(s)];
    assert Pushed(s, n, InFront) && Pushed(s, n, InMiddle) && Pushed(s, n, InBack);
    assert Slots(h)[Index(n)] == AsSlot(h.slots[Index(n)]);
    assert SlotValid(Slots(h)[Index(n)], BootOf(s));
    assert Known(h.slots[Index(n)].front.check, s.past.lines);
    assert Placed(s.view.half[Active(s)].slots[Index(n)], Index(n), BootOf(s), s.latest);
  }
}
