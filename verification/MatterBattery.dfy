/**
 * What the Matter battery endpoint publishes (main/matter_battery_model.h and
 * `publish` in main/matter_battery.cpp): five attributes, a cache of what was last
 * written, and updates that may fail one by one.
 */
module MatterBattery {
  import opened Bytes

  const NULL: int := -1          // the attribute's null, or "keep" for the charge level
  const UNSENT: int := -2
  const STALE_MS: nat := 60000
  const VOLTAGE_GAP_MS: nat := 60000

  datatype Sample = Sample(
    atMs: nat, percent: int, millivolts: int,
    valid: bool, present: bool, estimated: bool, usb: bool, charging: bool, full: bool)

  datatype Values = Values(percentHalf: int, millivolts: int, status: int, charge: int, level: int)

  /** matter_battery_convert. */
  function Convert(s: Sample, now: nat): Values {
    if !s.valid || now < s.atMs || now - s.atMs >= STALE_MS then Values(NULL, NULL, 0, 0, NULL)
    else if !s.present then Values(NULL, NULL, 3, 0, NULL)
    else
      var known := !s.estimated && 0 <= s.percent <= 100;
      Values(
        if known then s.percent * 2 else NULL,
        if 2500 <= s.millivolts <= 4350 then s.millivolts else NULL,
        if s.usb then 2 else 1,
        if !s.usb then 3 else if s.full then 2 else if s.charging then 1 else 3,
        if !known then NULL else if s.percent <= 5 then 2 else if s.percent < 15 then 1 else 0)
  }

  /** matter_battery_voltage_due, for a clock that does not run backwards. */
  predicate VoltageDue(previous: int, next: int, last: nat, now: nat) {
    previous != next && (previous < 0 || next < 0 || now - last >= VOLTAGE_GAP_MS)
  }

  /** What the conversion promises whoever reads the attributes. */
  lemma ConvertRange(s: Sample, now: nat)
    ensures var v := Convert(s, now);
            && (v.percentHalf == NULL || (0 <= v.percentHalf <= 200 && v.percentHalf % 2 == 0))
            && (v.millivolts == NULL || 2500 <= v.millivolts <= 4350)
            && v.status in {0, 1, 2, 3} && v.charge in {0, 1, 2, 3} && v.level in {NULL, 0, 1, 2}
            && (v.status == 0 <==> !s.valid || now < s.atMs || now - s.atMs >= STALE_MS)
            && (v.charge == 2 ==> s.usb && s.full)
            && (v.percentHalf == NULL <==> v.level == NULL)
            && (v.level == 2 ==> v.percentHalf <= 10) && (v.level == 1 ==> 10 < v.percentHalf < 30)
            && (v.level == 0 ==> v.percentHalf >= 30)
  {
  }

  // ---------------- publishing ----------------

  datatype Attribute = Percent | Voltage | Status | Charge | Level

  /** A successful attribute update. */
  datatype Write = Write(attribute: Attribute, value: int, at: nat)

  /** Which updates the stack accepts in one publication. */
  datatype Accepts = Accepts(percent: bool, voltage: bool, status: bool, charge: bool, level: bool)

  datatype Published = Published(sent: Values, voltageAt: nat, log: seq<Write>)

  const NOTHING_SENT := Published(Values(UNSENT, UNSENT, UNSENT, UNSENT, UNSENT), 0, [])

  function Cached(v: Values, a: Attribute): int {
    match a
    case Percent => v.percentHalf
    case Voltage => v.millivolts
    case Status => v.status
    case Charge => v.charge
    case Level => v.level
  }

  function WithCached(v: Values, a: Attribute, value: int): Values {
    match a
    case Percent => v.(percentHalf := value)
    case Voltage => v.(millivolts := value)
    case Status => v.(status := value)
    case Charge => v.(charge := value)
    case Level => v.(level := value)
  }

  /** A successful update, and the cache following it. */
  function Put(p: Published, w: Write): Published {
    Published(WithCached(p.sent, w.attribute, w.value),
              if w.attribute == Voltage then w.at else p.voltageAt, p.log + [w])
  }

  predicate Due(sent: Values, voltageAt: nat, next: Values, a: Attribute, now: nat) {
    match a
    case Voltage => VoltageDue(sent.millivolts, next.millivolts, voltageAt, now)
    case Level => next.level >= 0 && next.level != sent.level
    case _ => Cached(next, a) != Cached(sent, a)
  }

  predicate Accepted(ok: Accepts, a: Attribute) {
    match a
    case Percent => ok.percent
    case Voltage => ok.voltage
    case Status => ok.status
    case Charge => ok.charge
    case Level => ok.level
  }

  /** One attribute's turn: when it is due and the update is accepted. */
  function Turn(p: Published, next: Values, a: Attribute, ok: Accepts, now: nat): Published {
    if Due(p.sent, p.voltageAt, next, a, now) && Accepted(ok, a) then Put(p, Write(a, Cached(next, a), now)) else p
  }

  /** One publication. */
  function AfterPublish(p: Published, s: Sample, now: nat, ok: Accepts): Published {
    var next := Convert(s, now);
    var p1 := Turn(p, next, Percent, ok, now);
    var p2 := Turn(p1, next, Voltage, ok, now);
    var p3 := Turn(p2, next, Status, ok, now);
    var p4 := Turn(p3, next, Charge, ok, now);
    Turn(p4, next, Level, ok, now)
  }

  class Publisher {
    var sent: Values
    var voltageAt: nat
    ghost var log: seq<Write>

    constructor ()
      ensures View() == NOTHING_SENT
    {
      sent, voltageAt, log := Values(UNSENT, UNSENT, UNSENT, UNSENT, UNSENT), 0, [];
    }

    ghost function View(): Published
      reads this
    {
      Published(sent, voltageAt, log)
    }

    /** An update through the stack, and the cache when it succeeds. */
    method Update(attribute: Attribute, value: int, now: nat, accepts: bool)
      modifies this
      ensures View() == if accepts then Put(old(View()), Write(attribute, value, now)) else old(View())
    {
      if !accepts {
        return;
      }
      log := log + [Write(attribute, value, now)];
      sent := WithCached(sent, attribute, value);
      if attribute == Voltage {
        voltageAt := now;
      }
    }

    method TakeTurn(next: Values, a: Attribute, accepts: Accepts, now: nat)
      modifies this
      ensures View() == Turn(old(View()), next, a, accepts, now)
    {
      if Due(sent, voltageAt, next, a, now) {
        Update(a, Cached(next, a), now, Accepted(accepts, a));
      }
    }

    method Publish(s: Sample, now: nat, accepts: Accepts)
      modifies this
      ensures View() == AfterPublish(old(View()), s, now, accepts)
      ensures old(Ok(View(), now)) ==> Ok(View(), now) && Shows(old(log), log, s, now, accepts)
    {
      hide Turn, Convert;
      ghost var before := View();
      var next := Convert(s, now);
      TakeTurn(next, Percent, accepts, now);
      TakeTurn(next, Voltage, accepts, now);
      TakeTurn(next, Status, accepts, now);
      TakeTurn(next, Charge, accepts, now);
      TakeTurn(next, Level, accepts, now);
      if Ok(before, now) {
        PublishKeeps(before, s, now, now, accepts);
        PublishShows(before, s, now, accepts);
      }
      hide Ok, Shows;
    }
  }

  // ---------------- any history of publications ----------------

  function LastWrite(log: seq<Write>, a: Attribute): Option<Write> {
    if log == [] then None
    else if log[|log| - 1].attribute == a then Some(log[|log| - 1])
    else LastWrite(log[..|log| - 1], a)
  }

  lemma LastWriteSnoc(log: seq<Write>, w: Write, a: Attribute)
    ensures LastWrite(log + [w], a) == if w.attribute == a then Some(w) else LastWrite(log, a)
  {
    assert (log + [w])[..|log|] == log;
  }

  /** The cache is what was last written successfully. */
  ghost predicate CacheTrue(p: Published) {
    forall a :: Cached(p.sent, a) == match LastWrite(p.log, a) case None => UNSENT case Some(w) => w.value
  }

  predicate WriteOk(w: Write) {
    && (w.attribute == Percent ==> w.value == NULL || (0 <= w.value <= 200 && w.value % 2 == 0))
    && (w.attribute == Voltage ==> w.value == NULL || 2500 <= w.value <= 4350)
    && (w.attribute == Level ==> w.value in {0, 1, 2})
  }

  /** A voltage that follows a voltage follows it by a minute at least. */
  ghost predicate SpacedAt(log: seq<Write>, i: nat)
    requires i < |log|
  {
    log[i].attribute == Voltage && log[i].value >= 0 ==>
      match LastWrite(log[..i], Voltage)
      case None => true
      case Some(before) => before.value >= 0 ==> before.at + VOLTAGE_GAP_MS <= log[i].at
  }

  ghost predicate Ok(p: Published, now: nat) {
    && CacheTrue(p)
    && (forall i :: 0 <= i < |p.log| ==> WriteOk(p.log[i]) && SpacedAt(p.log, i) && p.log[i].at <= now)
    && p.voltageAt == match LastWrite(p.log, Voltage) case None => 0 case Some(w) => w.at
  }

  lemma PutKeeps(p: Published, w: Write, now: nat)
    requires Ok(p, now) && w.at == now && WriteOk(w)
    requires w.attribute == Voltage ==> VoltageDue(p.sent.millivolts, w.value, p.voltageAt, now)
    ensures Ok(Put(p, w), now)
  {
    var p' := Put(p, w);
    forall a: Attribute
      ensures LastWrite(p'.log, a) == if w.attribute == a then Some(w) else LastWrite(p.log, a)
    {
      LastWriteSnoc(p.log, w, a);
    }
    forall i | 0 <= i < |p'.log|
      ensures WriteOk(p'.log[i]) && SpacedAt(p'.log, i) && p'.log[i].at <= now
    {
      if i < |p.log| {
        assert SpacedAt(p.log, i) && p'.log[..i] == p.log[..i] && p'.log[i] == p.log[i];
      } else {
        assert p'.log[..i] == p.log;
        assert Cached(p.sent, Voltage) == p.sent.millivolts;
      }
    }
  }

  /** One attribute's turn keeps it all. */
  lemma TurnKeeps(p: Published, s: Sample, a: Attribute, ok: Accepts, now: nat)
    requires Ok(p, now)
    ensures Ok(Turn(p, Convert(s, now), a, ok, now), now)
  {
    var next := Convert(s, now);
    ConvertRange(s, now);
    hide Ok, Convert, Put;
    if Due(p.sent, p.voltageAt, next, a, now) {
      PutKeeps(p, Write(a, Cached(next, a), now), now);
    }
  }

  lemma TimePasses(p: Published, before: nat, now: nat)
    requires Ok(p, before) && before <= now
    ensures Ok(p, now)
  {
  }

  lemma PublishKeeps(p: Published, s: Sample, before: nat, now: nat, ok: Accepts)
    requires Ok(p, before) && before <= now
    ensures Ok(AfterPublish(p, s, now, ok), now)
  {
    TimePasses(p, before, now);
    hide Ok, Convert, Turn;
    var next := Convert(s, now);
    TurnKeeps(p, s, Percent, ok, now);
    var p1 := Turn(p, next, Percent, ok, now);
    TurnKeeps(p1, s, Voltage, ok, now);
    var p2 := Turn(p1, next, Voltage, ok, now);
    TurnKeeps(p2, s, Status, ok, now);
    var p3 := Turn(p2, next, Status, ok, now);
    TurnKeeps(p3, s, Charge, ok, now);
    TurnKeeps(Turn(p3, next, Charge, ok, now), s, Level, ok, now);
  }

  // ---------------- what a reader sees after a publication ----------------

  predicate Current(s: Sample, now: nat) { s.valid && s.atMs <= now < s.atMs + 60000 }

  predicate PercentKnown(s: Sample, now: nat) {
    Current(s, now) && s.present && !s.estimated && 0 <= s.percent <= 100
  }

  /** The value last written to an attribute. */
  predicate Reads(log: seq<Write>, a: Attribute, value: int) {
    LastWrite(log, a).Some? && LastWrite(log, a).value.value == value
  }

  /** Status: unspecified, active on battery, standby on USB, or unavailable. */
  predicate ShowsStatus(log: seq<Write>, s: Sample, now: nat) {
    && (Reads(log, Status, 0) <==> !Current(s, now))
    && (Reads(log, Status, 1) <==> Current(s, now) && s.present && !s.usb)
    && (Reads(log, Status, 2) <==> Current(s, now) && s.present && s.usb)
    && (Reads(log, Status, 3) <==> Current(s, now) && !s.present)
  }

  /** Charge state: unknown, charging, at full charge, or not charging. */
  predicate ShowsCharge(log: seq<Write>, s: Sample, now: nat) {
    var seen := Current(s, now) && s.present;
    && (Reads(log, Charge, 0) <==> !seen)
    && (Reads(log, Charge, 1) <==> seen && s.usb && s.charging && !s.full)
    && (Reads(log, Charge, 2) <==> seen && s.usb && s.full)
    && (Reads(log, Charge, 3) <==> seen && (!s.usb || (!s.charging && !s.full)))
  }

  /** The percentage in half percents, or null. */
  predicate ShowsPercent(log: seq<Write>, s: Sample, now: nat) {
    if PercentKnown(s, now) then
      var last := LastWrite(log, Percent);
      last.Some? && last.value.value % 2 == 0 && last.value.value / 2 == s.percent
    else Reads(log, Percent, NULL)
  }

  /** The level: critical up to 5, warning below 15, OK from there; kept while the percentage is unknown. */
  predicate ShowsLevel(was: seq<Write>, log: seq<Write>, s: Sample, now: nat) {
    if PercentKnown(s, now) then
      && (Reads(log, Level, 2) <==> s.percent <= 5)
      && (Reads(log, Level, 1) <==> 6 <= s.percent <= 14)
      && (Reads(log, Level, 0) <==> s.percent >= 15)
    else LastWrite(log, Level) == LastWrite(was, Level)
  }

  /** The voltage or null; one that moved within a minute of the last write stays as it is. */
  predicate ShowsVoltage(was: seq<Write>, log: seq<Write>, s: Sample, now: nat) {
    var before := LastWrite(was, Voltage);
    if !(Current(s, now) && s.present && 2500 <= s.millivolts <= 4350) then Reads(log, Voltage, NULL)
    else if before.Some? && before.value.value >= 0 && now < before.value.at + 60000 then
      LastWrite(log, Voltage) == before
    else Reads(log, Voltage, s.millivolts)
  }

  /** What a publication shows, attribute by attribute the stack accepts. */
  ghost predicate Shows(was: seq<Write>, log: seq<Write>, s: Sample, now: nat, ok: Accepts) {
    && (ok.status ==> ShowsStatus(log, s, now))
    && (ok.charge ==> ShowsCharge(log, s, now))
    && (ok.percent ==> ShowsPercent(log, s, now))
    && (ok.level ==> ShowsLevel(was, log, s, now))
    && (ok.voltage ==> ShowsVoltage(was, log, s, now))
  }

  /** An accepted turn leaves the new value in place, except where the level or the voltage is held. */
  lemma TurnLands(p: Published, next: Values, a: Attribute, ok: Accepts, now: nat)
    requires Accepted(ok, a)
    ensures var p' := Turn(p, next, a, ok, now);
            if Due(p.sent, p.voltageAt, next, a, now)
            then LastWrite(p'.log, a) == Some(Write(a, Cached(next, a), now)) else p' == p
  {
    LastWriteSnoc(p.log, Write(a, Cached(next, a), now), a);
  }

  /** A turn leaves the other attributes' cache and log alone. */
  lemma TurnSpares(p: Published, next: Values, a: Attribute, ok: Accepts, now: nat, b: Attribute)
    requires a != b
    ensures var p' := Turn(p, next, a, ok, now);
            && Cached(p'.sent, b) == Cached(p.sent, b) && LastWrite(p'.log, b) == LastWrite(p.log, b)
            && (b == Voltage ==> p'.voltageAt == p.voltageAt)
  {
    LastWriteSnoc(p.log, Write(a, Cached(next, a), now), b);
  }

  /** Whether and what a publication writes to an attribute is decided by the state it starts from. */
  lemma PublishLands(p: Published, s: Sample, now: nat, ok: Accepts, a: Attribute)
    requires Accepted(ok, a)
    ensures var next, p' := Convert(s, now), AfterPublish(p, s, now, ok);
            LastWrite(p'.log, a) == if Due(p.sent, p.voltageAt, next, a, now)
                                    then Some(Write(a, Cached(next, a), now)) else LastWrite(p.log, a)
  {
    var next := Convert(s, now);
    hide Turn, Convert, LastWrite, Accepted;
    var p1 := Turn(p, next, Percent, ok, now);
    var p2 := Turn(p1, next, Voltage, ok, now);
    var p3 := Turn(p2, next, Status, ok, now);
    var p4 := Turn(p3, next, Charge, ok, now);
    TurnStep(p, next, Percent, ok, now, a);
    TurnStep(p1, next, Voltage, ok, now, a);
    TurnStep(p2, next, Status, ok, now, a);
    TurnStep(p3, next, Charge, ok, now, a);
    TurnStep(p4, next, Level, ok, now, a);
  }

  lemma TurnStep(p: Published, next: Values, b: Attribute, ok: Accepts, now: nat, a: Attribute)
    requires Accepted(ok, a)
    ensures var p' := Turn(p, next, b, ok, now);
            if a == b then
              LastWrite(p'.log, a) == if Due(p.sent, p.voltageAt, next, a, now)
                                      then Some(Write(a, Cached(next, a), now)) else LastWrite(p.log, a)
            else LastWrite(p'.log, a) == LastWrite(p.log, a)
                 && Due(p'.sent, p'.voltageAt, next, a, now) == Due(p.sent, p.voltageAt, next, a, now)
  {
    if a == b {
      TurnLands(p, next, a, ok, now);
    } else {
      TurnSpares(p, next, b, ok, now, a);
    }
  }

  /**
   * After a publication an accepted attribute reads as the sample it was given: the
   * percentage halves back to the sample's, the voltage is the sample's or still
   * within its minute, status, charge state and level are exactly the sample's.
   */
  lemma PublishShows(p: Published, s: Sample, now: nat, ok: Accepts)
    requires Ok(p, now)
    ensures Shows(p.log, AfterPublish(p, s, now, ok).log, s, now, ok)
  {
    forall a: Attribute | Accepted(ok, a)
      ensures Landed(p, AfterPublish(p, s, now, ok), s, now, a)
    {
      PublishLands(p, s, now, ok, a);
    }
    var p' := AfterPublish(p, s, now, ok);
    assert CacheTrue(p) && LastVoltageAt(p);
    hide AfterPublish, Ok, Landed, CacheTrue, LastVoltageAt;
    hide ShowsStatus, ShowsCharge, ShowsPercent, ShowsLevel, ShowsVoltage;
    if ok.status { StatusShows(p, p', s, now); }
    if ok.charge { ChargeShows(p, p', s, now); }
    if ok.percent { PercentShows(p, p', s, now); }
    if ok.level { LevelShows(p, p', s, now); }
    if ok.voltage { VoltageShows(p, p', s, now); }
  }

  ghost predicate Landed(p: Published, p': Published, s: Sample, now: nat, a: Attribute) {
    LastWrite(p'.log, a) == if Due(p.sent, p.voltageAt, Convert(s, now), a, now)
                            then Some(Write(a, Cached(Convert(s, now), a), now)) else LastWrite(p.log, a)
  }

  ghost predicate LastVoltageAt(p: Published) {
    p.voltageAt == match LastWrite(p.log, Voltage) case None => 0 case Some(w) => w.at
  }

  lemma StatusShows(p: Published, p': Published, s: Sample, now: nat)
    requires CacheTrue(p) && Landed(p, p', s, now, Status)
    ensures ShowsStatus(p'.log, s, now)
  {
    assert Cached(p.sent, Status) == p.sent.status;
  }

  lemma ChargeShows(p: Published, p': Published, s: Sample, now: nat)
    requires CacheTrue(p) && Landed(p, p', s, now, Charge)
    ensures ShowsCharge(p'.log, s, now)
  {
    assert Cached(p.sent, Charge) == p.sent.charge;
  }

  lemma PercentShows(p: Published, p': Published, s: Sample, now: nat)
    requires CacheTrue(p) && Landed(p, p', s, now, Percent)
    ensures ShowsPercent(p'.log, s, now)
  {
    assert Cached(p.sent, Percent) == p.sent.percentHalf;
  }

  lemma LevelShows(p: Published, p': Published, s: Sample, now: nat)
    requires CacheTrue(p) && Landed(p, p', s, now, Level)
    ensures ShowsLevel(p.log, p'.log, s, now)
  {
    assert Cached(p.sent, Level) == p.sent.level;
  }

  lemma VoltageShows(p: Published, p': Published, s: Sample, now: nat)
    requires CacheTrue(p) && LastVoltageAt(p) && Landed(p, p', s, now, Voltage)
    ensures ShowsVoltage(p.log, p'.log, s, now)
  {
    assert Cached(p.sent, Voltage) == p.sent.millivolts;
  }

  datatype Publication = Publication(s: Sample, now: nat, ok: Accepts)

  predicate InOrder(history: seq<Publication>) {
    forall i, j :: 0 <= i < j < |history| ==> history[i].now <= history[j].now
  }

  function AfterAll(history: seq<Publication>): Published {
    if history == [] then NOTHING_SENT else
      var last := history[|history| - 1];
      AfterPublish(AfterAll(history[..|history| - 1]), last.s, last.now, last.ok)
  }

  lemma {:induction false} HistoryIsOk(history: seq<Publication>)
    requires InOrder(history)
    ensures Ok(AfterAll(history), if history == [] then 0 else history[|history| - 1].now)
    decreases |history|
  {
    if history != [] {
      HistoryIsOk(history[..|history| - 1]);
      var last := history[|history| - 1];
      PublishKeeps(AfterAll(history[..|history| - 1]), last.s,
                   if |history| == 1 then 0 else history[|history| - 2].now, last.now, last.ok);
    }
  }

  /**
   * Over every history of publications with any updates failing: the cache is what
   * was last written; percentages are null or even and at most 200; a voltage
   * written right after another voltage comes at least a minute later.
   */
  lemma PublicationsAreSound(history: seq<Publication>)
    requires InOrder(history)
    ensures var p := AfterAll(history);
            && CacheTrue(p)
            && (forall i :: 0 <= i < |p.log| ==> WriteOk(p.log[i]) && SpacedAt(p.log, i))
  {
    HistoryIsOk(history);
  }

  /** Over every history, each publication shows the sample it was given. */
  lemma {:induction false} PublicationsShow(history: seq<Publication>)
    requires InOrder(history) && history != []
    ensures var last := history[|history| - 1];
            Shows(AfterAll(history[..|history| - 1]).log, AfterAll(history).log, last.s, last.now, last.ok)
  {
    var before, last := history[..|history| - 1], history[|history| - 1];
    HistoryIsOk(before);
    TimePasses(AfterAll(before), if before == [] then 0 else before[|before| - 1].now, last.now);
    PublishShows(AfterAll(before), last.s, last.now, last.ok);
  }

  /** A minute without a sample: one accepted publication leaves percentage and voltage null. */
  lemma {:induction false} StaleIsNulled(history: seq<Publication>, s: Sample, now: nat, ok: Accepts)
    requires s.atMs + STALE_MS <= now && ok.percent && ok.voltage
    requires InOrder(history) && (history == [] || history[|history| - 1].now <= now)
    ensures var log := AfterPublish(AfterAll(history), s, now, ok).log;
            && LastWrite(log, Percent).Some? && LastWrite(log, Percent).value.value == NULL
            && LastWrite(log, Voltage).Some? && LastWrite(log, Voltage).value.value == NULL
  {
    var p := AfterAll(history);
    HistoryIsOk(history);
    TimePasses(p, if history == [] then 0 else history[|history| - 1].now, now);
    PublishShows(p, s, now, ok);
    hide AfterPublish, AfterAll, LastWrite;
  }

  /** A second publication of the same sample at the same moment writes nothing more. */
  lemma PublishingAgainWritesNothing(p: Published, s: Sample, now: nat, ok: Accepts, again: Accepts)
    requires ok == Accepts(true, true, true, true, true)
    ensures var p' := AfterPublish(p, s, now, ok); AfterPublish(p', s, now, again) == p'
  {
    var next := Convert(s, now);
    hide Turn, Convert;
    var p1 := Turn(p, next, Percent, ok, now);
    var p2 := Turn(p1, next, Voltage, ok, now);
    var p3 := Turn(p2, next, Status, ok, now);
    var p4 := Turn(p3, next, Charge, ok, now);
    var p5 := Turn(p4, next, Level, ok, now);
    forall a: Attribute
      ensures Turn(p5, next, a, again, now) == p5
    {
      TurnSettles(p, next, Percent, ok, now, a);
      TurnSettles(p1, next, Voltage, ok, now, a);
      TurnSettles(p2, next, Status, ok, now, a);
      TurnSettles(p3, next, Charge, ok, now, a);
      TurnSettles(p4, next, Level, ok, now, a);
      TurnOnlyIfDue(p5, next, a, again, now);
    }
  }

  lemma TurnSettles(p: Published, next: Values, b: Attribute, ok: Accepts, now: nat, a: Attribute)
    requires Accepted(ok, b)
    ensures var p' := Turn(p, next, b, ok, now);
            && (a == b || !Due(p.sent, p.voltageAt, next, a, now) ==> !Due(p'.sent, p'.voltageAt, next, a, now))
  {
  }

  lemma TurnOnlyIfDue(p: Published, next: Values, a: Attribute, ok: Accepts, now: nat)
    requires !Due(p.sent, p.voltageAt, next, a, now)
    ensures Turn(p, next, a, ok, now) == p
  {
  }
}
