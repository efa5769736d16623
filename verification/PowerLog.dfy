/**
 * The battery history ring (main/power_log.c) and its paging (`h_power_history`,
 * main/otbr_rest.c), against the plain list of the boot's samples.
 */
module PowerLog {
  import opened Bytes

  const CAPACITY: nat := 8640
  const PAGE_LIMIT: nat := 120
  const UNKNOWN: int := -1
  const NO_TEMPERATURE: int := -32768

  /** A reading of the power chip; temperature is absent when it could not be taken. */
  datatype Status = Status(
    percent: int, battMv: int, vbusMv: int, vsysMv: int, pmicTemp: Option<int>,
    rawSt1: byte, rawSt2: byte, present: bool, vbus: bool, charging: bool, full: bool, estimated: bool)

  datatype Sample = Sample(
    uptime: int, percent: int, battMv: int, vbusMv: int, vsysMv: int, pmicTemp: int,
    screenPercent: nat, rawSt1: byte, rawSt2: byte,
    valid: bool, present: bool, usb: bool, charging: bool, full: bool, estimated: bool)

  datatype Row = Row(seqNo: nat, sample: Sample)

  /** The sample noted for a reading; a failed reading keeps only the time and the screen. */
  function Noted(s: Status, ok: bool, screen: nat, now: int): (r: Sample)
    ensures r.valid == ok && r.screenPercent <= 100
    ensures !ok ==> !r.present && !r.usb && !r.charging && !r.full && !r.estimated
                    && r.percent == r.battMv == r.vbusMv == r.vsysMv == UNKNOWN
                    && r.pmicTemp == NO_TEMPERATURE && r.rawSt1 == r.rawSt2 == 0
  {
    var screenPercent := if screen > 100 then 100 else screen;
    if ok then
      Sample(now, s.percent, s.battMv, s.vbusMv, s.vsysMv,
             if s.pmicTemp.Some? then s.pmicTemp.value else NO_TEMPERATURE,
             screenPercent, s.rawSt1, s.rawSt2, true, s.present, s.vbus, s.charging, s.full, s.estimated)
    else
      Sample(now, UNKNOWN, UNKNOWN, UNKNOWN, UNKNOWN, NO_TEMPERATURE, screenPercent, 0, 0,
             false, false, false, false, false, false)
  }

  /** The reading a row speaks of. */
  function ReadBack(r: Sample): Status {
    Status(
      percent := r.percent, battMv := r.battMv, vbusMv := r.vbusMv, vsysMv := r.vsysMv,
      pmicTemp := if r.pmicTemp == NO_TEMPERATURE then None else Some(r.pmicTemp),
      rawSt1 := r.rawSt1, rawSt2 := r.rawSt2,
      present := r.present, vbus := r.usb, charging := r.charging, full := r.full, estimated := r.estimated)
  }

  /** A row tells when, at what screen brightness and, of a reading that succeeded, everything read. */
  predicate Tells(r: Sample, s: Status, ok: bool, screen: nat, now: int) {
    && r.uptime == now && r.screenPercent == Min(screen, 100) && r.valid == ok
    && (ok && s.pmicTemp != Some(NO_TEMPERATURE) ==> ReadBack(r) == s)
  }

  lemma NotedTells(s: Status, ok: bool, screen: nat, now: int)
    ensures Tells(Noted(s, ok, screen, now), s, ok, screen, now)
  {
  }

  function Index(seqNo: nat): (i: nat)
    requires seqNo >= 1
    ensures i < CAPACITY
  {
    (seqNo - 1) % CAPACITY
  }

  lemma IndexInjective(a: nat, b: nat)
    requires 1 <= a < b < a + CAPACITY
    ensures Index(a) != Index(b)
  {
    var p, q := (a - 1) / CAPACITY, (b - 1) / CAPACITY;
    assert a - 1 == p * CAPACITY + Index(a) && b - 1 == q * CAPACITY + Index(b);
    assert q - p <= 0 || q - p >= 1;
  }

  function Oldest(latest: nat): nat {
    if latest == 0 then 0 else if latest > CAPACITY then latest - CAPACITY + 1 else 1
  }

  predicate Kept(n: nat, latest: nat) { 1 <= n <= latest < n + CAPACITY }

  ghost predicate Represents(slots: seq<Row>, history: seq<Sample>) {
    && |slots| == CAPACITY
    && forall n: nat :: Kept(n, |history|) ==> slots[Index(n)] == Row(n, history[n - 1])
  }

  lemma AppendRepresents(slots: seq<Row>, history: seq<Sample>, s: Sample)
    requires Represents(slots, history)
    ensures var n := |history| + 1; Represents(slots[Index(n) := Row(n, s)], history + [s])
  {
    var n := |history| + 1;
    forall k: nat | Kept(k, n)
      ensures slots[Index(n) := Row(n, s)][Index(k)] == Row(k, (history + [s])[k - 1])
    {
      if k < n {
        IndexInjective(k, n);
        assert Kept(k, |history|);
      }
    }
  }

  /** Every kept sample with its number, oldest first. */
  function Rows(history: seq<Sample>, from: nat, limit: nat): (r: seq<Row>)
    requires from >= 1
    ensures |r| == if from > |history| then 0 else Min(limit, |history| + 1 - from)
    ensures forall i :: 0 <= i < |r| ==> r[i] == Row(from + i, history[from + i - 1])
  {
    seq(if from > |history| then 0 else Min(limit, |history| + 1 - from),
        i requires 0 <= i && from + i <= |history| => Row(from + i, history[from + i - 1]))
  }

  datatype Page = Page(boot: nat, oldest: nat, latest: nat, rows: seq<Row>)

  /** What a request for at most `limit` numbers after `after` is answered with. */
  function PageUpTo(boot: nat, history: seq<Sample>, after: nat, limit: nat): Page {
    var latest := |history|;
    Page(boot, Oldest(latest), latest,
         if after >= latest then []
         else Rows(history, if after + 1 < Oldest(latest) then Oldest(latest) else after + 1, limit))
  }

  function PageOf(boot: nat, history: seq<Sample>, after: nat): Page {
    PageUpTo(boot, history, after, PAGE_LIMIT)
  }

  lemma PageOfIs(boot: nat, history: seq<Sample>, after: nat)
    ensures PageOf(boot, history, after) == PageUpTo(boot, history, after, PAGE_LIMIT)
  {
  }

  // ---------------- what the recorder checks of a page ----------------

  /** Measurements are unknown or in range (validate_page, tools/battery_record.py). */
  predicate Measured(s: Sample) {
    && (s.percent == UNKNOWN || 0 <= s.percent <= 100)
    && (s.battMv == UNKNOWN || 0 <= s.battMv <= 32767)
    && (s.vbusMv == UNKNOWN || 0 <= s.vbusMv <= 32767)
    && (s.vsysMv == UNKNOWN || 0 <= s.vsysMv <= 32767)
    && (s.pmicTemp == NO_TEMPERATURE || -32767 <= s.pmicTemp <= 32767)
    && s.screenPercent <= 100
  }

  predicate Validates(p: Page, uptime: int) {
    && p.oldest <= p.latest && |p.rows| <= PAGE_LIMIT
    && forall i :: 0 <= i < |p.rows| ==>
         && p.oldest <= p.rows[i].seqNo <= p.latest
         && (if i == 0 then 0 else p.rows[i - 1].seqNo) < p.rows[i].seqNo
         && 0 <= p.rows[i].sample.uptime <= uptime && Measured(p.rows[i].sample)
  }

  /** A reading of the chip: each value is unknown or what its register can hold. */
  predicate ChipReading(s: Status) {
    && -1 <= s.percent <= 100 && -1 <= s.battMv <= 32767 && -1 <= s.vbusMv <= 32767 && -1 <= s.vsysMv <= 32767
    && (s.pmicTemp.Some? ==> -32767 <= s.pmicTemp.value <= 32767)
  }

  lemma ReadingsAreMeasured(s: Status, ok: bool, screen: nat, now: int)
    requires ChipReading(s)
    ensures Measured(Noted(s, ok, screen, now))
  {
  }

  /** So no page of the device, whatever was asked for, is refused by the recorder's checks. */
  lemma PagesValidate(boot: nat, history: seq<Sample>, after: nat, limit: nat, uptime: int)
    requires limit <= PAGE_LIMIT
    requires forall s :: s in history ==> 0 <= s.uptime <= uptime && Measured(s)
    ensures Validates(PageUpTo(boot, history, after, limit), uptime)
  {
    var page := PageUpTo(boot, history, after, limit);
    forall i | 0 <= i < |page.rows|
      ensures 0 <= page.rows[i].sample.uptime <= uptime && Measured(page.rows[i].sample)
    {
      assert history[page.rows[i].seqNo - 1] in history;
    }
    hide Measured;
  }

  class Ring {
    const boot: nat
    const samples: array<Row>
    var latest: nat
    var count: nat
    ghost var history: seq<Sample>

    ghost predicate Valid()
      reads this, samples
    {
      latest == |history| && count == Min(latest, CAPACITY) && Represents(samples[..], history)
    }

    constructor (boot: nat, blank: Row)
      ensures Valid() && this.boot == boot && history == [] && fresh(samples)
    {
      this.boot := boot;
      samples := new Row[CAPACITY](_ => blank);
      latest, count, history := 0, 0, [];
    }

    /** power_log_note. */
    method Note(s: Status, ok: bool, screen: nat, now: int)
      requires Valid()
      modifies this, samples
      ensures Valid() && history == old(history) + [Noted(s, ok, screen, now)]
      ensures Tells(history[|history| - 1], s, ok, screen, now)
    {
      var sample := Noted(s, ok, screen, now);
      NotedTells(s, ok, screen, now);
      hide Tells;
      AppendRepresents(samples[..], history, sample);
      latest := latest + 1;
      ghost var was := samples[..];
      samples[Index(latest)] := Row(latest, sample);
      assert samples[..] == was[Index(latest) := Row(latest, sample)];
      if count < CAPACITY {
        count := count + 1;
      }
      history := history + [sample];
    }

    /** power_log_get succeeds for exactly the newest 8640 numbers, with the sample noted under each. */
    method Get(n: nat) returns (r: Option<Row>)
      requires Valid()
      ensures r == if Kept(n, |history|) then Some(Row(n, history[n - 1])) else None
    {
      if n != 0 && n <= latest && n > latest - count {
        assert Kept(n, |history|);
        return Some(samples[Index(n)]);
      }
      return None;
    }

    /** power_log_info. */
    method Info() returns (oldest: nat, newest: nat)
      requires Valid()
      ensures newest == |history| && oldest == Oldest(newest)
      ensures forall n: nat :: Kept(n, |history|) <==> 1 <= oldest <= n <= newest
    {
      newest := latest;
      oldest := if count != 0 then latest - count + 1 else 0;
    }

    /** The request loop of h_power_history. */
    method Fetch(after: nat, limit: nat) returns (page: Page)
      requires Valid() && 1 <= limit <= PAGE_LIMIT
      ensures page == PageUpTo(boot, history, after, limit)
    {
      var oldest, newest := Info();
      var start := if after >= newest then 0 else after + 1;
      if start != 0 && start < oldest {
        start := oldest;
      }
      var rows: seq<Row> := [];
      var n := start;
      while start != 0 && n <= newest && |rows| < limit
        invariant start <= n && (start != 0 ==> n == start + |rows| && n <= newest + 1)
        invariant start == 0 ==> rows == []
        invariant |rows| <= limit
        invariant forall i :: 0 <= i < |rows| ==> rows[i] == Row(start + i, history[start + i - 1])
        decreases newest + 1 - n
      {
        var row := Get(n);
        rows := rows + [row.value];
        n := n + 1;
      }
      page := Page(boot, oldest, newest, rows);
      assert page.rows == PageUpTo(boot, history, after, limit).rows;
    }
  }
}
