/**
 * The discharge estimate (main/power.c:254-328): a ring of the last twelve samples of
 * one unbroken run on battery, and the rate read from its ends. Rates are exact
 * (`real`); the source rounds to `float`.
 */
module Discharge {

  const KEPT: nat := 12
  const MINUTE_US: int := 60_000_000
  const GAP_US: int := 90_000_000
  const HOUR_US: real := 3_600_000_000.0

  datatype Sample = Sample(at: int, pct: int)

  /** A poll of the gauge at a time. */
  datatype Poll = Poll(now: int, percent: int, onBattery: bool)

  // ---------------- what the ring stands for ----------------

  function Last(run: seq<Sample>): (r: seq<Sample>)
    ensures |r| <= KEPT && |r| <= |run|
  {
    if |run| <= KEPT then run else run[|run| - KEPT..]
  }

  function Usable(p: Poll): bool { p.onBattery && 0 <= p.percent <= 100 }

  /** A gap, a clock gone back or a rising percentage ends a run. */
  function Breaks(newest: Sample, p: Poll): bool {
    p.now - newest.at > GAP_US || p.percent > newest.pct || p.now < newest.at
  }

  /** The whole run, of any length, after a poll. */
  function Grown(run: seq<Sample>, p: Poll): seq<Sample> {
    if !Usable(p) then []
    else if run == [] || Breaks(run[|run| - 1], p) then [Sample(p.now, p.percent)]
    else if p.now - run[|run| - 1].at < MINUTE_US then run
    else run + [Sample(p.now, p.percent)]
  }

  function RunOf(polls: seq<Poll>): seq<Sample> {
    if polls == [] then [] else Grown(RunOf(polls[..|polls| - 1]), polls[|polls| - 1])
  }

  /** What the ring keeps after a poll. */
  function Noted(kept: seq<Sample>, p: Poll): seq<Sample> { Last(Grown(kept, p)) }

  function KeptOf(polls: seq<Poll>): seq<Sample> {
    if polls == [] then [] else Noted(KeptOf(polls[..|polls| - 1]), polls[|polls| - 1])
  }

  /** Forgetting the oldest samples never changes what is kept next. */
  lemma NotedOfLast(run: seq<Sample>, p: Poll)
    ensures Noted(Last(run), p) == Last(Grown(run, p))
  {
    var s := Sample(p.now, p.percent);
    if |run| > KEPT {
      assert Last(run)[KEPT - 1] == run[|run| - 1];
      assert Last(Last(run) + [s]) == Last(run + [s]);
    }
  }

  /** Over every history of polls the ring is the end of the current unbroken run. */
  lemma {:induction false} KeptIsLastOfRun(polls: seq<Poll>)
    ensures KeptOf(polls) == Last(RunOf(polls))
    decreases |polls|
  {
    if polls != [] {
      var before := polls[..|polls| - 1];
      KeptIsLastOfRun(before);
      NotedOfLast(RunOf(before), polls[|polls| - 1]);
    }
  }

  /** Consecutive samples of a run. */
  predicate Follows(a: Sample, b: Sample) {
    MINUTE_US <= b.at - a.at <= GAP_US && b.pct <= a.pct
  }

  predicate Unbroken(run: seq<Sample>) {
    && (forall i :: 0 <= i < |run| ==> 0 <= run[i].pct <= 100)
    && (forall i :: 1 <= i < |run| ==> Follows(run[i - 1], run[i]))
  }

  lemma GrownIsUnbroken(run: seq<Sample>, p: Poll)
    requires Unbroken(run)
    ensures Unbroken(Grown(run, p)) && Unbroken(Last(run))
  {
    var g := Grown(run, p);
    forall i | 1 <= i < |g| ensures Follows(g[i - 1], g[i]) {
      assert i < |run| ==> Follows(run[i - 1], run[i]);
    }
    var l := Last(run);
    forall i | 1 <= i < |l| ensures Follows(l[i - 1], l[i]) {
      var d := |run| - |l|;
      assert Follows(run[d + i - 1], run[d + i]);
    }
  }

  /** What is kept is always unbroken: a minute to a minute and a half apart, never rising. */
  lemma {:induction false} KeptIsUnbroken(polls: seq<Poll>)
    ensures |KeptOf(polls)| <= KEPT && Unbroken(KeptOf(polls))
    decreases |polls|
  {
    if polls != [] {
      var before := polls[..|polls| - 1];
      KeptIsUnbroken(before);
      GrownIsUnbroken(KeptOf(before), polls[|polls| - 1]);
      GrownIsUnbroken(Grown(KeptOf(before), polls[|polls| - 1]), polls[|polls| - 1]);
    }
  }

  /**
   * What a poll leaves: nothing when on external power or without a percentage;
   * otherwise a newest sample at most a minute old and no lower than the poll, before
   * which stands what was kept before, or nothing when the poll broke the run.
   */
  lemma PollLeaves(polls: seq<Poll>, p: Poll)
    ensures var kept, k := KeptOf(polls), KeptOf(polls + [p]);
            if !p.onBattery || p.percent < 0 || p.percent > 100 then k == []
            else
              && k != [] && 0 <= p.now - k[|k| - 1].at < 60_000_000 && p.percent <= k[|k| - 1].pct
              && (k[|k| - 1] == Sample(p.now, p.percent) || k == kept)
              && (|k| == 1 || k[..|k| - 1] <= kept || k[..|k| - 1] == kept[1..])
              && (|k| == 1 && kept != [] && k != kept ==>
                    p.now - kept[|kept| - 1].at > 90_000_000 || p.percent > kept[|kept| - 1].pct
                    || p.now < kept[|kept| - 1].at)
  {
    assert (polls + [p])[..|polls|] == polls;
    KeptIsUnbroken(polls);
    hide KeptOf, Unbroken, Usable, Breaks;
    KeepsExactly(KeptOf(polls), p);
    hide Noted;
    UsableAndBreaks(if KeptOf(polls) == [] then Sample(0, 0) else KeptOf(polls)[|KeptOf(polls)| - 1], p);
  }

  lemma KeepsExactly(kept: seq<Sample>, p: Poll)
    requires |kept| <= KEPT
    ensures var s, k := Sample(p.now, p.percent), Noted(kept, p);
            if !Usable(p) then k == []
            else if kept == [] || Breaks(kept[|kept| - 1], p) then k == [s]
            else if p.now - kept[|kept| - 1].at < MINUTE_US then k == kept
            else if |kept| < KEPT then k == kept + [s] else k == kept[1..] + [s]
  {
  }

  lemma UsableAndBreaks(newest: Sample, p: Poll)
    ensures Usable(p) <==> p.onBattery && 0 <= p.percent <= 100
    ensures Breaks(newest, p) <==> p.now - newest.at > 90_000_000 || p.percent > newest.pct || p.now < newest.at
  {
  }

  function Polled(run: seq<Sample>): seq<Poll> {
    seq(|run|, i requires 0 <= i < |run| => Poll(run[i].at, run[i].pct, true))
  }

  lemma PollAppends(run: seq<Sample>)
    requires 1 <= |run| <= KEPT && Unbroken(run)
    ensures var s := run[|run| - 1];
            Unbroken(run[..|run| - 1]) && Noted(run[..|run| - 1], Poll(s.at, s.pct, true)) == run
  {
    var before := run[..|run| - 1];
    forall i | 1 <= i < |before| ensures Follows(before[i - 1], before[i]) {
      assert Follows(run[i - 1], run[i]);
    }
    if |run| > 1 {
      assert Follows(run[|run| - 2], run[|run| - 1]);
    }
    assert before + [run[|run| - 1]] == run;
  }

  /** And every unbroken run of at most twelve samples is what some history keeps. */
  lemma {:induction false} EveryRunArises(run: seq<Sample>)
    requires |run| <= KEPT && Unbroken(run)
    ensures KeptOf(Polled(run)) == run
    decreases |run|
  {
    if run != [] {
      PollAppends(run);
      hide Unbroken, Noted;
      assert Polled(run)[..|run| - 1] == Polled(run[..|run| - 1]);
      EveryRunArises(run[..|run| - 1]);
    }
  }

  // ---------------- the rate ----------------

  datatype Estimate = Withheld | Estimate(perHour: real, minutes: int)

  function Hours(us: int): real { us as real / HOUR_US }

  /** Fewer than two samples, ten minutes or two points, or nothing for ninety seconds: no estimate. */
  predicate Reportable(kept: seq<Sample>, now: int) {
    && |kept| >= 2
    && Hours(kept[|kept| - 1].at - kept[0].at) >= 10.0 / 60.0
    && kept[0].pct - kept[|kept| - 1].pct >= 2
    && now - kept[|kept| - 1].at <= GAP_US
  }

  /** From the drop, the time it took and what remains. */
  function Estimated(drop: int, us: int, remaining: int): Estimate
    requires drop > 0 && us > 0
  {
    DividePositive(drop as real, Hours(us));
    var rate := drop as real / Hours(us);
    Estimate(rate, (remaining as real / rate * 60.0).Floor)
  }

  function Rate(kept: seq<Sample>, now: int): Estimate {
    if !Reportable(kept, now) then Withheld
    else
      var newest, oldest := kept[|kept| - 1], kept[0];
      Estimated(oldest.pct - newest.pct, newest.at - oldest.at, newest.pct)
  }

  lemma Scaled(a: real, b: real, h: real)
    requires a < b && h > 0.0
    ensures a * h < b * h
  {
  }

  lemma DividePositive(a: real, h: real)
    requires a > 0.0 && h > 0.0
    ensures a / h > 0.0
  {
  }

  lemma DivideBetween(a: real, h: real, least: real, most: real)
    requires h > 0.0 && least * h <= a <= most * h
    ensures least <= a / h <= most
  {
    var r := a / h;
    assert r * h == a;
    if r < least {
      Scaled(r, least, h);
    }
    if r > most {
      Scaled(most, r, h);
    }
  }

  lemma {:induction false} SpanOfRun(run: seq<Sample>)
    requires Unbroken(run) && |run| >= 1
    ensures (|run| - 1) * MINUTE_US <= run[|run| - 1].at - run[0].at <= (|run| - 1) * GAP_US
    ensures run[|run| - 1].pct <= run[0].pct
    decreases |run|
  {
    if |run| > 1 {
      var before := run[..|run| - 1];
      forall i | 1 <= i < |before| ensures Follows(before[i - 1], before[i]) {
        assert Follows(run[i - 1], run[i]);
      }
      SpanOfRun(before);
      assert Follows(run[|run| - 2], run[|run| - 1]);
    }
  }

  lemma RateBounds(drop: int, us: int)
    requires 2 <= drop <= 100 && 600_000_000 <= us <= 990_000_000
    ensures 0.0 < Hours(us) <= 0.275 && 80.0 / 11.0 <= drop as real / Hours(us) <= 600.0
  {
    var h := Hours(us);
    assert 1.0 / 6.0 <= h <= 0.275;
    DivideBetween(drop as real, h, 80.0 / 11.0, 600.0);
  }

  lemma HoursBound(rate: real, h: real, d: real)
    requires rate > 0.0 && 0.0 < h <= 0.275 && rate * h == d
    ensures d <= 0.275 * rate
  {
    if h < 0.275 {
      Scaled(h, 0.275, rate);
    }
  }

  lemma MinutesBounds(remaining: int, drop: int, rate: real, h: real)
    requires 0 <= remaining <= 100 - drop && 2 <= drop
    requires rate > 0.0 && 0.0 < h <= 0.275 && rate * h == drop as real
    ensures 0.0 <= remaining as real / rate * 60.0 <= 808.5
  {
    HoursBound(rate, h, drop as real);
    assert remaining <= 49 * drop;
    DivideBetween(remaining as real, rate, 0.0, 13.475);
  }

  lemma EstimatedIsBounded(drop: int, us: int, remaining: int)
    requires 2 <= drop && 0 <= remaining <= 100 - drop && 600_000_000 <= us <= 990_000_000
    ensures var e := Estimated(drop, us, remaining);
            e.perHour * Hours(us) == drop as real && 80.0 / 11.0 <= e.perHour <= 600.0 && 0 <= e.minutes <= 808
  {
    RateBounds(drop, us);
    var rate := drop as real / Hours(us);
    MinutesBounds(remaining, drop, rate, Hours(us));
  }

  lemma RateIsBounded(kept: seq<Sample>, now: int)
    requires Unbroken(kept) && |kept| <= KEPT && Reportable(kept, now)
    ensures var e := Rate(kept, now);
            && e.perHour * Hours(kept[|kept| - 1].at - kept[0].at) == (kept[0].pct - kept[|kept| - 1].pct) as real
            && 80.0 / 11.0 <= e.perHour <= 600.0 && 0 <= e.minutes <= 808
  {
    SpanOfRun(kept);
    var us := kept[|kept| - 1].at - kept[0].at;
    assert us >= 600_000_000;
    assert kept[|kept| - 1].pct >= 0 && kept[0].pct <= 100;
    hide Unbroken, Estimated;
    EstimatedIsBounded(kept[0].pct - kept[|kept| - 1].pct, us, kept[|kept| - 1].pct);
  }

  /**
   * After any history, an estimate is the drop over the time it took, between 80/11
   * (about 7.27) and 600 percent an hour, and promises at most 808 minutes.
   */
  lemma EstimateIsBounded(polls: seq<Poll>, now: int)
    ensures var kept := KeptOf(polls);
            var e := Rate(kept, now);
            && (e.Estimate? <==> Reportable(kept, now))
            && (e.Estimate? ==>
                  && e.perHour * Hours(kept[|kept| - 1].at - kept[0].at) == (kept[0].pct - kept[|kept| - 1].pct) as real
                  && 80.0 / 11.0 <= e.perHour <= 600.0 && 0 <= e.minutes <= 808)
  {
    KeptIsUnbroken(polls);
    hide Unbroken, KeptOf;
    var kept := KeptOf(polls);
    if Reportable(kept, now) {
      RateIsBounded(kept, now);
    }
  }

  lemma ProjectionScales(remaining: real, drop: real, h: real)
    requires drop > 0.0 && h > 0.0
    ensures drop / h > 0.0 && remaining / (drop / h) * 60.0 * drop == 60.0 * remaining * h
  {
    DividePositive(drop, h);
    var rate := drop / h;
    assert rate * h == drop;
    var time := remaining / rate;
    assert time * rate == remaining;
    calc {
      time * 60.0 * drop;
      60.0 * (time * (rate * h));
      { assert time * (rate * h) == time * rate * h; }
      60.0 * (remaining * h);
      60.0 * remaining * h;
    }
  }

  lemma Multiplied(a: int, b: int)
    ensures (a * b) as real == a as real * b as real
  {
  }

  lemma WholePart(x: real, unit: int, share: int)
    requires unit > 0 && x * unit as real == share as real
    ensures x.Floor * unit <= share < (x.Floor + 1) * unit
  {
    var m, d := x.Floor, unit as real;
    FloorBrackets(x);
    if m as real < x {
      Scaled(m as real, x, d);
    }
    Scaled(x, (m + 1) as real, d);
    Multiplied(m, unit);
    Multiplied(m + 1, unit);
    InOrder(m * unit, share, (m + 1) * unit);
  }

  lemma FloorBrackets(x: real)
    ensures x.Floor as real <= x < (x.Floor + 1) as real
  {
  }

  lemma InOrder(a: int, b: int, c: int)
    requires a as real <= b as real < c as real
    ensures a <= b < c
  {
  }

  /** In whole numbers: at the pace of the drop, what remains lasts that many whole minutes. */
  lemma EstimatedIsTheProjection(drop: int, us: int, remaining: int)
    requires drop > 0 && us > 0
    ensures var e := Estimated(drop, us, remaining);
            && e.Estimate?
            && e.minutes * (drop * 60_000_000) <= remaining * us < (e.minutes + 1) * (drop * 60_000_000)
  {
    var h := Hours(us);
    DividePositive(us as real, HOUR_US);
    ProjectionScales(remaining as real, drop as real, h);
    var x := remaining as real / (drop as real / h) * 60.0;
    var unit := drop * 60_000_000;
    assert unit as real == drop as real * 60_000_000.0;
    assert h * 60.0 * 60_000_000.0 == us as real;
    ShareScales(x, drop as real, remaining as real, h, us as real);
    Multiplied(remaining, us);
    WholePart(x, unit, remaining * us);
  }

  lemma ShareScales(x: real, drop: real, remaining: real, h: real, us: real)
    requires x * drop == 60.0 * remaining * h && h * 60.0 * 60_000_000.0 == us
    ensures x * (drop * 60_000_000.0) == remaining * us
  {
    assert remaining * us == remaining * h * 60.0 * 60_000_000.0;
    assert x * (drop * 60_000_000.0) == x * drop * 60_000_000.0;
  }

  lemma HoursCompare(us: int)
    ensures Hours(us) >= 10.0 / 60.0 <==> us >= 600_000_000
  {
    assert Hours(us) * HOUR_US == us as real;
  }

  /**
   * An estimate is given if and only if there are two samples, ten minutes and two
   * points between the ends and no more than ninety seconds since the newest; its
   * minutes are how long the newest percentage lasts at the pace between the ends.
   */
  lemma RateIsTheProjection(kept: seq<Sample>, now: int)
    ensures var e := Rate(kept, now);
            && (e.Estimate? <==>
                  && |kept| >= 2 && kept[|kept| - 1].at - kept[0].at >= 600_000_000
                  && kept[0].pct - kept[|kept| - 1].pct >= 2 && now - kept[|kept| - 1].at <= 90_000_000)
            && (e.Estimate? ==>
                  var drop, us := kept[0].pct - kept[|kept| - 1].pct, kept[|kept| - 1].at - kept[0].at;
                  && e.minutes * (drop * 60_000_000) <= kept[|kept| - 1].pct * us
                  && kept[|kept| - 1].pct * us < (e.minutes + 1) * (drop * 60_000_000))
  {
    hide Estimated;
    if |kept| >= 2 {
      HoursCompare(kept[|kept| - 1].at - kept[0].at);
    }
    if Reportable(kept, now) {
      var drop, us := kept[0].pct - kept[|kept| - 1].pct, kept[|kept| - 1].at - kept[0].at;
      EstimatedIsTheProjection(drop, us, kept[|kept| - 1].pct);
    }
  }

  /** Both ends of the rate, and the longest promise, are reached. */
  lemma BoundsAreReached()
    ensures exists polls, now :: Rate(KeptOf(polls), now) == Estimate(80.0 / 11.0, 808)
    ensures exists polls, now :: Rate(KeptOf(polls), now) == Estimate(600.0, 0)
  {
    var slow := seq(12, i => Sample(i * GAP_US, if i == 0 then 100 else 98));
    assert Unbroken(slow);
    EveryRunArises(slow);
    var fast := seq(11, i => Sample(i * MINUTE_US, if i == 0 then 100 else 0));
    assert Unbroken(fast);
    EveryRunArises(fast);
    hide KeptOf, Unbroken;
    assert Rate(KeptOf(Polled(slow)), 11 * GAP_US) == Estimate(80.0 / 11.0, 808) by { SlowRate(slow); }
    assert Rate(KeptOf(Polled(fast)), 10 * MINUTE_US) == Estimate(600.0, 0) by { FastRate(fast); }
  }

  lemma SlowRate(kept: seq<Sample>)
    requires |kept| == 12 && kept[0] == Sample(0, 100) && kept[11] == Sample(11 * GAP_US, 98)
    ensures Rate(kept, 11 * GAP_US) == Estimate(80.0 / 11.0, 808)
  {
    assert Hours(11 * GAP_US) == 0.275;
    DivideBetween(2.0, 0.275, 80.0 / 11.0, 80.0 / 11.0);
    DivideBetween(98.0, 80.0 / 11.0, 13.475, 13.475);
  }

  lemma FastRate(kept: seq<Sample>)
    requires |kept| == 11 && kept[0] == Sample(0, 100) && kept[10] == Sample(10 * MINUTE_US, 0)
    ensures Rate(kept, 10 * MINUTE_US) == Estimate(600.0, 0)
  {
    assert Hours(10 * MINUTE_US) == 1.0 / 6.0;
    DivideBetween(100.0, 1.0 / 6.0, 600.0, 600.0);
    DivideBetween(0.0, 600.0, 0.0, 0.0);
  }

  // ---------------- the ring itself ----------------

  class History {
    const slots: array<Sample>
    var n: nat
    var head: nat

    predicate Valid()
      reads this
    {
      slots.Length == KEPT && n <= KEPT && head < KEPT && (n < KEPT ==> head == n)
    }

    /** Oldest first. */
    ghost function Kept(): seq<Sample>
      requires Valid()
      reads this, slots
    {
      if n < KEPT then slots[..n] else slots[head..] + slots[..head]
    }

    constructor ()
      ensures Valid() && Kept() == [] && fresh(slots)
    {
      slots := new Sample[KEPT](_ => Sample(0, 0));
      n, head := 0, 0;
    }

    function Newest(): Sample
      requires Valid() && n > 0
      reads this, slots
    {
      slots[(head + KEPT - 1) % KEPT]
    }

    lemma NewestIsLast()
      requires Valid() && n > 0
      ensures |Kept()| == n && Kept()[n - 1] == Newest()
    {
      var newest := if head > 0 then head - 1 else KEPT - 1;
      assert (head + KEPT - 1) % KEPT == newest;
      if n == KEPT && head > 0 {
        assert Kept()[n - 1] == slots[..head][head - 1];
      }
    }

    method Put(s: Sample)
      requires Valid()
      modifies this, slots
      ensures Valid() && Kept() == Last(old(Kept()) + [s])
    {
      ghost var before := Kept();
      slots[head] := s;
      head := (head + 1) % KEPT;
      if n < KEPT {
        n := n + 1;
      }
      assert |before + [s]| > KEPT ==> Last(before + [s]) == before[1..] + [s];
      assert Kept() == Last(before + [s]);
    }

    method NoteSample(p: Poll)
      requires Valid()
      modifies this, slots
      ensures Valid() && Kept() == Noted(old(Kept()), p)
    {
      if !p.onBattery || p.percent < 0 || p.percent > 100 {
        n, head := 0, 0;
        return;
      }
      if n > 0 {
        NewestIsLast();
        var newest := Newest();
        var elapsed := p.now - newest.at;
        if elapsed > GAP_US || p.percent > newest.pct || elapsed < 0 {
          n, head := 0, 0;
        } else if elapsed < MINUTE_US {
          return;
        }
      }
      Put(Sample(p.now, p.percent));
    }

    method DischargeRate(now: int) returns (e: Estimate)
      requires Valid()
      ensures e == Rate(Kept(), now)
    {
      if n < 2 {
        return Withheld;
      }
      NewestIsLast();
      var newest := Newest();
      var oldest := slots[if n == KEPT then head else 0];
      var hours := Hours(newest.at - oldest.at);
      var drop := oldest.pct - newest.pct;
      assert Kept()[0] == oldest;
      if hours < 10.0 / 60.0 || drop < 2 || now - newest.at > GAP_US {
        return Withheld;
      }
      DividePositive(drop as real, hours);
      var rate := drop as real / hours;
      e := Estimate(rate, (newest.pct as real / rate * 60.0).Floor);
    }
  }
}
