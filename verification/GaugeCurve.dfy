/**
 * The state of charge estimated from the battery voltage when the gauge gives none
 * (`percent_from_mv`, main/power.c:133-152).
 */
module GaugeCurve {

  datatype Knot = Knot(mv: int, pct: int)

  const CURVE: seq<Knot> := [
    Knot(4200, 100), Knot(4060, 90), Knot(3980, 80), Knot(3920, 70), Knot(3870, 60), Knot(3820, 50),
    Knot(3790, 40), Knot(3770, 30), Knot(3740, 20), Knot(3680, 10), Knot(3450, 5), Knot(3000, 0)]

  predicate InSegment(mv: int, i: nat)
    requires 1 <= i < |CURVE|
  {
    CURVE[i].mv <= mv < CURVE[i - 1].mv
  }

  /** Rounded to the nearest point on the line between knots i and i - 1. */
  function OnLine(mv: int, i: nat): int
    requires 1 <= i < |CURVE| && InSegment(mv, i)
  {
    var a, b := CURVE[i], CURVE[i - 1];
    a.pct + Rounded(mv - a.mv, b.pct - a.pct, b.mv - a.mv)
  }

  /** The nearest whole to t * p / d. */
  function Rounded(t: int, p: int, d: int): int
    requires d > 0
  {
    (t * p + d / 2) / d
  }

  method PercentFromMv(mv: int) returns (pct: int)
    ensures mv >= CURVE[0].mv ==> pct == 100
    ensures mv < CURVE[|CURVE| - 1].mv ==> pct == 0
    ensures forall i :: 1 <= i < |CURVE| && InSegment(mv, i) ==> pct == OnLine(mv, i)
    ensures pct == Percent(mv)
  {
    if mv >= CURVE[0].mv {
      return 100;
    }
    var i := 1;
    while i < |CURVE|
      invariant 1 <= i <= |CURVE| && mv < CURVE[i - 1].mv
      invariant Percent(mv) == From(mv, i)
    {
      if mv >= CURVE[i].mv {
        pct := OnLine(mv, i);
        forall j | 1 <= j < |CURVE| && InSegment(mv, j) ensures j == i {
          SegmentsApart(mv, i, j);
        }
        return;
      }
      i := i + 1;
    }
    return 0;
  }

  function From(mv: int, i: nat): int
    requires 1 <= i <= |CURVE| && mv < CURVE[i - 1].mv
    decreases |CURVE| - i
  {
    if i == |CURVE| then 0 else if mv >= CURVE[i].mv then OnLine(mv, i) else From(mv, i + 1)
  }

  function Percent(mv: int): int { if mv >= CURVE[0].mv then 100 else From(mv, 1) }

  lemma {:induction false} Descends(i: nat, j: nat)
    requires i < j < |CURVE|
    ensures CURVE[j].mv < CURVE[i].mv && CURVE[j].pct < CURVE[i].pct
    decreases j
  {
    if i < j - 1 {
      Descends(i, j - 1);
    }
  }

  lemma SegmentsApart(mv: int, i: nat, j: nat)
    requires 1 <= i < |CURVE| && 1 <= j < |CURVE| && InSegment(mv, i) && InSegment(mv, j)
    ensures i == j
  {
    if i < j - 1 {
      Descends(i, j - 1);
    } else if j < i - 1 {
      Descends(j, i - 1);
    }
  }

  lemma MulGrows(a: int, b: int, k: int)
    requires a <= b && k >= 0
    ensures a * k <= b * k
  {
  }

  lemma DivGrows(a: int, b: int, d: int)
    requires a <= b && d > 0
    ensures a / d <= b / d
  {
    if a / d > b / d {
      MulGrows(b / d + 1, a / d, d);
    }
  }

  /** Within half a point of the line, so between the segment's two knots. */
  lemma OnLineIsNear(mv: int, i: nat)
    requires 1 <= i < |CURVE| && InSegment(mv, i)
    ensures var a, b := CURVE[i], CURVE[i - 1];
            var off := (OnLine(mv, i) - a.pct) * (b.mv - a.mv) - (mv - a.mv) * (b.pct - a.pct);
            a.mv - b.mv <= 2 * off <= b.mv - a.mv
    ensures CURVE[i].pct <= OnLine(mv, i) <= CURVE[i - 1].pct
  {
    Descends(i - 1, i);
    RoundedIsNear(mv - CURVE[i].mv, CURVE[i - 1].pct - CURVE[i].pct, CURVE[i - 1].mv - CURVE[i].mv);
  }

  lemma Nearest(x: int, d: int)
    requires d > 0
    ensures 0 - d <= 2 * ((x + d / 2) / d * d - x) <= d
  {
    var y := x + d / 2;
    assert y == y / d * d + y % d;
  }

  lemma RoundedIsNear(t: int, p: int, d: int)
    requires 0 <= t <= d && p >= 0 && d > 0
    ensures 0 - d <= 2 * (Rounded(t, p, d) * d - t * p) <= d
    ensures 0 <= Rounded(t, p, d) <= p
  {
    MulGrows(0, t, p);
    MulGrows(t, d, p);
    Nearest(t * p, d);
    DivGrows(0, t * p + d / 2, d);
    DivGrows(t * p + d / 2, p * d + d / 2, d);
    Whole(p, d / 2, d);
    Whole(0, 0, d);
  }

  lemma RoundedGrows(t: int, u: int, p: int, d: int)
    requires t <= u && p >= 0 && d > 0
    ensures Rounded(t, p, d) <= Rounded(u, p, d)
  {
    MulGrows(t, u, p);
    DivGrows(t * p + d / 2, u * p + d / 2, d);
  }

  lemma Whole(p: int, r: int, d: int)
    requires 0 <= r < d
    ensures (p * d + r) / d == p
  {
    var q := (p * d + r) / d;
    if q < p {
      MulGrows(q + 1, p, d);
    } else if q > p {
      MulGrows(p + 1, q, d);
    }
  }

  lemma {:induction false} FromGrows(low: int, high: int, i: nat)
    requires 1 <= i <= |CURVE| && low <= high < CURVE[i - 1].mv
    ensures 0 <= From(low, i) <= From(high, i) <= CURVE[i - 1].pct
    decreases |CURVE| - i
  {
    if i < |CURVE| {
      Descends(i - 1, i);
      if low >= CURVE[i].mv {
        OnLineIsNear(low, i);
        OnLineIsNear(high, i);
        var a, b := CURVE[i], CURVE[i - 1];
        RoundedGrows(low - a.mv, high - a.mv, b.pct - a.pct, b.mv - a.mv);
        Positive(i);
      } else if high >= CURVE[i].mv {
        OnLineIsNear(high, i);
        FromGrows(low, low, i + 1);
      } else {
        FromGrows(low, high, i + 1);
      }
    }
  }

  lemma Positive(i: nat)
    requires i < |CURVE|
    ensures CURVE[i].pct >= 0
  {
    if i < |CURVE| - 1 {
      Descends(i, |CURVE| - 1);
    }
  }

  /** A higher voltage never reads as a lower charge, which is always a percentage. */
  lemma PercentIsMonotone(low: int, high: int)
    requires low <= high
    ensures 0 <= Percent(low) <= Percent(high) <= 100
  {
    if high < CURVE[0].mv {
      FromGrows(low, high, 1);
    } else if low < CURVE[0].mv {
      FromGrows(low, low, 1);
    }
  }

  /** The knots read as the battery's open-circuit curve has them. */
  lemma KnotsAreRead()
    ensures Percent(4200) == 100 && Percent(4060) == 90 && Percent(3980) == 80 && Percent(3920) == 70
    ensures Percent(3870) == 60 && Percent(3820) == 50 && Percent(3790) == 40 && Percent(3770) == 30
    ensures Percent(3740) == 20 && Percent(3680) == 10 && Percent(3450) == 5 && Percent(3000) == 0
  {
    hide Percent;
    KnotAt(0);
    KnotAt(1);
    KnotAt(2);
    KnotAt(3);
    KnotAt(4);
    KnotAt(5);
    KnotAt(6);
    KnotAt(7);
    KnotAt(8);
    KnotAt(9);
    KnotAt(10);
    KnotAt(11);
  }

  lemma KnotAt(i: nat)
    requires i < |CURVE|
    ensures Percent(CURVE[i].mv) == CURVE[i].pct
  {
    if i > 0 {
      KnotIsRead(i, 1);
    }
  }

  lemma {:induction false} KnotIsRead(i: nat, from: nat)
    requires 1 <= from <= i < |CURVE|
    ensures CURVE[i].mv < CURVE[from - 1].mv && From(CURVE[i].mv, from) == CURVE[i].pct
    decreases i - from
  {
    Descends(from - 1, i);
    if from < i {
      Descends(from, i);
      KnotIsRead(i, from + 1);
    } else {
      var d := CURVE[i - 1].mv - CURVE[i].mv;
      assert Rounded(0, CURVE[i - 1].pct - CURVE[i].pct, d) == d / 2 / d == 0;
    }
  }
}
