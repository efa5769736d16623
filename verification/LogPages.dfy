/**
 * Paging of GET /logs and its batched sending (`h_logs`, `logs_send` in
 * main/otbr_rest.c).
 */
module LogPages {
  import opened Bytes
  import opened LogSlot
  import opened LogRing

  /** A boot's log as /logs can read it: `readable` holds the lines log_ring_get would return. */
  datatype Log = Log(id: BootId, latest: nat, readable: map<nat, Line>)

  predicate LogOk(log: Log) {
    forall n :: n in log.readable ==> InRange(n, log.latest) && log.readable[n].seqNo == n
  }

  /** The log of a half, from its slots. */
  function LogOf(slots: seq<Slot>, id: BootId, latest: nat): (log: Log)
    requires |slots| == LINES
    ensures LogOk(log)
    ensures forall n :: 1 <= n <= latest ==>
              (n in log.readable <==> Lookup(slots, id, latest, n).Some?)
  {
    Log(id, latest, map n | 1 <= n <= latest && Lookup(slots, id, latest, n).Some?
                    :: Lookup(slots, id, latest, n).value)
  }

  /** The running boot's half offers exactly its newest 1024 lines. */
  lemma RunningLog(slots: seq<Slot>, id: BootId, lines: seq<Line>)
    requires Represents(slots, id, lines)
    ensures LogOf(slots, id, |lines|).readable ==
            map n {:trigger InRange(n, |lines|)} | 1 <= n <= |lines| && InRange(n, |lines|) :: lines[n - 1]
  {
    forall n | 1 <= n <= |lines|
      ensures Lookup(slots, id, |lines|, n) == (if InRange(n, |lines|) then Some(lines[n - 1]) else None)
    {
      LookupIsList(slots, id, lines, n);
    }
  }

  // ---------------- one page ----------------

  function LinesFrom(log: Log, from: nat, limit: nat): seq<Line>
    decreases log.latest + 1 - from
  {
    if limit == 0 || from > log.latest then []
    else if from in log.readable then [log.readable[from]] + LinesFrom(log, from + 1, limit - 1)
    else LinesFrom(log, from + 1, limit)
  }

  function Start(log: Log, after: nat): nat {
    if after >= log.latest then log.latest + 1
    else if after + 1 < Oldest(log.latest) then Oldest(log.latest) else after + 1
  }

  function PageLines(log: Log, after: nat, limit: nat): seq<Line> {
    LinesFrom(log, Start(log, after), limit)
  }

  lemma ReadsBack(slots: seq<Slot>, id: BootId, latest: nat, n: nat)
    requires |slots| == LINES && 1 <= n <= latest
    ensures var log := LogOf(slots, id, latest);
            && log.latest == latest
            && Lookup(slots, id, latest, n) == if n in log.readable then Some(log.readable[n]) else None
  {
  }

  lemma NothingFrom(log: Log, from: nat, limit: nat)
    requires from > log.latest || limit == 0
    ensures LinesFrom(log, from, limit) == []
  {
  }

  /** The request loop of h_logs over a half. */
  method Page(half: LogHalf, after: nat, limit: nat) returns (page: seq<Line>)
    requires half.slots.Length == LINES
    ensures page == PageLines(LogOf(half.slots[..], half.id, half.latest), after, limit)
  {
    ghost var log := LogOf(half.slots[..], half.id, half.latest);
    assert log.latest == half.latest;
    hide LinesFrom, LogOf, Lookup, Represents, LogHalf.Valid, InRange;
    page := [];
    var start := if after >= half.latest then 0 else after + 1;
    if start != 0 && start < Oldest(half.latest) {
      start := Oldest(half.latest);
    }
    if start == 0 {
      NothingFrom(log, half.latest + 1, limit);
      return;
    }
    var n := start;
    ghost var goal := LinesFrom(log, start, limit);
    SoFarStarts(log, n, limit);
    hide SoFar;
    while n <= half.latest && |page| < limit
      invariant 1 <= n <= half.latest + 1 && |page| <= limit
      invariant SoFar(log, page, n, limit, goal)
      decreases half.latest + 1 - n
    {
      var line := half.Get(n);
      ReadsBack(half.slots[..], half.id, half.latest, n);
      PageTurn(log, page, n, limit, goal);
      if line.Some? {
        page := page + [line.value];
      }
      n := n + 1;
    }
    SoFarEnds(log, page, n, limit, goal);
  }

  /** The page as far as number `n`. */
  predicate SoFar(log: Log, page: seq<Line>, n: nat, limit: nat, goal: seq<Line>) {
    |page| <= limit && page + LinesFrom(log, n, limit - |page|) == goal
  }

  lemma SoFarStarts(log: Log, n: nat, limit: nat)
    ensures SoFar(log, [], n, limit, LinesFrom(log, n, limit))
  {
    ConcatEmpty(LinesFrom(log, n, limit));
  }

  lemma PageTurn(log: Log, page: seq<Line>, n: nat, limit: nat, goal: seq<Line>)
    requires SoFar(log, page, n, limit, goal) && n <= log.latest && |page| < limit
    ensures SoFar(log, if n in log.readable then page + [log.readable[n]] else page, n + 1, limit, goal)
  {
    Unfold(log, n, limit - |page|);
    hide LinesFrom;
    if n in log.readable {
      ConcatAssoc(page, [log.readable[n]], LinesFrom(log, n + 1, limit - |page| - 1));
    }
  }

  lemma SoFarEnds(log: Log, page: seq<Line>, n: nat, limit: nat, goal: seq<Line>)
    requires SoFar(log, page, n, limit, goal) && (n > log.latest || |page| >= limit)
    ensures page == goal
  {
    NothingFrom(log, n, limit - |page|);
    ConcatEmpty(page);
  }

  /**
   * A page after a cursor: readable lines beyond it, in order, at most `limit`,
   * leaving out no readable line before its last one, and none at all when short.
   */
  ghost predicate IsPage(log: Log, page: seq<Line>, after: nat, limit: nat) {
    && |page| <= limit && Ascends(log, page, after)
    && (forall n :: n in log.readable && after < n && (|page| < limit || n <= Last(page, after)) ==> Holds(page, n))
  }

  predicate Reads(log: Log, line: Line) {
    line.seqNo in log.readable && log.readable[line.seqNo] == line
  }

  predicate Holds(page: seq<Line>, n: nat) {
    exists i :: 0 <= i < |page| && page[i].seqNo == n
  }

  function Last(page: seq<Line>, otherwise: nat): nat {
    if page == [] then otherwise else page[|page| - 1].seqNo
  }

  lemma HoldsCons(line: Line, rest: seq<Line>, n: nat)
    ensures Holds([line] + rest, n) <==> n == line.seqNo || Holds(rest, n)
  {
    var page := [line] + rest;
    if n == line.seqNo {
      assert page[0].seqNo == n;
    }
    if Holds(rest, n) {
      var i :| 0 <= i < |rest| && rest[i].seqNo == n;
      assert page[i + 1].seqNo == n;
    }
    if Holds(page, n) && n != line.seqNo {
      var i :| 0 <= i < |page| && page[i].seqNo == n;
      assert rest[i - 1].seqNo == n;
    }
  }

  /** Ascending readable lines beyond a cursor. */
  predicate Ascends(log: Log, page: seq<Line>, after: nat) {
    && (forall i :: 0 <= i < |page| ==> after < page[i].seqNo && Reads(log, page[i]))
    && (forall i, j :: 0 <= i < j < |page| ==> page[i].seqNo < page[j].seqNo)
  }

  lemma AscendsCons(log: Log, line: Line, rest: seq<Line>, after: nat)
    requires Reads(log, line) && after < line.seqNo && Ascends(log, rest, line.seqNo)
    ensures Ascends(log, [line] + rest, after)
  {
  }

  lemma ConsPage(log: Log, rest: seq<Line>, from: nat, limit: nat)
    requires LogOk(log) && from >= 1 && limit >= 1 && from in log.readable && IsPage(log, rest, from, limit - 1)
    ensures IsPage(log, [log.readable[from]] + rest, from - 1, limit)
  {
    var line := log.readable[from];
    var page := [line] + rest;
    assert Reads(log, line) && line.seqNo == from;
    AscendsCons(log, line, rest, from - 1);
    LastCons(line, rest);
    LastIsLeast(log, rest, from);
    assert Last(page, from - 1) == Last(rest, from);
    hide Reads, Holds, LogOk, Last;
    forall n | n in log.readable && from <= n && (|page| < limit || n <= Last(page, from - 1))
      ensures Holds(page, n)
    {
      HoldsCons(line, rest, n);
    }
  }

  lemma LastIsLeast(log: Log, rest: seq<Line>, from: nat)
    requires Ascends(log, rest, from)
    ensures from <= Last(rest, from)
  {
  }

  lemma SkipPage(log: Log, page: seq<Line>, from: nat, limit: nat)
    requires from >= 1 && from !in log.readable && IsPage(log, page, from, limit)
    ensures IsPage(log, page, from - 1, limit)
  {
    assert page == [] ==> Last(page, from - 1) == from - 1;
    hide Reads, Holds;
  }

  lemma EmptyIsPage(log: Log, after: nat, limit: nat)
    requires LogOk(log) && (limit == 0 || after >= log.latest)
    ensures IsPage(log, [], after, limit)
  {
  }

  lemma {:induction false} LinesFromSpec(log: Log, from: nat, limit: nat)
    requires LogOk(log) && from >= 1
    ensures IsPage(log, LinesFrom(log, from, limit), from - 1, limit)
    decreases log.latest + 1 - from
  {
    hide IsPage, LogOk;
    if limit == 0 || from > log.latest {
      EmptyIsPage(log, from - 1, limit);
    } else if from in log.readable {
      LinesFromSpec(log, from + 1, limit - 1);
      ConsPage(log, LinesFrom(log, from + 1, limit - 1), from, limit);
    } else {
      LinesFromSpec(log, from + 1, limit);
      SkipPage(log, LinesFrom(log, from + 1, limit), from, limit);
    }
  }

  lemma PageSpec(log: Log, after: nat, limit: nat)
    requires LogOk(log)
    ensures IsPage(log, PageLines(log, after, limit), after, limit)
  {
    LinesFromSpec(log, Start(log, after), limit);
  }

  // ---------------- pages in a row ----------------

  /** Every readable line from a number on. */
  function AllFrom(log: Log, from: nat): seq<Line>
    decreases log.latest + 1 - from
  {
    if from > log.latest then []
    else (if from in log.readable then [log.readable[from]] else []) + AllFrom(log, from + 1)
  }

  /** Requests chained by the last number received, until one comes back empty. */
  function Chain(log: Log, after: nat, limit: nat): seq<Line>
    requires LogOk(log) && limit > 0
    decreases log.latest - after
  {
    var page := PageLines(log, after, limit);
    PageSpec(log, after, limit);
    if page == [] then [] else page + Chain(log, Last(page, after), limit)
  }

  lemma LastCons(line: Line, rest: seq<Line>)
    ensures forall otherwise :: Last([line] + rest, otherwise) == Last(rest, line.seqNo)
    ensures (rest != [] ==> Last(rest, line.seqNo) == Last(rest, 0))
  {
  }

  lemma Unfold(log: Log, from: nat, limit: nat)
    requires from <= log.latest && limit >= 1
    ensures from in log.readable ==>
              LinesFrom(log, from, limit) == [log.readable[from]] + LinesFrom(log, from + 1, limit - 1)
              && AllFrom(log, from) == [log.readable[from]] + AllFrom(log, from + 1)
    ensures from !in log.readable ==>
              LinesFrom(log, from, limit) == LinesFrom(log, from + 1, limit)
              && AllFrom(log, from) == AllFrom(log, from + 1)
  {
    ConcatEmpty(AllFrom(log, from + 1));
  }

  function Beyond(log: Log, page: seq<Line>): seq<Line> {
    if page == [] then [] else AllFrom(log, Last(page, 0) + 1)
  }

  lemma {:induction false} LinesThenRest(log: Log, from: nat, limit: nat)
    requires LogOk(log) && from >= 1 && limit >= 1
    ensures AllFrom(log, from) == LinesFrom(log, from, limit) + Beyond(log, LinesFrom(log, from, limit))
    decreases log.latest + 1 - from
  {
    if from <= log.latest {
      Unfold(log, from, limit);
      if from in log.readable {
        var line, rest := log.readable[from], LinesFrom(log, from + 1, limit - 1);
        LastCons(line, rest);
        if limit > 1 {
          LinesThenRest(log, from + 1, limit - 1);
        }
        hide Last, LinesFrom, AllFrom;
        ConcatAssoc([line], rest, Beyond(log, rest));
        ConcatEmpty([line]);
      } else {
        LinesThenRest(log, from + 1, limit);
        hide Last, LinesFrom, AllFrom;
      }
    }
  }

  lemma {:induction false} NothingBeforeOldest(log: Log, from: nat)
    requires LogOk(log)
    ensures from <= Oldest(log.latest) ==> AllFrom(log, from) == AllFrom(log, Oldest(log.latest))
    decreases log.latest + 1 - from
  {
    if from < Oldest(log.latest) {
      NothingBeforeOldest(log, from + 1);
    }
  }

  /** Chained pages enumerate the readable lines after the cursor once, in order, for any page size. */
  lemma {:induction false} ChainIsEverything(log: Log, after: nat, limit: nat)
    requires LogOk(log) && limit > 0
    ensures Chain(log, after, limit) == AllFrom(log, after + 1)
    decreases log.latest - after
  {
    var page := PageLines(log, after, limit);
    PageSpec(log, after, limit);
    NothingBeforeOldest(log, after + 1);
    LinesThenRest(log, Start(log, after), limit);
    if page != [] {
      ChainIsEverything(log, Last(page, after), limit);
    }
  }

  lemma {:induction false} AllFromRunning(log: Log, lines: seq<Line>, from: nat)
    requires log.latest == |lines| && from >= 1
    requires forall n :: n in log.readable <==> InRange(n, |lines|)
    requires forall n: nat :: InRange(n, |lines|) ==> log.readable[n] == lines[n - 1]
    requires Oldest(|lines|) <= from
    ensures AllFrom(log, from) == if from <= |lines| then lines[from - 1..] else []
    decreases |lines| + 1 - from
  {
    if from <= |lines| {
      AllFromRunning(log, lines, from + 1);
      assert InRange(from, |lines|);
      assert lines[from - 1..] == [lines[from - 1]] + lines[from..];
    }
  }

  /** For the running boot that is exactly the newest 1024 lines of its list. */
  lemma ChainIsNewestLines(slots: seq<Slot>, id: BootId, lines: seq<Line>, limit: nat)
    requires Represents(slots, id, lines) && lines != [] && limit > 0
    ensures Chain(LogOf(slots, id, |lines|), 0, limit) == lines[Oldest(|lines|) - 1..]
  {
    var log := LogOf(slots, id, |lines|);
    RunningLog(slots, id, lines);
    ChainIsEverything(log, 0, limit);
    NothingBeforeOldest(log, 1);
    AllFromRunning(log, lines, Oldest(|lines|));
  }

  // ---------------- batched sending ----------------

  const BATCH_BYTES: nat := 1536

  /** Coalesces writes; `sent` is what the transport has taken, one chunk an element. */
  class Batch {
    const buffer: array<byte>
    var used: nat
    var sent: seq<seq<byte>>

    ghost predicate Valid()
      reads this
    {
      buffer.Length == BATCH_BYTES && used <= BATCH_BYTES
    }

    ghost function Stream(): seq<byte>
      requires Valid()
      reads this, buffer
    {
      Flatten(sent) + buffer[..used]
    }

    constructor ()
      ensures Valid() && Stream() == [] && sent == [] && fresh(buffer)
    {
      buffer := new byte[BATCH_BYTES];
      used := 0;
      sent := [];
    }

    /** One chunk to the transport, which takes it whole or fails. */
    method Chunk(data: seq<byte>, accepts: bool) returns (ok: bool)
      modifies this`sent
      ensures ok == accepts
      ensures sent == if ok then old(sent) + [data] else old(sent)
      ensures Flatten(sent) == Flatten(old(sent)) + (if ok then data else [])
    {
      ok := accepts;
      if ok {
        FlattenConcat(sent, [data]);
        assert Flatten([data]) == data;
        sent := sent + [data];
      }
    }

    /** logs_send; the flags say whether the transport takes the first and the second chunk it is given. */
    method Send(data: seq<byte>, takesFirst: bool, takesSecond: bool) returns (ok: bool)
      requires Valid()
      modifies this, buffer
      ensures Valid()
      ensures ok ==> Stream() == old(Stream()) + data
      ensures !ok ==> !(takesFirst && takesSecond) && old(sent) <= sent && Flatten(sent) <= old(Stream())
      ensures old(used) + |data| <= BATCH_BYTES ==> ok && sent == old(sent)
      ensures (forall c :: c in old(sent) ==> |c| <= BATCH_BYTES) && |data| <= BATCH_BYTES
              ==> forall c :: c in sent ==> |c| <= BATCH_BYTES
    {
      ghost var before := Stream();
      if used + |data| > BATCH_BYTES {
        if used != 0 {
          ok := Chunk(buffer[..used], takesFirst);
          if !ok {
            return;
          }
        }
        assert Flatten(sent) == before;
        used := 0;
        if |data| > BATCH_BYTES {
          ok := Chunk(data, takesSecond);
          assert buffer[..used] == [];
          return;
        }
      }
      Append(data);
      ok := true;
    }

    /** The last chunk of a response. */
    method Flush(takes: bool) returns (ok: bool)
      requires Valid()
      modifies this`sent
      ensures Valid()
      ensures ok <==> takes || used == 0
      ensures ok ==> Flatten(sent) == old(Stream())
    {
      ok := true;
      if used != 0 {
        ok := Chunk(buffer[..used], takes);
      }
    }

    method Append(data: seq<byte>)
      requires Valid() && used + |data| <= BATCH_BYTES
      modifies this`used, buffer
      ensures Valid() && Stream() == old(Stream()) + data
    {
      ghost var held := buffer[..used];
      forall j | 0 <= j < |data| {
        buffer[used + j] := data[j];
      }
      assert buffer[..used + |data|] == held + data;
      ConcatAssoc(Flatten(sent), held, data);
      used := used + |data|;
    }
  }
}
