/**
 * Assembly of console output into lines (`ingest`, main/log_ring.c): a task that is
 * mid-line holds one of four pending slots until its newline arrives.
 */
module LogCapture {
  import opened Bytes
  import opened LogText
  import opened LogSlot
  import opened LogRing

  const PENDING: nat := 4

  type Task = nat

  datatype Pending = Pending(task: Option<Task>, text: seq<byte>)

  /** A committed line, whose task it came from, if any, and whether eviction cut it short. */
  datatype Record = Record(owner: Option<Task>, text: seq<byte>, evicted: bool)

  datatype Capture = Capture(slots: seq<Pending>, victim: nat, log: seq<Record>)

  const FREE := Pending(None, [])

  function Owner(slots: seq<Pending>, task: Task): (i: nat)
    ensures i <= |slots|
    ensures i < |slots| ==> slots[i].task == Some(task)
    ensures forall k :: 0 <= k < i ==> slots[k].task != Some(task)
  {
    if slots == [] || slots[0].task == Some(task) then 0 else 1 + Owner(slots[1..], task)
  }

  function FirstFree(slots: seq<Pending>): (i: nat)
    ensures i <= |slots|
    ensures i < |slots| ==> slots[i].task == None
    ensures forall k :: 0 <= k < i ==> slots[k].task.Some?
  {
    if slots == [] || slots[0].task == None then 0 else 1 + FirstFree(slots[1..])
  }

  predicate Valid(c: Capture) {
    && |c.slots| == PENDING
    && (forall i :: 0 <= i < PENDING ==> WellFormed(c.slots[i].text) && |c.slots[i].text| <= CAP)
    && (forall i, j :: 0 <= i < j < PENDING && c.slots[i].task.Some? ==> c.slots[i].task != c.slots[j].task)
    && (forall i :: 0 <= i < PENDING && c.slots[i].task == None ==> c.slots[i].text == [])
  }

  /** commit_locked, for the slot `at` or for no slot. */
  function CommitLine(c: Capture, at: nat, owner: Option<Task>, seg: seq<byte>, evicted: bool): Capture
    requires Valid(c)
  {
    var held := if at < PENDING then c.slots[at].text else [];
    Capture(if at < PENDING then c.slots[at := FREE] else c.slots, c.victim,
            c.log + [Record(owner, Appended(held, seg), evicted)])
  }

  /** A newline of `task`, with seg in front of it. */
  function EndLine(c: Capture, task: Task, seg: seq<byte>): Capture
    requires Valid(c)
  {
    var at := Owner(c.slots, task);
    if seg != [] || (at < PENDING && c.slots[at].text != []) then CommitLine(c, at, Some(task), seg, false)
    else if at < PENDING then c.(slots := c.slots[at := FREE])
    else c
  }

  /** The slot a task gets when it holds none, and the state after making room. */
  function Claim(c: Capture, task: Task): (r: (Capture, nat))
    requires Valid(c) && Owner(c.slots, task) == PENDING
    ensures |r.0.slots| == PENDING && r.1 < PENDING
  {
    var free := FirstFree(c.slots);
    if free < PENDING then (c.(slots := c.slots[free := Pending(Some(task), [])]), free)
    else
      var v := c.victim % PENDING;
      var d := CommitLine(c, v, c.slots[v].task, [], true);
      (Capture(d.slots[v := Pending(Some(task), [])], c.victim + 1, d.log), v)
  }

  /** Output of `task` without a newline. */
  function Extend(c: Capture, task: Task, seg: seq<byte>): Capture
    requires Valid(c)
  {
    var own := Owner(c.slots, task);
    var (d, at) := if own < PENDING then (c, own) else Claim(c, task);
    assert |d.slots[at].text| <= CAP;
    d.(slots := d.slots[at := Pending(Some(task), Appended(d.slots[at].text, seg))])
  }

  function NewlineAt(text: seq<byte>): (k: nat)
    ensures k <= |text|
    ensures k < |text| ==> text[k] == NEWLINE
    ensures NEWLINE !in text[..k]
  {
    if text == [] || text[0] == NEWLINE then 0 else
      assert text[..1 + NewlineAt(text[1..])] == [text[0]] + text[1..][..NewlineAt(text[1..])];
      1 + NewlineAt(text[1..])
  }

  lemma EndLineValid(c: Capture, task: Task, seg: seq<byte>)
    requires Valid(c)
    ensures Valid(EndLine(c, task, seg))
    ensures Owner(EndLine(c, task, seg).slots, task) == PENDING
  {
    hide Appended;
    assert WellFormed([]);
  }

  lemma ClaimValid(c: Capture, task: Task)
    requires Valid(c) && Owner(c.slots, task) == PENDING
    ensures var (d, at) := Claim(c, task);
            Valid(d) && d.slots[at] == Pending(Some(task), []) && Owner(d.slots, task) == at
  {
    hide Appended;
    assert WellFormed([]);
    var (d, at) := Claim(c, task);
    assert d.slots[at] == Pending(Some(task), []);
    assert forall i :: 0 <= i < PENDING && i != at ==> d.slots[i] == c.slots[i];
  }

  lemma StoreTextValid(d: Capture, at: nat, task: Task, text: seq<byte>)
    requires Valid(d) && at < PENDING && d.slots[at].task == Some(task)
    requires WellFormed(text) && |text| <= CAP
    ensures Valid(d.(slots := d.slots[at := Pending(Some(task), text)]))
  {
    hide WellFormed;
  }

  lemma ExtendValid(c: Capture, task: Task, seg: seq<byte>)
    requires Valid(c)
    ensures Valid(Extend(c, task, seg))
  {
    hide WellFormed, Appended;
    var own := Owner(c.slots, task);
    if own == PENDING {
      ClaimValid(c, task);
    }
    var (d, at) := if own < PENDING then (c, own) else Claim(c, task);
    AppendedWellFormed(d.slots[at].text, seg);
    StoreTextValid(d, at, task, Appended(d.slots[at].text, seg));
  }

  /** One call of the console hook. */
  function Ingested(c: Capture, task: Task, text: seq<byte>): (r: Capture)
    requires Valid(c)
    ensures Valid(r)
    decreases |text|
  {
    var k := NewlineAt(text);
    if k < |text| then
      EndLineValid(c, task, text[..k]);
      Ingested(EndLine(c, task, text[..k]), task, text[k + 1..])
    else if text == [] then c
    else
      ExtendValid(c, task, text);
      Extend(c, task, text)
  }

  /** A line handed over whole (log_ring_line), of no task's. */
  function LineLogged(c: Capture, text: seq<byte>): (r: Capture)
    requires Valid(c)
    ensures Valid(r) && r.slots == c.slots && r.victim == c.victim
    ensures r.log == c.log + [Record(None, Appended([], text), false)]
  {
    CommitLine(c, PENDING, None, text, false)
  }

  // ---------------- whose turn it is to be evicted ----------------

  function Evictions(log: seq<Record>): nat {
    if log == [] then 0 else Evictions(log[..|log| - 1]) + (if log[|log| - 1].evicted then 1 else 0)
  }

  lemma EvictionsSnoc(log: seq<Record>, r: Record)
    ensures Evictions(log + [r]) == Evictions(log) + (if r.evicted then 1 else 0)
  {
    assert (log + [r])[..|log|] == log;
  }

  /** The victim index counts the evictions so far. */
  predicate Counted(c: Capture) { c.victim == Evictions(c.log) }

  lemma EndLineCounts(c: Capture, task: Task, seg: seq<byte>)
    requires Valid(c) && Counted(c)
    ensures Counted(EndLine(c, task, seg))
  {
    var at := Owner(c.slots, task);
    var held := if at < PENDING then c.slots[at].text else [];
    EvictionsSnoc(c.log, Record(Some(task), Appended(held, seg), false));
  }

  predicate Full(c: Capture) { FirstFree(c.slots) == PENDING }

  /** A claim when every slot is taken commits what the slot held, under its task's name. */
  lemma ClaimEvicts(c: Capture, task: Task)
    requires Valid(c) && Owner(c.slots, task) == PENDING
    ensures var (d, at) := Claim(c, task);
            if Full(c) then d.log == c.log + [Record(c.slots[at].task, c.slots[at].text, true)] else d.log == c.log
  {
    if Full(c) {
      var text := c.slots[c.victim % PENDING].text;
      assert WellFormed([]);
      AppendedKeeps(text, []);
      ConcatEmpty(text);
    }
  }

  lemma ExtendCounts(c: Capture, task: Task, seg: seq<byte>)
    requires Valid(c) && Counted(c)
    ensures Counted(Extend(c, task, seg))
  {
    if Owner(c.slots, task) == PENDING {
      ClaimEvicts(c, task);
      var at := Claim(c, task).1;
      EvictionsSnoc(c.log, Record(c.slots[at].task, c.slots[at].text, true));
    }
  }

  lemma {:induction false} IngestedCounts(c: Capture, task: Task, text: seq<byte>)
    requires Valid(c) && Counted(c)
    ensures Counted(Ingested(c, task, text))
    decreases |text|
  {
    hide Counted, EndLine, Extend;
    var k := NewlineAt(text);
    if k < |text| {
      EndLineValid(c, task, text[..k]);
      EndLineCounts(c, task, text[..k]);
      IngestedCounts(EndLine(c, task, text[..k]), task, text[k + 1..]);
    } else if text != [] {
      ExtendCounts(c, task, text);
    }
  }

  lemma LineCounts(c: Capture, text: seq<byte>)
    requires Valid(c) && Counted(c)
    ensures Counted(LineLogged(c, text))
  {
    EvictionsSnoc(c.log, Record(None, Appended([], text), false));
  }

  /** Any four evictions in a row take four different slots. */
  lemma EvictionsTakeTurns(c: Capture, task: Task, d: Capture, other: Task)
    requires Valid(c) && Full(c) && Owner(c.slots, task) == PENDING && Counted(c)
    requires Valid(d) && Full(d) && Owner(d.slots, other) == PENDING && Counted(d)
    requires Evictions(c.log) < Evictions(d.log) < Evictions(c.log) + PENDING
    ensures Claim(c, task).1 != Claim(d, other).1
  {
    var a, b := Evictions(c.log), Evictions(d.log);
    assert a % 4 != b % 4;
  }

  // ---------------- the in-place form ----------------

  class Console {
    const half: LogHalf
    const pending: array<Pending>
    var victim: nat
    ghost var log: seq<Record>

    ghost predicate Ok()
      reads this, half, half.slots, pending
    {
      && half.Valid() && pending.Length == PENDING
      && Valid(View())
      && |log| == |half.lines| && forall i :: 0 <= i < |log| ==> half.lines[i].text == log[i].text
    }

    ghost function View(): Capture
      reads this, pending
    {
      Capture(pending[..], victim, log)
    }

    constructor (half: LogHalf)
      requires half.Valid() && half.lines == []
      ensures Ok() && this.half == half && fresh(pending) && log == []
    {
      this.half := half;
      pending := new Pending[PENDING](_ => FREE);
      victim, log := 0, [];
      new;
      assert WellFormed([]);
    }

    method FindPending(task: Task) returns (i: nat)
      requires pending.Length == PENDING
      ensures i == Owner(pending[..], task)
    {
      i := 0;
      while i < PENDING && pending[i].task != Some(task)
        invariant i <= PENDING
        invariant forall k :: 0 <= k < i ==> pending[k].task != Some(task)
      {
        i := i + 1;
      }
    }

    method CommitPending(at: nat, ghost owner: Option<Task>, seg: seq<byte>, now: nat, ghost evicted: bool)
      requires Ok()
      modifies this, half, half.slots, pending
      ensures Ok() && View() == CommitLine(old(View()), at, owner, seg, evicted)
    {
      ghost var c := View();
      var held := if at < PENDING then pending[at].text else [];
      half.Commit(held, seg, now);
      if at < PENDING {
        pending[at] := FREE;
      }
      log := log + [Record(owner, Appended(held, seg), evicted)];
      assert WellFormed([]);
      assert pending[..] == CommitLine(c, at, owner, seg, evicted).slots;
    }

    /** log_ring_line: past the pending slots, which stay as they are. */
    method LogLine(text: seq<byte>, now: nat)
      requires Ok()
      modifies this, half, half.slots, pending
      ensures Ok() && View() == LineLogged(old(View()), text)
    {
      CommitPending(PENDING, None, text, now, false);
    }

    method FirstFreeSlot() returns (at: nat)
      requires pending.Length == PENDING
      ensures at == FirstFree(pending[..])
    {
      at := 0;
      while at < PENDING && pending[at].task != None
        invariant at <= PENDING
        invariant forall k :: 0 <= k < at ==> pending[k].task.Some?
      {
        at := at + 1;
      }
    }

    /** Gives slot `at` to a task; what it held has been committed. */
    method Assign(at: nat, task: Task, text: seq<byte>)
      requires at < pending.Length
      modifies pending
      ensures pending[..] == old(pending[..])[at := Pending(Some(task), text)]
    {
      pending[at] := Pending(Some(task), text);
    }

    method ClaimPending(task: Task, now: nat) returns (at: nat)
      requires Ok() && Owner(pending[..], task) == PENDING
      modifies this, half, half.slots, pending
      ensures Ok() && (View(), at) == Claim(old(View()), task)
    {
      hide WellFormed, Appended;
      ClaimValid(View(), task);
      at := FirstFreeSlot();
      if at < PENDING {
        Assign(at, task, []);
        return;
      }
      at := victim % PENDING;
      CommitPending(at, pending[at].task, [], now, true);
      victim := victim + 1;
      Assign(at, task, []);
    }

    method Hold(p: nat, task: Task, seg: seq<byte>, now: nat)
      requires Ok() && p == Owner(pending[..], task)
      modifies this, half, half.slots, pending
      ensures Ok() && View() == Extend(old(View()), task, seg)
    {
      hide WellFormed, Appended;
      ExtendValid(View(), task, seg);
      var at := p;
      if p == PENDING {
        ClaimValid(View(), task);
        at := ClaimPending(task, now);
      }
      Assign(at, task, Appended(pending[at].text, seg));
    }

    method Finish(p: nat, task: Task, seg: seq<byte>, now: nat)
      requires Ok() && p == Owner(pending[..], task)
      modifies this, half, half.slots, pending
      ensures Ok() && View() == EndLine(old(View()), task, seg)
      ensures Owner(pending[..], task) == PENDING
    {
      hide WellFormed, Appended;
      EndLineValid(View(), task, seg);
      if seg != [] || (p < PENDING && pending[p].text != []) {
        CommitPending(p, Some(task), seg, now, false);
      } else if p < PENDING {
        pending[p] := FREE;
        assert pending[..] == old(pending[..])[p := FREE];
      }
    }

    method Ingest(task: Task, text: seq<byte>, now: nat)
      requires Ok()
      modifies this, half, half.slots, pending
      ensures Ok() && View() == Ingested(old(View()), task, text)
    {
      hide EndLine, Extend, Valid, Ingested;
      var p := FindPending(task);
      var start := 0;
      var i := 0;
      assert text[0..] == text;
      while i < |text|
        invariant start <= i <= |text| && Ok()
        invariant p == Owner(pending[..], task)
        invariant NEWLINE !in text[start..i]
        invariant Ingested(View(), task, text[start..]) == Ingested(old(View()), task, text)
      {
        if text[i] == NEWLINE {
          NewlineStep(View(), task, text, start, i);
          Finish(p, task, text[start..i], now);
          p := PENDING;
          start := i + 1;
        }
        i := i + 1;
      }
      assert text[start..i] == text[start..];
      LastStep(View(), task, text[start..]);
      if start < |text| {
        Hold(p, task, text[start..], now);
      }
    }
  }

  lemma LastStep(c: Capture, task: Task, rest: seq<byte>)
    requires Valid(c) && NEWLINE !in rest
    ensures Ingested(c, task, rest) == if rest == [] then c else Extend(c, task, rest)
  {
    hide Extend;
  }

  lemma NewlineStep(c: Capture, task: Task, text: seq<byte>, start: nat, i: nat)
    requires Valid(c) && start <= i < |text| && text[i] == NEWLINE && NEWLINE !in text[start..i]
    ensures Valid(EndLine(c, task, text[start..i]))
    ensures Ingested(c, task, text[start..]) == Ingested(EndLine(c, task, text[start..i]), task, text[i + 1..])
  {
    hide EndLine, Extend, Valid, NewlineAt;
    EndLineValid(c, task, text[start..i]);
    FoundNewline(text, start, i);
  }

  lemma {:induction false} NewlineAtIs(text: seq<byte>, k: nat)
    requires k < |text| && text[k] == NEWLINE && NEWLINE !in text[..k]
    ensures NewlineAt(text) == k
    decreases k
  {
    if k > 0 {
      assert text[0] == text[..k][0];
      assert text[1..][..k - 1] == text[..k][1..];
      NewlineAtIs(text[1..], k - 1);
    }
  }

  lemma FoundNewline(text: seq<byte>, start: nat, i: nat)
    requires start <= i < |text| && text[i] == NEWLINE && NEWLINE !in text[start..i]
    ensures NewlineAt(text[start..]) == i - start
    ensures text[start..][..i - start] == text[start..i] && text[start..][i - start + 1..] == text[i + 1..]
  {
    assert text[start..][..i - start] == text[start..i];
    NewlineAtIs(text[start..], i - start);
  }
}
