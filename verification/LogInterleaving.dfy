/**
 * What line assembly promises each task, whatever its output was chunked into and
 * interleaved with (`ingest`, main/log_ring.c), for printable ASCII and newlines.
 */
module LogInterleaving {
  import opened Bytes
  import opened LogText
  import opened LogCapture

  /** Console output of a task, or a line handed over whole. */
  datatype Call = Call(task: Task, text: seq<byte>) | Direct(text: seq<byte>)

  predicate By(call: Call, task: Task) { call.Call? && call.task == task }

  predicate Plain(s: seq<byte>) {
    forall i :: 0 <= i < |s| ==> s[i] == NEWLINE || SPACE <= s[i] < 0x7f
  }

  predicate AllPlain(calls: seq<Call>) {
    forall i :: 0 <= i < |calls| && calls[i].Call? ==> Plain(calls[i].text)
  }

  // ---------------- one task on its own ----------------

  /** A task's output, with the moments at which its pending slot was taken away. */
  datatype Mark = Octet(b: byte) | Eviction

  datatype Assembly = Assembly(lines: seq<seq<byte>>, held: seq<byte>)

  const EMPTY := Assembly([], [])

  function Emitted(a: Assembly): Assembly {
    if a.held == [] then a else Assembly(a.lines + [Cut(a.held)], [])
  }

  function Feed(a: Assembly, m: Mark): Assembly {
    if m == Eviction || m.b == NEWLINE then Emitted(a) else a.(held := a.held + [m.b])
  }

  function FeedAll(a: Assembly, trace: seq<Mark>): Assembly
    decreases trace
  {
    if trace == [] then a else FeedAll(Feed(a, trace[0]), trace[1..])
  }

  function Octets(s: seq<byte>): (r: seq<Mark>)
    ensures |r| == |s| && forall i :: 0 <= i < |r| ==> r[i] == Octet(s[i])
  {
    seq(|s|, i requires 0 <= i < |s| => Octet(s[i]))
  }

  lemma {:induction false} FeedConcat(a: Assembly, x: seq<Mark>, y: seq<Mark>)
    ensures FeedAll(a, x + y) == FeedAll(FeedAll(a, x), y)
    decreases x
  {
    if x == [] {
      assert x + y == y;
    } else {
      assert (x + y)[1..] == x[1..] + y;
      FeedConcat(Feed(a, x[0]), x[1..], y);
    }
  }

  lemma {:induction false} FeedHeld(a: Assembly, s: seq<byte>)
    requires NEWLINE !in s
    ensures FeedAll(a, Octets(s)) == a.(held := a.held + s)
    decreases s
  {
    if s == [] {
      ConcatEmpty(a.held);
    } else {
      assert Octets(s)[1..] == Octets(s[1..]);
      FeedHeld(Feed(a, Octet(s[0])), s[1..]);
      assert a.held + [s[0]] + s[1..] == a.held + s;
    }
  }

  lemma FeedLine(a: Assembly, s: seq<byte>, rest: seq<byte>)
    requires NEWLINE !in s
    ensures FeedAll(a, Octets(s + [NEWLINE] + rest)) == FeedAll(Emitted(a.(held := a.held + s)), Octets(rest))
  {
    assert Octets(s + [NEWLINE] + rest) == Octets(s) + ([Octet(NEWLINE)] + Octets(rest));
    FeedConcat(a, Octets(s), [Octet(NEWLINE)] + Octets(rest));
    FeedHeld(a, s);
    assert ([Octet(NEWLINE)] + Octets(rest))[1..] == Octets(rest);
  }

  // ---------------- one task among others ----------------

  function LinesOf(log: seq<Record>, task: Task): seq<seq<byte>> {
    if log == [] then [] else
      LinesOf(log[..|log| - 1], task)
      + (if log[|log| - 1].owner == Some(task) then [log[|log| - 1].text] else [])
  }

  lemma LinesOfSnoc(log: seq<Record>, r: Record, task: Task)
    ensures LinesOf(log + [r], task) == LinesOf(log, task) + (if r.owner == Some(task) then [r.text] else [])
  {
    assert (log + [r])[..|log|] == log;
  }

  function HeldBy(c: Capture, task: Task): seq<byte>
    requires |c.slots| == PENDING
  {
    if Owner(c.slots, task) < PENDING then c.slots[Owner(c.slots, task)].text else []
  }

  /** The shared capture agrees with a task assembled alone. */
  predicate Matches(c: Capture, task: Task, a: Assembly)
    requires |c.slots| == PENDING
  {
    && LinesOf(c.log, task) == a.lines
    && HeldBy(c, task) == Cut(a.held)
    && (Owner(c.slots, task) < PENDING <==> a.held != [])
  }

  lemma OwnerIs(slots: seq<Pending>, task: Task, at: nat)
    requires at < |slots| && slots[at].task == Some(task)
    requires forall k :: 0 <= k < |slots| && k != at ==> slots[k].task != Some(task)
    ensures Owner(slots, task) == at
  {
  }

  lemma OwnerElsewhere(slots: seq<Pending>, slots': seq<Pending>, task: Task)
    requires |slots| == |slots'|
    requires forall k :: 0 <= k < |slots| ==> (slots[k].task == Some(task) <==> slots'[k].task == Some(task))
    ensures Owner(slots, task) == Owner(slots', task)
  {
  }

  lemma AppendedHeld(a: Assembly, seg: seq<byte>)
    requires Printable(seg)
    ensures Appended(Cut(a.held), seg) == Cut(a.held + seg)
  {
    AppendedPrintable(Cut(a.held), seg);
    CutAppend(a.held, seg);
  }

  lemma EndLineMatches(c: Capture, task: Task, seg: seq<byte>, a: Assembly)
    requires Valid(c) && Printable(seg) && Matches(c, task, a)
    ensures Valid(EndLine(c, task, seg))
    ensures Matches(EndLine(c, task, seg), task, Emitted(a.(held := a.held + seg)))
  {
    EndLineValid(c, task, seg);
    AppendedHeld(a, seg);
    LinesOfSnoc(c.log, Record(Some(task), Cut(a.held + seg), false), task);
    hide WellFormed, Appended;
  }

  lemma FreedOthers(slots: seq<Pending>, at: nat, u: Task)
    requires at < |slots| && slots[at].task != Some(u)
    ensures Owner(slots[at := FREE], u) == Owner(slots, u)
    ensures Owner(slots, u) != at
  {
    OwnerElsewhere(slots, slots[at := FREE], u);
  }

  lemma EndLineSlots(c: Capture, task: Task, seg: seq<byte>, u: Task)
    requires Valid(c) && u != task
    ensures var d := EndLine(c, task, seg);
            |d.slots| == PENDING && Owner(d.slots, u) == Owner(c.slots, u) && HeldBy(d, u) == HeldBy(c, u)
  {
    var own, d := Owner(c.slots, task), EndLine(c, task, seg);
    assert d.slots == c.slots || (own < PENDING && d.slots == c.slots[own := FREE]);
    assert |c.slots| == PENDING;
    hide Valid, EndLine, Owner;
    if own < PENDING {
      FreedOthers(c.slots, own, u);
    }
  }

  lemma EndLineLog(c: Capture, task: Task, seg: seq<byte>, u: Task)
    requires Valid(c) && u != task
    ensures LinesOf(EndLine(c, task, seg).log, u) == LinesOf(c.log, u)
  {
    hide WellFormed, Appended;
    if EndLine(c, task, seg).log != c.log {
      LinesOfSnoc(c.log, EndLine(c, task, seg).log[|c.log|], u);
      ConcatEmpty(LinesOf(c.log, u));
    }
  }

  lemma EndLineOthers(c: Capture, task: Task, seg: seq<byte>, u: Task, b: Assembly)
    requires Valid(c) && u != task && Matches(c, u, b)
    ensures Valid(EndLine(c, task, seg)) && Matches(EndLine(c, task, seg), u, b)
  {
    EndLineValid(c, task, seg);
    EndLineSlots(c, task, seg, u);
    EndLineLog(c, task, seg, u);
    hide Valid, EndLine, HeldBy, LinesOf, Owner;
  }

  /** Whose slot a claim takes, if it takes one. */
  function Evictee(c: Capture, task: Task): Option<Task>
    requires Valid(c)
  {
    if Owner(c.slots, task) == PENDING && FirstFree(c.slots) == PENDING
    then c.slots[c.victim % PENDING].task else None
  }

  /** A claim commits the evicted text whole, and nothing else. */
  lemma ClaimLines(c: Capture, task: Task, u: Task)
    requires Valid(c) && Owner(c.slots, task) == PENDING
    ensures LinesOf(Claim(c, task).0.log, u) ==
            LinesOf(c.log, u) + (if Evictee(c, task) == Some(u) then [HeldBy(c, u)] else [])
  {
    if Evictee(c, task).Some? {
      var v := c.victim % PENDING;
      AppendedNothing(c.slots[v].text);
      LinesOfSnoc(c.log, Record(c.slots[v].task, c.slots[v].text, true), u);
      hide WellFormed, Appended;
      if Evictee(c, task) == Some(u) {
        OwnerIs(c.slots, u, v);
      }
    }
  }

  lemma AppendedNothing(out: seq<byte>)
    requires |out| <= CAP
    ensures Appended(out, []) == out
  {
  }

  lemma ClaimSlots(c: Capture, task: Task, u: Task)
    requires Valid(c) && Owner(c.slots, task) == PENDING && u != task
    ensures var d := Claim(c, task).0;
            && (Evictee(c, task) == Some(u) ==> Owner(c.slots, u) < PENDING && Owner(d.slots, u) == PENDING)
            && (Evictee(c, task) != Some(u) ==> Owner(d.slots, u) == Owner(c.slots, u) && HeldBy(d, u) == HeldBy(c, u))
  {
    hide WellFormed, Appended;
    var v, d := c.victim % PENDING, Claim(c, task).0;
    if Evictee(c, task) == Some(u) {
      OwnerIs(c.slots, u, v);
      assert forall k :: 0 <= k < PENDING ==> d.slots[k].task != Some(u);
    } else {
      OwnerElsewhere(c.slots, d.slots, u);
    }
  }

  lemma StoreMatches(d: Capture, at: nat, task: Task, text: seq<byte>, u: Task)
    requires Valid(d) && at < PENDING && Owner(d.slots, task) == at
    ensures var e := d.(slots := d.slots[at := Pending(Some(task), text)]);
            && Owner(e.slots, u) == Owner(d.slots, u)
            && HeldBy(e, u) == (if u == task then text else HeldBy(d, u))
  {
    hide WellFormed;
    OwnerElsewhere(d.slots, d.slots[at := Pending(Some(task), text)], u);
  }

  lemma ExtendMatches(c: Capture, task: Task, seg: seq<byte>, a: Assembly)
    requires Valid(c) && Printable(seg) && seg != [] && Matches(c, task, a)
    ensures Valid(Extend(c, task, seg)) && Matches(Extend(c, task, seg), task, a.(held := a.held + seg))
  {
    ExtendValid(c, task, seg);
    AppendedHeld(a, seg);
    hide WellFormed, Appended, Claim, Valid;
    var own := Owner(c.slots, task);
    if own == PENDING {
      ClaimValid(c, task);
      ClaimLines(c, task, task);
      OwnedIsEvictable(c, task);
    }
    var (d, at) := if own < PENDING then (c, own) else Claim(c, task);
    StoreMatches(d, at, task, Appended(d.slots[at].text, seg), task);
  }

  lemma OwnedIsEvictable(c: Capture, task: Task)
    requires Valid(c) && Owner(c.slots, task) == PENDING
    ensures Evictee(c, task) != Some(task)
  {
    hide WellFormed;
  }

  function AfterEviction(b: Assembly, evicted: bool): Assembly {
    if evicted then Feed(b, Eviction) else b
  }

  /** Another task's claim either leaves u alone or commits all that u held, as one line. */
  lemma ClaimOthers(c: Capture, task: Task, u: Task, b: Assembly)
    requires Valid(c) && u != task && Owner(c.slots, task) == PENDING && Matches(c, u, b)
    ensures Matches(Claim(c, task).0, u, AfterEviction(b, Evictee(c, task) == Some(u)))
  {
    ClaimValid(c, task);
    ClaimLines(c, task, u);
    ClaimSlots(c, task, u);
    hide Valid, Claim, Evictee, LinesOf, WellFormed, Appended;
    if Evictee(c, task) != Some(u) {
      ConcatEmpty(LinesOf(c.log, u));
    }
  }

  /** What the claiming task then holds is its own affair. */
  lemma StoreOthers(d: Capture, at: nat, task: Task, text: seq<byte>, u: Task, b: Assembly)
    requires Valid(d) && at < PENDING && Owner(d.slots, task) == at && u != task && Matches(d, u, b)
    ensures Matches(d.(slots := d.slots[at := Pending(Some(task), text)]), u, b)
  {
    StoreMatches(d, at, task, text, u);
    hide Valid, HeldBy, Owner, LinesOf;
  }

  lemma ExtendOthers(c: Capture, task: Task, seg: seq<byte>, u: Task, b: Assembly)
    requires Valid(c) && u != task && Matches(c, u, b)
    ensures Valid(Extend(c, task, seg))
    ensures Matches(Extend(c, task, seg), u, AfterEviction(b, Evictee(c, task) == Some(u)))
  {
    ExtendValid(c, task, seg);
    var own := Owner(c.slots, task);
    if own == PENDING {
      ClaimValid(c, task);
      ClaimOthers(c, task, u, b);
    }
    var (d, at) := if own < PENDING then (c, own) else Claim(c, task);
    hide WellFormed, Appended, Claim, Valid, Matches;
    StoreOthers(d, at, task, Appended(d.slots[at].text, seg), u, AfterEviction(b, Evictee(c, task) == Some(u)));
  }

  // ---------------- a call, and a run of calls ----------------

  /** Whom a call evicts, if anyone. */
  function CallEvicts(c: Capture, task: Task, text: seq<byte>): Option<Task>
    requires Valid(c)
    decreases |text|
  {
    var k := NewlineAt(text);
    if k < |text| then
      EndLineValid(c, task, text[..k]);
      CallEvicts(EndLine(c, task, text[..k]), task, text[k + 1..])
    else if text == [] then None
    else Evictee(c, task)
  }

  lemma SplitAtNewline(text: seq<byte>)
    requires Plain(text)
    ensures var k := NewlineAt(text);
            && Printable(text[..k])
            && (k < |text| ==> text == text[..k] + [NEWLINE] + text[k + 1..] && Plain(text[k + 1..]))
            && (k == |text| ==> text[..k] == text && Printable(text))
  {
    var k := NewlineAt(text);
    PlainPrefix(text, k);
    if k < |text| {
      SplitAround(text, k);
    }
  }

  lemma PlainPrefix(text: seq<byte>, k: nat)
    requires Plain(text) && k <= |text| && NEWLINE !in text[..k]
    ensures Printable(text[..k])
  {
    forall i | 0 <= i < k ensures SPACE <= text[i] < 0x7f {
      assert text[..k][i] == text[i];
    }
  }

  lemma {:induction false} CallMatches(c: Capture, task: Task, text: seq<byte>, a: Assembly)
    requires Valid(c) && Plain(text) && Matches(c, task, a)
    ensures Matches(Ingested(c, task, text), task, FeedAll(a, Octets(text)))
    decreases |text|
  {
    hide Valid, Matches, EndLine, Extend;
    var k := NewlineAt(text);
    SplitAtNewline(text);
    if k < |text| {
      EndLineMatches(c, task, text[..k], a);
      FeedLine(a, text[..k], text[k + 1..]);
      CallMatches(EndLine(c, task, text[..k]), task, text[k + 1..], Emitted(a.(held := a.held + text[..k])));
    } else if text != [] {
      ExtendMatches(c, task, text, a);
      FeedHeld(a, text);
    }
  }

  lemma {:induction false} CallOthers(c: Capture, task: Task, text: seq<byte>, u: Task, b: Assembly)
    requires Valid(c) && u != task && Matches(c, u, b)
    ensures Matches(Ingested(c, task, text), u, AfterEviction(b, CallEvicts(c, task, text) == Some(u)))
    decreases |text|
  {
    hide Valid, Matches, EndLine, Extend, Evictee;
    var k := NewlineAt(text);
    if k < |text| {
      EndLineOthers(c, task, text[..k], u, b);
      CallOthers(EndLine(c, task, text[..k]), task, text[k + 1..], u, b);
    } else if text != [] {
      ExtendOthers(c, task, text, u, b);
    }
  }

  /** A line handed over whole leaves every task's assembly alone. */
  lemma DirectMatches(c: Capture, text: seq<byte>, u: Task, a: Assembly)
    requires Valid(c) && Matches(c, u, a)
    ensures Matches(LineLogged(c, text), u, a)
  {
    LinesOfSnoc(c.log, Record(None, Appended([], text), false), u);
    hide Valid, Appended;
    ConcatEmpty(LinesOf(c.log, u));
  }

  const START := Capture([FREE, FREE, FREE, FREE], 0, [])

  function After(calls: seq<Call>): (c: Capture)
    ensures Valid(c)
  {
    if calls == [] then
      assert WellFormed([]);
      START
    else
      match calls[|calls| - 1]
      case Call(task, text) => Ingested(After(calls[..|calls| - 1]), task, text)
      case Direct(text) => LineLogged(After(calls[..|calls| - 1]), text)
  }

  /** After any history of calls the victim index is the number of evictions so far. */
  lemma {:induction false} AfterIsCounted(calls: seq<Call>)
    ensures Counted(After(calls))
    decreases |calls|
  {
    if calls != [] {
      var before := calls[..|calls| - 1];
      AfterIsCounted(before);
      hide Ingested, Counted;
      match calls[|calls| - 1]
      case Call(task, text) => IngestedCounts(After(before), task, text);
      case Direct(text) => LineCounts(After(before), text);
    }
  }

  /** One task's output in order, with its evictions where they happened. */
  function Trace(calls: seq<Call>, u: Task): seq<Mark> {
    if calls == [] then [] else
      var before, last := calls[..|calls| - 1], calls[|calls| - 1];
      Trace(before, u) +
      if By(last, u) then Octets(last.text)
      else if last.Call? && CallEvicts(After(before), last.task, last.text) == Some(u) then [Eviction]
      else []
  }

  function Output(calls: seq<Call>, u: Task): seq<byte> {
    if calls == [] then [] else
      var last := calls[|calls| - 1];
      Output(calls[..|calls| - 1], u) + (if By(last, u) then last.text else [])
  }

  /** The octets of a trace. */
  function Said(trace: seq<Mark>): seq<byte> {
    if trace == [] then [] else
      Said(trace[..|trace| - 1]) + (match trace[|trace| - 1] case Octet(b) => [b] case Eviction => [])
  }

  /**
   * However the output of any number of tasks was chunked and interleaved, each
   * task's lines are its own output assembled alone, broken at its newlines and at
   * its evictions; an eviction loses nothing and gives nobody else's text. Lines handed
   * over whole in between do not show.
   */
  lemma {:induction false} EveryTaskAssembled(calls: seq<Call>, u: Task)
    requires AllPlain(calls)
    ensures Matches(After(calls), u, FeedAll(EMPTY, Trace(calls, u)))
    decreases |calls|
  {
    if calls != [] {
      var before, last := calls[..|calls| - 1], calls[|calls| - 1];
      var a := FeedAll(EMPTY, Trace(before, u));
      EveryTaskAssembled(before, u);
      if last.Direct? {
        DirectMatches(After(before), last.text, u, a);
        ConcatEmpty(Trace(before, u));
      } else if last.task == u {
        CallMatches(After(before), u, last.text, a);
        FeedConcat(EMPTY, Trace(before, u), Octets(last.text));
      } else {
        CallOthers(After(before), last.task, last.text, u, a);
        FeedConcat(EMPTY, Trace(before, u), [Eviction]);
        ConcatEmpty(Trace(before, u));
        assert FeedAll(a, [Eviction]) == Feed(a, Eviction);
      }
    }
  }

  lemma {:induction false} SaidConcat(x: seq<Mark>, y: seq<Mark>)
    ensures Said(x + y) == Said(x) + Said(y)
    decreases |y|
  {
    if y == [] {
      ConcatEmpty(x);
    } else {
      var front := y[..|y| - 1];
      SaidConcat(x, front);
      assert (x + y)[..|x + y| - 1] == x + front;
      ConcatAssoc(Said(x), Said(front), match y[|y| - 1] case Octet(b) => [b] case Eviction => []);
    }
  }

  lemma {:induction false} SaidOctets(s: seq<byte>)
    ensures Said(Octets(s)) == s
    decreases |s|
  {
    if s != [] {
      SaidOctets(s[..|s| - 1]);
      assert Octets(s)[..|s| - 1] == Octets(s[..|s| - 1]);
    }
  }

  /** Evictions take no octet away and move none. */
  lemma {:induction false} TraceSaysOutput(calls: seq<Call>, u: Task)
    ensures Said(Trace(calls, u)) == Output(calls, u)
    decreases |calls|
  {
    if calls != [] {
      var before, last := calls[..|calls| - 1], calls[|calls| - 1];
      TraceSaysOutput(before, u);
      SaidOctets(last.text);
      SaidConcat(Trace(before, u), Octets(last.text));
      SaidConcat(Trace(before, u), [Eviction]);
      assert Said([Eviction]) == [];
      ConcatEmpty(Trace(before, u));
      ConcatEmpty(Output(before, u));
    }
  }

  // ---------------- at most four tasks mid-line ----------------

  function Alone(output: seq<byte>): Assembly {
    FeedAll(EMPTY, Octets(output))
  }

  /** The tasks whose output so far does not end at a newline. */
  function MidLine(calls: seq<Call>): set<Task> {
    set i | 0 <= i < |calls| && calls[i].Call? && Alone(Output(calls, calls[i].task)).held != [] :: calls[i].task
  }

  predicate NeverCrowded(calls: seq<Call>) {
    forall k :: 0 <= k <= |calls| ==> |MidLine(calls[..k])| <= PENDING
  }

  lemma {:induction false} SilentTask(calls: seq<Call>, u: Task)
    requires forall i :: 0 <= i < |calls| ==> !By(calls[i], u)
    ensures Output(calls, u) == []
    decreases |calls|
  {
    if calls != [] {
      SilentTask(calls[..|calls| - 1], u);
    }
  }

  lemma MidLineHas(calls: seq<Call>, u: Task)
    requires Alone(Output(calls, u)).held != []
    ensures u in MidLine(calls)
  {
    if forall i :: 0 <= i < |calls| ==> !By(calls[i], u) {
      SilentTask(calls, u);
    }
  }

  lemma {:induction false} CallEvictsMeans(c: Capture, task: Task, text: seq<byte>, a: Assembly)
    requires Valid(c) && Plain(text) && Matches(c, task, a) && CallEvicts(c, task, text).Some?
    ensures forall i :: 0 <= i < PENDING ==> c.slots[i].task.Some? && c.slots[i].task != Some(task)
    ensures FeedAll(a, Octets(text)).held != []
    decreases |text|
  {
    hide WellFormed, Appended;
    var k := NewlineAt(text);
    SplitAtNewline(text);
    if k < |text| {
      var a' := Emitted(a.(held := a.held + text[..k]));
      EndLineMatches(c, task, text[..k], a);
      FeedLine(a, text[..k], text[k + 1..]);
      CallEvictsMeans(EndLine(c, task, text[..k]), task, text[k + 1..], a');
      FreedSlotSeen(c, task, text[..k]);
    } else {
      FeedHeld(a, text);
    }
  }

  lemma FreedSlotSeen(c: Capture, task: Task, seg: seq<byte>)
    requires Valid(c)
    ensures var d := EndLine(c, task, seg);
            && |d.slots| == PENDING
            && forall i :: 0 <= i < PENDING && d.slots[i].task.Some? ==> c.slots[i].task == d.slots[i].task
  {
    EndLineValid(c, task, seg);
    hide WellFormed, Appended;
  }

  lemma FiveDistinct(s: set<Task>, a: Task, b: Task, c: Task, d: Task, e: Task)
    requires a in s && b in s && c in s && d in s && e in s
    requires a != b && a != c && a != d && a != e && b != c && b != d && b != e && c != d && c != e && d != e
    ensures |s| >= 5
  {
    var rest := s - {a, b, c, d, e};
    assert s == rest + {a, b, c, d, e};
  }

  /** With room for every task that is mid-line, no slot is ever taken away. */
  lemma {:induction false} NoEvictions(calls: seq<Call>, u: Task)
    requires AllPlain(calls) && NeverCrowded(calls)
    ensures Trace(calls, u) == Octets(Output(calls, u))
    decreases |calls|, 1
  {
    if calls != [] {
      var before, last := calls[..|calls| - 1], calls[|calls| - 1];
      PrefixUncrowded(calls);
      NoEvictions(before, u);
      if last.Call? {
        NoEvictionNow(calls);
      }
      hide Valid, AllPlain, NeverCrowded, After, CallEvicts;
      OctetsConcat(Output(before, u), last.text);
      ConcatEmpty(Trace(before, u));
      ConcatEmpty(Output(before, u));
    }
  }

  lemma OctetsConcat(a: seq<byte>, b: seq<byte>)
    ensures Octets(a + b) == Octets(a) + Octets(b)
  {
  }

  lemma PrefixUncrowded(calls: seq<Call>)
    requires AllPlain(calls) && NeverCrowded(calls) && calls != []
    ensures AllPlain(calls[..|calls| - 1]) && NeverCrowded(calls[..|calls| - 1])
    ensures |MidLine(calls)| <= PENDING
  {
    var before := calls[..|calls| - 1];
    assert calls[..|calls|] == calls;
    forall k | 0 <= k <= |before| ensures |MidLine(before[..k])| <= PENDING {
      assert before[..k] == calls[..k];
    }
  }

  lemma OwnerIsMidLine(calls: seq<Call>, v: Task)
    requires AllPlain(calls) && NeverCrowded(calls)
    requires Owner(After(calls).slots, v) < PENDING
    ensures Alone(Output(calls, v)).held != []
    decreases |calls|, 2
  {
    NoEvictions(calls, v);
    EveryTaskAssembled(calls, v);
  }

  lemma AloneConcat(x: seq<byte>, y: seq<byte>)
    ensures Alone(x + y) == FeedAll(Alone(x), Octets(y))
  {
    OctetsConcat(x, y);
    FeedConcat(EMPTY, Octets(x), Octets(y));
  }

  /** Every slot's owner was already mid-line before the call, and still is after it. */
  lemma SlotOwnersMidLine(calls: seq<Call>, i: nat)
    requires AllPlain(calls) && NeverCrowded(calls) && calls != [] && i < PENDING
    requires var slot := After(calls[..|calls| - 1]).slots[i];
             slot.task.Some? && !By(calls[|calls| - 1], slot.task.value)
    ensures After(calls[..|calls| - 1]).slots[i].task.value in MidLine(calls)
    decreases |calls|, 0, 0
  {
    var before := calls[..|calls| - 1];
    var v := After(before).slots[i].task.value;
    PrefixUncrowded(calls);
    OwnerIsMidLine(before, v);
    ConcatEmpty(Output(before, v));
    MidLineHas(calls, v);
  }

  lemma NoEvictionNow(calls: seq<Call>)
    requires AllPlain(calls) && NeverCrowded(calls) && calls != [] && calls[|calls| - 1].Call?
    ensures var last := calls[|calls| - 1];
            CallEvicts(After(calls[..|calls| - 1]), last.task, last.text) == None
    decreases |calls|, 0, 1
  {
    var before, last := calls[..|calls| - 1], calls[|calls| - 1];
    var c, a := After(before), Alone(Output(before, last.task));
    PrefixUncrowded(calls);
    NoEvictions(before, last.task);
    EveryTaskAssembled(before, last.task);
    if CallEvicts(c, last.task, last.text).Some? {
      CallEvictsMeans(c, last.task, last.text, a);
      AloneConcat(Output(before, last.task), last.text);
      MidLineHas(calls, last.task);
      SlotOwnersMidLine(calls, 0);
      SlotOwnersMidLine(calls, 1);
      SlotOwnersMidLine(calls, 2);
      SlotOwnersMidLine(calls, 3);
      hide WellFormed, Alone, MidLine;
      FiveDistinct(MidLine(calls), c.slots[0].task.value, c.slots[1].task.value,
                   c.slots[2].task.value, c.slots[3].task.value, last.task);
    }
  }

  // ---------------- the lines of an output ----------------

  /** The non-empty lines completed in an output, cut at 179 octets. */
  function CompleteLines(output: seq<byte>): seq<seq<byte>>
    decreases |output|
  {
    var k := NewlineAt(output);
    if k == |output| then [] else
      (if k == 0 then [] else [Cut(output[..k])]) + CompleteLines(output[k + 1..])
  }

  lemma {:induction false} AloneIsCompleteLines(done: seq<seq<byte>>, output: seq<byte>)
    ensures FeedAll(Assembly(done, []), Octets(output)).lines == done + CompleteLines(output)
    decreases |output|
  {
    hide FeedAll, Octets, Cut, WellFormed;
    var k := NewlineAt(output);
    if k == |output| {
      assert output[..k] == output;
      FeedHeld(Assembly(done, []), output);
    } else {
      var a := Assembly(done, output[..k]);
      SplitAround(output, k);
      FeedLine(Assembly(done, []), output[..k], output[k + 1..]);
      ConcatEmpty(output[..k]);
      assert Emitted(a).held == [];
      AloneIsCompleteLines(Emitted(a).lines, output[k + 1..]);
      ConcatAssoc(done, Emitted(a).lines[|done|..], CompleteLines(output[k + 1..]));
    }
  }

  /**
   * With at most four tasks mid-line at any time, the lines committed for a task
   * are exactly the non-empty lines of its concatenated output, cut at 179 octets.
   */
  lemma LinesAreTheOutputs(calls: seq<Call>, u: Task)
    requires AllPlain(calls) && NeverCrowded(calls)
    ensures LinesOf(After(calls).log, u) == CompleteLines(Output(calls, u))
  {
    EveryTaskAssembled(calls, u);
    NoEvictions(calls, u);
    AloneIsCompleteLines([], Output(calls, u));
    ConcatEmpty(CompleteLines(Output(calls, u)));
  }

  /** So chunking and interleaving do not show. */
  lemma InterleavingDoesNotShow(calls: seq<Call>, other: seq<Call>, u: Task)
    requires AllPlain(calls) && NeverCrowded(calls) && AllPlain(other) && NeverCrowded(other)
    requires Output(calls, u) == Output(other, u)
    ensures LinesOf(After(calls).log, u) == LinesOf(After(other).log, u)
  {
    LinesAreTheOutputs(calls, u);
    LinesAreTheOutputs(other, u);
  }
}
