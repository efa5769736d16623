/**
 * The log follower (tools/logtail.py) against a device that logs between page
 * fetches, drops requests, and reboots between polls with its ring kept or lost.
 *
 * Boot IDs are taken in boot order; the follower only ever compares them for
 * equality, so this loses nothing.
 */
module LogTail {
  import opened Bytes
  import opened LogSlot
  import opened LogPages

  const PAGE_LIMIT: nat := 200

  // ---------------- the device ----------------

  /** `truth` is every line ever committed; `torn` the boots once retained incompletely. */
  datatype World = World(current: Log, previous: Option<Log>, truth: map<(BootId, nat), Line>, torn: set<BootId>)

  /** A boot none of whose newest 1024 lines is unreadable. */
  predicate Solid(log: Log) {
    forall n | 1 <= n <= log.latest && InRange(n, log.latest) :: n in log.readable
  }

  predicate True(log: Log, truth: map<(BootId, nat), Line>) {
    LogOk(log) && forall n :: n in log.readable ==> (log.id, n) in truth && truth[(log.id, n)] == log.readable[n]
  }

  predicate WorldOk(w: World) {
    && True(w.current, w.truth) && Solid(w.current)
    && (w.previous.Some? ==>
          && True(w.previous.value, w.truth) && w.previous.value.id < w.current.id
          && (!Solid(w.previous.value) ==> w.previous.value.id in w.torn))
    && (forall k :: k in w.truth ==> k.0 <= w.current.id && (k.0 == w.current.id ==> 1 <= k.1 <= w.current.latest))
    && forall b :: b in w.torn ==> b < w.current.id
  }

  datatype Message = Message(uptime: nat, text: seq<byte>)

  function Logged(w: World, m: Message): World {
    var n := w.current.latest + 1;
    var line := Line(n, m.uptime, m.text);
    var readable := map k | k in w.current.readable && InRange(k, n) :: w.current.readable[k];
    w.(current := Log(w.current.id, n, readable[n := line]), truth := w.truth[(w.current.id, n) := line])
  }

  function AllLogged(w: World, ms: seq<Message>): World
    decreases ms
  {
    if ms == [] then w else AllLogged(Logged(w, ms[0]), ms[1..])
  }

  /** What a reset may retain: nothing, or true lines of an earlier boot. */
  predicate MayRetain(w: World, kept: Option<Log>) {
    kept.Some? ==> kept.value.id <= w.current.id && True(kept.value, w.truth)
  }

  function Rebooted(w: World, kept: Option<Log>): World {
    World(Log(w.current.id + 1, 0, map[]), kept, w.truth,
          w.torn + (if kept.Some? && !Solid(kept.value) then {kept.value.id} else {}))
  }

  lemma LoggedOk(w: World, m: Message)
    requires WorldOk(w)
    ensures WorldOk(Logged(w, m))
  {
    var log := Logged(w, m).current;
    forall n | 1 <= n <= log.latest && InRange(n, log.latest)
      ensures n in log.readable
    {
      assert n < log.latest ==> InRange(n, w.current.latest);
    }
  }

  lemma {:induction false} AllLoggedOk(w: World, ms: seq<Message>)
    requires WorldOk(w)
    ensures var w' := AllLogged(w, ms);
            && WorldOk(w') && w'.previous == w.previous && w'.torn == w.torn
            && w'.current.id == w.current.id && w'.current.latest == w.current.latest + |ms|
            && (forall n :: n in w'.current.readable && n <= w.current.latest ==> n in w.current.readable)
            && (forall k :: k in w.truth ==> k in w'.truth && w'.truth[k] == w.truth[k])
    decreases ms
  {
    if ms != [] {
      LoggedOk(w, ms[0]);
      AllLoggedOk(Logged(w, ms[0]), ms[1..]);
    }
  }

  // ---------------- a page ----------------

  datatype Which = Current | Previous

  datatype Reply = Reply(id: BootId, latest: nat, lines: seq<Line>)

  function SourceLog(w: World, which: Which): Option<Log> {
    if which == Current then Some(w.current) else w.previous
  }

  function Fetched(w: World, which: Which, after: nat): Option<Reply> {
    match SourceLog(w, which)
    case None => None
    case Some(log) => Some(Reply(log.id, log.latest, PageLines(log, after, PAGE_LIMIT)))
  }

  /** validate_page's ordering conditions. */
  predicate Acceptable(r: Reply, after: nat) {
    forall i :: 0 <= i < |r.lines| ==>
      1 <= r.lines[i].seqNo <= r.latest && (if i == 0 then after else r.lines[i - 1].seqNo) < r.lines[i].seqNo
  }

  /** The device never sends a page the follower would reject. */
  lemma RepliesAreAcceptable(w: World, which: Which, after: nat)
    requires WorldOk(w) && Fetched(w, which, after).Some?
    ensures Acceptable(Fetched(w, which, after).value, after)
  {
    var log := SourceLog(w, which).value;
    PageSpec(log, after, PAGE_LIMIT);
  }

  /** What happens before one request: lines logged, and whether the request succeeds. */
  datatype Weather = Weather(logged: seq<Message>, answered: bool)

  const CALM := Weather([], true)

  function Next(env: seq<Weather>): Weather { if env == [] then CALM else env[0] }
  function Later(env: seq<Weather>): seq<Weather> { if env == [] then [] else env[1..] }

  /** The world when the next request reaches the device. */
  function Arrived(w: World, env: seq<Weather>): World { AllLogged(w, Next(env).logged) }

  // ---------------- the follower ----------------

  /** A line written out; only its text is printed, boot and number say where it came from. */
  datatype Entry = Entry(boot: BootId, line: Line)

  datatype Note = Overwritten(boot: BootId, n: nat) | NotRetained(boot: BootId) | BootStarted(boot: BootId)

  datatype Follower = Follower(boot: Option<BootId>, cursor: nat, out: seq<Entry>, notes: seq<Note>)

  function Entries(boot: BootId, lines: seq<Line>): (r: seq<Entry>)
    ensures |r| == |lines| && forall i :: 0 <= i < |r| ==> r[i] == Entry(boot, lines[i])
  {
    seq(|lines|, i requires 0 <= i < |lines| => Entry(boot, lines[i]))
  }

  function GapNote(t: Follower, r: Reply): seq<Note> {
    if r.lines != [] && r.lines[0].seqNo > t.cursor + 1
    then [Overwritten(r.id, r.lines[0].seqNo - t.cursor - 1)] else []
  }

  function Consumed(t: Follower, r: Reply): Follower {
    t.(notes := t.notes + GapNote(t, r), out := t.out + Entries(r.id, r.lines), cursor := Last(r.lines, t.cursor))
  }

  predicate WantsMore(t: Follower, r: Reply) {
    r.lines != [] && Last(r.lines, t.cursor) < r.latest
  }

  /** State after a drain or poll; `done` is false when a request failed part-way. */
  datatype Outcome = Outcome(w: World, t: Follower, env: seq<Weather>, done: bool)

  function Remaining(w: World, which: Which, cursor: nat): nat {
    match SourceLog(w, which)
    case None => 0
    case Some(log) => if log.latest > cursor then log.latest - cursor else 0
  }

  function Drained(w: World, t: Follower, which: Which, env: seq<Weather>): Outcome
    requires WorldOk(w)
    decreases |env|, Remaining(w, which, t.cursor)
  {
    AllLoggedOk(w, Next(env).logged);
    var w' := Arrived(w, env);
    if !Next(env).answered then Outcome(w', t, Later(env), false) else
    match Fetched(w', which, t.cursor)
    case None => Outcome(w', t, Later(env), true)
    case Some(r) =>
      PageSpec(SourceLog(w', which).value, t.cursor, PAGE_LIMIT);
      var t1 := if t.boot == None then t.(boot := Some(r.id)) else t;
      var t2 := Consumed(t1, r);
      if WantsMore(t1, r) then Drained(w', t2, which, Later(env))
      else
        var t3 := if r.latest > t2.cursor && r.lines == [] then t2.(cursor := r.latest) else t2;
        Outcome(w', t3, Later(env), true)
  }

  function ReadRetained(w: World, t: Follower, env: seq<Weather>): Outcome
    requires WorldOk(w) && w.previous.Some?
  {
    var r := Fetched(w, Previous, t.cursor).value;
    if WantsMore(t, r) then Drained(w, Consumed(t, r), Previous, env) else Outcome(w, Consumed(t, r), env, true)
  }

  /** The retained log of the followed boot, before moving on to the new boot. */
  function Bridged(w: World, t: Follower, env: seq<Weather>): Outcome
    requires WorldOk(w) && t.boot.Some?
  {
    AllLoggedOk(w, Next(env).logged);
    var w' := Arrived(w, env);
    if !Next(env).answered then Outcome(w', t, Later(env), false)
    else if w'.previous.Some? && w'.previous.value.id == t.boot.value then ReadRetained(w', t, Later(env))
    else Outcome(w', t.(notes := t.notes + [NotRetained(t.boot.value)]), Later(env), true)
  }

  /** The follower at the start of the new boot. */
  function Restarted(t: Follower, boot: BootId): Follower {
    t.(notes := t.notes + [BootStarted(boot)], boot := Some(boot), cursor := 0)
  }

  function MovedOn(w: World, t: Follower, env: seq<Weather>): Outcome
    requires WorldOk(w) && t.boot.Some?
  {
    BridgedWorldOk(w, t, env);
    var b := Bridged(w, t, env);
    if b.done then Drained(b.w, Restarted(b.t, w.current.id), Current, b.env) else b
  }

  /** The first request of a poll finds the followed boot still running. */
  function Continued(w: World, t: Follower, after: nat, env: seq<Weather>): Outcome
    requires WorldOk(w)
  {
    var r := Fetched(w, Current, after).value;
    if WantsMore(t, r) then Drained(w, Consumed(t, r), Current, env) else Outcome(w, Consumed(t, r), env, true)
  }

  function Polled(w: World, t: Follower, env: seq<Weather>): Outcome
    requires WorldOk(w)
  {
    AllLoggedOk(w, Next(env).logged);
    var w' := Arrived(w, env);
    if !Next(env).answered then Outcome(w', t, Later(env), false)
    else if t.boot.Some? && w'.current.id != t.boot.value then MovedOn(w', t, Later(env))
    else Continued(w', t.(boot := Some(w'.current.id)), if t.boot.Some? then t.cursor else 0, Later(env))
  }

  lemma {:induction false} DrainedWorldOk(w: World, t: Follower, which: Which, env: seq<Weather>)
    requires WorldOk(w)
    ensures WorldOk(Drained(w, t, which, env).w)
    decreases |env|, Remaining(w, which, t.cursor)
  {
    AllLoggedOk(w, Next(env).logged);
    var w' := Arrived(w, env);
    if Next(env).answered && Fetched(w', which, t.cursor).Some? {
      PageSpec(SourceLog(w', which).value, t.cursor, PAGE_LIMIT);
      var r := Fetched(w', which, t.cursor).value;
      var t1 := if t.boot == None then t.(boot := Some(r.id)) else t;
      if WantsMore(t1, r) {
        DrainedWorldOk(w', Consumed(t1, r), which, Later(env));
      }
    }
  }

  lemma BridgedWorldOk(w: World, t: Follower, env: seq<Weather>)
    requires WorldOk(w) && t.boot.Some?
    ensures WorldOk(Bridged(w, t, env).w)
  {
    AllLoggedOk(w, Next(env).logged);
    var w' := Arrived(w, env);
    if Next(env).answered && w'.previous.Some? {
      var r := Fetched(w', Previous, t.cursor).value;
      DrainedWorldOk(w', Consumed(t, r), Previous, Later(env));
    }
  }

  // ---------------- what a run keeps ----------------

  predicate Written(out: seq<Entry>, boot: BootId, n: nat) {
    exists i :: 0 <= i < |out| && out[i].boot == boot && out[i].line.seqNo == n
  }

  predicate Before(a: Entry, b: Entry) {
    a.boot < b.boot || (a.boot == b.boot && a.line.seqNo < b.line.seqNo)
  }

  /** Lines written from a boot. */
  function Count(out: seq<Entry>, boot: BootId): nat {
    if out == [] then 0 else Count(out[..|out| - 1], boot) + (if out[|out| - 1].boot == boot then 1 else 0)
  }

  /** Lines of a boot reported as overwritten. */
  function Reported(notes: seq<Note>, boot: BootId): nat {
    if notes == [] then 0 else
      Reported(notes[..|notes| - 1], boot) +
      match notes[|notes| - 1]
      case Overwritten(b, n) => if b == boot then n else 0
      case _ => 0
  }

  /** Every entry is a line its boot committed under that number. */
  predicate Faithful(t: Follower, truth: map<(BootId, nat), Line>) {
    forall e :: e in t.out ==> (e.boot, e.line.seqNo) in truth && truth[(e.boot, e.line.seqNo)] == e.line
  }

  /** Strictly increasing in boot and number, so nothing twice, and all up to the cursor. */
  predicate Ordered(t: Follower) {
    && (forall i, j :: 0 <= i < j < |t.out| ==> Before(t.out[i], t.out[j]))
    && (t.boot == None ==> t.out == [] && t.cursor == 0)
    && (t.boot.Some? ==> forall e :: e in t.out ==>
          e.boot < t.boot.value || (e.boot == t.boot.value && e.line.seqNo <= t.cursor))
  }

  /** Every readable line after c0 and up to the cursor is written. */
  predicate CaughtUp(t: Follower, log: Log, c0: nat) {
    forall n :: n in log.readable && c0 < n <= t.cursor ==> Written(t.out, log.id, n)
  }

  /** Lines written and lines reported overwritten make up the cursor. */
  predicate Balanced(t: Follower) {
    t.boot.Some? ==> Count(t.out, t.boot.value) + Reported(t.notes, t.boot.value) == t.cursor
  }

  ghost predicate Good(w: World, t: Follower) {
    && WorldOk(w)
    && Faithful(t, w.truth)
    && Ordered(t)
    && (t.boot.Some? ==> t.boot.value <= w.current.id)
    && (t.boot == Some(w.current.id) ==> t.cursor <= w.current.latest && CaughtUp(t, w.current, 0))
    && (t.boot.Some? && t.boot.value !in w.torn ==> Balanced(t))
    && (t.boot == None ==> t.notes == [])
    && (forall i :: 0 <= i < |t.notes| ==> t.boot.Some? && t.notes[i].boot <= t.boot.value)
  }

  lemma {:induction false} CountConcat(a: seq<Entry>, b: seq<Entry>, boot: BootId)
    ensures Count(a + b, boot) == Count(a, boot) + Count(b, boot)
    decreases |b|
  {
    if b == [] {
      assert a + b == a;
    } else {
      CountConcat(a, b[..|b| - 1], boot);
      assert (a + b)[..|a + b| - 1] == a + b[..|b| - 1];
    }
  }

  lemma {:induction false} CountAll(out: seq<Entry>, boot: BootId)
    requires forall i :: 0 <= i < |out| ==> out[i].boot == boot
    ensures Count(out, boot) == |out|
    decreases |out|
  {
    if out != [] {
      CountAll(out[..|out| - 1], boot);
    }
  }

  lemma {:induction false} CountNone(out: seq<Entry>, boot: BootId)
    requires forall i :: 0 <= i < |out| ==> out[i].boot != boot
    ensures Count(out, boot) == 0
    decreases |out|
  {
    if out != [] {
      CountNone(out[..|out| - 1], boot);
    }
  }

  lemma ReportedSnoc(notes: seq<Note>, note: Note, boot: BootId)
    ensures Reported(notes + [note], boot) ==
            Reported(notes, boot) + (if note.Overwritten? && note.boot == boot then note.n else 0)
  {
    assert (notes + [note])[..|notes|] == notes;
  }

  lemma {:induction false} ReportedNone(notes: seq<Note>, boot: BootId)
    requires forall i :: 0 <= i < |notes| ==> notes[i].boot != boot
    ensures Reported(notes, boot) == 0
    decreases |notes|
  {
    if notes != [] {
      ReportedNone(notes[..|notes| - 1], boot);
    }
  }

  lemma NothingBetween(log: Log, page: seq<Line>, after: nat, limit: nat, i: nat, n: nat)
    requires IsPage(log, page, after, limit) && 0 < i < |page| && page[i - 1].seqNo < n < page[i].seqNo
    ensures !Holds(page, n)
  {
    forall k | 0 <= k < |page| ensures page[k].seqNo != n {
      assert k < i ==> page[k].seqNo <= page[i - 1].seqNo;
    }
  }

  /** A page of a boot without torn lines has no holes. */
  lemma {:induction false} PageContiguous(log: Log, page: seq<Line>, after: nat, limit: nat, i: nat)
    requires LogOk(log) && Solid(log) && IsPage(log, page, after, limit) && i < |page|
    ensures page[i].seqNo == page[0].seqNo + i
    decreases i
  {
    if i > 0 {
      PageContiguous(log, page, after, limit, i - 1);
      var n := page[i - 1].seqNo + 1;
      assert Reads(log, page[i]) && Reads(log, page[i - 1]);
      assert InRange(n, log.latest);
      assert page[i].seqNo <= Last(page, after);
      assert Holds(page, n);
      if n < page[i].seqNo {
        NothingBetween(log, page, after, limit, i, n);
      }
    }
  }

  lemma PageBalance(log: Log, page: seq<Line>, after: nat, limit: nat)
    requires LogOk(log) && Solid(log) && IsPage(log, page, after, limit) && page != []
    ensures Last(page, after) == page[0].seqNo + |page| - 1
  {
    PageContiguous(log, page, after, limit, |page| - 1);
  }

  /** Writing out one page of the followed boot. */
  lemma ConsumeKeeps(log: Log, t: Follower, limit: nat, r: Reply, truth: map<(BootId, nat), Line>)
    requires True(log, truth) && t.boot == Some(log.id) && Faithful(t, truth) && Ordered(t)
    requires r.id == log.id && r.latest == log.latest && IsPage(log, r.lines, t.cursor, limit)
    ensures var t' := Consumed(t, r);
            && t'.boot == t.boot && t.cursor <= t'.cursor && t.out <= t'.out
            && Faithful(t', truth) && Ordered(t')
  {
    var t' := Consumed(t, r);
    forall i | 0 <= i < |r.lines| ensures Reads(log, r.lines[i]) && r.lines[i].seqNo <= t'.cursor {
    }
    forall e | e in t'.out
      ensures (e.boot, e.line.seqNo) in truth && truth[(e.boot, e.line.seqNo)] == e.line
      ensures e.boot < log.id || (e.boot == log.id && e.line.seqNo <= t'.cursor)
    {
      if e !in t.out {
        var i :| 0 <= i < |r.lines| && e == Entry(r.id, r.lines[i]);
      }
    }
    forall i, j | 0 <= i < j < |t'.out|
      ensures Before(t'.out[i], t'.out[j])
    {
      if j >= |t.out| && i < |t.out| {
        assert t.out[i] in t.out;
      }
    }
  }

  lemma WrittenConcat(out: seq<Entry>, boot: BootId, lines: seq<Line>, n: nat)
    ensures Written(out + Entries(boot, lines), boot, n) <==> Written(out, boot, n) || Holds(lines, n)
  {
    var more := out + Entries(boot, lines);
    if Written(out, boot, n) {
      var i :| 0 <= i < |out| && out[i].boot == boot && out[i].line.seqNo == n;
      assert more[i] == out[i];
    }
    if Holds(lines, n) {
      var i :| 0 <= i < |lines| && lines[i].seqNo == n;
      assert more[|out| + i] == Entry(boot, lines[i]);
    }
    if Written(more, boot, n) && !Written(out, boot, n) {
      var i :| 0 <= i < |more| && more[i].boot == boot && more[i].line.seqNo == n;
      assert lines[i - |out|].seqNo == n;
    }
  }

  /** A page holds exactly the readable lines up to its last one. */
  lemma PageHolds(log: Log, page: seq<Line>, after: nat, limit: nat, n: nat)
    requires IsPage(log, page, after, limit)
    ensures Holds(page, n) <==> n in log.readable && after < n <= Last(page, after)
  {
    if Holds(page, n) {
      var i :| 0 <= i < |page| && page[i].seqNo == n;
      assert Reads(log, page[i]);
    }
  }

  lemma ConsumeWrites(log: Log, t: Follower, limit: nat, r: Reply, n: nat)
    requires LogOk(log) && r.id == log.id && IsPage(log, r.lines, t.cursor, limit)
    ensures var t' := Consumed(t, r);
            Written(t'.out, log.id, n) <==>
              Written(t.out, log.id, n) || (n in log.readable && t.cursor < n <= t'.cursor)
  {
    WrittenConcat(t.out, r.id, r.lines, n);
    PageHolds(log, r.lines, t.cursor, limit, n);
    hide Written, Holds, IsPage;
  }

  lemma ConsumeBalances(log: Log, t: Follower, limit: nat, r: Reply)
    requires LogOk(log) && Solid(log) && t.boot == Some(log.id) && Balanced(t)
    requires r.id == log.id && IsPage(log, r.lines, t.cursor, limit)
    ensures Balanced(Consumed(t, r))
  {
    var entries := Entries(r.id, r.lines);
    CountConcat(t.out, entries, log.id);
    CountAll(entries, log.id);
    ReportedGap(t, r);
    if r.lines != [] {
      PageBalance(log, r.lines, t.cursor, limit);
      assert t.cursor < r.lines[0].seqNo;
    }
  }

  lemma ReportedGap(t: Follower, r: Reply)
    ensures Reported(t.notes + GapNote(t, r), r.id) ==
            Reported(t.notes, r.id)
            + (if r.lines != [] && r.lines[0].seqNo > t.cursor + 1 then r.lines[0].seqNo - t.cursor - 1 else 0)
  {
    if GapNote(t, r) != [] {
      ReportedSnoc(t.notes, GapNote(t, r)[0], r.id);
    } else {
      ConcatEmpty(t.notes);
    }
  }

  function Jumped(t: Follower, r: Reply): Follower {
    if r.latest > t.cursor && r.lines == [] then t.(cursor := r.latest) else t
  }

  predicate Fits(r: Reply, log: Log) { r.id == log.id && r.latest == log.latest }

  function AfterPage(t: Follower, r: Reply): Follower {
    var t' := Consumed(t, r);
    if WantsMore(t, r) then t' else Jumped(t', r)
  }

  /** An empty page means nothing readable is left after the cursor. */
  lemma EmptyPage(log: Log, t: Follower, r: Reply)
    requires LogOk(log) && Fits(r, log) && IsPage(log, r.lines, t.cursor, PAGE_LIMIT) && r.lines == []
    ensures Consumed(t, r) == t
    ensures forall n :: n in log.readable ==> n <= t.cursor
    ensures Solid(log) ==> log.latest <= t.cursor
  {
    assert t.out + Entries(r.id, r.lines) == t.out;
    assert t.notes + GapNote(t, r) == t.notes;
    forall n | n in log.readable ensures n <= t.cursor {
      assert !Holds(r.lines, n);
    }
    if Solid(log) && log.latest >= 1 {
      assert InRange(log.latest, log.latest);
    }
  }

  /** One accepted page, with the jump over an unreadable tail when it is the last. */
  lemma PageAdvances(log: Log, t: Follower, r: Reply, truth: map<(BootId, nat), Line>)
    requires True(log, truth) && t.boot == Some(log.id) && Faithful(t, truth) && Ordered(t)
    requires Fits(r, log) && IsPage(log, r.lines, t.cursor, PAGE_LIMIT)
    ensures var end := AfterPage(t, r);
            && t.cursor <= end.cursor && t.out <= end.out && end.boot == t.boot
            && end.notes == t.notes + GapNote(t, r)
            && Faithful(end, truth) && Ordered(end)
            && (t.cursor <= log.latest ==> end.cursor <= log.latest)
            && (WantsMore(t, r) ==> t.cursor < end.cursor <= log.latest)
            && (!WantsMore(t, r) ==> log.latest <= end.cursor)
  {
    ConsumeKeeps(log, t, PAGE_LIMIT, r, truth);
    if r.lines != [] {
      assert Reads(log, r.lines[|r.lines| - 1]);
    }
  }

  lemma PageCatchesUp(log: Log, t: Follower, r: Reply, c0: nat)
    requires LogOk(log) && Fits(r, log) && IsPage(log, r.lines, t.cursor, PAGE_LIMIT)
    requires CaughtUp(t, log, c0)
    ensures CaughtUp(AfterPage(t, r), log, c0)
  {
    if r.lines == [] {
      EmptyPage(log, t, r);
    } else {
      forall n | n in log.readable && c0 < n <= Consumed(t, r).cursor
        ensures Written(Consumed(t, r).out, log.id, n)
      {
        ConsumeWrites(log, t, PAGE_LIMIT, r, n);
      }
    }
  }

  lemma PageBalances(log: Log, t: Follower, r: Reply)
    requires LogOk(log) && Solid(log) && t.boot == Some(log.id) && Balanced(t)
    requires Fits(r, log) && IsPage(log, r.lines, t.cursor, PAGE_LIMIT)
    ensures Balanced(AfterPage(t, r))
  {
    ConsumeBalances(log, t, PAGE_LIMIT, r);
    if r.lines == [] {
      EmptyPage(log, t, r);
    }
  }

  lemma PageWritesNothingElse(log: Log, t: Follower, r: Reply, n: nat)
    requires LogOk(log) && Fits(r, log) && IsPage(log, r.lines, t.cursor, PAGE_LIMIT)
    ensures Written(AfterPage(t, r).out, log.id, n) ==>
              Written(t.out, log.id, n) || (n in log.readable && t.cursor < n)
    ensures Written(t.out, log.id, n) ==> Written(AfterPage(t, r).out, log.id, n)
  {
    ConsumeWrites(log, t, PAGE_LIMIT, r, n);
  }

  // ---------------- one turn of a drain ----------------

  /** The first page names the boot. */
  function Adopted(t: Follower, r: Reply): Follower {
    if t.boot == None then t.(boot := Some(r.id)) else t
  }

  /** One turn of a drain. */
  lemma DrainedStep(w: World, t: Follower, which: Which, env: seq<Weather>)
    requires WorldOk(w)
    ensures var w' := Arrived(w, env);
            && WorldOk(w')
            && Drained(w, t, which, env) ==
              (if !Next(env).answered then Outcome(w', t, Later(env), false) else
               match Fetched(w', which, t.cursor)
               case None => Outcome(w', t, Later(env), true)
               case Some(r) =>
                 var t' := AfterPage(Adopted(t, r), r);
                 if WantsMore(Adopted(t, r), r) then Drained(w', t', which, Later(env))
                 else Outcome(w', t', Later(env), true))
  {
    AllLoggedOk(w, Next(env).logged);
    var w' := Arrived(w, env);
    if SourceLog(w', which).Some? {
      PageSpec(SourceLog(w', which).value, t.cursor, PAGE_LIMIT);
    }
    hide WorldOk, PageLines, Entries, GapNote;
  }

  /** A turn that wants more comes nearer to the end. */
  lemma DrainedNearer(w: World, t: Follower, which: Which, env: seq<Weather>)
    requires WorldOk(w)
    ensures WorldOk(Arrived(w, env))
    ensures Next(env).answered && Fetched(Arrived(w, env), which, t.cursor).Some? ==>
              var r := Fetched(Arrived(w, env), which, t.cursor).value;
              WantsMore(Adopted(t, r), r) ==>
                || |Later(env)| < |env|
                || (env == [] && Remaining(Arrived(w, env), which, AfterPage(Adopted(t, r), r).cursor)
                               < Remaining(w, which, t.cursor))
  {
    AllLoggedOk(w, Next(env).logged);
    var w' := Arrived(w, env);
    if SourceLog(w', which).Some? {
      PageSpec(SourceLog(w', which).value, t.cursor, PAGE_LIMIT);
    }
    hide WorldOk, PageLines;
  }

  // ---------------- a whole drain ----------------

  ghost predicate Extends(w': World, w: World) {
    && w'.previous == w.previous && w'.torn == w.torn && w'.current.id == w.current.id
    && w.current.latest <= w'.current.latest
    && (forall n :: n in w'.current.readable && n <= w.current.latest ==> n in w.current.readable)
    && (forall k :: k in w.truth ==> k in w'.truth && w'.truth[k] == w.truth[k])
  }

  /** Reading the log `which` of the boot being followed, with nothing after c0 missed so far. */
  predicate Reading(w: World, t: Follower, which: Which, c0: nat) {
    && WorldOk(w) && SourceLog(w, which).Some?
    && t.boot == Some(SourceLog(w, which).value.id)
    && Faithful(t, w.truth) && Ordered(t)
    && c0 <= t.cursor && CaughtUp(t, SourceLog(w, which).value, c0)
    && (which == Current ==> t.cursor <= w.current.latest)
  }

  function Answer(w: World, which: Which, t: Follower): Reply
    requires SourceLog(w, which).Some?
  {
    Fetched(w, which, t.cursor).value
  }

  lemma DrainUnfolds(w: World, t: Follower, which: Which, env: seq<Weather>, c0: nat)
    requires Reading(w, t, which, c0)
    ensures var w' := Arrived(w, env);
            && WorldOk(w') && SourceLog(w', which).Some?
            && (!Next(env).answered ==> Drained(w, t, which, env) == Outcome(w', t, Later(env), false))
            && (Next(env).answered ==>
                  var r := Answer(w', which, t);
                  Drained(w, t, which, env) ==
                  if WantsMore(t, r) then Drained(w', AfterPage(t, r), which, Later(env))
                  else Outcome(w', AfterPage(t, r), Later(env), true))
  {
    AllLoggedOk(w, Next(env).logged);
    hide Faithful, Ordered, CaughtUp;
  }

  /** From (w, t) to (w', t'), reading one log. */
  ghost predicate Advanced(w: World, t: Follower, w': World, t': Follower, which: Which, c0: nat) {
    && Extends(w', w) && Reading(w, t, which, c0) && Reading(w', t', which, c0)
    && t'.boot == t.boot && t.cursor <= t'.cursor && t.out <= t'.out
    && (Solid(SourceLog(w, which).value) ==> Solid(SourceLog(w', which).value))
    && (Solid(SourceLog(w, which).value) && Balanced(t) ==> Balanced(t'))
    && NotesAbout(t'.notes, t.notes, t.boot.value)
  }

  lemma AdvancedTwice(w: World, t: Follower, w1: World, t1: Follower, w2: World, t2: Follower, which: Which, c0: nat)
    requires Advanced(w, t, w1, t1, which, c0) && Advanced(w1, t1, w2, t2, which, c0)
    ensures Advanced(w, t, w2, t2, which, c0)
  {
    hide Faithful, Ordered, CaughtUp, Solid, Balanced, WorldOk;
  }

  lemma ArrivalAdvances(w: World, t: Follower, which: Which, env: seq<Weather>, c0: nat)
    requires Reading(w, t, which, c0)
    ensures Advanced(w, t, Arrived(w, env), t, which, c0)
  {
    AllLoggedOk(w, Next(env).logged);
    hide Ordered, Balanced;
  }

  lemma GapNoteAbout(t: Follower, r: Reply)
    ensures NotesAbout(t.notes + GapNote(t, r), t.notes, r.id)
  {
  }

  lemma PageStep(w: World, t: Follower, which: Which, c0: nat)
    requires Reading(w, t, which, c0)
    ensures var r, log := Answer(w, which, t), SourceLog(w, which).value;
            var end := AfterPage(t, r);
            && Advanced(w, t, w, end, which, c0)
            && (WantsMore(t, r) ==> Remaining(w, which, end.cursor) < Remaining(w, which, t.cursor))
            && (!WantsMore(t, r) ==> log.latest <= end.cursor)
  {
    hide Faithful, Ordered, CaughtUp, Solid, Balanced, AfterPage, IsPage, GapNote, NotesAbout, PageLines;
    var log, r := SourceLog(w, which).value, Answer(w, which, t);
    PageSpec(log, t.cursor, PAGE_LIMIT);
    PageAdvances(log, t, r, w.truth);
    PageCatchesUp(log, t, r, c0);
    GapNoteAbout(t, r);
    if Solid(log) && Balanced(t) {
      PageBalances(log, t, r);
    }
  }

  /**
   * A drain writes true lines in order; when it completes, every line of that log
   * beyond the starting point that is then readable has been written, and an
   * untorn log leaves the count of lines written and reported balanced.
   */
  lemma {:induction false} DrainKeeps(w: World, t: Follower, which: Which, env: seq<Weather>, c0: nat)
    requires Reading(w, t, which, c0)
    ensures var o := Drained(w, t, which, env);
            && Advanced(w, t, o.w, o.t, which, c0)
            && (o.done ==> SourceLog(o.w, which).value.latest <= o.t.cursor)
    decreases |env|, Remaining(w, which, t.cursor)
  {
    DrainUnfolds(w, t, which, env, c0);
    ArrivalAdvances(w, t, which, env, c0);
    var w' := Arrived(w, env);
    PageStep(w', t, which, c0);
    hide Drained, AfterPage, Arrived, Advanced;
    if Next(env).answered {
      var r := Answer(w', which, t);
      AdvancedTwice(w, t, w', t, w', AfterPage(t, r), which, c0);
      if WantsMore(t, r) {
        var o := Drained(w, t, which, env);
        AdvancedReads(w, t, w', AfterPage(t, r), which, c0);
        DrainKeeps(w', AfterPage(t, r), which, Later(env), c0);
        AdvancedTwice(w, t, w', AfterPage(t, r), o.w, o.t, which, c0);
      }
    }
  }

  lemma AdvancedReads(w: World, t: Follower, w': World, t': Follower, which: Which, c0: nat)
    requires Advanced(w, t, w', t', which, c0)
    ensures Reading(w', t', which, c0)
    ensures WorldOk(w') && SourceLog(w', which).Some?
  {
  }

  /** Only notes about one boot were added. */
  ghost predicate NotesAbout(notes': seq<Note>, notes: seq<Note>, boot: BootId) {
    notes <= notes' && forall i :: |notes| <= i < |notes'| ==> notes'[i].boot == boot
  }

  /** The retained log does not change under a drain, so this says exactly what is written from it. */
  lemma {:induction false} DrainPreviousWrites(w: World, t: Follower, env: seq<Weather>, n: nat)
    requires Reading(w, t, Previous, t.cursor)
    ensures var o, log := Drained(w, t, Previous, env), w.previous.value;
            && (Written(t.out, log.id, n) ==> Written(o.t.out, log.id, n))
            && (Written(o.t.out, log.id, n) ==> Written(t.out, log.id, n) || (n in log.readable && t.cursor < n))
    decreases |env|, Remaining(w, Previous, t.cursor)
  {
    DrainUnfolds(w, t, Previous, env, t.cursor);
    ArrivalAdvances(w, t, Previous, env, t.cursor);
    var w' := Arrived(w, env);
    PageStep(w', t, Previous, t.cursor);
    if Next(env).answered {
      var log, r := w'.previous.value, Answer(w', Previous, t);
      PageSpec(log, t.cursor, PAGE_LIMIT);
      PageWritesNothingElse(log, t, r, n);
      if WantsMore(t, r) {
        hide Faithful, Ordered, Solid, Balanced, Drained, AfterPage, AllLogged, Written, CaughtUp;
        RestartReading(w', AfterPage(t, r), t.cursor);
        DrainPreviousWrites(w', AfterPage(t, r), Later(env), n);
      }
    }
  }

  lemma RestartReading(w: World, t: Follower, c0: nat)
    requires Reading(w, t, Previous, c0)
    ensures Reading(w, t, Previous, t.cursor)
  {
  }

  // ---------------- a poll ----------------

  /** The retained log of the boot that was being followed, if the device still has it. */
  predicate Retained(w: World, t: Follower) {
    w.previous.Some? && t.boot == Some(w.previous.value.id)
  }

  lemma ExtendsTwice(a: World, b: World, c: World)
    requires Extends(b, a) && Extends(c, b)
    ensures Extends(c, a)
  {
  }

  lemma BridgePage(w: World, t: Follower)
    requires Reading(w, t, Previous, t.cursor)
    ensures var log, r := w.previous.value, Answer(w, Previous, t);
            && Advanced(w, t, w, Consumed(t, r), Previous, t.cursor)
            && (!WantsMore(t, r) ==> forall n :: n in log.readable ==> n <= Consumed(t, r).cursor)
  {
    var log, r := w.previous.value, Answer(w, Previous, t);
    PageSpec(log, t.cursor, PAGE_LIMIT);
    ConsumeKeeps(log, t, PAGE_LIMIT, r, w.truth);
    GapNoteAbout(t, r);
    if r.lines == [] {
      EmptyPage(log, t, r);
    } else {
      PageCatchesUp(log, t, r, t.cursor);
      if Solid(log) && Balanced(t) {
        ConsumeBalances(log, t, PAGE_LIMIT, r);
      }
    }
  }

  lemma ReadRetainedAdvances(w: World, t: Follower, env: seq<Weather>)
    requires Reading(w, t, Previous, t.cursor)
    ensures var o := ReadRetained(w, t, env);
            && Advanced(w, t, o.w, o.t, Previous, t.cursor)
            && (o.done ==> forall n :: n in w.previous.value.readable ==> n <= o.t.cursor)
  {
    BridgePage(w, t);
    var r := Answer(w, Previous, t);
    if WantsMore(t, r) {
      DrainKeeps(w, Consumed(t, r), Previous, env, t.cursor);
      var o := ReadRetained(w, t, env);
      hide CaughtUp, Faithful, Ordered, Balanced, Solid, Drained;
      AdvancedTwice(w, t, w, Consumed(t, r), o.w, o.t, Previous, t.cursor);
    }
  }

  ghost predicate BridgeOk(w: World, t: Follower, b: Outcome) {
    && WorldOk(b.w) && Extends(b.w, w)
    && t.boot.Some? && b.t.boot == t.boot && t.out <= b.t.out && Faithful(b.t, b.w.truth) && Ordered(b.t)
    && NotesAbout(b.t.notes, t.notes, t.boot.value)
    && (t.boot.value !in w.torn ==> Balanced(b.t))
  }

  lemma AdvancedIsBridgeOk(w: World, t: Follower, w': World, o: Outcome)
    requires Good(w, t) && t.boot.Some? && t.boot.value != w.current.id
    requires Extends(w', w) && Advanced(w', t, o.w, o.t, Previous, t.cursor)
    ensures BridgeOk(w, t, o)
  {
    hide Faithful, Ordered, Balanced, CaughtUp;
    ExtendsTwice(w, w', o.w);
  }

  lemma ReadyToBridge(w: World, t: Follower)
    requires Good(w, t) && Retained(w, t)
    ensures Reading(w, t, Previous, t.cursor)
  {
  }

  lemma ArrivalExtends(w: World, env: seq<Weather>)
    requires WorldOk(w)
    ensures WorldOk(Arrived(w, env)) && Extends(Arrived(w, env), w)
  {
    AllLoggedOk(w, Next(env).logged);
  }

  /** The bridge was not needed, or the device no longer has the old boot. */
  lemma NothingToBridge(w: World, t: Follower, w': World, notes: seq<Note>, env: seq<Weather>, done: bool)
    requires Good(w, t) && t.boot.Some? && t.boot.value != w.current.id && WorldOk(w') && Extends(w', w)
    requires notes == [] || notes == [NotRetained(t.boot.value)]
    ensures BridgeOk(w, t, Outcome(w', t.(notes := t.notes + notes), env, done))
  {
    if notes != [] {
      ReportedSnoc(t.notes, notes[0], t.boot.value);
    } else {
      ConcatEmpty(t.notes);
    }
    hide Ordered, WorldOk, CaughtUp;
  }

  lemma BridgeKeeps(w: World, t: Follower, env: seq<Weather>)
    requires Good(w, t) && t.boot.Some? && t.boot.value != w.current.id
    ensures BridgeOk(w, t, Bridged(w, t, env))
  {
    ArrivalExtends(w, env);
    var w' := Arrived(w, env);
    ConcatEmpty(t.notes);
    GoodOnArrival(w, t, w');
    hide Good, BridgeOk, Advanced, ReadRetained, Reading, Arrived, WorldOk, Extends;
    if Next(env).answered && Retained(w', t) {
      ReadyToBridge(w', t);
      ReadRetainedAdvances(w', t, Later(env));
      AdvancedIsBridgeOk(w, t, w', ReadRetained(w', t, Later(env)));
    } else {
      var notes := if Next(env).answered then [NotRetained(t.boot.value)] else [];
      NothingToBridge(w, t, w', notes, Later(env), Next(env).answered);
    }
  }

  /**
   * Exactly which lines of the old boot are out once the follower has moved on:
   * those it had, and those of the retained log beyond its cursor.
   */
  lemma BridgeWrites(w: World, t: Follower, env: seq<Weather>, n: nat)
    requires Good(w, t) && t.boot.Some? && t.boot.value != w.current.id && Retained(w, t)
    requires Bridged(w, t, env).done
    ensures Written(Bridged(w, t, env).t.out, t.boot.value, n) <==>
            Written(t.out, t.boot.value, n) || (n in w.previous.value.readable && t.cursor < n)
  {
    AllLoggedOk(w, Next(env).logged);
    var w', log := Arrived(w, env), w.previous.value;
    var r := Answer(w', Previous, t);
    var t' := Consumed(t, r);
    assert Reading(w', t, Previous, t.cursor);
    ReadRetainedAdvances(w', t, Later(env));
    PageSpec(log, t.cursor, PAGE_LIMIT);
    ConsumeWrites(log, t, PAGE_LIMIT, r, n);
    if WantsMore(t, r) {
      BridgePage(w', t);
      RestartReading(w', t', t.cursor);
      DrainPreviousWrites(w', t', Later(env), n);
    }
  }

  lemma RestartKeeps(w: World, t: Follower)
    requires WorldOk(w) && Faithful(t, w.truth) && Ordered(t)
    requires t.boot.Some? && t.boot.value < w.current.id
    requires forall i :: 0 <= i < |t.notes| ==> t.notes[i].boot <= t.boot.value
    ensures Good(w, Restarted(t, w.current.id))
  {
    var id := w.current.id;
    forall i | 0 <= i < |t.out| ensures t.out[i].boot != id {
      assert t.out[i] in t.out;
    }
    CountNone(t.out, id);
    ReportedNone(t.notes, id);
    ReportedSnoc(t.notes, BootStarted(id), id);
  }

  lemma GoodIsReading(w: World, t: Follower)
    requires Good(w, t) && t.boot == Some(w.current.id)
    ensures Reading(w, t, Current, 0) && Balanced(t)
  {
  }

  lemma ReadingIsGood(w0: World, t0: Follower, w: World, t: Follower)
    requires Good(w0, t0) && t0.boot == Some(w0.current.id) && Advanced(w0, t0, w, t, Current, 0)
    ensures Good(w, t)
  {
  }

  /** Up to date with the running boot: every line it still holds is out. */
  predicate UpToDate(w: World, t: Follower) {
    && t.boot == Some(w.current.id) && t.cursor == w.current.latest
    && forall n :: n in w.current.readable ==> Written(t.out, w.current.id, n)
  }

  lemma CurrentDrain(w: World, t: Follower, env: seq<Weather>)
    requires Good(w, t) && t.boot == Some(w.current.id)
    ensures var o := Drained(w, t, Current, env);
            Good(o.w, o.t) && Extends(o.w, w) && t.out <= o.t.out && (o.done ==> UpToDate(o.w, o.t))
  {
    GoodIsReading(w, t);
    DrainKeeps(w, t, Current, env, 0);
    var o := Drained(w, t, Current, env);
    ReadingIsGood(w, t, o.w, o.t);
  }

  lemma GoodOnArrival(w: World, t: Follower, w': World)
    requires Good(w, t) && WorldOk(w') && Extends(w', w)
    ensures Good(w', t)
  {
    hide Ordered, Balanced, WorldOk;
  }

  lemma BridgedIsGood(w: World, t: Follower, b: Outcome)
    requires Good(w, t) && t.boot.Some? && t.boot.value != w.current.id && BridgeOk(w, t, b)
    ensures Good(b.w, b.t)
  {
    hide Ordered, Faithful, Balanced, WorldOk, CaughtUp;
  }

  lemma ContinuedKeeps(w: World, t: Follower, env: seq<Weather>)
    requires Good(w, t) && t.boot == Some(w.current.id)
    ensures var o := Continued(w, t, t.cursor, env);
            Good(o.w, o.t) && Extends(o.w, w) && t.out <= o.t.out && (o.done ==> UpToDate(o.w, o.t))
  {
    GoodIsReading(w, t);
    PageStep(w, t, Current, 0);
    var r := Answer(w, Current, t);
    PageSpec(w.current, t.cursor, PAGE_LIMIT);
    if r.lines == [] {
      EmptyPage(w.current, t, r);
    }
    assert AfterPage(t, r) == Consumed(t, r);
    ReadingIsGood(w, t, w, Consumed(t, r));
    if WantsMore(t, r) {
      CurrentDrain(w, Consumed(t, r), env);
    }
  }

  /** What a poll promises: the invariant kept, nothing unwritten, and completeness when it completes. */
  ghost predicate PollOk(w: World, t: Follower, o: Outcome) {
    && Good(o.w, o.t) && Extends(o.w, w) && t.out <= o.t.out
    && (o.done ==> UpToDate(o.w, o.t))
  }

  lemma BridgedThenRestarted(w: World, t: Follower, b: Outcome)
    requires Good(w, t) && t.boot.Some? && t.boot.value != w.current.id && BridgeOk(w, t, b)
    ensures Good(b.w, Restarted(b.t, w.current.id)) && Extends(b.w, w) && t.out <= b.t.out
  {
    assert forall i :: 0 <= i < |b.t.notes| ==> b.t.notes[i].boot <= t.boot.value;
    hide Faithful, Ordered, Balanced, CaughtUp, Solid;
    RestartKeeps(b.w, b.t);
  }

  lemma MovedOnKeeps(w: World, t: Follower, env: seq<Weather>)
    requires Good(w, t) && t.boot.Some? && t.boot.value != w.current.id
    ensures PollOk(w, t, MovedOn(w, t, env))
  {
    var b := Bridged(w, t, env);
    BridgeKeeps(w, t, env);
    BridgedIsGood(w, t, b);
    BridgedThenRestarted(w, t, b);
    var t' := Restarted(b.t, w.current.id);
    assert t'.boot == Some(b.w.current.id) && t'.out == b.t.out;
    hide Good, BridgeOk, Bridged, UpToDate, Restarted, Extends;
    if b.done {
      CurrentDrain(b.w, t', b.env);
      ExtendsTwice(w, b.w, Drained(b.w, t', Current, b.env).w);
    }
  }

  lemma PollOkAfterArrival(w: World, t: Follower, w': World, t': Follower, o: Outcome)
    requires Extends(w', w) && t'.out == t.out && PollOk(w', t', o)
    ensures PollOk(w, t, o)
  {
    ExtendsTwice(w, w', o.w);
  }

  lemma FirstPollIsGood(w: World, t: Follower)
    requires Good(w, t) && t.boot == None
    ensures Good(w, t.(boot := Some(w.current.id)))
  {
  }

  /** One poll, whatever is logged or fails in the middle of it. */
  lemma PollKeeps(w: World, t: Follower, env: seq<Weather>)
    requires Good(w, t)
    ensures PollOk(w, t, Polled(w, t, env))
  {
    AllLoggedOk(w, Next(env).logged);
    var w' := Arrived(w, env);
    GoodOnArrival(w, t, w');
    var t' := t;
    if t.boot == None {
      FirstPollIsGood(w', t);
      t' := t.(boot := Some(w'.current.id));
    }
    if !Next(env).answered {
      assert PollOk(w, t, Polled(w, t, env));
    } else {
      hide Good, MovedOn, Continued, UpToDate, Extends, PollOk;
      if t'.boot.value != w'.current.id {
        MovedOnKeeps(w', t', Later(env));
      } else {
        ContinuedIsOk(w', t', Later(env));
      }
      PollOkAfterArrival(w, t, w', t', Polled(w, t, env));
    }
  }

  lemma ContinuedIsOk(w: World, t: Follower, env: seq<Weather>)
    requires Good(w, t) && t.boot == Some(w.current.id)
    ensures PollOk(w, t, Continued(w, t, t.cursor, env))
  {
    ContinuedKeeps(w, t, env);
  }

  // ---------------- runs ----------------

  datatype Event =
    | Logs(m: Message)
    | Reboot(kept: Option<Log>)
    | Poll(env: seq<Weather>)

  datatype Config = Config(w: World, t: Follower)

  const START := Config(World(Log(0, 0, map[]), None, map[], {}), Follower(None, 0, [], []))

  predicate Allowed(c: Config, e: Event) {
    e.Reboot? ==> MayRetain(c.w, e.kept)
  }

  ghost function Happened(c: Config, e: Event): Config
    requires WorldOk(c.w)
  {
    match e
    case Logs(m) => Config(Logged(c.w, m), c.t)
    case Reboot(kept) => Config(Rebooted(c.w, kept), c.t)
    case Poll(env) => var o := Polled(c.w, c.t, env); Config(o.w, o.t)
  }

  lemma EventKeeps(c: Config, e: Event)
    requires Good(c.w, c.t) && Allowed(c, e)
    ensures Good(Happened(c, e).w, Happened(c, e).t)
    ensures c.t.out <= Happened(c, e).t.out
  {
    match e
    case Logs(m) =>
      AllLoggedOk(c.w, [m]);
      assert AllLogged(c.w, [m]) == Logged(c.w, m);
      GoodOnArrival(c.w, c.t, Logged(c.w, m));
    case Reboot(kept) =>
    case Poll(env) => PollKeeps(c.w, c.t, env);
  }

  ghost predicate Run(c: Config, events: seq<Event>)
    decreases events
  {
    events == [] ||
    (WorldOk(c.w) && Allowed(c, events[0]) && Run(Happened(c, events[0]), events[1..]))
  }

  ghost function End(c: Config, events: seq<Event>): Config
    requires Run(c, events)
    decreases events
  {
    if events == [] then c else End(Happened(c, events[0]), events[1..])
  }

  lemma {:induction false} RunKeeps(c: Config, events: seq<Event>)
    requires Good(c.w, c.t) && Run(c, events)
    ensures Good(End(c, events).w, End(c, events).t)
    ensures c.t.out <= End(c, events).t.out
    decreases events
  {
    if events != [] {
      EventKeeps(c, events[0]);
      RunKeeps(Happened(c, events[0]), events[1..]);
    }
  }

  /**
   * Every run of logging, reboots and polls: what was written is, in order and
   * without repetition, lines committed under those numbers; lines written and
   * reported make up the cursor of a boot never retained with a torn line.
   */
  lemma FollowSafety(events: seq<Event>)
    requires Run(START, events)
    ensures var e := End(START, events);
            && (forall i, j :: 0 <= i < j < |e.t.out| ==> Before(e.t.out[i], e.t.out[j]))
            && (forall x :: x in e.t.out ==>
                  (x.boot, x.line.seqNo) in e.w.truth && e.w.truth[(x.boot, x.line.seqNo)] == x.line)
            && (e.t.boot.Some? && e.t.boot.value !in e.w.torn ==>
                  Count(e.t.out, e.t.boot.value) + Reported(e.t.notes, e.t.boot.value) == e.t.cursor)
  {
    StartIsGood();
    RunKeeps(START, events);
  }

  lemma StartIsGood()
    ensures Good(START.w, START.t)
  {
  }

  /** A poll that completes leaves nothing readable of the running boot unwritten. */
  lemma FollowCompleteness(events: seq<Event>, env: seq<Weather>)
    requires Run(START, events)
    ensures var e := End(START, events);
            && WorldOk(e.w)
            && var o := Polled(e.w, e.t, env);
            o.done ==> UpToDate(o.w, o.t)
  {
    StartIsGood();
    RunKeeps(START, events);
    PollKeeps(End(START, events).w, End(START, events).t, env);
  }
}
