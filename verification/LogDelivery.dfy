/**
 * What a poll delivers (tools/logtail.py:89-123): it completes when its requests are
 * answered, and across a reboot it brings exactly the retained lines beyond the
 * cursor. One history from a clean start shows what that leaves out.
 */
module LogDelivery {
  import opened Bytes
  import opened LogSlot
  import opened LogPages
  import opened LogTail

  // ---------------- a poll completes ----------------

  predicate AllAnswered(env: seq<Weather>) { forall e :: e in env ==> e.answered }

  lemma {:induction false} DrainCompletes(w: World, t: Follower, which: Which, env: seq<Weather>)
    requires WorldOk(w) && AllAnswered(env)
    ensures Drained(w, t, which, env).done && AllAnswered(Drained(w, t, which, env).env)
    decreases |env|, Remaining(w, which, t.cursor)
  {
    DrainedStep(w, t, which, env);
    DrainedNearer(w, t, which, env);
    var w' := Arrived(w, env);
    assert Next(env).answered && AllAnswered(Later(env));
    hide WorldOk, Drained, Fetched, AfterPage, WantsMore, Arrived;
    if Fetched(w', which, t.cursor).Some? {
      var r := Fetched(w', which, t.cursor).value;
      if WantsMore(Adopted(t, r), r) {
        DrainCompletes(w', AfterPage(Adopted(t, r), r), which, Later(env));
      }
    }
  }

  lemma BridgeCompletes(w: World, t: Follower, env: seq<Weather>)
    requires WorldOk(w) && t.boot.Some? && AllAnswered(env)
    ensures Bridged(w, t, env).done && AllAnswered(Bridged(w, t, env).env)
  {
    AllLoggedOk(w, Next(env).logged);
    var w' := Arrived(w, env);
    assert Next(env).answered && AllAnswered(Later(env));
    hide WorldOk, Drained, Arrived;
    if w'.previous.Some? && w'.previous.value.id == t.boot.value {
      var r := Fetched(w', Previous, t.cursor).value;
      if WantsMore(t, r) {
        DrainCompletes(w', Consumed(t, r), Previous, Later(env));
      }
    }
  }

  /** A poll whose requests are all answered completes, whatever is logged meanwhile. */
  lemma PollCompletes(w: World, t: Follower, env: seq<Weather>)
    requires WorldOk(w) && AllAnswered(env)
    ensures Polled(w, t, env).done
  {
    AllLoggedOk(w, Next(env).logged);
    var w' := Arrived(w, env);
    assert Next(env).answered && AllAnswered(Later(env));
    hide WorldOk, Drained, Bridged, Arrived;
    if t.boot.Some? && w'.current.id != t.boot.value {
      BridgeCompletes(w', t, Later(env));
      BridgedWorldOk(w', t, Later(env));
      var b := Bridged(w', t, Later(env));
      DrainCompletes(b.w, Restarted(b.t, w'.current.id), Current, b.env);
    } else {
      var t1 := t.(boot := Some(w'.current.id));
      var r := Fetched(w', Current, if t.boot.Some? then t.cursor else 0).value;
      if WantsMore(t1, r) {
        DrainCompletes(w', Consumed(t1, r), Current, Later(env));
      }
    }
  }

  /** So after any history an answered poll leaves nothing readable of the running boot unwritten. */
  lemma AnsweredPollDelivers(events: seq<Event>, env: seq<Weather>)
    requires Run(START, events) && AllAnswered(env)
    ensures var e := End(START, events);
            && WorldOk(e.w)
            && var o := Polled(e.w, e.t, env);
            o.done && UpToDate(o.w, o.t)
  {
    FollowCompleteness(events, env);
    var e := End(START, events);
    PollCompletes(e.w, e.t, env);
  }

  // ---------------- across a reboot ----------------

  /** What a drain of the running boot adds is that boot's. */
  lemma {:induction false} DrainAdds(w: World, t: Follower, env: seq<Weather>)
    requires WorldOk(w)
    ensures var o := Drained(w, t, Current, env);
            t.out <= o.t.out && forall i :: |t.out| <= i < |o.t.out| ==> o.t.out[i].boot == w.current.id
    decreases |env|, Remaining(w, Current, t.cursor)
  {
    DrainedStep(w, t, Current, env);
    DrainedNearer(w, t, Current, env);
    ArrivalExtends(w, env);
    var w' := Arrived(w, env);
    assert w'.current.id == w.current.id;
    hide WorldOk, Drained, WantsMore, Arrived, AfterPage, PageLines, Extends;
    if Next(env).answered {
      var r := Fetched(w', Current, t.cursor).value;
      AfterPageAdds(Adopted(t, r), r);
      if WantsMore(Adopted(t, r), r) {
        DrainAdds(w', AfterPage(Adopted(t, r), r), Later(env));
      }
    }
  }

  lemma AfterPageAdds(t: Follower, r: Reply)
    ensures var t' := AfterPage(t, r);
            && t'.out == t.out + Entries(r.id, r.lines)
            && forall i :: |t.out| <= i < |t'.out| ==> t'.out[i].boot == r.id && t'.out[i].line in r.lines
  {
  }

  lemma AddedElsewhere(a: seq<Entry>, b: seq<Entry>, id: BootId, boot: BootId, n: nat)
    requires a <= b && id != boot && forall i :: |a| <= i < |b| ==> b[i].boot == id
    ensures Written(b, boot, n) <==> Written(a, boot, n)
  {
    if Written(a, boot, n) {
      var i :| 0 <= i < |a| && a[i].boot == boot && a[i].line.seqNo == n;
      assert b[i] == a[i];
    }
  }

  /**
   * Exactly which lines of the boot being followed are out when a poll has completed
   * that found the device rebooted: those it had, and the retained ones beyond its cursor.
   */
  lemma PollBridges(w: World, t: Follower, env: seq<Weather>, n: nat)
    requires Good(w, t) && t.boot.Some? && t.boot.value != w.current.id && Retained(w, t)
    requires Polled(w, t, env).done
    ensures Written(Polled(w, t, env).t.out, t.boot.value, n) <==>
            Written(t.out, t.boot.value, n) || (n in w.previous.value.readable && t.cursor < n)
  {
    ArrivalExtends(w, env);
    var w' := Arrived(w, env);
    assert w'.previous == w.previous && w'.current.id == w.current.id;
    GoodOnArrival(w, t, w');
    hide Good, Drained, Bridged, Arrived, Extends, WorldOk, BridgeOk, Written;
    BridgedWorldOk(w', t, Later(env));
    var b := Bridged(w', t, Later(env));
    BridgeWrites(w', t, Later(env), n);
    BridgeKeeps(w', t, Later(env));
    SameBoot(w', t, b);
    var t1 := Restarted(b.t, w'.current.id);
    DrainAdds(b.w, t1, b.env);
    AddedElsewhere(t1.out, Drained(b.w, t1, Current, b.env).t.out, w'.current.id, t.boot.value, n);
  }

  lemma SameBoot(w: World, t: Follower, b: Outcome)
    requires BridgeOk(w, t, b)
    ensures b.w.current.id == w.current.id
  {
  }

  // ---------------- what a reboot is announced with ----------------

  /** Nothing but gaps, of a line at least, was reported since. */
  predicate OnlyGaps(a: seq<Note>, b: seq<Note>) {
    a <= b && forall i :: |a| <= i < |b| ==> b[i].Overwritten? && b[i].n >= 1
  }

  lemma AfterPageNotes(t: Follower, r: Reply)
    ensures OnlyGaps(t.notes, AfterPage(Adopted(t, r), r).notes) && OnlyGaps(t.notes, Consumed(t, r).notes)
  {
  }

  lemma OnlyGapsOn(a: seq<Note>, b: seq<Note>, c: seq<Note>)
    requires OnlyGaps(a, b) && OnlyGaps(b, c)
    ensures OnlyGaps(a, c)
  {
    assert a == b[..|a|] && b == c[..|b|];
  }

  lemma {:induction false} DrainNotes(w: World, t: Follower, which: Which, env: seq<Weather>)
    requires WorldOk(w)
    ensures OnlyGaps(t.notes, Drained(w, t, which, env).t.notes)
    decreases |env|, Remaining(w, which, t.cursor)
  {
    DrainedStep(w, t, which, env);
    DrainedNearer(w, t, which, env);
    var w' := Arrived(w, env);
    hide WorldOk, Drained, Fetched, AfterPage, WantsMore, Arrived;
    if Next(env).answered && Fetched(w', which, t.cursor).Some? {
      var r := Fetched(w', which, t.cursor).value;
      AfterPageNotes(t, r);
      if WantsMore(Adopted(t, r), r) {
        DrainNotes(w', AfterPage(Adopted(t, r), r), which, Later(env));
        OnlyGapsOn(t.notes, AfterPage(Adopted(t, r), r).notes, Drained(w, t, which, env).t.notes);
      }
    }
  }

  /** Bridging reports gaps in what was retained, or that nothing was. */
  lemma BridgeNotes(w: World, t: Follower, env: seq<Weather>)
    requires WorldOk(w) && t.boot.Some? && Bridged(w, t, env).done
    ensures var b := Bridged(w, t, env);
            && b.w.current.id == w.current.id
            && if w.previous.Some? && w.previous.value.id == t.boot.value then OnlyGaps(t.notes, b.t.notes)
               else b.t.notes == t.notes + [NotRetained(t.boot.value)]
  {
    ArrivalExtends(w, env);
    AllLoggedOk(w, Next(env).logged);
    var w' := Arrived(w, env);
    hide WorldOk, Drained, Arrived, Extends;
    if w'.previous.Some? && w'.previous.value.id == t.boot.value {
      var r := Fetched(w', Previous, t.cursor).value;
      AfterPageNotes(t, r);
      if WantsMore(t, r) {
        DrainNotes(w', Consumed(t, r), Previous, Later(env));
        DrainStays(w', Consumed(t, r), Previous, Later(env));
        OnlyGapsOn(t.notes, Consumed(t, r).notes, Bridged(w, t, env).t.notes);
      }
    }
  }

  lemma {:induction false} DrainStays(w: World, t: Follower, which: Which, env: seq<Weather>)
    requires WorldOk(w)
    ensures Drained(w, t, which, env).w.current.id == w.current.id
    decreases |env|, Remaining(w, which, t.cursor)
  {
    DrainedStep(w, t, which, env);
    DrainedNearer(w, t, which, env);
    ArrivalExtends(w, env);
    var w' := Arrived(w, env);
    hide WorldOk, Drained, Fetched, AfterPage, WantsMore, Arrived, Extends;
    if Next(env).answered && Fetched(w', which, t.cursor).Some? {
      var r := Fetched(w', which, t.cursor).value;
      if WantsMore(Adopted(t, r), r) {
        DrainStays(w', AfterPage(Adopted(t, r), r), which, Later(env));
      }
    }
  }

  lemma Announced(a: seq<Note>, b: seq<Note>, c: seq<Note>, gone: BootId, come: BootId, kept: bool)
    requires if kept then OnlyGaps(a, b) else b == a + [NotRetained(gone)]
    requires OnlyGaps(b + [BootStarted(come)], c)
    ensures a <= c && BootStarted(come) in c[|a|..] && (NotRetained(gone) in c[|a|..] <==> !kept)
  {
    assert a == b[..|a|] && c[..|b| + 1] == b + [BootStarted(come)];
    assert c[|b|] == BootStarted(come) == c[|a|..][|b| - |a|];
    if kept {
      assert forall i :: |a| <= i < |b| ==> c[i] == b[i];
    } else {
      assert c[|a|] == NotRetained(gone) == c[|a|..][0];
    }
  }

  /**
   * A completed poll that found the device rebooted announces the new boot, and that
   * the old one was not retained if and only if the device does not have it.
   */
  lemma RebootIsAnnounced(w: World, t: Follower, env: seq<Weather>)
    requires WorldOk(w) && t.boot.Some? && t.boot.value != w.current.id && Polled(w, t, env).done
    ensures var notes := Polled(w, t, env).t.notes;
            && t.notes <= notes && BootStarted(w.current.id) in notes[|t.notes|..]
            && (NotRetained(t.boot.value) in notes[|t.notes|..] <==>
                  !(w.previous.Some? && w.previous.value.id == t.boot.value))
  {
    ArrivalExtends(w, env);
    AllLoggedOk(w, Next(env).logged);
    var w' := Arrived(w, env);
    assert w'.previous == w.previous && w'.current.id == w.current.id;
    hide WorldOk, Drained, Bridged, Arrived, Extends, OnlyGaps;
    BridgedWorldOk(w', t, Later(env));
    BridgeNotes(w', t, Later(env));
    var b := Bridged(w', t, Later(env));
    var t1 := Restarted(b.t, w'.current.id);
    DrainNotes(b.w, t1, Current, b.env);
    Announced(t.notes, b.t.notes, Drained(b.w, t1, Current, b.env).t.notes, t.boot.value, w.current.id,
              w.previous.Some? && w.previous.value.id == t.boot.value);
  }

  /** A poll that finds no reboot reports gaps alone. */
  lemma QuietPollReportsGaps(w: World, t: Follower, env: seq<Weather>)
    requires WorldOk(w) && (t.boot.Some? ==> t.boot.value == w.current.id)
    ensures OnlyGaps(t.notes, Polled(w, t, env).t.notes)
  {
    ArrivalExtends(w, env);
    AllLoggedOk(w, Next(env).logged);
    var w' := Arrived(w, env);
    assert w'.current.id == w.current.id;
    hide WorldOk, Drained, Arrived, Extends;
    var t1 := t.(boot := Some(w'.current.id));
    var r := Fetched(w', Current, if t.boot.Some? then t.cursor else 0).value;
    AfterPageNotes(t1, r);
    if WantsMore(t1, r) {
      DrainNotes(w', Consumed(t1, r), Current, Later(env));
      OnlyGapsOn(t.notes, Consumed(t1, r).notes, Drained(w', Consumed(t1, r), Current, Later(env)).t.notes);
    }
  }

  /** A poll whose first page ends with the latest line makes that one request and no more. */
  lemma OnePageIsEnough(w: World, t: Follower, env: seq<Weather>)
    requires WorldOk(w) && t.boot.Some? && t.boot.value == w.current.id && Next(env).answered
    ensures var w' := Arrived(w, env);
            var r := Reply(w'.current.id, w'.current.latest, PageLines(w'.current, t.cursor, PAGE_LIMIT));
            r.lines != [] && r.lines[|r.lines| - 1].seqNo == r.latest ==>
              Polled(w, t, env).env == Later(env) && Polled(w, t, env).t.cursor == r.latest
  {
    ArrivalExtends(w, env);
    AllLoggedOk(w, Next(env).logged);
    assert Arrived(w, env).current.id == w.current.id;
    hide WorldOk, Drained, Arrived, Extends, PageLines;
  }

  /**
   * A reset, then any logging, then a completed poll: every line the device retained of
   * the old boot is out, if it was readable before the reset or lies beyond the cursor.
   */
  lemma RebootLosesNothing(w: World, t: Follower, kept: Log, later: World, env: seq<Weather>, n: nat)
    requires Good(w, t) && t.boot == Some(w.current.id)
    requires MayRetain(w, Some(kept)) && kept.id == w.current.id
    requires WorldOk(later) && Extends(later, Rebooted(w, Some(kept)))
    requires Polled(later, t, env).done
    requires n in kept.readable && (n in w.current.readable || t.cursor < n)
    ensures Written(Polled(later, t, env).t.out, kept.id, n)
  {
    var rebooted := Rebooted(w, Some(kept));
    EventKeeps(Config(w, t), Reboot(Some(kept)));
    GoodOnArrival(rebooted, t, later);
    PollBridges(later, t, env, n);
    assert InRange(n, kept.latest);
  }

  // ---------------- what that leaves out, from a clean start ----------------

  /** A line behind the cursor that only the reset made readable again stays unread. */
  lemma ReturnedLineStaysUnread(w: World, t: Follower, env: seq<Weather>, n: nat)
    requires Good(w, t) && t.boot.Some? && t.boot.value != w.current.id && Retained(w, t)
    requires n in w.previous.value.readable && n <= t.cursor && !Written(t.out, t.boot.value, n)
    requires Polled(w, t, env).done
    ensures !Written(Polled(w, t, env).t.out, t.boot.value, n)
  {
    PollBridges(w, t, env, n);
  }

  function Logging(m: Message, k: nat): seq<Event> { seq(k, _ => Logs(m)) }

  function Repeated(m: Message, k: nat): seq<Message> { seq(k, _ => m) }

  lemma {:induction false} LoggingRuns(c: Config, m: Message, k: nat)
    requires WorldOk(c.w)
    ensures Run(c, Logging(m, k)) && End(c, Logging(m, k)) == Config(AllLogged(c.w, Repeated(m, k)), c.t)
    decreases k
  {
    if k > 0 {
      LoggedOk(c.w, m);
      hide WorldOk, Logged;
      var c1 := Happened(c, Logs(m));
      LoggingRuns(c1, m, k - 1);
      assert Logging(m, k)[0] == Logs(m) && Logging(m, k)[1..] == Logging(m, k - 1);
      assert Repeated(m, k)[0] == m && Repeated(m, k)[1..] == Repeated(m, k - 1);
    }
  }

  lemma {:induction false} LoggedTruth(w: World, m: Message, k: nat, n: nat)
    requires WorldOk(w) && w.current.latest < n <= w.current.latest + k
    ensures var w' := AllLogged(w, Repeated(m, k));
            (w.current.id, n) in w'.truth && w'.truth[(w.current.id, n)] == Line(n, m.uptime, m.text)
    decreases k
  {
    LoggedOk(w, m);
    assert Repeated(m, k)[1..] == Repeated(m, k - 1);
    AllLoggedOk(Logged(w, m), Repeated(m, k - 1));
    if n > w.current.latest + 1 {
      LoggedTruth(Logged(w, m), m, k - 1, n);
    }
  }

  lemma {:induction false} RunConcat(c: Config, a: seq<Event>, b: seq<Event>)
    requires Run(c, a) && Run(End(c, a), b)
    ensures Run(c, a + b) && End(c, a + b) == End(End(c, a), b)
    decreases |a|
  {
    if a == [] {
      ConcatEmpty(b);
    } else {
      DropConcat(a, b, 1);
      hide Happened, Allowed, WorldOk;
      RunConcat(Happened(c, a[0]), a[1..], b);
    }
  }

  /** With nothing logged meanwhile, a drain leaves the world and writes readable lines. */
  lemma {:induction false} CalmDrain(w: World, t: Follower)
    requires WorldOk(w)
    ensures var o := Drained(w, t, Current, []);
            o.w == w && t.out <= o.t.out
            && forall i :: |t.out| <= i < |o.t.out| ==> o.t.out[i].line.seqNo in w.current.readable
    decreases Remaining(w, Current, t.cursor)
  {
    DrainedStep(w, t, Current, []);
    DrainedNearer(w, t, Current, []);
    PageReadable(w.current, t.cursor);
    assert Arrived(w, []) == w && Next([]).answered;
    hide WorldOk, Drained, WantsMore, Arrived, AfterPage, PageLines, LogOk, True;
    var r := Fetched(w, Current, t.cursor).value;
    AfterPageAdds(Adopted(t, r), r);
    if WantsMore(Adopted(t, r), r) {
      CalmDrain(w, AfterPage(Adopted(t, r), r));
    }
  }

  lemma PageReadable(log: Log, after: nat)
    requires LogOk(log)
    ensures forall line :: line in PageLines(log, after, PAGE_LIMIT) ==> line.seqNo in log.readable
  {
    var page := PageLines(log, after, PAGE_LIMIT);
    PageSpec(log, after, PAGE_LIMIT);
    forall line | line in page ensures line.seqNo in log.readable {
      assert Reads(log, line);
    }
  }

  lemma FirstPollUnfolds(w: World)
    requires WorldOk(w)
    ensures var t, r := START.t.(boot := Some(w.current.id)), Fetched(w, Current, 0).value;
            Polled(w, START.t, []) ==
            if WantsMore(t, r) then Drained(w, Consumed(t, r), Current, []) else Outcome(w, Consumed(t, r), [], true)
  {
    assert Arrived(w, []) == w;
    hide WorldOk, Drained, Consumed, WantsMore, PageLines;
  }

  lemma ConsumedReads(t: Follower, r: Reply, readable: map<nat, Line>)
    requires t.out == [] && forall line :: line in r.lines ==> line.seqNo in readable
    ensures forall i :: 0 <= i < |Consumed(t, r).out| ==> Consumed(t, r).out[i].line.seqNo in readable
  {
    ConcatEmpty(Entries(r.id, r.lines));
  }

  /** A follower's first poll, with nothing logged meanwhile. */
  lemma CalmFirstPoll(w: World)
    requires WorldOk(w)
    ensures var o := Polled(w, START.t, []);
            && o.w == w && o.done
            && forall i :: 0 <= i < |o.t.out| ==> o.t.out[i].line.seqNo in w.current.readable
  {
    PollCompletes(w, START.t, []);
    FirstPollUnfolds(w);
    PageReadable(w.current, 0);
    hide WorldOk, PageLines, LogOk, Drained, True, Polled, WantsMore, Consumed;
    var t := START.t.(boot := Some(w.current.id));
    var r := Fetched(w, Current, 0).value;
    ConsumedReads(t, r, w.current.readable);
    if WantsMore(t, r) {
      CalmDrain(w, Consumed(t, r));
    }
  }

  /** 1025 lines, so that the last has overwritten the first. */
  const FULL: nat := LINES + 1

  /** What a reset brings back when that last line never reached RAM: the first is there again. */
  function Returned(m: Message): Log {
    Log(0, LINES, map n | 1 <= n <= LINES :: Line(n, m.uptime, m.text))
  }

  lemma FullLog(m: Message)
    ensures var w := AllLogged(START.w, Repeated(m, FULL));
            && WorldOk(w) && w.current.id == 0 && w.current.latest == FULL && 1 !in w.current.readable
            && (0, 1) in w.truth && MayRetain(w, Some(Returned(m)))
  {
    var w := AllLogged(START.w, Repeated(m, FULL));
    StartIsGood();
    AllLoggedOk(START.w, Repeated(m, FULL));
    forall n | 1 <= n <= LINES ensures (0, n) in w.truth && w.truth[(0, n)] == Line(n, m.uptime, m.text) {
      LoggedTruth(START.w, m, FULL, n);
    }
    assert !InRange(1, FULL);
    hide AllLogged, Solid;
  }

  lemma UnreadableIsUnwritten(w: World, out: seq<Entry>, boot: BootId, n: nat)
    requires n !in w.current.readable
    requires forall i :: 0 <= i < |out| ==> out[i].line.seqNo in w.current.readable
    ensures !Written(out, boot, n)
  {
  }

  lemma OneEvent(c: Config, e: Event)
    requires WorldOk(c.w) && Allowed(c, e)
    ensures Run(c, [e]) && End(c, [e]) == Happened(c, e)
  {
    hide Happened, Allowed, WorldOk;
    assert [e][1..] == [];
    assert Run(Happened(c, e), []);
  }

  /** The follower, polling for the first time when the ring has come round. */
  lemma FullAndPolled(m: Message)
    ensures var events := Logging(m, FULL) + [Poll([])];
            && Run(START, events)
            && var c := End(START, events);
            && c.t.boot == Some(0) && c.t.cursor == FULL && c.w.current.id == 0 && (0, 1) in c.w.truth
            && MayRetain(c.w, Some(Returned(m))) && !Written(c.t.out, 0, 1)
  {
    StartIsGood();
    LoggingRuns(START, m, FULL);
    FullLog(m);
    RunKeeps(START, Logging(m, FULL));
    hide AllLogged, Polled, WorldOk, MayRetain, Logging, Good, Written;
    var c := End(START, Logging(m, FULL));
    CalmFirstPoll(c.w);
    PollKeeps(c.w, c.t, []);
    var o := Polled(c.w, c.t, []);
    UnreadableIsUnwritten(c.w, o.t.out, 0, 1);
    OneEvent(c, Poll([]));
    RunConcat(START, Logging(m, FULL), [Poll([])]);
  }

  /**
   * From a clean start: the ring comes round to the first line before the follower's
   * first poll; a reset strikes before the line that overwrote it reaches RAM, and the
   * device serves the first line again. A completed poll later it is still unread.
   */
  lemma AReturnedLineIsLost(m: Message)
    ensures var events := Logging(m, FULL) + [Poll([])] + [Reboot(Some(Returned(m))), Poll([])];
            && Run(START, events)
            && var c := End(START, events);
            && UpToDate(c.w, c.t) && (0, 1) in c.w.truth
            && c.w.previous == Some(Returned(m)) && 1 in Returned(m).readable
            && !Written(c.t.out, 0, 1)
  {
    var before := Logging(m, FULL) + [Poll([])];
    FullAndPolled(m);
    StartIsGood();
    RunKeeps(START, before);
    var c := End(START, before);
    var reset, poll := Reboot(Some(Returned(m))), Poll([]);
    EventKeeps(c, reset);
    var c1 := Happened(c, reset);
    PollCompletes(c1.w, c1.t, []);
    PollKeeps(c1.w, c1.t, []);
    PollBridges(c1.w, c1.t, [], 1);
    var o := Polled(c1.w, c1.t, []);
    assert c1.w.previous == Some(Returned(m)) && 1 in Returned(m).readable;
    hide Good, Polled, Happened, UpToDate, MayRetain, Written;
    TwoEvents(c, reset, poll);
    RunConcat(START, before, [reset, poll]);
  }

  lemma TwoEvents(c: Config, a: Event, b: Event)
    requires WorldOk(c.w) && Allowed(c, a) && WorldOk(Happened(c, a).w) && Allowed(Happened(c, a), b)
    ensures Run(c, [a, b]) && End(c, [a, b]) == Happened(Happened(c, a), b)
  {
    hide Happened, Allowed, WorldOk;
    OneEvent(Happened(c, a), b);
    assert [a, b][0] == a && [a, b][1..] == [b];
  }
}
