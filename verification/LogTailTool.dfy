/**
 * The tool of tools/logtail.py itself: its fields, changed in place, do exactly what
 * the follower of LogTail does.
 */
module LogTailTool {
  import opened Bytes
  import opened LogSlot
  import opened LogPages
  import opened LogTail

  /** What the follower talks to: each request may find more lines logged, or fail. */
  class Device {
    var w: World
    var env: seq<Weather>

    constructor (w: World, env: seq<Weather>)
      ensures this.w == w && this.env == env
    {
      this.w, this.env := w, env;
    }

    method Fetch(which: Which, after: nat) returns (answered: bool, page: Option<Reply>)
      requires WorldOk(w)
      modifies this
      ensures WorldOk(w) && w == Arrived(old(w), old(env)) && env == Later(old(env))
      ensures answered == Next(old(env)).answered
      ensures page == if answered then Fetched(w, which, after) else None
    {
      AllLoggedOk(w, Next(env).logged);
      w := Arrived(w, env);
      answered := Next(env).answered;
      env := Later(env);
      page := if answered then Fetched(w, which, after) else None;
    }
  }

  class Tail {
    const device: Device
    var bootId: Option<BootId>
    var cursor: nat
    var out: seq<Entry>
    var notes: seq<Note>

    constructor (device: Device)
      ensures this.device == device && View() == Follower(None, 0, [], [])
    {
      this.device := device;
      bootId, cursor, out, notes := None, 0, [], [];
    }

    ghost function View(): Follower
      reads this
    {
      Follower(bootId, cursor, out, notes)
    }

    ghost function Now(done: bool): Outcome
      reads this, device
    {
      Outcome(device.w, View(), device.env, done)
    }

    method Consume(page: Reply) returns (more: bool)
      modifies this
      ensures View() == Consumed(old(View()), page)
      ensures more == WantsMore(old(View()), page)
    {
      var lines := page.lines;
      notes := notes + GapNote(Follower(bootId, cursor, out, notes), page);
      for i := 0 to |lines|
        invariant bootId == old(bootId) && notes == old(notes) + GapNote(old(View()), page)
        invariant out == old(out) + Entries(page.id, lines[..i])
        invariant cursor == Last(lines[..i], old(cursor))
      {
        assert Entries(page.id, lines[..i + 1]) == Entries(page.id, lines[..i]) + [Entry(page.id, lines[i])];
        out := out + [Entry(page.id, lines[i])];
        cursor := lines[i].seqNo;
      }
      assert lines[..|lines|] == lines;
      more := lines != [] && cursor < page.latest;
    }

    /** One page of a drain, and whether there is more to fetch. */
    method TakePage(page: Reply) returns (more: bool)
      modifies this
      ensures View() == AfterPage(Adopted(old(View()), page), page)
      ensures more == WantsMore(Adopted(old(View()), page), page)
    {
      if bootId == None {
        bootId := Some(page.id);
      }
      more := Consume(page);
      if !more && page.latest > cursor && page.lines == [] {
        cursor := page.latest;
      }
    }

    /** False when a request failed; what was written stays written. */
    method Drain(which: Which) returns (done: bool)
      requires WorldOk(device.w)
      modifies this, device
      ensures Now(done) == Drained(old(device.w), old(View()), which, old(device.env))
      ensures WorldOk(device.w)
    {
      hide Drained, Remaining, WorldOk, Fetched, AfterPage, Arrived, WantsMore;
      ghost var goal := Drained(device.w, View(), which, device.env);
      while true
        invariant WorldOk(device.w)
        invariant Drained(device.w, View(), which, device.env) == goal
        decreases |device.env|, Remaining(device.w, which, cursor)
      {
        DrainedStep(device.w, View(), which, device.env);
        DrainedNearer(device.w, View(), which, device.env);
        var answered, page := device.Fetch(which, cursor);
        if !answered {
          return false;
        }
        if page == None {
          return true;
        }
        var more := TakePage(page.value);
        if !more {
          return true;
        }
      }
    }

    method Poll() returns (done: bool)
      requires WorldOk(device.w)
      modifies this, device
      ensures Now(done) == Polled(old(device.w), old(View()), old(device.env))
    {
      hide WorldOk, Arrived, Drained, Bridged, Consumed, PageLines, WantsMore;
      var answered, page := device.Fetch(Current, if bootId.Some? then cursor else 0);
      if !answered {
        return false;
      }
      if bootId == None {
        bootId := Some(page.value.id);
      } else if page.value.id != bootId.value {
        done := Bridge();
        if !done {
          return false;
        }
        notes := notes + [BootStarted(page.value.id)];
        bootId, cursor := Some(page.value.id), 0;
        done := Drain(Current);
        return;
      }
      var more := Consume(page.value);
      done := true;
      if more {
        done := Drain(Current);
      }
    }

    /** The old boot's remaining lines, from its retained copy. */
    method Bridge() returns (done: bool)
      requires WorldOk(device.w) && bootId.Some?
      modifies this, device
      ensures Now(done) == Bridged(old(device.w), old(View()), old(device.env))
      ensures WorldOk(device.w)
    {
      BridgedWorldOk(device.w, View(), device.env);
      var answered, was := device.Fetch(Previous, cursor);
      if !answered {
        return false;
      }
      done := true;
      if was.Some? && was.value.id == bootId.value {
        var more := Consume(was.value);
        if more {
          done := Drain(Previous);
        }
      } else {
        notes := notes + [NotRetained(bootId.value)];
      }
    }
  }
}
