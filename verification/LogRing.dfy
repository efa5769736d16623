/**
 * One half of the log ring as its running boot uses it (main/log_ring.c): commit,
 * look-up and summary, against the plain list of the boot's lines.
 */
module LogRing {
  import opened Bytes
  import opened LogText
  import opened LogSlot

  /** The slots hold the newest 1024 of the lines, each sealed in its place. */
  ghost predicate Represents(slots: seq<Slot>, id: BootId, lines: seq<Line>) {
    && |slots| == LINES
    && (forall k :: 0 <= k < |lines| ==> lines[k].seqNo == k + 1 && WellFormed(lines[k].text))
    && forall n: nat :: InRange(n, |lines|) ==> SealedAs(slots[Index(n)], id, lines[n - 1])
  }

  ghost predicate SealedAs(s: Slot, id: BootId, line: Line) {
    s.seqNo == line.seqNo && s.uptime == line.uptime && Visible(s.text) == line.text && SlotValid(s, id)
  }

  /** Look-up succeeds for exactly oldest..latest, and returns that line. */
  lemma LookupIsList(slots: seq<Slot>, id: BootId, lines: seq<Line>, n: nat)
    requires Represents(slots, id, lines)
    ensures Lookup(slots, id, |lines|, n) == (if InRange(n, |lines|) then Some(lines[n - 1]) else None)
    ensures InRange(n, |lines|) <==> lines != [] && Oldest(|lines|) <= n <= |lines|
  {
    if InRange(n, |lines|) {
      assert SealedAs(slots[Index(n)], id, lines[n - 1]);
    }
  }

  lemma AppendRepresents(slots: seq<Slot>, id: BootId, lines: seq<Line>, slot: Slot, line: Line)
    requires Represents(slots, id, lines)
    requires line.seqNo == |lines| + 1 && WellFormed(line.text) && SealedAs(slot, id, line)
    ensures Represents(slots[Index(line.seqNo) := slot], id, lines + [line])
  {
    var slots', lines' := slots[Index(line.seqNo) := slot], lines + [line];
    forall n: nat | InRange(n, |lines'|)
      ensures SealedAs(slots'[Index(n)], id, lines'[n - 1])
    {
      if n <= |lines| {
        IndexInjective(n, line.seqNo);
        assert SealedAs(slots[Index(n)], id, lines[n - 1]);
      }
    }
  }

  /** A terminated buffer shows exactly the text before its terminator. */
  lemma {:induction false} VisiblePrefix(text: seq<byte>, rest: seq<byte>)
    requires 0 !in text
    ensures Visible(text + [0] + rest) == text
    decreases |text|
  {
    var b := text + [0] + rest;
    if text != [] {
      VisiblePrefix(text[1..], rest);
      assert b[1..] == text[1..] + [0] + rest;
    }
  }

  lemma {:induction false} WellFormedHasNoNul(s: seq<byte>)
    requires WellFormed(s)
    ensures 0 !in s
    decreases |s|
  {
    if s != [] {
      if SPACE <= s[0] < 0x7f && WellFormed(s[1..]) {
        WellFormedHasNoNul(s[1..]);
        assert s == [s[0]] + s[1..];
      } else {
        var n := CharLen(s);
        WellFormedHasNoNul(s[n..]);
        assert s == s[..n] + s[n..];
        assert 0 !in s[..n];
      }
    }
  }

  class LogHalf {
    const id: BootId
    const slots: array<Slot>
    var latest: nat
    var lastMs: nat
    ghost var lines: seq<Line>

    ghost predicate Valid()
      reads this, slots
    {
      && latest == |lines|
      && Represents(slots[..], id, lines)
      && (lines == [] || lastMs == lines[latest - 1].uptime)
    }

    /** A half whatever it holds: stale and torn slots stay unserved until overwritten. */
    constructor (id: BootId, slots: array<Slot>)
      requires slots.Length == LINES
      ensures Valid() && lines == [] && this.id == id && this.slots == slots
    {
      this.id := id;
      this.slots := slots;
      latest, lastMs, lines := 0, 0, [];
    }

    method Begin() returns (n: nat)
      requires Valid()
      modifies this`latest, slots
      ensures n == latest == old(latest) + 1
      ensures !SlotValid(slots[Index(n)], id)
      ensures forall i :: 0 <= i < LINES && i != Index(n) ==> slots[i] == old(slots[i])
    {
      latest := latest + 1;
      n := latest;
      slots[Index(n)] := slots[Index(n)].(seqNo := 0);
    }

    /** commit_locked: the pending text followed by seg becomes the next line. */
    method Commit(pending: seq<byte>, seg: seq<byte>, now: nat)
      requires Valid() && WellFormed(pending) && |pending| <= CAP
      modifies this, slots
      ensures Valid()
      ensures lines == old(lines) + [Line(old(latest) + 1, now, Appended(pending, seg))]
    {
      hide WellFormed, Appended, Visible;
      ghost var before := slots[..];
      var n := Begin();
      var text := Compose(pending, seg);
      ghost var line := Line(n, now, Appended(pending, seg));
      var slot := Slot(n, now, Noise(0), text);
      slot := slot.(check := SlotCheck(slot, id));
      slots[Index(n)] := slot;
      lastMs := now;
      AppendRepresents(before, id, lines, slot, line);
      assert slots[..] == before[Index(n) := slot];
      lines := lines + [line];
    }

    /** log_ring_get; of the running boot's half, exactly the newest 1024 lines of the list. */
    method Get(n: nat) returns (r: Option<Line>)
      requires slots.Length == LINES
      ensures r == Lookup(slots[..], id, latest, n)
      ensures Valid() ==> r == if n >= 1 && InRange(n, |lines|) then Some(lines[n - 1]) else None
    {
      if Valid() {
        LookupIsList(slots[..], id, lines, n);
      }
      if n == 0 || !(n <= latest && latest - n < LINES) {
        return None;
      }
      var copy := slots[Index(n)];
      if copy.seqNo != n || !SlotValid(copy, id) {
        return None;
      }
      return Some(Line(n, copy.uptime, Visible(copy.text)));
    }

    /** log_ring_info: the range that Get covers, and the newest line's uptime. */
    method Info() returns (oldest: nat, newest: nat, uptime: nat)
      requires Valid()
      ensures newest == |lines|
      ensures lines == [] ==> oldest == 0
      ensures lines != [] ==> uptime == lines[|lines| - 1].uptime
      ensures forall n: nat :: lines != [] && oldest <= n <= newest
                <==> Lookup(slots[..], id, latest, n).Some?
    {
      newest, uptime := latest, lastMs;
      oldest := Oldest(latest);
      forall n: nat {
        LookupIsList(slots[..], id, lines, n);
      }
    }
  }

  /** The text buffer of a slot, filled as a commit fills it. */
  method Compose(pending: seq<byte>, seg: seq<byte>) returns (text: seq<byte>)
    requires WellFormed(pending) && |pending| <= CAP
    ensures |text| == TEXT_BYTES && 0 in text
    ensures Visible(text) == Appended(pending, seg) && WellFormed(Appended(pending, seg))
  {
    var buffer := new byte[TEXT_BYTES];
    Store(buffer, 0, pending);
    assert buffer[..|pending|] == pending;
    var used := AppendClean(buffer, |pending|, seg);
    text := buffer[..];
    AppendedWellFormed(pending, seg);
    BufferShows(text, used, Appended(pending, seg));
  }

  lemma BufferShows(buffer: seq<byte>, used: nat, text: seq<byte>)
    requires |buffer| == TEXT_BYTES && used <= CAP && buffer[used] == 0 && buffer[..used] == text
    requires WellFormed(text)
    ensures Visible(buffer) == text && 0 in buffer
  {
    WellFormedHasNoNul(text);
    VisiblePrefix(text, buffer[used + 1..]);
    assert buffer == text + [0] + buffer[used + 1..];
  }
}
