/**
 * One slot of the log ring (main/log_ring.c) and its place in a half.
 *
 * The check is idealised: a seal names exactly the boot, sequence number, uptime
 * and text it was computed from. That a torn or stale slot does not validate by
 * accident is therefore an assumption of the modules that use this one; what the
 * real 32-bit check proves is in module Fnv.
 */
module LogSlot {
  import opened Bytes
  import opened LogText

  const LINES: nat := 1024

  type BootId = nat

  datatype Check = Seal(boot: BootId, seqNo: nat, uptime: nat, text: seq<byte>) | Noise(n: nat)

  datatype Line = Line(seqNo: nat, uptime: nat, text: seq<byte>)

  datatype Slot = Slot(seqNo: nat, uptime: nat, check: Check, text: seq<byte>)

  function SlotCheck(s: Slot, boot: BootId): Check {
    Seal(boot, s.seqNo, s.uptime, Visible(s.text))
  }

  predicate SlotValid(s: Slot, boot: BootId) {
    s.seqNo != 0 && 0 in s.text && s.check == SlotCheck(s, boot)
  }

  function Index(seqNo: nat): (i: nat)
    requires seqNo >= 1
    ensures i < LINES
  {
    (seqNo - 1) % LINES
  }

  /** Within one window of 1024 numbers a place belongs to one number only. */
  lemma IndexInjective(a: nat, b: nat)
    requires 1 <= a < b < a + LINES
    ensures Index(a) != Index(b)
  {
    var p, q := (a - 1) / LINES, (b - 1) / LINES;
    assert a - 1 == p * LINES + Index(a) && b - 1 == q * LINES + Index(b);
    assert q - p <= 0 || q - p >= 1;
  }

  lemma IndexWraps(a: nat)
    requires a >= 1
    ensures Index(a + LINES) == Index(a)
  {
  }

  /** The oldest number that /logs still offers when the newest is `latest`. */
  function Oldest(latest: nat): nat {
    if latest == 0 then 0 else if latest > LINES then latest - LINES + 1 else 1
  }

  predicate InRange(seqNo: nat, latest: nat) {
    1 <= seqNo <= latest && latest - seqNo < LINES
  }

  /** What log_ring_get returns for a number, given the half's slots and newest number. */
  function Lookup(slots: seq<Slot>, boot: BootId, latest: nat, seqNo: nat): Option<Line>
    requires |slots| == LINES
  {
    if seqNo != 0 && InRange(seqNo, latest) then
      var s := slots[Index(seqNo)];
      if s.seqNo == seqNo && SlotValid(s, boot) then Some(Line(seqNo, s.uptime, Visible(s.text))) else None
    else None
  }
}
