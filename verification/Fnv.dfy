/**
 * What the 32-bit FNV-1a of `slot_check` (main/log_ring.c) guarantees by itself:
 * two slots whose hashed octets have the same length and differ in exactly one
 * place never share a check.
 */
module Fnv {
  import opened Bytes

  type uint32 = n: nat | n < 0x1_0000_0000
  type uint64 = n: nat | n < 0x1_0000_0000_0000_0000

  /** Bitwise exclusive or. */
  function Xor(a: nat, b: nat): nat
    decreases a + b
  {
    if a == 0 && b == 0 then 0 else (a % 2 + b % 2) % 2 + 2 * Xor(a / 2, b / 2)
  }

  function Power2(k: nat): nat { if k == 0 then 1 else 2 * Power2(k - 1) }

  lemma {:induction false} XorBounded(a: nat, b: nat, k: nat)
    requires a < Power2(k) && b < Power2(k)
    ensures Xor(a, b) < Power2(k)
    decreases k
  {
    if k > 0 && (a != 0 || b != 0) {
      XorBounded(a / 2, b / 2, k - 1);
    }
  }

  lemma XorBits(a: nat, b: nat)
    ensures Xor(a, b) % 2 == (a % 2 + b % 2) % 2
    ensures Xor(a, b) / 2 == Xor(a / 2, b / 2)
  {
  }

  lemma ParityUndone(p: nat, q: nat)
    requires p < 2 && q < 2
    ensures ((p + q) % 2 + q) % 2 == p
  {
  }

  lemma SameBits(x: nat, y: nat)
    requires x % 2 == y % 2 && x / 2 == y / 2
    ensures x == y
  {
  }

  lemma {:induction false} XorUndone(a: nat, b: nat)
    ensures Xor(Xor(a, b), b) == a
    decreases a + b
  {
    if a != 0 || b != 0 {
      var y := Xor(Xor(a, b), b);
      assert y % 2 == a % 2 by {
        XorBits(a, b);
        XorBits(Xor(a, b), b);
        ParityUndone(a % 2, b % 2);
      }
      assert y / 2 == a / 2 by {
        XorUndone(a / 2, b / 2);
        XorBits(a, b);
        XorBits(Xor(a, b), b);
      }
      SameBits(y, a);
    }
  }

  lemma {:induction false} XorCommutes(a: nat, b: nat)
    ensures Xor(a, b) == Xor(b, a)
    decreases a + b
  {
    if a != 0 || b != 0 {
      XorCommutes(a / 2, b / 2);
    }
  }

  /** Multiplication by the FNV prime in 32 bits. */
  function Scaled(x: nat): uint32 { x * 16777619 % 0x1_0000_0000 }

  /** The prime is odd, with inverse 899433627, so multiplying loses nothing. */
  lemma ScaledInjective(x: uint32, y: uint32)
    requires Scaled(x) == Scaled(y)
    ensures x == y
  {
    var p, q := x * 16777619 / 0x1_0000_0000, y * 16777619 / 0x1_0000_0000;
    assert x * 16777619 - p * 0x1_0000_0000 == y * 16777619 - q * 0x1_0000_0000;
    MultipleOfModulus(x - y, p - q);
  }

  lemma MultipleOfModulus(d: int, e: int)
    requires d * 16777619 == e * 0x1_0000_0000
    ensures d == (899433627 * e - 3513497 * d) * 0x1_0000_0000
  {
  }

  function Step(h: uint32, b: byte): uint32 {
    Scaled(Xor(h, b))
  }

  function Hash(h: uint32, data: seq<byte>): uint32
    decreases data
  {
    if data == [] then h else Hash(Step(h, data[0]), data[1..])
  }

  const OFFSET: uint32 := 2166136261

  lemma {:induction false} XorZero(a: nat)
    ensures Xor(a, 0) == a
  {
    if a != 0 {
      XorZero(a / 2);
    }
  }

  /** Bit by bit, from the seventh down. */
  lemma LowOctet()
    ensures Xor(0x811c9dc5, 0x61) == 0x811c9da4
  {
    hide Xor;
    XorZero(16922939);
    XorBits(33845879, 1);
    SameBits(Xor(33845879, 1), 33845878);
    XorBits(67691758, 3);
    SameBits(Xor(67691758, 3), 67691757);
    XorBits(135383516, 6);
    SameBits(Xor(135383516, 6), 135383514);
    XorBits(270767032, 12);
    SameBits(Xor(270767032, 12), 270767028);
    XorBits(541534065, 24);
    SameBits(Xor(541534065, 24), 541534057);
    XorBits(1083068130, 48);
    SameBits(Xor(1083068130, 48), 1083068114);
    XorBits(2166136261, 97);
    SameBits(Xor(2166136261, 97), 2166136228);
  }

  /** Known answers of FNV-1a. */
  lemma KnownAnswers()
    ensures Hash(OFFSET, []) == 0x811c9dc5
    ensures Hash(OFFSET, Ascii("a")) == 0xe40c292c
  {
    hide Xor;
    LowOctet();
    Multiplied();
    var a := Ascii("a");
    assert a == [0x61];
    OneOctet(OFFSET, 0x61);
  }

  lemma OneOctet(h: uint32, b: byte)
    ensures Hash(h, [b]) == Step(h, b)
  {
    hide Step;
    assert [b][1..] == [];
    assert Hash(Step(h, b), []) == Step(h, b);
  }

  lemma Multiplied()
    ensures Scaled(0x811c9da4) == 0xe40c292c
  {
  }

  /** The loop form. */
  method HashLoop(start: uint32, data: seq<byte>) returns (h: uint32)
    ensures h == Hash(start, data)
  {
    h := start;
    assert data[0..] == data;
    for i := 0 to |data|
      invariant Hash(h, data[i..]) == Hash(start, data)
    {
      assert data[i..][1..] == data[i + 1..];
      h := Step(h, data[i]);
    }
  }

  lemma Power2Values()
    ensures Power2(32) == 0x1_0000_0000
  {
    assert Power2(8) == 0x100;
    assert Power2(16) == 0x1_0000;
    assert Power2(24) == 0x100_0000;
  }

  /** A step is injective in the state for a given octet and in the octet for a given state. */
  lemma StepInjective(h: uint32, a: byte, g: uint32, b: byte)
    requires Step(h, a) == Step(g, b)
    ensures Xor(h, a) == Xor(g, b)
    ensures a == b ==> h == g
    ensures h == g ==> a == b
  {
    Power2Values();
    XorBounded(h, a, 32);
    XorBounded(g, b, 32);
    ScaledInjective(Xor(h, a), Xor(g, b));
    XorUndone(h, a);
    XorUndone(g, b);
    XorUndone(a, h);
    XorUndone(b, g);
    XorCommutes(a, h);
    XorCommutes(b, g);
  }

  lemma {:induction false} HashInjectiveInState(h: uint32, g: uint32, data: seq<byte>)
    requires Hash(h, data) == Hash(g, data)
    ensures h == g
    decreases data
  {
    if data != [] {
      HashInjectiveInState(Step(h, data[0]), Step(g, data[0]), data[1..]);
      StepInjective(h, data[0], g, data[0]);
    }
  }

  predicate DifferOnlyAt(a: seq<byte>, b: seq<byte>, k: nat) {
    && |a| == |b| && k < |a| && a[k] != b[k]
    && forall i :: 0 <= i < |a| && i != k ==> a[i] == b[i]
  }

  lemma {:induction false} OneOctetDetected(h: uint32, a: seq<byte>, b: seq<byte>, k: nat)
    requires DifferOnlyAt(a, b, k)
    ensures Hash(h, a) != Hash(h, b)
    decreases k
  {
    if k == 0 {
      assert a[1..] == b[1..];
      if Hash(h, a) == Hash(h, b) {
        HashInjectiveInState(Step(h, a[0]), Step(h, b[0]), a[1..]);
        StepInjective(h, a[0], h, b[0]);
      }
    } else {
      OneOctetDetected(Step(h, a[0]), a[1..], b[1..], k - 1);
    }
  }

  // ---------------- the slot ----------------

  datatype Slot = Slot(seqNo: uint32, uptime: uint32, check: uint32, text: seq<byte>)

  function Octets32(w: uint32): (r: seq<byte>)
    ensures |r| == 4
  {
    [w % 0x100, w / 0x100 % 0x100, w / 0x1_0000 % 0x100, w / 0x100_0000]
  }

  /** The text octets a check covers: up to the terminator or the end of the buffer. */
  function Covered(text: seq<byte>): (r: seq<byte>)
    ensures r <= text
  {
    if text == [] || text[0] == 0 then [] else [text[0]] + Covered(text[1..])
  }

  /** Sequence, uptime and boot ID least significant octet first, then the text. */
  function Hashed(s: Slot, boot: uint64): seq<byte> {
    Octets32(s.seqNo) + Octets32(s.uptime) + Octets32(boot % 0x1_0000_0000)
    + Octets32(boot / 0x1_0000_0000) + Covered(s.text)
  }

  function SlotCheck(s: Slot, boot: uint64): uint32 {
    Hash(OFFSET, Hashed(s, boot))
  }

  predicate SlotValid(s: Slot, boot: uint64) {
    s.seqNo != 0 && 0 in s.text && s.check == SlotCheck(s, boot)
  }

  /** A sealed slot of which one covered octet changes no longer validates. */
  lemma CorruptSlotRejected(s: Slot, boot: uint64, t: Slot, other: uint64, k: nat)
    requires SlotValid(s, boot) && t.check == s.check
    requires DifferOnlyAt(Hashed(s, boot), Hashed(t, other), k)
    ensures !SlotValid(t, other)
  {
    OneOctetDetected(OFFSET, Hashed(s, boot), Hashed(t, other), k);
  }

  lemma {:induction false} CoveredUpdate(text: seq<byte>, i: nat, b: byte)
    requires i < |Covered(text)| && b != 0
    ensures Covered(text[i := b]) == Covered(text)[i := b]
  {
    if i > 0 {
      CoveredUpdate(text[1..], i - 1, b);
      assert text[i := b][1..] == text[1..][i - 1 := b];
    } else {
      assert text[0 := b][1..] == text[1..];
    }
  }

  /** Any one text octet replaced by another that is not the terminator. */
  lemma TextChangeRejected(s: Slot, boot: uint64, i: nat, b: byte)
    requires SlotValid(s, boot) && i < |Covered(s.text)| && b != 0 && b != s.text[i]
    ensures !SlotValid(s.(text := s.text[i := b]), boot)
  {
    var t := s.(text := s.text[i := b]);
    CoveredUpdate(s.text, i, b);
    var head := Octets32(s.seqNo) + Octets32(s.uptime) + Octets32(boot % 0x1_0000_0000)
                + Octets32(boot / 0x1_0000_0000);
    SuffixDiffers(head, Covered(s.text), Covered(t.text), i);
    CorruptSlotRejected(s, boot, t, boot, |head| + i);
  }

  lemma SuffixDiffers(head: seq<byte>, a: seq<byte>, b: seq<byte>, i: nat)
    requires DifferOnlyAt(a, b, i)
    ensures DifferOnlyAt(head + a, head + b, |head| + i)
  {
  }

  lemma PrefixDiffers(a: seq<byte>, b: seq<byte>, tail: seq<byte>, i: nat)
    requires DifferOnlyAt(a, b, i)
    ensures DifferOnlyAt(a + tail, b + tail, i)
  {
  }

  function BootOctets(boot: uint64): (r: seq<byte>)
    ensures |r| == 8
  {
    Octets32(boot % 0x1_0000_0000) + Octets32(boot / 0x1_0000_0000)
  }

  /** The hashed octets with one field singled out. */
  lemma HashedFields(s: Slot, boot: uint64)
    ensures Hashed(s, boot) == Octets32(s.seqNo) + (Octets32(s.uptime) + (BootOctets(boot) + Covered(s.text)))
  {
    var lo, hi := Octets32(boot % 0x1_0000_0000), Octets32(boot / 0x1_0000_0000);
    Associate(Octets32(s.seqNo), Octets32(s.uptime), lo, hi, Covered(s.text));
  }

  lemma Associate(a: seq<byte>, b: seq<byte>, c: seq<byte>, d: seq<byte>, e: seq<byte>)
    ensures a + b + c + d + e == a + (b + ((c + d) + e))
  {
    assert a + b + c + d + e == (a + b) + (c + d + e);
  }

  /** Any one octet of the sequence number, and so of the slot's claim to be another line. */
  lemma SequenceChangeRejected(s: Slot, boot: uint64, n: uint32, i: nat)
    requires SlotValid(s, boot) && DifferOnlyAt(Octets32(s.seqNo), Octets32(n), i)
    ensures !SlotValid(s.(seqNo := n), boot)
  {
    var t := s.(seqNo := n);
    HashedFields(s, boot);
    HashedFields(t, boot);
    PrefixDiffers(Octets32(s.seqNo), Octets32(n),
                  Octets32(s.uptime) + (BootOctets(boot) + Covered(s.text)), i);
    CorruptSlotRejected(s, boot, t, boot, i);
  }

  lemma UptimeChangeRejected(s: Slot, boot: uint64, n: uint32, i: nat)
    requires SlotValid(s, boot) && DifferOnlyAt(Octets32(s.uptime), Octets32(n), i)
    ensures !SlotValid(s.(uptime := n), boot)
  {
    var t := s.(uptime := n);
    HashedFields(s, boot);
    HashedFields(t, boot);
    var tail := BootOctets(boot) + Covered(s.text);
    PrefixDiffers(Octets32(s.uptime), Octets32(n), tail, i);
    SuffixDiffers(Octets32(s.seqNo), Octets32(s.uptime) + tail, Octets32(n) + tail, i);
    CorruptSlotRejected(s, boot, t, boot, 4 + i);
  }

  /** A slot left behind by a boot whose ID differs in one octet is not taken for this boot's. */
  lemma BootChangeRejected(s: Slot, boot: uint64, other: uint64, i: nat)
    requires SlotValid(s, boot) && DifferOnlyAt(BootOctets(boot), BootOctets(other), i)
    ensures !SlotValid(s, other)
  {
    HashedFields(s, boot);
    HashedFields(s, other);
    var tail := Covered(s.text);
    PrefixDiffers(BootOctets(boot), BootOctets(other), tail, i);
    SuffixDiffers(Octets32(s.uptime), BootOctets(boot) + tail, BootOctets(other) + tail, i);
    SuffixDiffers(Octets32(s.seqNo), Octets32(s.uptime) + (BootOctets(boot) + tail),
                  Octets32(s.uptime) + (BootOctets(other) + tail), 4 + i);
    CorruptSlotRejected(s, boot, s, other, 8 + i);
  }
}
