/**
 * MeshCoP TLVs: when a petition counts as accepted (main/meshcop_codec.h:66-91), and
 * what is picked out of a dataset (main/meshcop.c:170-207).
 */
module MeshTlv {
  import opened Bytes
  import opened Coap

  const STATE: byte := 16
  const ACCEPT: byte := 1
  const NETWORK_NAME: byte := 3
  const CHANNEL: byte := 0
  const PANID: byte := 1
  const WIDE: byte := 255

  /** `wide`: the length is written in two octets after 255. */
  datatype Tlv = Tlv(kind: byte, wide: bool, value: seq<byte>)

  predicate TlvOk(t: Tlv) { if t.wide then |t.value| < 0x1_0000 else |t.value| < 255 }

  predicate TlvsOk(ts: seq<Tlv>) { forall i :: 0 <= i < |ts| ==> TlvOk(ts[i]) }

  function TlvHead(t: Tlv): seq<byte>
    requires TlvOk(t)
  {
    if t.wide then [t.kind, WIDE, |t.value| / 256, |t.value| % 256] else [t.kind, |t.value|]
  }

  function EncodeTlv(t: Tlv): seq<byte>
    requires TlvOk(t)
  {
    TlvHead(t) + t.value
  }

  function EncodeTlvs(ts: seq<Tlv>): seq<byte>
    requires TlvsOk(ts)
  {
    if ts == [] then [] else EncodeTlv(ts[0]) + EncodeTlvs(ts[1..])
  }

  // ---------------- reading one ----------------

  function HeadSize(b: seq<byte>): nat
    requires |b| >= 2
  {
    if b[1] == WIDE then 4 else 2
  }

  function ValueSize(b: seq<byte>): nat
    requires |b| >= 2 && HeadSize(b) <= |b|
  {
    if b[1] == WIDE then b[2] as int * 256 + b[3] else b[1]
  }

  /** A whole TLV is at the front. */
  predicate Whole(b: seq<byte>) {
    |b| >= 2 && HeadSize(b) <= |b| && HeadSize(b) + ValueSize(b) <= |b|
  }

  function Size(b: seq<byte>): (n: nat)
    requires Whole(b)
    ensures 2 <= n <= |b|
  {
    HeadSize(b) + ValueSize(b)
  }

  function Front(b: seq<byte>): (t: Tlv)
    requires Whole(b)
    ensures TlvOk(t) && EncodeTlv(t) == b[..Size(b)]
  {
    Tlv(b[0], b[1] == WIDE, b[HeadSize(b)..Size(b)])
  }

  lemma TlvReads(t: Tlv, rest: seq<byte>)
    requires TlvOk(t)
    ensures var b := EncodeTlv(t) + rest;
            Whole(b) && Front(b) == t && Size(b) == |EncodeTlv(t)| && b[Size(b)..] == rest
  {
    var b := EncodeTlv(t) + rest;
    assert b == TlvHead(t) + (t.value + rest);
    assert b[HeadSize(b)..Size(b)] == t.value;
  }

  // ---------------- petition ----------------

  function Accepted(p: seq<byte>): bool
    decreases |p|
  {
    if !Whole(p) then false
    else if p[0] == STATE then Front(p).value == [ACCEPT]
    else Accepted(p[Size(p)..])
  }

  /** The first State TLV reached through whole TLVs has length one and value one. */
  ghost predicate FirstStateAccepts(p: seq<byte>) {
    exists before: seq<Tlv>, wide: bool, rest: seq<byte> ::
      && TlvsOk(before) && (forall i :: 0 <= i < |before| ==> before[i].kind != STATE)
      && p == EncodeTlvs(before) + (EncodeTlv(Tlv(STATE, wide, [ACCEPT])) + rest)
  }

  lemma {:induction false} AcceptedReadsOn(before: seq<Tlv>, wide: bool, rest: seq<byte>)
    requires TlvsOk(before) && forall i :: 0 <= i < |before| ==> before[i].kind != STATE
    ensures Accepted(EncodeTlvs(before) + (EncodeTlv(Tlv(STATE, wide, [ACCEPT])) + rest))
    decreases |before|
  {
    var t := Tlv(STATE, wide, [ACCEPT]);
    var tail := EncodeTlv(t) + rest;
    if before == [] {
      TlvReads(t, rest);
      ConcatEmpty(tail);
    } else {
      var more := EncodeTlvs(before[1..]) + tail;
      TlvReads(before[0], more);
      ConcatAssoc(EncodeTlv(before[0]), EncodeTlvs(before[1..]), tail);
      hide EncodeTlv, Whole, Size;
      AcceptedReadsOn(before[1..], wide, rest);
    }
  }

  lemma {:induction false} AcceptedSplits(p: seq<byte>) returns (before: seq<Tlv>, wide: bool, rest: seq<byte>)
    requires Accepted(p)
    ensures TlvsOk(before) && forall i :: 0 <= i < |before| ==> before[i].kind != STATE
    ensures p == EncodeTlvs(before) + (EncodeTlv(Tlv(STATE, wide, [ACCEPT])) + rest)
    decreases |p|
  {
    var n := Size(p);
    SplitAt(p, n);
    if p[0] == STATE {
      before, wide, rest := [], Front(p).wide, p[n..];
      assert Front(p) == Tlv(STATE, wide, [ACCEPT]);
      ConcatEmpty(EncodeTlv(Front(p)) + rest);
    } else {
      var t := Front(p);
      before, wide, rest := AcceptedSplits(p[n..]);
      hide EncodeTlv, Whole, Size;
      var tail := EncodeTlv(Tlv(STATE, wide, [ACCEPT])) + rest;
      assert ([t] + before)[1..] == before;
      ConcatAssoc(EncodeTlv(t), EncodeTlvs(before), tail);
      before := [t] + before;
    }
  }

  lemma AcceptedIsFirstState(p: seq<byte>)
    ensures Accepted(p) <==> FirstStateAccepts(p)
  {
    if Accepted(p) {
      var before, wide, rest := AcceptedSplits(p);
    }
    if FirstStateAccepts(p) {
      var before: seq<Tlv>, wide: bool, rest: seq<byte> :|
        && TlvsOk(before) && (forall i :: 0 <= i < |before| ==> before[i].kind != STATE)
        && p == EncodeTlvs(before) + (EncodeTlv(Tlv(STATE, wide, [ACCEPT])) + rest);
      AcceptedReadsOn(before, wide, rest);
    }
  }

  /** The length of the TLV at `buf[i..]` and where its value starts, if its head is there. */
  method ReadHead(buf: array<byte>, i: nat) returns (at: nat, n: nat)
    requires i + 2 <= buf.Length
    ensures var b := buf[i..];
            if HeadSize(b) <= |b| then at == i + HeadSize(b) && n == ValueSize(b) else at == i + 2 && n == 255
  {
    assert buf[i..][1] == buf[i + 1];
    at, n := i + 2, buf[i + 1];
    if n == 255 && i + 4 <= buf.Length {
      at, n := i + 4, buf[i + 2] as int * 256 + buf[i + 3];
    }
  }

  /** The value of the TLV at `buf[i..]`, if it is all there. */
  method NextTlv(buf: array<byte>, i: nat) returns (found: bool, at: nat, n: nat)
    requires i + 2 <= buf.Length
    ensures found <==> Whole(buf[i..])
    ensures found ==> i < at && at + n <= buf.Length && Size(buf[i..]) == at + n - i
                      && Front(buf[i..]).value == buf[at..at + n]
  {
    at, n := ReadHead(buf, i);
    found := n <= buf.Length - at && !(buf[i + 1] == WIDE && at == i + 2);
    if found {
      assert buf[i..][1] == buf[i + 1];
      assert HeadSize(buf[i..]) == at - i && ValueSize(buf[i..]) == n;
      assert buf[i..][at - i..at - i + n] == buf[at..at + n];
    }
  }

  /** Whether a response accepts the petition. */
  method PetitionAccepted(buf: array?<byte>) returns (accepted: bool)
    ensures accepted <==> buf != null && Payload(buf[..]).Some? && FirstStateAccepts(Payload(buf[..]).value)
  {
    var start := FindPayload(buf);
    if start == None {
      return false;
    }
    accepted := Scan(buf, start.value);
    AcceptedIsFirstState(buf[start.value..]);
  }

  method Scan(buf: array<byte>, start: nat) returns (accepted: bool)
    requires start <= buf.Length
    ensures accepted <==> Accepted(buf[start..])
  {
    hide Whole, Accepted;
    var i := start;
    while i + 2 <= buf.Length
      invariant i <= buf.Length
      invariant Accepted(buf[start..]) <==> Accepted(buf[i..])
    {
      var found, at, n := NextTlv(buf, i);
      AcceptedStep(buf[i..]);
      assert buf[i..][0] == buf[i];
      if !found {
        return false;
      }
      if buf[i] == STATE {
        return n == 1 && buf[at] == ACCEPT;
      }
      assert buf[i..][at + n - i..] == buf[at + n..];
      i := at + n;
    }
    TooShort(buf[i..]);
    AcceptedStep(buf[i..]);
    return false;
  }

  lemma AcceptedStep(p: seq<byte>)
    ensures Accepted(p) <==>
      Whole(p) && if p[0] == STATE then Front(p).value == [ACCEPT] else Accepted(p[Size(p)..])
  {
  }

  lemma TooShort(b: seq<byte>)
    requires |b| < 2
    ensures !Whole(b)
  {
  }

  // ---------------- datasets ----------------

  datatype Summary = Summary(name: seq<byte>, channel: nat, panid: nat)

  const BLANK := Summary([], 0, 0)

  /** What one TLV changes; the name buffer holds `cap` octets with the closing NUL. */
  function Noted(s: Summary, kind: byte, v: seq<byte>, cap: nat): Summary {
    if kind == NETWORK_NAME && cap > 0 then s.(name := v[..Min(|v|, cap - 1)])
    else if kind == CHANNEL && |v| >= 3 then s.(channel := v[1] as int * 256 + v[2])
    else if kind == PANID && |v| >= 2 then s.(panid := v[0] as int * 256 + v[1])
    else s
  }

  function Summarized(s: Summary, b: seq<byte>, cap: nat): Summary
    decreases |b|
  {
    if !Whole(b) then s
    else Summarized(Noted(s, b[0], Front(b).value, cap), b[Size(b)..], cap)
  }

  /** The last TLV of a kind with a value of at least `least` octets. */
  function LastOf(ts: seq<Tlv>, kind: byte, least: nat): Option<seq<byte>> {
    if ts == [] then None
    else
      var t := ts[|ts| - 1];
      if t.kind == kind && |t.value| >= least then Some(t.value) else LastOf(ts[..|ts| - 1], kind, least)
  }

  /** What a dataset of these TLVs says, independently of how it is scanned. */
  ghost predicate Says(s: Summary, ts: seq<Tlv>, cap: nat) {
    && s.name == (match LastOf(ts, NETWORK_NAME, 0)
                  case None => []
                  case Some(v) => if cap == 0 then [] else v[..Min(|v|, cap - 1)])
    && s.channel == (match LastOf(ts, CHANNEL, 3) case None => 0 case Some(v) =>
                       if |v| >= 3 then v[1] as int * 256 + v[2] else 0)
    && s.panid == (match LastOf(ts, PANID, 2) case None => 0 case Some(v) =>
                     if |v| >= 2 then v[0] as int * 256 + v[1] else 0)
  }

  lemma HeadKind(t: Tlv, rest: seq<byte>)
    requires TlvOk(t)
    ensures (EncodeTlv(t) + rest)[0] == t.kind
  {
  }

  lemma NotedSays(s: Summary, ts: seq<Tlv>, t: Tlv, cap: nat)
    requires Says(s, ts, cap)
    ensures Says(Noted(s, t.kind, t.value, cap), ts + [t], cap)
  {
    assert (ts + [t])[..|ts|] == ts;
  }

  /**
   * Reading a dataset of whole TLVs picks the last network name, cut to the buffer,
   * the last channel of at least three octets and the last PAN ID of at least two.
   */
  lemma {:induction false} SummaryReadsBack(s: Summary, done: seq<Tlv>, ts: seq<Tlv>, cap: nat)
    requires Says(s, done, cap) && TlvsOk(ts)
    ensures Says(Summarized(s, EncodeTlvs(ts), cap), done + ts, cap)
    decreases |ts|
  {
    if ts == [] {
      ConcatEmpty(done);
    } else {
      TlvReads(ts[0], EncodeTlvs(ts[1..]));
      HeadKind(ts[0], EncodeTlvs(ts[1..]));
      NotedSays(s, done, ts[0], cap);
      hide Says, Noted, EncodeTlv, Whole, Size;
      SummaryReadsBack(Noted(s, ts[0].kind, ts[0].value, cap), done + [ts[0]], ts[1..], cap);
      ConcatAssoc(done, [ts[0]], ts[1..]);
      assert [ts[0]] + ts[1..] == ts;
    }
  }

  /** The name is the first `length` octets, a NUL behind them; NULs of the TLV's own stay among them. */
  method Summarize(b: array<byte>, name: array<byte>) returns (length: nat, channel: nat, panid: nat)
    requires b != name
    modifies name
    ensures length <= name.Length
    ensures Summary(name[..length], channel, panid) == Summarized(BLANK, b[..], name.Length)
    ensures name.Length > 0 ==> length < name.Length && name[length] == 0
  {
    hide Summarized, Whole, Noted;
    length, channel, panid := 0, 0, 0;
    if name.Length > 0 {
      name[0] := 0;
    }
    var i := 0;
    ghost var s := BLANK;
    assert b[0..] == b[..] && name[..0] == [];
    while i + 2 <= b.Length
      invariant i <= b.Length && length <= name.Length
      invariant name.Length > 0 ==> length < name.Length && name[length] == 0
      invariant s == Summary(name[..length], channel, panid)
      invariant Summarized(s, b[i..], name.Length) == Summarized(BLANK, b[..], name.Length)
    {
      var found, at, n := NextTlv(b, i);
      SummarizedStep(s, b[i..], name.Length);
      if !found {
        return;
      }
      assert b[i..][0] == b[i] && b[i..][at + n - i..] == b[at + n..];
      s := Noted(s, b[i], b[at..at + n], name.Length);
      ghost var rest := b[at + n..];
      length, channel, panid := Note(b, i, at, n, name, length, channel, panid);
      i := at + n;
      assert b[i..] == rest;
    }
    TooShort(b[i..]);
    SummarizedStep(s, b[i..], name.Length);
  }

  lemma SummarizedStep(s: Summary, b: seq<byte>, cap: nat)
    ensures Summarized(s, b, cap)
         == if Whole(b) then Summarized(Noted(s, b[0], Front(b).value, cap), b[Size(b)..], cap) else s
  {
  }

  method Note(b: array<byte>, i: nat, at: nat, n: nat, name: array<byte>, length0: nat, channel0: nat, panid0: nat)
    returns (length: nat, channel: nat, panid: nat)
    requires b != name && i < b.Length && at + n <= b.Length
    requires length0 <= name.Length && (name.Length > 0 ==> length0 < name.Length && name[length0] == 0)
    modifies name
    ensures length <= name.Length && (name.Length > 0 ==> length < name.Length && name[length] == 0)
    ensures Summary(name[..length], channel, panid)
         == Noted(Summary(old(name[..length0]), channel0, panid0), b[i], b[at..at + n], name.Length)
  {
    length, channel, panid := length0, channel0, panid0;
    var kind := b[i];
    if kind == NETWORK_NAME && name.Length > 0 {
      length := if n < name.Length - 1 then n else name.Length - 1;
      assert b[at..at + length] == b[at..at + n][..length];
      Store(name, 0, b[at..at + length]);
      name[length] := 0;
    } else if kind == CHANNEL && n >= 3 {
      channel := b[at + 1] as int * 256 + b[at + 2];
    } else if kind == PANID && n >= 2 {
      panid := b[at] as int * 256 + b[at + 1];
    }
  }

  // ---------------- octet by octet ----------------

  /** State accept; state pending; and no state. */
  lemma PetitionOctets()
    ensures Accepted([16, 1, 1]) && !Accepted([16, 1, 0]) && !Accepted([11, 1, 1])
  {
    var a, b, c: seq<byte> := [16, 1, 1], [16, 1, 0], [11, 1, 1];
    assert Size(a) == 3 && Front(a).value == [1] && Front(b).value == [0];
    assert Size(c) == 3 && c[3..] == [];
    TooShort(c[3..]);
  }

  /** Channel 15, PAN 0x1234, network "mesh". */
  lemma DatasetOctets(cap: nat)
    requires cap >= 5
    ensures Summarized(BLANK, [0, 3, 0, 0, 15] + ([1, 2, 0x12, 0x34] + ([3, 4, 0x6d, 0x65, 0x73, 0x68] + [])), cap)
         == Summary(Ascii("mesh"), 15, 0x1234)
  {
    var name, panid, channel: seq<byte> := [3, 4, 0x6d, 0x65, 0x73, 0x68], [1, 2, 0x12, 0x34], [0, 3, 0, 0, 15];
    var s1 := Summary([], 15, 0);
    var s2 := Summary([], 15, 0x1234);
    var s3 := Summary(Ascii("mesh"), 15, 0x1234);
    assert EncodeTlv(Tlv(0, false, [0, 0, 15])) == channel && Noted(BLANK, 0, [0, 0, 15], cap) == s1;
    assert EncodeTlv(Tlv(1, false, [0x12, 0x34])) == panid && Noted(s1, 1, [0x12, 0x34], cap) == s2;
    assert EncodeTlv(Tlv(3, false, [0x6d, 0x65, 0x73, 0x68])) == name;
    assert [0x6d, 0x65, 0x73, 0x68] == Ascii("mesh");
    assert Noted(s2, 3, [0x6d, 0x65, 0x73, 0x68], cap) == s3;
    hide Noted, EncodeTlv, Ascii;
    TlvSummarized(s2, Tlv(3, false, [0x6d, 0x65, 0x73, 0x68]), [], cap);
    TlvSummarized(s1, Tlv(1, false, [0x12, 0x34]), name + [], cap);
    TlvSummarized(BLANK, Tlv(0, false, [0, 0, 15]), panid + (name + []), cap);
    TooShort([]);
  }

  lemma TlvSummarized(s: Summary, t: Tlv, rest: seq<byte>, cap: nat)
    requires TlvOk(t)
    ensures Summarized(s, EncodeTlv(t) + rest, cap) == Summarized(Noted(s, t.kind, t.value, cap), rest, cap)
  {
    TlvReads(t, rest);
    HeadKind(t, rest);
    hide Noted;
  }
}
