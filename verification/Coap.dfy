/**
 * CoAP framing (sections 3 and 3.1 of RFC 7252): a general encoder, the payload
 * scanner that inverts it (main/meshcop_codec.h:12-64), and the request encoder
 * (main/meshcop.c:90-117). The encoder can also write a marker with nothing after it,
 * which the standard makes a format error and the scanner takes.
 */
module Coap {
  import opened Bytes

  const MARKER: byte := 255

  /** An option: the distance from the previous option's number, and its value. */
  datatype Opt = Opt(delta: nat, value: seq<byte>)

  /** `kind` is the two-bit message type. */
  datatype Header = Header(kind: nat, code: byte, id: nat, token: seq<byte>)

  // ---------------- the encoder ----------------

  /** Fits the nibble with its one- and two-octet extensions. */
  predicate Extends(n: nat) { n < 269 + 0x1_0000 }

  predicate OptOk(o: Opt) { Extends(o.delta) && Extends(|o.value|) }

  predicate HeaderOk(h: Header) { h.kind < 4 && h.id < 0x1_0000 && |h.token| <= 8 }

  function Nibble(n: nat): (r: nat)
    ensures r < 15
  {
    if n < 13 then n else if n < 269 then 13 else 14
  }

  function Extension(n: nat): seq<byte>
    requires Extends(n)
  {
    if n < 13 then [] else if n < 269 then [n - 13] else [(n - 269) / 256, (n - 269) % 256]
  }

  function OptHead(o: Opt): seq<byte>
    requires OptOk(o)
  {
    [Nibble(o.delta) * 16 + Nibble(|o.value|)] + Extension(o.delta) + Extension(|o.value|)
  }

  function EncodeOpt(o: Opt): seq<byte>
    requires OptOk(o)
  {
    OptHead(o) + o.value
  }

  predicate OptsOk(opts: seq<Opt>) { forall i :: 0 <= i < |opts| ==> OptOk(opts[i]) }

  function EncodeOpts(opts: seq<Opt>): seq<byte>
    requires OptsOk(opts)
  {
    if opts == [] then [] else EncodeOpt(opts[0]) + EncodeOpts(opts[1..])
  }

  function EncodeHeader(h: Header): seq<byte>
    requires HeaderOk(h)
  {
    [64 + h.kind * 16 + |h.token|, h.code, h.id / 256, h.id % 256] + h.token
  }

  function Tail(payload: Option<seq<byte>>): seq<byte> {
    match payload
    case None => []
    case Some(p) => [MARKER] + p
  }

  function Encode(h: Header, opts: seq<Opt>, payload: Option<seq<byte>>): seq<byte>
    requires HeaderOk(h) && OptsOk(opts)
  {
    EncodeHeader(h) + (EncodeOpts(opts) + Tail(payload))
  }

  // ---------------- the scanner ----------------

  function Width(nibble: nat): nat { if nibble == 13 then 1 else if nibble == 14 then 2 else 0 }

  /** The value a nibble and its extension at `b[i..]` stand for. */
  function Extended(nibble: nat, b: seq<byte>, i: nat): nat
    requires i + Width(nibble) <= |b|
  {
    if nibble == 13 then b[i] + 13
    else if nibble == 14 then b[i] * 256 + b[i + 1] + 269
    else nibble
  }

  /** How many octets the option at the front takes, if it is whole. */
  function OptSize(b: seq<byte>): (r: Option<nat>)
    requires b != []
    ensures r.Some? ==> 0 < r.value <= |b|
  {
    var delta, length := b[0] / 16, b[0] % 16;
    if delta == 15 || length == 15 then None
    else
      var d, l := Width(delta), Width(length);
      if d + l > |b| - 1 then None
      else
        var n := Extended(length, b, 1 + d);
        if n > |b| - 1 - d - l then None else Some(1 + d + l + n)
  }

  function AfterOpts(b: seq<byte>): (r: Option<seq<byte>>)
    decreases |b|
  {
    if b == [] then None
    else if b[0] == MARKER then Some(b[1..])
    else match OptSize(b)
      case None => None
      case Some(n) => AfterOpts(b[n..])
  }

  predicate HeadOk(b: seq<byte>) {
    |b| >= 4 && b[0] / 64 == 1 && b[0] % 16 <= 8 && 4 + b[0] % 16 <= |b|
  }

  function Payload(b: seq<byte>): (r: Option<seq<byte>>) {
    if HeadOk(b) then AfterOpts(b[4 + b[0] % 16..]) else None
  }

  /** `AfterOpts` of a suffix, as the scanner's loop sees it. */
  lemma Advance(b: seq<byte>, i: nat)
    requires i < |b|
    ensures b[i] == MARKER ==> AfterOpts(b[i..]) == Some(b[i + 1..])
    ensures b[i] != MARKER ==>
      match OptSize(b[i..])
      case None => AfterOpts(b[i..]) == None
      case Some(n) => i + n <= |b| && AfterOpts(b[i..]) == AfterOpts(b[i + n..])
  {
    var s := b[i..];
    assert s[0] == b[i] && s[1..] == b[i + 1..];
    if b[i] != MARKER && OptSize(s).Some? {
      assert s[OptSize(s).value..] == b[i + OptSize(s).value..];
    }
  }

  lemma NothingLeft(b: seq<byte>)
    ensures AfterOpts(b[|b|..]) == None
  {
  }

  method ReadExtended(buf: array<byte>, nibble: nat, at: nat) returns (n: nat)
    requires at + Width(nibble) <= buf.Length
    ensures n == Extended(nibble, buf[..], at)
  {
    n := nibble;
    if nibble == 13 {
      n := buf[at] as int + 13;
    } else if nibble == 14 {
      n := buf[at] as int * 256 + buf[at + 1];
      n := n + 269;
    }
  }

  /** One turn of the scanner's loop: past the option at `i`, or a broken one. */
  method SkipOption(buf: array<byte>, i: nat) returns (after: Option<nat>)
    requires i < buf.Length
    ensures var n := OptSize(buf[..][i..]);
            after == match n case None => None case Some(k) => Some(i + k)
  {
    ghost var s := buf[..][i..];
    var delta, length := buf[i] / 16, buf[i] % 16;
    assert s[0] == buf[i];
    if delta == 15 || length == 15 {
      return None;
    }
    var d, l := Width(delta), Width(length);
    if d + l > buf.Length - (i + 1) {
      return None;
    }
    var n := ReadExtended(buf, length, i + 1 + d);
    assert n == Extended(length, s, 1 + d);
    hide Extended;
    if n > buf.Length - (i + 1 + d + l) {
      return None;
    }
    return Some(i + 1 + d + l + n);
  }

  /** Where the payload starts, if the message is framed; the buffer is the received octets. */
  method FindPayload(buf: array?<byte>) returns (start: Option<nat>)
    ensures buf == null ==> start == None
    ensures buf != null ==> (start.Some? <==> Payload(buf[..]).Some?)
    ensures buf != null && start.Some? ==> start.value <= buf.Length && Payload(buf[..]) == Some(buf[start.value..])
  {
    hide AfterOpts, OptSize;
    if buf == null || buf.Length < 4 || buf[0] / 64 != 1 || buf[0] % 16 > 8 {
      return None;
    }
    ghost var b := buf[..];
    var i := 4 + buf[0] % 16;
    if i > buf.Length {
      return None;
    }
    while i < buf.Length && buf[i] != MARKER
      invariant i <= buf.Length
      invariant Payload(b) == AfterOpts(b[i..])
    {
      Advance(b, i);
      var after := SkipOption(buf, i);
      if after == None {
        return None;
      }
      i := after.value;
    }
    if i >= buf.Length {
      NothingLeft(b);
      return None;
    }
    Advance(b, i);
    assert b[i + 1..] == buf[i + 1..];
    return Some(i + 1);
  }

  // ---------------- the scanner inverts the encoder ----------------

  lemma ExtendedReads(n: nat, a: seq<byte>, rest: seq<byte>)
    requires Extends(n)
    ensures Width(Nibble(n)) == |Extension(n)|
    ensures Extended(Nibble(n), a + Extension(n) + rest, |a|) == n
  {
  }

  lemma OptHeadFits(o: Opt, rest: seq<byte>)
    requires OptOk(o)
    ensures var b := EncodeOpt(o) + rest;
            && b[0] == Nibble(o.delta) * 16 + Nibble(|o.value|) && b[0] != MARKER
            && |b| == 1 + |Extension(o.delta)| + |Extension(|o.value|)| + |o.value| + |rest|
  {
  }

  /** The size computed from a head whose parts are where they should be. */
  lemma SizeFrom(b: seq<byte>, d: nat, l: nat, ext: nat)
    requires b != [] && d < 15 && l < 15 && b[0] == d * 16 + l && ext == 1 + Width(d)
    requires ext + Width(l) <= |b| && ext + Width(l) + Extended(l, b, ext) <= |b|
    ensures OptSize(b) == Some(ext + Width(l) + Extended(l, b, ext))
  {
    assert b[0] / 16 == d && b[0] % 16 == l;
    hide Extended, Width;
  }

  lemma OptSizeReads(o: Opt, rest: seq<byte>)
    requires OptOk(o)
    ensures var b := EncodeOpt(o) + rest;
            b[0] != MARKER && OptSize(b) == Some(|EncodeOpt(o)|) && b[|EncodeOpt(o)|..] == rest
  {
    var b := EncodeOpt(o) + rest;
    var head := [Nibble(o.delta) * 16 + Nibble(|o.value|)];
    OptHeadFits(o, rest);
    ExtendedReads(o.delta, [], []);
    ExtendedReads(|o.value|, head + Extension(o.delta), o.value + rest);
    assert b == head + Extension(o.delta) + Extension(|o.value|) + (o.value + rest);
    DropConcat(EncodeOpt(o), rest, |EncodeOpt(o)|);
    ConcatEmpty(rest);
    hide Extension, Extended, Nibble, OptSize, Width;
    SizeFrom(b, Nibble(o.delta), Nibble(|o.value|), 1 + |Extension(o.delta)|);
  }

  lemma {:induction false} AfterOptsReads(opts: seq<Opt>, payload: Option<seq<byte>>)
    requires OptsOk(opts)
    ensures AfterOpts(EncodeOpts(opts) + Tail(payload)) == payload
    decreases |opts|
  {
    if opts == [] {
      ConcatEmpty(Tail(payload));
    } else {
      var rest := EncodeOpts(opts[1..]) + Tail(payload);
      ConcatAssoc(EncodeOpt(opts[0]), EncodeOpts(opts[1..]), Tail(payload));
      OptSizeReads(opts[0], rest);
      hide OptSize, EncodeOpt;
      AfterOptsReads(opts[1..], payload);
    }
  }

  lemma HeaderReads(h: Header, rest: seq<byte>)
    requires HeaderOk(h)
    ensures var b := EncodeHeader(h) + rest;
            HeadOk(b) && b[0] % 16 == |h.token| && b[4 + |h.token|..] == rest
  {
  }

  /** Whatever the header, token, options and payload: scanning the encoding gives the payload back. */
  lemma EncodedPayloadIsFound(h: Header, opts: seq<Opt>, payload: Option<seq<byte>>)
    requires HeaderOk(h) && OptsOk(opts)
    ensures Payload(Encode(h, opts, payload)) == payload
  {
    HeaderReads(h, EncodeOpts(opts) + Tail(payload));
    hide EncodeOpts, AfterOpts, HeadOk;
    AfterOptsReads(opts, payload);
  }

  // ---------------- and accepts nothing else ----------------

  /** The option at the front, read back. */
  function ReadOpt(b: seq<byte>): (o: Opt)
    requires b != [] && OptSize(b).Some?
  {
    var delta, length := b[0] / 16, b[0] % 16;
    Opt(Extended(delta, b, 1), b[1 + Width(delta) + Width(length)..OptSize(b).value])
  }

  lemma NibbleOf(nibble: nat, b: seq<byte>, i: nat)
    requires nibble < 15 && i + Width(nibble) <= |b|
    ensures var n := Extended(nibble, b, i);
            Extends(n) && Nibble(n) == nibble && Extension(n) == b[i..i + Width(nibble)]
  {
  }

  lemma ReadOptIsWritten(b: seq<byte>)
    requires b != [] && OptSize(b).Some?
    ensures OptOk(ReadOpt(b)) && EncodeOpt(ReadOpt(b)) == b[..OptSize(b).value]
  {
    var o := ReadOpt(b);
    var n := OptSize(b).value;
    var delta, length := b[0] / 16, b[0] % 16;
    var d, l := Width(delta), Width(length);
    NibbleOf(delta, b, 1);
    NibbleOf(length, b, 1 + d);
    assert |o.value| == Extended(length, b, 1 + d);
    hide Extended, Extension, Nibble, OptSize, Extends;
    assert OptHead(o) == [b[0]] + b[1..1 + d] + b[1 + d..1 + d + l];
    assert [b[0]] + b[1..1 + d] + b[1 + d..1 + d + l] == b[..1 + d + l];
    assert b[..1 + d + l] + b[1 + d + l..n] == b[..n];
  }

  lemma {:induction false} FramedIsOpts(b: seq<byte>) returns (opts: seq<Opt>)
    requires AfterOpts(b).Some?
    ensures OptsOk(opts) && b == EncodeOpts(opts) + Tail(AfterOpts(b))
    decreases |b|
  {
    if b[0] == MARKER {
      opts := [];
      ConcatEmpty(Tail(AfterOpts(b)));
      assert b == [MARKER] + b[1..];
    } else {
      var n := OptSize(b).value;
      var rest := FramedIsOpts(b[n..]);
      ReadOptIsWritten(b);
      var o := ReadOpt(b);
      hide OptSize, ReadOpt, EncodeOpt;
      opts := [o] + rest;
      assert opts[1..] == rest;
      SplitAt(b, n);
      ConcatAssoc(EncodeOpt(o), EncodeOpts(rest), Tail(AfterOpts(b)));
    }
  }

  function ReadHeader(b: seq<byte>): Header
    requires HeadOk(b)
  {
    Header(b[0] / 16 - 4, b[1], b[2] as int * 256 + b[3], b[4..4 + b[0] % 16])
  }

  lemma ReadHeaderIsWritten(b: seq<byte>)
    requires HeadOk(b)
    ensures HeaderOk(ReadHeader(b)) && EncodeHeader(ReadHeader(b)) == b[..4 + b[0] % 16]
  {
    var h := ReadHeader(b);
    assert 64 + h.kind * 16 + |h.token| == b[0];
  }

  /** Only a framing of that payload is scanned to it: the scanner accepts nothing else. */
  lemma OnlyFramingsAreAccepted(b: seq<byte>)
    ensures Payload(b).Some? ==>
      exists h, opts :: HeaderOk(h) && OptsOk(opts) && b == Encode(h, opts, Payload(b))
  {
    if Payload(b).Some? {
      var k := 4 + b[0] % 16;
      var h := ReadHeader(b);
      ReadHeaderIsWritten(b);
      var opts := FramedIsOpts(b[k..]);
      hide EncodeHeader, EncodeOpts, AfterOpts, ReadHeader, HeadOk;
      SplitAt(b, k);
      assert b == Encode(h, opts, Payload(b));
    }
  }

  // ---------------- which of it is legal ----------------

  /** A message of section 3 of RFC 7252: a payload marker is followed by a payload. */
  ghost predicate Legal(b: seq<byte>) {
    exists h, opts, payload ::
      HeaderOk(h) && OptsOk(opts) && payload != Some([]) && b == Encode(h, opts, payload)
  }

  /** Whatever the scanner accepts is legal if and only if something follows its marker. */
  lemma AcceptedIsLegal(b: seq<byte>)
    requires Payload(b).Some?
    ensures Legal(b) <==> Payload(b).value != []
  {
    OnlyFramingsAreAccepted(b);
    hide Encode, Payload;
    if Legal(b) {
      var h, opts, payload :|
        HeaderOk(h) && OptsOk(opts) && payload != Some([]) && b == Encode(h, opts, payload);
      EncodedPayloadIsFound(h, opts, payload);
    }
  }

  /** Every legal message with a payload is accepted, and one without is not. */
  lemma LegalIsAccepted(b: seq<byte>)
    requires Legal(b)
    ensures Payload(b) != Some([])
    ensures Payload(b).Some? <==>
      exists h, opts, p :: HeaderOk(h) && OptsOk(opts) && p != [] && b == Encode(h, opts, Some(p))
  {
    var h, opts, payload :|
      HeaderOk(h) && OptsOk(opts) && payload != Some([]) && b == Encode(h, opts, payload);
    hide Encode, Payload;
    EncodedPayloadIsFound(h, opts, payload);
    if payload.Some? {
      assert b == Encode(h, opts, Some(payload.value));
    } else if h2, opts2, p :| HeaderOk(h2) && OptsOk(opts2) && p != [] && b == Encode(h2, opts2, Some(p)) {
      EncodedPayloadIsFound(h2, opts2, Some(p));
    }
  }

  /** A 2.05 reply of five octets that ends at its marker: a format error, scanned to an empty payload. */
  const BARE_MARKER: seq<byte> := [0x40, 0x45, 0, 0, MARKER]

  lemma BareMarkerIsAccepted()
    ensures Payload(BARE_MARKER) == Some([]) && IsSuccess(BARE_MARKER) && !Legal(BARE_MARKER)
  {
    assert BARE_MARKER[4..] == [MARKER] && [MARKER][1..] == [];
    AcceptedIsLegal(BARE_MARKER);
  }

  // ---------------- success ----------------

  predicate IsSuccess(b: seq<byte>) {
    && |b| >= 4 && b[0] / 64 == 1
    && b[0] % 16 <= 8 && |b| >= 4 + b[0] % 16 && b[1] / 32 == 2
  }

  /** Success is a whole header whose code is of class 2, whatever follows it. */
  lemma SuccessIsClassTwo(b: seq<byte>)
    ensures IsSuccess(b) <==> exists h, rest :: HeaderOk(h) && 64 <= h.code < 96 && b == EncodeHeader(h) + rest
  {
    if IsSuccess(b) {
      ReadHeaderIsWritten(b);
      SplitAt(b, 4 + b[0] % 16);
      assert b == EncodeHeader(ReadHeader(b)) + b[4 + b[0] % 16..];
    }
    if h, rest :| HeaderOk(h) && 64 <= h.code < 96 && b == EncodeHeader(h) + rest {
      HeaderReads(h, rest);
      assert b[1] == h.code;
    }
  }

  // ---------------- the request encoder ----------------

  const URI_PATH: nat := 11
  const POST: byte := 2

  function Request(id: nat, uri: seq<byte>, payload: seq<byte>): seq<byte> {
    RequestHead(id, uri) + uri + Tail(if payload == [] then None else Some(payload))
  }

  function RequestHead(id: nat, uri: seq<byte>): (r: seq<byte>)
    ensures |r| == 7
  {
    [0x40, POST, id / 256 % 256, id % 256, 0xB1, 99, |uri| % 256]
  }

  /** The message a request for /c/`uri` should be. */
  function Meant(id: nat): Header { Header(0, POST, id, []) }

  function Path(uri: seq<byte>): seq<Opt> { [Opt(URI_PATH, [99]), Opt(0, uri)] }

  lemma PathOctets(uri: seq<byte>)
    requires Extends(|uri|)
    ensures EncodeOpts(Path(uri)) == [0xB1, 99] + OptHead(Opt(0, uri)) + uri
  {
    var first, second := Opt(URI_PATH, [99]), Opt(0, uri);
    assert EncodeOpt(first) == [0xB1, 99];
    assert Path(uri)[1..] == [second] && [second][1..] == [];
    assert EncodeOpts([second]) == EncodeOpt(second) + [];
    assert EncodeOpts(Path(uri)) == EncodeOpt(first) + EncodeOpts([second]);
    hide OptHead, EncodeOpts;
  }

  /** The hand-built request is the encoding of the message it means exactly for paths under 13 octets. */
  lemma RequestIsEncoded(id: nat, uri: seq<byte>, payload: seq<byte>)
    requires id < 0x1_0000 && Extends(|uri|)
    ensures var p := if payload == [] then None else Some(payload);
            Request(id, uri, payload) == Encode(Meant(id), Path(uri), p) <==> |uri| < 13
  {
    var p := if payload == [] then None else Some(payload);
    PathOctets(uri);
    var h := EncodeHeader(Meant(id));
    assert h == [0x40, POST, id / 256, id % 256];
    var head := OptHead(Opt(0, uri));
    if |uri| < 13 {
      assert head == [|uri|];
      assert Request(id, uri, payload) == h + ([0xB1, 99] + [|uri|] + uri + Tail(p));
    } else {
      assert |head| > 1;
      assert |Request(id, uri, payload)| == 7 + |uri| + |Tail(p)|;
      assert |Encode(Meant(id), Path(uri), p)| == 4 + 2 + |head| + |uri| + |Tail(p)|;
    }
  }

  /** So the receiver's scanner gives its payload back; an empty one is not sent at all. */
  lemma RequestIsReadBack(id: nat, uri: seq<byte>, payload: seq<byte>)
    requires id < 0x1_0000 && |uri| < 13
    ensures Payload(Request(id, uri, payload)) == if payload == [] then None else Some(payload)
  {
    RequestIsEncoded(id, uri, payload);
    hide Request, Encode, Payload;
    EncodedPayloadIsFound(Meant(id), Path(uri), if payload == [] then None else Some(payload));
  }

  /** The client's message counter, and the requests it writes. */
  class Client {
    var id: nat

    constructor ()
      ensures id == 0x2000
    {
      id := 0x2000;
    }

    method PutHead(buf: array<byte>, mid: nat, uri: seq<byte>)
      requires mid < 0x1_0000 && 7 <= buf.Length
      modifies buf
      ensures buf[..7] == RequestHead(mid, uri)
    {
      Store(buf, 0, [0x40, POST, mid / 256, mid % 256]);
      Store(buf, 4, [0xB1, 99, |uri| % 256]);
      assert buf[..0] == [];
    }

    method Post(buf: array<byte>, uri: seq<byte>, payload: seq<byte>) returns (n: nat)
      requires id < 0x1_0000 && |Request(id, uri, payload)| <= buf.Length
      modifies this, buf
      ensures id == (old(id) + 1) % 0x1_0000
      ensures n <= buf.Length && buf[..n] == Request(old(id), uri, payload)
    {
      var mid := id;
      id := (id + 1) % 0x1_0000;
      PutHead(buf, mid, uri);
      hide RequestHead;
      Store(buf, 7, uri);
      n := 7 + |uri|;
      ghost var path := RequestHead(mid, uri) + uri;
      if payload == [] {
        ConcatEmpty(path);
        return;
      }
      Store(buf, n, [MARKER]);
      Store(buf, n + 1, payload);
      n := n + 1 + |payload|;
      ConcatAssoc(path, [MARKER], payload);
    }
  }
}
