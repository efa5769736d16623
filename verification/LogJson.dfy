/**
 * The JSON row of one log line (`log_ring_json`, main/log_ring.c), and the reader
 * of section 7 of RFC 8259 it is meant for.
 */
module LogJson {
  import opened Bytes
  import opened LogText

  const QUOTE: byte := 0x22
  const BACKSLASH: byte := 0x5c
  const BRACE: byte := 0x7d
  const ROW_BYTES: nat := 448   // the buffer /logs uses

  type uint32 = n: nat | n < 0x1_0000_0000

  // ---------------- writing ----------------

  predicate IsDigit(b: byte) { 0x30 <= b <= 0x39 }

  function Decimal(n: nat): (r: seq<byte>)
    ensures |r| >= 1 && forall i :: 0 <= i < |r| ==> IsDigit(r[i])
  {
    if n < 10 then [0x30 + n] else Decimal(n / 10) + [0x30 + n % 10]
  }

  function HexDigit(n: nat): byte
    requires n < 16
  {
    if n < 10 then 0x30 + n else 0x61 + n - 10
  }

  const BEFORE_SEQ := Ascii("{\"seq\":")
  const BEFORE_UPTIME := Ascii(",\"uptime_ms\":")
  const BEFORE_TEXT := Ascii(",\"text\":\"")

  function Head(seqNo: nat, uptime: nat): seq<byte> {
    BEFORE_SEQ + Decimal(seqNo) + BEFORE_UPTIME + Decimal(uptime) + BEFORE_TEXT
  }

  /** What the first octets of s are written as and how many they are. */
  function Escape(s: seq<byte>): (r: (seq<byte>, nat))
    requires s != []
    ensures 1 <= r.1 <= |s| && 1 <= |r.0| <= 6
  {
    if s[0] == QUOTE || s[0] == BACKSLASH then ([BACKSLASH, s[0]], 1)
    else if s[0] < SPACE then
      ([BACKSLASH, 0x75, 0x30, 0x30, HexDigit(s[0] / 16), HexDigit(s[0] % 16)], 1)
    else if s[0] < 0x80 then ([s[0]], 1)
    else if CharLen(s) == 0 then ([QUESTION], 1)
    else (s[..CharLen(s)], CharLen(s))
  }

  function Escapes(s: seq<byte>): (r: seq<seq<byte>>)
    ensures forall i :: 0 <= i < |r| ==> |r[i]| > 0
  {
    if s == [] then [] else
      var (piece, n) := Escape(s);
      [piece] + Escapes(s[n..])
  }

  /** The row written into a buffer of cap octets. */
  function Row(seqNo: uint32, uptime: uint32, text: seq<byte>, cap: nat): (r: seq<byte>)
    requires cap >= 64
    ensures |r| < cap
  {
    HeadFits(seqNo, uptime);
    Fit(Head(seqNo, uptime), Escapes(text), cap - 3) + [QUOTE, BRACE]
  }

  lemma DecimalFits(n: nat, digits: nat)
    requires digits >= 1 && n < Power10(digits)
    ensures |Decimal(n)| <= digits
  {
    if n >= 10 {
      DecimalFits(n / 10, digits - 1);
    }
  }

  function Power10(n: nat): nat { if n == 0 then 1 else 10 * Power10(n - 1) }

  lemma HeadFits(seqNo: uint32, uptime: uint32)
    ensures |Head(seqNo, uptime)| <= 49
  {
    assert Power10(10) == 10_000_000_000 by {
      assert Power10(4) == 10_000;
      assert Power10(8) == 100_000_000;
    }
    DecimalFits(seqNo, 10);
    DecimalFits(uptime, 10);
  }

  ghost function ResumeRow(out: seq<byte>, text: seq<byte>, at: nat, limit: nat): seq<byte>
    requires |out| <= limit && at <= |text|
  {
    Fit(out, Escapes(text[at..]), limit)
  }

  method NextEscape(text: seq<byte>, at: nat, ghost out: seq<byte>, ghost limit: nat)
    returns (piece: seq<byte>, k: nat)
    requires at < |text| && |out| <= limit
    ensures 1 <= k && at + k <= |text|
    ensures |out| + |piece| > limit ==> ResumeRow(out, text, at, limit) == out
    ensures |out| + |piece| <= limit ==>
              ResumeRow(out, text, at, limit) == ResumeRow(out + piece, text, at + k, limit)
  {
    var c := text[at];
    k := 1;
    if c == QUOTE || c == BACKSLASH {
      piece := [BACKSLASH, c];
    } else if c < SPACE {
      piece := [BACKSLASH, 0x75, 0x30, 0x30, HexDigit(c / 16), HexDigit(c % 16)];
    } else if c < 0x80 {
      piece := [c];
    } else {
      k := Utf8Len(text[at..]);
      if k == 0 {
        piece, k := [QUESTION], 1;
      } else {
        piece := text[at..][..k];
      }
    }
    assert (piece, k) == Escape(text[at..]);
    assert text[at..][k..] == text[at + k..];
    assert Escapes(text[at..])[1..] == Escapes(text[at + k..]);
  }

  /** The escaping loop, from a buffer already filled up to `from`. */
  method WriteEscaped(text: seq<byte>, out: array<byte>, from: nat, limit: nat) returns (used: nat)
    requires from <= limit <= out.Length
    modifies out
    ensures used <= limit && out[..used] == Fit(old(out[..from]), Escapes(text), limit)
  {
    ghost var done := out[..from];
    ghost var goal := Fit(done, Escapes(text), limit);
    used := from;
    var i := 0;
    assert text[0..] == text;
    while i < |text|
      invariant i <= |text| && used == |done| <= limit
      invariant out[..used] == done
      invariant ResumeRow(done, text, i, limit) == goal
    {
      var piece, k := NextEscape(text, i, done, limit);
      if used + |piece| > limit {
        return;
      }
      Store(out, used, piece);
      used, i, done := used + |piece|, i + k, done + piece;
    }
  }

  /** Writes the row of a line whose text buffer is `buffer`; zero when cap is under 64. */
  method WriteRow(seqNo: uint32, uptime: uint32, buffer: seq<byte>, out: array<byte>) returns (used: nat)
    modifies out
    ensures out.Length < 64 ==> used == 0
    ensures out.Length >= 64 ==>
              && used < out.Length && out[used] == 0
              && out[..used] == Row(seqNo, uptime, Visible(buffer), out.Length)
  {
    if out.Length < 64 {
      return 0;
    }
    HeadFits(seqNo, uptime);
    var head := Head(seqNo, uptime);
    Store(out, 0, head);
    assert out[..|head|] == head;
    used := WriteEscaped(Visible(buffer), out, |head|, out.Length - 3);
    Store(out, used, [QUOTE, BRACE]);
    used := used + 2;
    out[used] := 0;
  }

  // ---------------- reading ----------------

  function HexValue(b: byte): Option<nat> {
    if IsDigit(b) then Some(b - 0x30)
    else if 0x61 <= b <= 0x66 then Some(b - 0x61 + 10)
    else if 0x41 <= b <= 0x46 then Some(b - 0x41 + 10)
    else None
  }

  /** The code unit of four hexadecimal digits. */
  function CodeUnit(s: seq<byte>): Option<nat>
    requires |s| == 4
  {
    match (HexValue(s[0]), HexValue(s[1]), HexValue(s[2]), HexValue(s[3]))
    case (Some(a), Some(b), Some(c), Some(d)) => Some(a * 4096 + b * 256 + c * 16 + d)
    case _ => None
  }

  /** UTF-8 of a code unit; surrogates, which need a pair, are not decoded. */
  function Utf8Of(c: nat): Option<seq<byte>>
    requires c < 0x10000
  {
    if c < 0x80 then Some([c])
    else if c < 0x800 then Some([0xc0 + c / 64, 0x80 + c % 64])
    else if 0xd800 <= c < 0xe000 then None
    else Some([0xe0 + c / 4096, 0x80 + c / 64 % 64, 0x80 + c % 64])
  }

  function ShortEscape(b: byte): Option<byte> {
    if b == QUOTE || b == BACKSLASH || b == 0x2f then Some(b)
    else if b == 0x62 then Some(8)
    else if b == 0x66 then Some(12)
    else if b == 0x6e then Some(10)
    else if b == 0x72 then Some(13)
    else if b == 0x74 then Some(9)
    else None
  }

  datatype Split = Split(content: seq<byte>, rest: seq<byte>)

  function Prepend(head: seq<byte>, tail: Option<Split>): Option<Split> {
    match tail
    case None => None
    case Some(t) => Some(Split(head + t.content, t.rest))
  }

  /** Reads string content up to and including the closing quote. */
  function Unescape(s: seq<byte>): Option<Split> {
    if s == [] || s[0] < SPACE then None
    else if s[0] == QUOTE then Some(Split([], s[1..]))
    else if s[0] != BACKSLASH then Prepend([s[0]], Unescape(s[1..]))
    else if |s| >= 6 && s[1] == 0x75 then
      match CodeUnit(s[2..6])
      case None => None
      case Some(c) =>
        if c >= 0x10000 then None else
        match Utf8Of(c)
        case None => None
        case Some(u) => Prepend(u, Unescape(s[6..]))
    else if |s| >= 2 && ShortEscape(s[1]).Some? then
      Prepend([ShortEscape(s[1]).value], Unescape(s[2..]))
    else None
  }

  function DigitCount(s: seq<byte>): (n: nat)
    ensures n <= |s|
  {
    if s == [] || !IsDigit(s[0]) then 0 else 1 + DigitCount(s[1..])
  }

  function DigitValue(b: byte): nat
    requires IsDigit(b)
  {
    b - 0x30
  }

  function Number(digits: seq<byte>): nat
    requires forall i :: 0 <= i < |digits| ==> IsDigit(digits[i])
  {
    if digits == [] then 0
    else Number(digits[..|digits| - 1]) * 10 + DigitValue(digits[|digits| - 1])
  }

  datatype Parsed = Parsed(seqNo: nat, uptime: nat, text: seq<byte>)

  lemma {:induction false} DigitCountDigits(s: seq<byte>)
    ensures forall i :: 0 <= i < DigitCount(s) ==> IsDigit(s[i])
    ensures DigitCount(s) < |s| ==> !IsDigit(s[DigitCount(s)])
  {
    if s != [] && IsDigit(s[0]) {
      DigitCountDigits(s[1..]);
    }
  }

  function ReadNumber(s: seq<byte>): (nat, seq<byte>) {
    DigitCountDigits(s);
    (Number(s[..DigitCount(s)]), s[DigitCount(s)..])
  }

  function After(s: seq<byte>, prefix: seq<byte>): Option<seq<byte>> {
    if prefix <= s then Some(s[|prefix|..]) else None
  }

  /** A reader of one row, from its last field to its first. */
  function ReadText(s: seq<byte>, seqNo: nat, uptime: nat): Option<Parsed> {
    match Unescape(s)
    case None => None
    case Some(t) => if t.rest == [BRACE] then Some(Parsed(seqNo, uptime, t.content)) else None
  }

  function ReadUptime(s: seq<byte>, seqNo: nat): Option<Parsed> {
    var (uptime, after) := ReadNumber(s);
    match After(after, BEFORE_TEXT)
    case None => None
    case Some(t) => ReadText(t, seqNo, uptime)
  }

  function ReadSeq(s: seq<byte>): Option<Parsed> {
    var (seqNo, after) := ReadNumber(s);
    match After(after, BEFORE_UPTIME)
    case None => None
    case Some(t) => ReadUptime(t, seqNo)
  }

  function ParseRow(row: seq<byte>): Option<Parsed> {
    match After(row, BEFORE_SEQ)
    case None => None
    case Some(t) => ReadSeq(t)
  }

  // ---------------- the two agree ----------------

  lemma {:induction false} DigitCountOf(digits: seq<byte>, rest: seq<byte>)
    requires forall i :: 0 <= i < |digits| ==> IsDigit(digits[i])
    requires rest == [] || !IsDigit(rest[0])
    ensures DigitCount(digits + rest) == |digits|
  {
    if digits == [] {
      assert digits + rest == rest;
    } else {
      DigitCountOf(digits[1..], rest);
      assert (digits + rest)[1..] == digits[1..] + rest;
    }
  }

  lemma {:induction false} NumberDecimal(n: nat)
    ensures Number(Decimal(n)) == n
  {
    var d := Decimal(n);
    if n >= 10 {
      NumberDecimal(n / 10);
      assert d[..|d| - 1] == Decimal(n / 10);
    } else {
      assert d[..|d| - 1] == [];
    }
  }

  lemma ReadDecimal(n: nat, rest: seq<byte>)
    requires rest != [] && !IsDigit(rest[0])
    ensures ReadNumber(Decimal(n) + rest) == (n, rest)
  {
    var s := Decimal(n) + rest;
    DigitCountOf(Decimal(n), rest);
    assert s[..|Decimal(n)|] == Decimal(n) && s[|Decimal(n)|..] == rest;
    NumberDecimal(n);
  }

  lemma AfterPrefix(prefix: seq<byte>, s: seq<byte>)
    ensures After(prefix + s, prefix) == Some(s)
  {
  }

  lemma UptimeReads(seqNo: nat, uptime: nat, tail: seq<byte>)
    ensures ReadUptime(Decimal(uptime) + (BEFORE_TEXT + tail), seqNo) == ReadText(tail, seqNo, uptime)
  {
    ReadDecimal(uptime, BEFORE_TEXT + tail);
    AfterPrefix(BEFORE_TEXT, tail);
  }

  lemma SeqReads(seqNo: nat, rest: seq<byte>)
    ensures ReadSeq(Decimal(seqNo) + (BEFORE_UPTIME + rest)) == ReadUptime(rest, seqNo)
  {
    ReadDecimal(seqNo, BEFORE_UPTIME + rest);
    AfterPrefix(BEFORE_UPTIME, rest);
  }

  lemma HeadReads(seqNo: nat, uptime: nat, tail: seq<byte>)
    ensures ParseRow(Head(seqNo, uptime) + tail) == ReadText(tail, seqNo, uptime)
  {
    var c := Decimal(uptime) + (BEFORE_TEXT + tail);
    var a := Decimal(seqNo) + (BEFORE_UPTIME + c);
    AssociateHead(BEFORE_SEQ, Decimal(seqNo), BEFORE_UPTIME, Decimal(uptime), BEFORE_TEXT, tail);
    AfterPrefix(BEFORE_SEQ, a);
    SeqReads(seqNo, c);
    UptimeReads(seqNo, uptime, tail);
  }

  lemma AssociateHead(a: seq<byte>, b: seq<byte>, c: seq<byte>, d: seq<byte>, e: seq<byte>, f: seq<byte>)
    ensures a + b + c + d + e + f == a + (b + (c + (d + (e + f))))
  {
    assert a + b + c + d + e + f == (a + b + c) + (d + e + f);
  }

  /** Reading copies unescaped octets through. */
  lemma {:induction false} UnescapePlain(c: seq<byte>, rest: seq<byte>)
    requires forall i :: 0 <= i < |c| ==> c[i] >= 0x80
    ensures Unescape(c + rest) == Prepend(c, Unescape(rest))
  {
    if c == [] {
      assert c + rest == rest;
      match Unescape(rest) case None => case Some(t) => assert [] + t.content == t.content;
    } else {
      UnescapePlain(c[1..], rest);
      assert (c + rest)[1..] == c[1..] + rest;
      match Unescape(rest)
      case None =>
      case Some(t) => assert [c[0]] + (c[1..] + t.content) == c + t.content;
    }
  }

  /** One written piece reads back as the octets it stands for. */
  lemma EscapeReads(s: seq<byte>, rest: seq<byte>)
    requires s != [] && (s[0] < 0x80 || CharLen(s) != 0)
    ensures var (piece, n) := Escape(s); Unescape(piece + rest) == Prepend(s[..n], Unescape(rest))
  {
    var (piece, n) := Escape(s);
    var r := piece + rest;
    assert s[0] < 0x80 ==> s[..n] == [s[0]];
    if s[0] == QUOTE || s[0] == BACKSLASH {
      assert r[2..] == rest;
    } else if s[0] < SPACE {
      assert r[6..] == rest;
      assert r[2..6] == [0x30, 0x30, HexDigit(s[0] / 16), HexDigit(s[0] % 16)];
      assert CodeUnit(r[2..6]) == Some(s[0]);
    } else if s[0] < 0x80 {
      assert r[1..] == rest;
    } else {
      UnescapePlain(piece, rest);
    }
  }

  /** The text of which a cut row still holds every character. */
  function Kept(out: seq<byte>, text: seq<byte>, limit: nat): (p: seq<byte>)
    requires |out| <= limit
    ensures p <= text
    decreases |text|
  {
    if text == [] then [] else
      var (piece, n) := Escape(text);
      if |out| + |piece| > limit then []
      else text[..n] + Kept(out + piece, text[n..], limit)
  }

  lemma {:induction false} FitReads(out: seq<byte>, text: seq<byte>, limit: nat)
    returns (body: seq<byte>)
    requires |out| <= limit && WellFormed(text)
    ensures Fit(out, Escapes(text), limit) == out + body
    ensures Unescape(body + [QUOTE, BRACE]) == Some(Split(Kept(out, text, limit), [BRACE]))
    ensures WellFormed(Kept(out, text, limit))
    ensures Kept(out, text, limit) != text ==> |out + body| + 6 > limit
    decreases |text|
  {
    if text == [] || |out| + |Escape(text).0| > limit {
      body := [];
      CloseReads();
      ConcatEmpty([QUOTE, BRACE]);
      ConcatEmpty(out);
    } else {
      var piece, n := StepReads(out, text, limit);
      var more := FitReads(out + piece, text[n..], limit);
      body := piece + more;
      var close := [QUOTE, BRACE];
      ConcatAssoc(out, piece, more);
      ConcatAssoc(piece, more, close);
      PieceReads(text, piece, n, more + close);
      WellFormedConcat(text[..n], Kept(out + piece, text[n..], limit));
    }
  }

  lemma StepReads(out: seq<byte>, text: seq<byte>, limit: nat) returns (piece: seq<byte>, n: nat)
    requires |out| <= limit && WellFormed(text)
    requires text != [] && |out| + |Escape(text).0| <= limit
    ensures 1 <= n <= |text| && |out| + |piece| <= limit && (piece, n) == Escape(text)
    ensures Fit(out, Escapes(text), limit) == Fit(out + piece, Escapes(text[n..]), limit)
    ensures Kept(out, text, limit) == text[..n] + Kept(out + piece, text[n..], limit)
    ensures WellFormed(text[n..]) && WellFormed(text[..n])
  {
    piece, n := Escape(text).0, Escape(text).1;
    EscapeHead(text);
  }

  lemma PieceReads(text: seq<byte>, piece: seq<byte>, n: nat, rest: seq<byte>)
    requires text != [] && WellFormed(text) && (piece, n) == Escape(text)
    ensures Unescape(piece + rest) == Prepend(text[..n], Unescape(rest))
  {
    EscapeHead(text);
    EscapeReads(text, rest);
  }

  lemma CloseReads()
    ensures Unescape([QUOTE, BRACE]) == Some(Split([], [BRACE]))
  {
    assert [QUOTE, BRACE][1..] == [BRACE];
  }

  lemma EscapeHead(text: seq<byte>)
    requires text != [] && WellFormed(text)
    ensures var (piece, n) := Escape(text);
            && Escapes(text) == [piece] + Escapes(text[n..])
            && Escapes(text)[0] == piece && Escapes(text)[1..] == Escapes(text[n..])
            && WellFormed(text[n..]) && WellFormed(text[..n])
            && (text[0] < 0x80 || CharLen(text) != 0)
  {
    WellFormedHead(text);
    assert Escape(text).1 == First(text).1;
    TokenWellFormed(First(text).0);
  }

  lemma BodyReads(head: seq<byte>, text: seq<byte>, limit: nat, seqNo: nat, uptime: nat)
    returns (tail: seq<byte>, kept: seq<byte>)
    requires |head| <= limit && WellFormed(text)
    ensures Fit(head, Escapes(text), limit) + [QUOTE, BRACE] == head + tail
    ensures ReadText(tail, seqNo, uptime) == Some(Parsed(seqNo, uptime, kept))
    ensures kept <= text && WellFormed(kept)
    ensures |head| + 2 * |text| <= limit ==> kept == text
    ensures kept != text ==> |head + tail| + 4 > limit
  {
    var body := FitReads(head, text, limit);
    kept := Kept(head, text, limit);
    tail := body + [QUOTE, BRACE];
    ConcatAssoc(head, body, [QUOTE, BRACE]);
    if |head| + 2 * |text| <= limit {
      KeptWhole(head, text, limit);
    }
  }

  /**
   * Any buffer of 64 or more: the row is closed, fits, and reads back to whole leading
   * characters, all of them unless less than one more was left room for.
   */
  lemma RowReadsBack(seqNo: uint32, uptime: uint32, text: seq<byte>, cap: nat) returns (kept: seq<byte>)
    requires cap >= 64 && WellFormed(text)
    ensures |Row(seqNo, uptime, text, cap)| < cap
    ensures kept <= text && WellFormed(kept)
    ensures ParseRow(Row(seqNo, uptime, text, cap)) == Some(Parsed(seqNo, uptime, kept))
    ensures 49 + 2 * |text| <= cap - 3 ==> kept == text
    ensures kept != text ==> |Row(seqNo, uptime, text, cap)| >= cap - 6
  {
    hide ParseRow, Head;
    var head := Head(seqNo, uptime);
    assert |head| <= 49 by { HeadFits(seqNo, uptime); }
    var tail: seq<byte>;
    tail, kept := BodyReads(head, text, cap - 3, seqNo, uptime);
    HeadReads(seqNo, uptime, tail);
  }

  lemma {:induction false} KeptWhole(out: seq<byte>, text: seq<byte>, limit: nat)
    requires WellFormed(text) && |out| + 2 * |text| <= limit
    ensures Kept(out, text, limit) == text
    decreases |text|
  {
    if text != [] {
      var (piece, n) := Escape(text);
      WellFormedHead(text);
      KeptWhole(out + piece, text[n..], limit);
    }
  }

  /** Printable octets that JSON writes as they are. */
  predicate Unquoted(s: seq<byte>) {
    forall i :: 0 <= i < |s| ==> SPACE <= s[i] < 0x7f && s[i] != QUOTE && s[i] != BACKSLASH
  }

  lemma {:induction false} UnquotedFits(out: seq<byte>, text: seq<byte>, limit: nat)
    requires Unquoted(text) && |out| + |text| <= limit
    ensures Fit(out, Escapes(text), limit) == out + text
    decreases |text|
  {
    if text == [] {
      ConcatEmpty(out);
    } else {
      assert Escapes(text) == [[text[0]]] + Escapes(text[1..]);
      assert Escapes(text)[0] == [text[0]] && Escapes(text)[1..] == Escapes(text[1..]);
      UnquotedFits(out + [text[0]], text[1..], limit);
      ConcatAssoc(out, [text[0]], text[1..]);
      assert [text[0]] + text[1..] == text;
    }
  }

  /** The row of a text without quotes, octet by octet; the digits read back by NumberDecimal. */
  lemma PlainRow(seqNo: uint32, uptime: uint32, text: seq<byte>, cap: nat)
    requires Unquoted(text) && cap >= 64 && 49 + |text| <= cap - 3
    ensures Row(seqNo, uptime, text, cap)
         == Ascii("{\"seq\":") + Decimal(seqNo) + Ascii(",\"uptime_ms\":") + Decimal(uptime)
            + Ascii(",\"text\":\"") + text + Ascii("\"}")
  {
    HeadFits(seqNo, uptime);
    hide Ascii;
    UnquotedFits(Head(seqNo, uptime), text, cap - 3);
    assert [QUOTE, BRACE] == Ascii("\"}") by { Closing(); }
  }

  lemma Closing()
    ensures [QUOTE, BRACE] == Ascii("\"}")
  {
  }

  lemma EscapeIsClean(s: seq<byte>)
    requires s != [] && s[0] != 0x7f
    ensures WellFormed(Escape(s).0)
  {
    var piece := Escape(s).0;
    if s[0] < 0x80 || CharLen(s) == 0 {
      PrintableWellFormed(piece);
    } else {
      TokenWellFormed(piece);
    }
  }

  lemma {:induction false} PrintableWellFormed(s: seq<byte>)
    requires Printable(s)
    ensures WellFormed(s)
    decreases |s|
  {
    if s != [] {
      PrintableWellFormed(s[1..]);
    }
  }

  lemma {:induction false} FitIsClean(out: seq<byte>, text: seq<byte>, limit: nat)
    requires |out| <= limit && WellFormed(out) && 0x7f !in text
    ensures WellFormed(Fit(out, Escapes(text), limit))
    decreases |text|
  {
    if text != [] {
      var (piece, n) := Escape(text);
      EscapeIsClean(text);
      assert Escapes(text)[0] == piece && Escapes(text)[1..] == Escapes(text[n..]);
      if |out| + |piece| <= limit {
        WellFormedConcat(out, piece);
        hide WellFormed;
        FitIsClean(out + piece, text[n..], limit);
      }
    }
  }

  /** Whatever octets a slot holds, its row is valid UTF-8 without a control octet, but for DEL as it is. */
  lemma RowIsClean(seqNo: uint32, uptime: uint32, text: seq<byte>, cap: nat)
    requires cap >= 64 && 0x7f !in text
    ensures WellFormed(Row(seqNo, uptime, text, cap))
  {
    HeadFits(seqNo, uptime);
    HeadIsPrintable(seqNo, uptime);
    PrintableWellFormed(Head(seqNo, uptime));
    PrintableWellFormed([QUOTE, BRACE]);
    hide Head, Printable, WellFormed;
    FitIsClean(Head(seqNo, uptime), text, cap - 3);
    WellFormedConcat(Fit(Head(seqNo, uptime), Escapes(text), cap - 3), [QUOTE, BRACE]);
  }

  lemma HeadIsPrintable(seqNo: nat, uptime: nat)
    ensures Printable(Head(seqNo, uptime))
  {
    assert Printable(BEFORE_SEQ) && Printable(BEFORE_UPTIME) && Printable(BEFORE_TEXT);
    assert Printable(Decimal(seqNo)) && Printable(Decimal(uptime));
  }

  /** A stored line never truncates in the 448-octet buffer and reads back exactly. */
  lemma StoredRowIsExact(seqNo: uint32, uptime: uint32, raw: seq<byte>)
    ensures var text := Appended([], raw);
            ParseRow(Row(seqNo, uptime, text, ROW_BYTES)) == Some(Parsed(seqNo, uptime, text))
  {
    var text := Appended([], raw);
    AppendedWellFormed([], raw);
    var _ := RowReadsBack(seqNo, uptime, text, ROW_BYTES);
  }
}
