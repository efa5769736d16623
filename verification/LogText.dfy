/**
 * Cleaning of log text (main/log_ring.c): UTF-8 recognition and `append_clean`,
 * which bounds a line at 179 octets and keeps it well-formed.
 */
module LogText {
  import opened Bytes

  const TEXT_BYTES: nat := 180
  const CAP: nat := TEXT_BYTES - 1
  const ESC: byte := 0x1b
  const CR: byte := 13
  const NEWLINE: byte := 10
  const SPACE: byte := 0x20
  const QUESTION: byte := 0x3f
  const BRACKET: byte := 0x5b

  predicate Continuation(b: byte) { 0x80 <= b <= 0xbf }

  /** UTF8-2, UTF8-3 and UTF8-4 of section 4 of RFC 3629. */
  predicate Multibyte(c: seq<byte>) {
    if |c| == 2 then
      0xc2 <= c[0] <= 0xdf && Continuation(c[1])
    else if |c| == 3 then
      && Continuation(c[2])
      && (|| (c[0] == 0xe0 && 0xa0 <= c[1] <= 0xbf)
          || (0xe1 <= c[0] <= 0xec && Continuation(c[1]))
          || (c[0] == 0xed && 0x80 <= c[1] <= 0x9f)
          || (0xee <= c[0] <= 0xef && Continuation(c[1])))
    else if |c| == 4 then
      && Continuation(c[2]) && Continuation(c[3])
      && (|| (c[0] == 0xf0 && 0x90 <= c[1] <= 0xbf)
          || (0xf1 <= c[0] <= 0xf3 && Continuation(c[1]))
          || (c[0] == 0xf4 && 0x80 <= c[1] <= 0x8f))
    else
      false
  }

  /** Length of the multibyte character s starts with, zero when there is none. */
  function CharLen(s: seq<byte>): (n: nat)
    ensures n <= |s|
    ensures n != 0 ==> Multibyte(s[..n])
  {
    if |s| >= 2 && Multibyte(s[..2]) then 2
    else if |s| >= 3 && Multibyte(s[..3]) then 3
    else if |s| >= 4 && Multibyte(s[..4]) then 4
    else 0
  }

  /** It is zero only when no prefix of s is a multibyte character, and that prefix is unique. */
  lemma CharLenComplete(s: seq<byte>, k: nat)
    requires k <= |s| && Multibyte(s[..k])
    ensures CharLen(s) == k
  {
    if k > 2 { assert s[..2][0] == s[..k][0]; }
    if k > 3 { assert s[..3][0] == s[..k][0]; }
  }

  method Utf8Len(s: seq<byte>) returns (n: nat)
    requires s != []
    ensures n == CharLen(s)
  {
    n := if 0xc2 <= s[0] <= 0xdf then 2
         else if 0xe0 <= s[0] <= 0xef then 3
         else if 0xf0 <= s[0] <= 0xf4 then 4 else 0;
    if n == 0 || n > |s| {
      return 0;
    }
    for i := 1 to n
      invariant forall k :: 1 <= k < i ==> Continuation(s[k])
    {
      if !Continuation(s[i]) {
        return 0;
      }
    }
    if (s[0] == 0xe0 && s[1] < 0xa0) || (s[0] == 0xed && s[1] > 0x9f) ||
       (s[0] == 0xf0 && s[1] < 0x90) || (s[0] == 0xf4 && s[1] > 0x8f) {
      return 0;
    }
  }

  /** Printable ASCII and multibyte characters only: valid UTF-8 with no control octet. */
  predicate WellFormed(s: seq<byte>) {
    || s == []
    || (SPACE <= s[0] < 0x7f && WellFormed(s[1..]))
    || (CharLen(s) != 0 && WellFormed(s[CharLen(s)..]))
  }

  predicate Printable(s: seq<byte>) {
    forall i :: 0 <= i < |s| ==> SPACE <= s[i] < 0x7f
  }

  /** One printable character, the unit that cleaning keeps or drops whole. */
  predicate IsToken(t: seq<byte>) {
    (|t| == 1 && SPACE <= t[0] < 0x7f) || Multibyte(t)
  }

  predicate Final(b: byte) { 0x40 <= b <= 0x7e }

  function ParameterCount(s: seq<byte>): (n: nat)
    ensures n <= |s|
    ensures forall i :: 0 <= i < n ==> !Final(s[i])
    ensures n < |s| ==> Final(s[n])
  {
    if s == [] || Final(s[0]) then 0 else 1 + ParameterCount(s[1..])
  }

  /** Octets taken by the escape sequence that s starts with. */
  function EscapeLen(s: seq<byte>): (n: nat)
    requires s != []
    ensures 1 <= n <= |s|
  {
    if |s| > 1 && s[1] == BRACKET
    then Min(|s|, 3 + ParameterCount(s[2..]))
    else 1
  }

  /** What the first octets of s clean to (nothing, or one character) and how many they are. */
  function First(s: seq<byte>): (r: (seq<byte>, nat))
    requires s != []
    ensures 1 <= r.1 <= |s|
    ensures r.0 == [] || IsToken(r.0)
  {
    if s[0] == ESC then ([], EscapeLen(s))
    else if s[0] == CR then ([], 1)
    else if s[0] < SPACE || s[0] == 0x7f then ([SPACE], 1)
    else if s[0] < 0x80 then ([s[0]], 1)
    else if CharLen(s) == 0 then ([QUESTION], 1)
    else (s[..CharLen(s)], CharLen(s))
  }

  /** The characters a text cleans to when nothing limits its length. */
  function Tokens(s: seq<byte>): (r: seq<seq<byte>>)
    ensures forall i :: 0 <= i < |r| ==> IsToken(r[i])
  {
    if s == [] then [] else
      var (token, n) := First(s);
      (if token == [] then [] else [token]) + Tokens(s[n..])
  }

  /** out extended by the longest run of whole tokens within cap octets. */
  function Fit(out: seq<byte>, tokens: seq<seq<byte>>, cap: nat): (r: seq<byte>)
    requires |out| <= cap
    ensures |r| <= cap && out <= r
    decreases tokens
  {
    if tokens == [] || |out| + |tokens[0]| > cap then out
    else Fit(out + tokens[0], tokens[1..], cap)
  }

  /** What a line becomes when src is appended to the text already held. */
  function Appended(out: seq<byte>, src: seq<byte>): (r: seq<byte>)
    requires |out| <= CAP
    ensures |r| <= CAP
  {
    Fit(out, Tokens(src), CAP)
  }

  /** Cleaning what remains of src from position `at`. */
  ghost function Resume(out: seq<byte>, src: seq<byte>, at: nat): seq<byte>
    requires |out| <= CAP && at <= |src|
  {
    Appended(out, src[at..])
  }

  lemma ResumeStarts(out: seq<byte>, src: seq<byte>)
    requires |out| <= CAP
    ensures Resume(out, src, 0) == Appended(out, src)
  {
    assert src[0..] == src;
  }

  lemma ResumeStops(out: seq<byte>, src: seq<byte>, at: nat)
    requires |out| <= CAP && at <= |src| && (|out| == CAP || at == |src|)
    ensures Resume(out, src, at) == out
  {
    FitStops(out, Tokens(src[at..]), CAP);
  }

  lemma ResumeStep(out: seq<byte>, src: seq<byte>, at: nat, token: seq<byte>, n: nat)
    requires |out| <= CAP && at < |src| && (token, n) == First(src[at..])
    ensures 1 <= n && at + n <= |src|
    ensures |out| + |token| > CAP ==> Resume(out, src, at) == out
    ensures |out| + |token| <= CAP ==> Resume(out, src, at) == Resume(out + token, src, at + n)
  {
    var rest := src[at..];
    assert rest[n..] == src[at + n..];
    if token == [] {
      assert Tokens(rest) == Tokens(rest[n..]) && out + token == out;
    } else {
      assert Tokens(rest)[1..] == Tokens(rest[n..]);
    }
  }

  /** The in-place form: dst[..used] is the text so far, dst[n] its terminator. */
  method AppendClean(dst: array<byte>, used: nat, src: seq<byte>) returns (n: nat)
    requires dst.Length == TEXT_BYTES && used <= CAP
    modifies dst
    ensures n <= CAP && dst[n] == 0
    ensures dst[..n] == Appended(old(dst[..used]), src)
  {
    hide Resume, Appended;
    ghost var out := dst[..used];
    ghost var goal := Appended(out, src);
    var i := 0;
    n := used;
    ResumeStarts(out, src);
    while i < |src| && n < CAP
      invariant 0 <= i <= |src| && n == |out| <= CAP
      invariant dst[..n] == out
      invariant Resume(out, src, i) == goal
      decreases |src| - i
    {
      var token, k := NextToken(src, i, out);
      if n + |token| > CAP {
        dst[n] := 0;
        return;
      }
      Store(dst, n, token);
      n, i, out := n + |token|, i + k, out + token;
    }
    ResumeStops(out, src, i);
    dst[n] := 0;
  }

  /** One turn of the cleaning loop: the octets to store and how many were read. */
  method NextToken(src: seq<byte>, at: nat, ghost out: seq<byte>) returns (token: seq<byte>, k: nat)
    requires at < |src| && |out| <= CAP
    ensures 1 <= k && at + k <= |src|
    ensures |out| + |token| > CAP ==> Resume(out, src, at) == out
    ensures |out| + |token| <= CAP ==> Resume(out, src, at) == Resume(out + token, src, at + k)
  {
    var c := src[at];
    if c == ESC {
      k := 1;
      if at + 1 < |src| && src[at + 1] == BRACKET {
        var i := SkipParameters(src, at + 2);
        k := Min(i + 1, |src|) - at;
        assert src[at..][2..] == src[at + 2..];
      }
      token := [];
    } else if c == CR {
      token, k := [], 1;
    } else if c < SPACE || c == 0x7f {
      token, k := [SPACE], 1;
    } else if c < 0x80 {
      token, k := [c], 1;
    } else {
      k := Utf8Len(src[at..]);
      if k == 0 {
        token, k := [QUESTION], 1;
      } else {
        token := src[at..][..k];
      }
    }
    ResumeStep(out, src, at, token, k);
  }

  method SkipParameters(src: seq<byte>, from: nat) returns (i: nat)
    requires from <= |src|
    ensures i == from + ParameterCount(src[from..])
  {
    i := from;
    while i < |src| && !Final(src[i])
      invariant from <= i <= |src|
      invariant from + ParameterCount(src[from..]) == i + ParameterCount(src[i..])
    {
      assert src[i..][1..] == src[i + 1..];
      i := i + 1;
    }
  }

  lemma FitStops(out: seq<byte>, tokens: seq<seq<byte>>, cap: nat)
    requires |out| <= cap
    requires forall i :: 0 <= i < |tokens| ==> |tokens[i]| > 0
    ensures |out| == cap || tokens == [] ==> Fit(out, tokens, cap) == out
  {
  }

  // ---------------- what stored text always satisfies ----------------

  lemma {:induction false} CharLenExtends(s: seq<byte>, more: seq<byte>)
    requires CharLen(s) != 0
    ensures CharLen(s + more) == CharLen(s)
  {
    var n := CharLen(s);
    assert (s + more)[..n] == s[..n];
    if n > 2 { assert (s + more)[..2] == s[..2]; }
    if n > 3 { assert (s + more)[..3] == s[..3]; }
  }

  lemma {:induction false} WellFormedConcat(a: seq<byte>, b: seq<byte>)
    requires WellFormed(a) && WellFormed(b)
    ensures WellFormed(a + b)
    decreases |a|
  {
    if a == [] {
      assert a + b == b;
    } else if SPACE <= a[0] < 0x7f && WellFormed(a[1..]) {
      WellFormedConcat(a[1..], b);
      DropConcat(a, b, 1);
    } else {
      var n := CharLen(a);
      WellFormedConcat(a[n..], b);
      CharLenExtends(a, b);
      DropConcat(a, b, n);
    }
  }

  lemma TokenWellFormed(t: seq<byte>)
    requires IsToken(t)
    ensures WellFormed(t) && |t| > 0
  {
    if |t| == 1 {
      assert t[1..] == [];
    } else {
      assert t[..|t|] == t;
      assert t[0] >= 0x80;
      assert CharLen(t) == |t|;
      assert t[|t|..] == [];
    }
  }

  lemma {:induction false} FitWellFormed(out: seq<byte>, tokens: seq<seq<byte>>)
    requires |out| <= CAP && WellFormed(out)
    requires forall i :: 0 <= i < |tokens| ==> IsToken(tokens[i])
    ensures WellFormed(Fit(out, tokens, CAP))
    decreases tokens
  {
    if tokens != [] && |out| + |tokens[0]| <= CAP {
      TokenWellFormed(tokens[0]);
      WellFormedConcat(out, tokens[0]);
      FitWellFormed(out + tokens[0], tokens[1..]);
    }
  }

  /** Whatever octets arrive, held text stays valid UTF-8 without control octets and bounded. */
  lemma AppendedWellFormed(out: seq<byte>, src: seq<byte>)
    requires |out| <= CAP && WellFormed(out)
    ensures WellFormed(Appended(out, src)) && |Appended(out, src)| <= CAP
  {
    FitWellFormed(out, Tokens(src));
  }

  lemma WellFormedHead(s: seq<byte>)
    requires WellFormed(s) && s != []
    ensures var (token, n) := First(s); token == s[..n] && token != [] && WellFormed(s[n..])
  {
    if s[0] < 0x80 {
      assert CharLen(s) == 0;
      assert s[..1] == [s[0]];
    }
  }

  lemma AppendCharacter(out: seq<byte>, s: seq<byte>) returns (n: nat)
    requires WellFormed(s) && s != [] && |out| + |s| <= CAP
    ensures 1 <= n <= |s| && WellFormed(s[n..])
    ensures Appended(out, s) == Appended(out + s[..n], s[n..])
  {
    WellFormedHead(s);
    n := First(s).1;
    ResumeStep(out, s, 0, First(s).0, n);
    assert s[0..] == s;
  }

  /** Well-formed text passes through cleaning unchanged as long as it fits. */
  lemma {:induction false} AppendedKeeps(out: seq<byte>, s: seq<byte>)
    requires WellFormed(s) && |out| + |s| <= CAP
    ensures Appended(out, s) == out + s
    decreases |s|
  {
    if s == [] {
      ConcatEmpty(out);
    } else {
      hide WellFormed, Appended;
      var n := AppendCharacter(out, s);
      AppendedKeeps(out + s[..n], s[n..]);
      ConcatAssoc(out, s[..n], s[n..]);
      SplitAt(s, n);
    }
  }

  /** Cleaning is idempotent: stored text is a fixed point. */
  lemma CleaningIsIdempotent(src: seq<byte>)
    ensures Appended([], Appended([], src)) == Appended([], src)
  {
    AppendedWellFormed([], src);
    AppendedKeeps([], Appended([], src));
  }

  /** For printable ASCII, cleaning is concatenation cut at 179 octets. */
  lemma {:induction false} AppendedPrintable(out: seq<byte>, s: seq<byte>)
    requires |out| <= CAP && Printable(s)
    ensures Appended(out, s) == Cut(out + s)
    decreases |s|
  {
    if s == [] {
      ConcatEmpty(out);
    } else {
      PrintableHead(s);
      if |out| < CAP {
        AppendedPrintable(out + [s[0]], s[1..]);
        ConcatAssoc(out, [s[0]], s[1..]);
      } else {
        assert (out + s)[..CAP] == out;
      }
    }
  }

  lemma PrintableHead(s: seq<byte>)
    requires s != [] && Printable(s)
    ensures Tokens(s) == [[s[0]]] + Tokens(s[1..])
    ensures Tokens(s)[0] == [s[0]] && Tokens(s)[1..] == Tokens(s[1..])
    ensures [s[0]] + s[1..] == s
  {
    TokensUnfold(s);
    hide Tokens;
    assert First(s).0 == [s[0]] && First(s).1 == 1;
  }

  lemma TokensUnfold(s: seq<byte>)
    requires s != []
    ensures Tokens(s) == (if First(s).0 == [] then [] else [First(s).0]) + Tokens(s[First(s).1..])
  {
    hide First;
  }

  // ---------------- what cleaning does to each kind of octet ----------------

  /** No character starts s. */
  predicate NoCharacter(s: seq<byte>) {
    forall k :: 0 <= k <= |s| ==> !Multibyte(s[..k])
  }

  /** What follows well-formed text is cleaned on its own. */
  lemma {:induction false} CleanedAlike(a: seq<byte>, x: seq<byte>, y: seq<byte>)
    requires WellFormed(a) && Tokens(x) == Tokens(y)
    ensures Tokens(a + x) == Tokens(a + y)
    decreases |a|
  {
    if a == [] {
      ConcatEmpty(x);
      ConcatEmpty(y);
    } else {
      var n := FirstExtends(a, x);
      var m := FirstExtends(a, y);
      CleanedAlike(a[n..], x, y);
    }
  }

  /** The first character of well-formed text is cleaned whatever follows the text. */
  lemma FirstExtends(a: seq<byte>, x: seq<byte>) returns (n: nat)
    requires WellFormed(a) && a != []
    ensures n == First(a).1 <= |a| && WellFormed(a[n..])
    ensures Tokens(a + x) == [First(a).0] + Tokens(a[n..] + x)
  {
    n := First(a).1;
    WellFormedHead(a);
    if a[0] >= 0x80 {
      CharLenExtends(a, x);
      assert (a + x)[..n] == a[..n];
    }
    assert First(a + x) == First(a);
    TokensUnfold(a + x);
    DropConcat(a, x, n);
  }

  /** A colour code, up to its final octet, leaves no trace: the text continues behind it. */
  lemma ColourCodeIsSkipped(out: seq<byte>, a: seq<byte>, p: seq<byte>, f: byte, b: seq<byte>)
    requires |out| <= CAP && WellFormed(a)
    requires (forall i :: 0 <= i < |p| ==> !(0x40 <= p[i] <= 0x7e)) && 0x40 <= f <= 0x7e
    ensures Appended(out, a + ([ESC, BRACKET] + p + [f] + b)) == Appended(out, a + b)
  {
    var s := [ESC, BRACKET] + p + [f] + b;
    assert s[2..] == p + [f] + b;
    ParametersEnd(p, f, b);
    assert EscapeLen(s) == 3 + |p| && s[3 + |p|..] == b;
    TokensUnfold(s);
    CleanedAlike(a, s, b);
  }

  lemma {:induction false} ParametersEnd(p: seq<byte>, f: byte, b: seq<byte>)
    requires (forall i :: 0 <= i < |p| ==> !Final(p[i])) && Final(f)
    ensures ParameterCount(p + [f] + b) == |p|
  {
    var s := p + [f] + b;
    assert s[|p|] == f && forall i :: 0 <= i < |p| ==> s[i] == p[i];
  }

  /** A colour code the text breaks off in takes the rest of it. */
  lemma UnfinishedCodeIsSkipped(out: seq<byte>, a: seq<byte>, p: seq<byte>)
    requires |out| <= CAP && WellFormed(a)
    requires forall i :: 0 <= i < |p| ==> !(0x40 <= p[i] <= 0x7e)
    ensures Appended(out, a + ([ESC, BRACKET] + p)) == Appended(out, a)
  {
    var s := [ESC, BRACKET] + p;
    assert s[2..] == p;
    assert ParameterCount(p) == |p|;
    assert EscapeLen(s) == |s| && s[|s|..] == [];
    TokensUnfold(s);
    CleanedAlike(a, s, []);
    ConcatEmpty(a);
  }

  /** Any other escape octet, and a carriage return, is left out. */
  lemma EscapeAndReturnAreDropped(out: seq<byte>, a: seq<byte>, c: byte, b: seq<byte>)
    requires |out| <= CAP && WellFormed(a)
    requires c == CR || (c == ESC && (b == [] || b[0] != BRACKET))
    ensures Appended(out, a + ([c] + b)) == Appended(out, a + b)
  {
    var s := [c] + b;
    assert s[1..] == b;
    TokensUnfold(s);
    CleanedAlike(a, s, b);
  }

  /** Every other control octet becomes a space. */
  lemma ControlBecomesSpace(out: seq<byte>, a: seq<byte>, c: byte, b: seq<byte>)
    requires |out| <= CAP && WellFormed(a)
    requires (c < 0x20 && c != ESC && c != CR) || c == 0x7f
    ensures Appended(out, a + ([c] + b)) == Appended(out, a + ([SPACE] + b))
  {
    ReplacedBy(a, c, SPACE, b);
  }

  /** An octet that starts no character of RFC 3629 becomes a question mark. */
  lemma StrayOctetBecomesQuestion(out: seq<byte>, a: seq<byte>, c: byte, b: seq<byte>)
    requires |out| <= CAP && WellFormed(a)
    requires c >= 0x80 && NoCharacter([c] + b)
    ensures Appended(out, a + ([c] + b)) == Appended(out, a + ([QUESTION] + b))
  {
    ReplacedBy(a, c, QUESTION, b);
  }

  lemma ReplacedBy(a: seq<byte>, c: byte, shown: byte, b: seq<byte>)
    requires WellFormed(a) && SPACE <= shown < 0x7f && First([c] + b) == ([shown], 1)
    ensures Tokens(a + ([c] + b)) == Tokens(a + ([shown] + b))
  {
    assert ([c] + b)[1..] == b == ([shown] + b)[1..];
    TokensUnfold([c] + b);
    TokensUnfold([shown] + b);
    CleanedAlike(a, [c] + b, [shown] + b);
  }

  /** A character is kept whole, or the line ends before it. */
  lemma CharacterIsWhole(out: seq<byte>, c: seq<byte>, b: seq<byte>)
    requires |out| <= CAP && IsToken(c)
    ensures Appended(out, c + b) == if |out| + |c| <= CAP then Appended(out + c, b) else out
  {
    TokenWellFormed(c);
    var s := c + b;
    assert s[..|c|] == c && s[|c|..] == b;
    if c[0] >= 0x80 {
      CharLenComplete(s, |c|);
    } else {
      assert c == [c[0]];
    }
    assert First(s) == (c, |c|);
    ResumeStep(out, s, 0, c, |c|);
    assert s[0..] == s;
  }

  /** A line inside two colour codes is stored as its text. */
  lemma ColouredLineIsItsText(p: seq<byte>, f: byte, text: seq<byte>, q: seq<byte>, g: byte)
    requires WellFormed(text) && |text| <= CAP
    requires (forall i :: 0 <= i < |p| ==> !(0x40 <= p[i] <= 0x7e)) && 0x40 <= f <= 0x7e
    requires (forall i :: 0 <= i < |q| ==> !(0x40 <= q[i] <= 0x7e)) && 0x40 <= g <= 0x7e
    ensures Appended([], [ESC, BRACKET] + p + [f] + (text + ([ESC, BRACKET] + q + [g]))) == text
  {
    hide Appended, Final;
    var plain := [ESC, BRACKET] + q + [g];
    ColourCodeIsSkipped([], [], p, f, text + plain);
    ConcatEmpty([ESC, BRACKET] + p + [f] + (text + plain));
    ConcatEmpty(text + plain);
    ColourCodeIsSkipped([], text, q, g, []);
    ConcatEmpty(plain);
    ConcatEmpty(text);
    AppendedKeeps([], text);
  }

  /** The string held in a NUL-terminated buffer. */
  function Visible(buffer: seq<byte>): (r: seq<byte>)
    ensures r <= buffer
    ensures 0 !in r
    ensures |r| < |buffer| ==> buffer[|r|] == 0
  {
    if buffer == [] || buffer[0] == 0 then [] else [buffer[0]] + Visible(buffer[1..])
  }

  function Cut(s: seq<byte>): (r: seq<byte>)
    ensures |r| <= CAP && r <= s
    ensures |s| <= CAP ==> r == s
  {
    s[..Min(|s|, CAP)]
  }

  /** Cutting early or late gives the same line. */
  lemma CutAppend(a: seq<byte>, b: seq<byte>)
    ensures Cut(Cut(a) + b) == Cut(a + b)
  {
    if |a| > CAP {
      assert Cut(a + b) == a[..CAP] == Cut(a);
      assert Cut(Cut(a) + b) == Cut(a);
    }
  }
}
