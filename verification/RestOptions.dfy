/**
 * The options of a POST to the ephemeral-key resource
 * (`otbr_rest_parse_epskc_options`, main/otbr_rest_wire.h:119-221): a parser for one
 * small JSON object, proved against the grammar it accepts.
 */
module RestOptions {
  import opened Bytes
  import opened LogJson

  const COMMA: byte := 0x2c
  const COLON: byte := 0x3a
  const OPEN: byte := 0x7b
  const CLOSE: byte := 0x7d
  const MINUS: byte := 0x2d

  datatype Class = Space | Digit | KeyText

  /** isspace and isdigit of the C locale; a key runs to the next quote. */
  predicate Is(c: Class, b: byte) {
    match c
    case Space => b == 0x20 || 9 <= b <= 13
    case Digit => IsDigit(b)
    case KeyText => b != QUOTE
  }

  predicate All(c: Class, s: seq<byte>) { forall i :: 0 <= i < |s| ==> Is(c, s[i]) }

  predicate Stops(c: Class, s: seq<byte>) { s == [] || !Is(c, s[0]) }

  // ---------------- the grammar ----------------

  datatype Name = Lifetime | Port

  function Key(name: Name): seq<byte> {
    match name
    case Lifetime => Ascii("lifetime")
    case Port => Ascii("port")
  }

  /** One member: white space, the quoted name, a colon and a number, each with white space after it. */
  datatype Item = Item(lead: seq<byte>, name: Name, gap: seq<byte>, pad: seq<byte>, number: seq<byte>, tail: seq<byte>)

  /** A blank body, or an object. `inner` is the white space of an empty one. */
  datatype Body = Blank(lead: seq<byte>) | Object(lead: seq<byte>, items: seq<Item>, inner: seq<byte>, trail: seq<byte>)

  function Digits(number: seq<byte>): seq<byte> {
    if number != [] && number[0] == MINUS then number[1..] else number
  }

  /** An integer of section 6 of RFC 8259: no leading zero, no plus sign, no fraction. */
  predicate IsInteger(number: seq<byte>) {
    var d := Digits(number);
    d != [] && All(Digit, d) && (d[0] == 0x30 ==> |d| == 1)
  }

  function IntegerValue(number: seq<byte>): int
    requires All(Digit, Digits(number))
  {
    var d := Digits(number);
    assert forall i :: 0 <= i < |d| ==> Is(Digit, d[i]);
    var n: int := Number(d);
    if d == number then n else -n
  }

  /** `most` is LONG_MAX. */
  predicate Fits(number: seq<byte>, most: nat) {
    var limit: int := most;
    IsInteger(number) && -limit - 1 <= IntegerValue(number) <= limit
  }

  predicate ItemOk(it: Item, most: nat) {
    All(Space, it.lead) && All(Space, it.gap) && All(Space, it.pad) && All(Space, it.tail) && Fits(it.number, most)
  }

  predicate ItemsOk(items: seq<Item>, seen: set<Name>, most: nat) {
    items == [] || (ItemOk(items[0], most) && items[0].name !in seen
                    && ItemsOk(items[1..], seen + {items[0].name}, most))
  }

  predicate BodyOk(b: Body, most: nat) {
    All(Space, b.lead) && (b.Object? ==> All(Space, b.inner) && All(Space, b.trail) && ItemsOk(b.items, {}, most)
                                         && (b.items != [] ==> b.inner == []))
  }

  /** From after the name's closing quote on. */
  function PutValue(it: Item, rest: seq<byte>): seq<byte> {
    it.gap + ([COLON] + (it.pad + (it.number + (it.tail + rest))))
  }

  function Put(it: Item, rest: seq<byte>): seq<byte> {
    it.lead + ([QUOTE] + (Key(it.name) + ([QUOTE] + PutValue(it, rest))))
  }

  function PutItems(items: seq<Item>, rest: seq<byte>): seq<byte>
    requires items != []
  {
    Put(items[0], if |items| == 1 then [CLOSE] + rest else [COMMA] + PutItems(items[1..], rest))
  }

  function Written(b: Body): seq<byte> {
    match b
    case Blank(lead) => lead
    case Object(lead, items, inner, trail) =>
      lead + ([OPEN] + (if items == [] then inner + ([CLOSE] + trail) else PutItems(items, trail)))
  }

  /** The value the object gives the name, if it does. */
  function Given(items: seq<Item>, name: Name): Option<int> {
    if items == [] then None
    else if items[0].name == name && All(Digit, Digits(items[0].number)) then Some(IntegerValue(items[0].number))
    else Given(items[1..], name)
  }

  // ---------------- the parser ----------------

  function Span(c: Class, s: seq<byte>): (n: nat)
    ensures n <= |s|
  {
    if s == [] || !Is(c, s[0]) then 0 else 1 + Span(c, s[1..])
  }

  function Run(c: Class, s: seq<byte>): seq<byte> { s[..Span(c, s)] }

  function After(c: Class, s: seq<byte>): (r: seq<byte>)
    ensures |r| <= |s|
  {
    s[Span(c, s)..]
  }

  /** What follows the octet, if it comes next. */
  function Past(b: byte, s: seq<byte>): Option<seq<byte>> {
    if s != [] && s[0] == b then Some(s[1..]) else None
  }

  function NameOf(key: seq<byte>): Option<Name> {
    if key == Key(Lifetime) then Some(Lifetime) else if key == Key(Port) then Some(Port) else None
  }

  /** How long the integer in front is; zero when there is none. */
  function IntegerSpan(s: seq<byte>): (n: nat)
    ensures n <= |s|
  {
    var sign := if s != [] && s[0] == MINUS then 1 else 0;
    var d := Span(Digit, s[sign..]);
    if d == 0 || (s[sign] == 0x30 && d > 1) then 0 else sign + d
  }

  datatype Read = Read(item: Item, rest: seq<byte>)

  function ReadNumber(s: seq<byte>, lead: seq<byte>, name: Name, gap: seq<byte>, most: nat): (r: Option<Read>)
    ensures r.Some? ==> |r.value.rest| <= |s|
  {
    var t := After(Space, s);
    var n := IntegerSpan(t);
    if n == 0 || !Fits(t[..n], most) then None
    else Some(Read(Item(lead, name, gap, Run(Space, s), t[..n], Run(Space, t[n..])), After(Space, t[n..])))
  }

  function ReadColon(s: seq<byte>, lead: seq<byte>, name: Name, most: nat): (r: Option<Read>)
    ensures r.Some? ==> |r.value.rest| <= |s|
  {
    match Past(COLON, After(Space, s))
    case None => None
    case Some(t) => ReadNumber(t, lead, name, Run(Space, s), most)
  }

  function ReadKey(s: seq<byte>, lead: seq<byte>, most: nat): (r: Option<Read>)
    ensures r.Some? ==> |r.value.rest| <= |s|
  {
    match (NameOf(Run(KeyText, s)), Past(QUOTE, After(KeyText, s)))
    case (Some(name), Some(t)) => ReadColon(t, lead, name, most)
    case _ => None
  }

  function ReadItem(s: seq<byte>, most: nat): (r: Option<Read>)
    ensures r.Some? ==> |r.value.rest| < |s|
  {
    match Past(QUOTE, After(Space, s))
    case None => None
    case Some(t) => ReadKey(t, Run(Space, s), most)
  }

  datatype ReadList = ReadList(items: seq<Item>, rest: seq<byte>)

  function ReadItems(s: seq<byte>, seen: set<Name>, most: nat): Option<ReadList>
    decreases |s|
  {
    match ReadItem(s, most)
    case None => None
    case Some(r) =>
      if r.item.name in seen || r.rest == [] then None
      else if r.rest[0] == CLOSE then Some(ReadList([r.item], r.rest[1..]))
      else if r.rest[0] != COMMA then None
      else match ReadItems(r.rest[1..], seen + {r.item.name}, most)
        case None => None
        case Some(l) => Some(ReadList([r.item] + l.items, l.rest))
  }

  function Ended(lead: seq<byte>, items: seq<Item>, inner: seq<byte>, trail: seq<byte>): Option<Body> {
    if After(Space, trail) == [] then Some(Object(lead, items, inner, trail)) else None
  }

  function ReadObject(s: seq<byte>, lead: seq<byte>, most: nat): Option<Body> {
    match Past(CLOSE, After(Space, s))
    case Some(t) => Ended(lead, [], Run(Space, s), t)
    case None =>
      match ReadItems(s, {}, most)
      case None => None
      case Some(l) => Ended(lead, l.items, [], l.rest)
  }

  function ReadBody(s: seq<byte>, most: nat): Option<Body> {
    match Past(OPEN, After(Space, s))
    case Some(t) => ReadObject(t, Run(Space, s), most)
    case None => if After(Space, s) == [] then Some(Blank(s)) else None
  }

  // ---------------- the parser inverts the grammar ----------------

  lemma {:induction false} SpanOf(c: Class, a: seq<byte>, rest: seq<byte>)
    requires All(c, a) && Stops(c, rest)
    ensures Run(c, a + rest) == a && After(c, a + rest) == rest
    decreases |a|
  {
    if a == [] {
      ConcatEmpty(rest);
    } else {
      assert (a + rest)[1..] == a[1..] + rest && (a + rest)[0] == a[0];
      SpanOf(c, a[1..], rest);
      assert Span(c, a + rest) == |a|;
    }
  }

  lemma {:induction false} SpanIs(c: Class, s: seq<byte>)
    ensures s == Run(c, s) + After(c, s) && All(c, Run(c, s)) && Stops(c, After(c, s))
    decreases |s|
  {
    if s != [] && Is(c, s[0]) {
      SpanIs(c, s[1..]);
      assert Run(c, s) == [s[0]] + Run(c, s[1..]) && After(c, s) == After(c, s[1..]);
    }
  }

  lemma PastOf(b: byte, rest: seq<byte>)
    ensures Past(b, [b] + rest) == Some(rest)
  {
  }

  lemma PastIs(b: byte, s: seq<byte>)
    requires Past(b, s).Some?
    ensures s == [b] + Past(b, s).value
  {
  }

  lemma NameOfKey(name: Name)
    ensures NameOf(Key(name)) == Some(name) && All(KeyText, Key(name))
  {
  }

  lemma IntegerSpanOf(number: seq<byte>, rest: seq<byte>)
    requires IsInteger(number) && Stops(Digit, rest)
    ensures IntegerSpan(number + rest) == |number|
  {
    var d := Digits(number);
    SpanOf(Digit, d, rest);
    var sign := |number| - |d|;
    DropConcat(number, rest, sign);
    assert number[sign..] == d;
    assert Span(Digit, d + rest) == |Run(Digit, d + rest)|;
    hide Span, Run, After, All;
  }

  /** What may follow a member. */
  predicate Follows(rest: seq<byte>) { rest != [] && (rest[0] == COMMA || rest[0] == CLOSE) }

  lemma SpaceThen(tail: seq<byte>, rest: seq<byte>)
    requires All(Space, tail) && Follows(rest)
    ensures Stops(Digit, tail + rest) && Stops(Space, rest)
  {
  }

  lemma ReadNumberOf(it: Item, rest: seq<byte>, most: nat)
    requires ItemOk(it, most) && Follows(rest)
    ensures ReadNumber(it.pad + (it.number + (it.tail + rest)), it.lead, it.name, it.gap, most) == Some(Read(it, rest))
  {
    var after := it.tail + rest;
    var t := it.number + after;
    SpaceThen(it.tail, rest);
    assert Stops(Space, t);
    SpanOf(Space, it.pad, t);
    IntegerSpanOf(it.number, after);
    assert t[..|it.number|] == it.number && t[|it.number|..] == after;
    SpanOf(Space, it.tail, rest);
    hide After, Run, IntegerSpan, Span, IsInteger;
    assert |it.number| > 0 by { NotEmpty(it.number, most); }
  }

  lemma NotEmpty(number: seq<byte>, most: nat)
    requires Fits(number, most)
    ensures |number| > 0
  {
  }

  lemma ReadColonOf(it: Item, rest: seq<byte>, most: nat)
    requires ItemOk(it, most) && Follows(rest)
    ensures ReadColon(PutValue(it, rest), it.lead, it.name, most) == Some(Read(it, rest))
  {
    var t := it.pad + (it.number + (it.tail + rest));
    SpanOf(Space, it.gap, [COLON] + t);
    PastOf(COLON, t);
    ReadNumberOf(it, rest, most);
    hide After, Run, Past, ReadNumber, Fits;
  }

  lemma ReadKeyOf(it: Item, rest: seq<byte>, most: nat)
    requires ItemOk(it, most) && Follows(rest)
    ensures ReadKey(Key(it.name) + ([QUOTE] + PutValue(it, rest)), it.lead, most) == Some(Read(it, rest))
  {
    var t := PutValue(it, rest);
    NameOfKey(it.name);
    SpanOf(KeyText, Key(it.name), [QUOTE] + t);
    PastOf(QUOTE, t);
    hide After, Run, Past, Key, NameOf, ReadColon, PutValue, ItemOk, Follows;
    ReadColonOf(it, rest, most);
  }

  lemma ReadItemOf(it: Item, rest: seq<byte>, most: nat)
    requires ItemOk(it, most) && Follows(rest)
    ensures ReadItem(Put(it, rest), most) == Some(Read(it, rest))
  {
    var t := Key(it.name) + ([QUOTE] + PutValue(it, rest));
    SpanOf(Space, it.lead, [QUOTE] + t);
    PastOf(QUOTE, t);
    hide After, Run, Past, Key, ReadKey, PutValue, Fits;
    ReadKeyOf(it, rest, most);
  }

  lemma ReadNumberIs(s: seq<byte>, lead: seq<byte>, name: Name, gap: seq<byte>, most: nat)
    requires ReadNumber(s, lead, name, gap, most).Some?
    ensures var r := ReadNumber(s, lead, name, gap, most).value;
            && r.item.lead == lead && r.item.name == name && r.item.gap == gap
            && All(Space, r.item.pad) && All(Space, r.item.tail) && Fits(r.item.number, most)
            && s == r.item.pad + (r.item.number + (r.item.tail + r.rest)) && Stops(Space, r.rest)
  {
    SpanIs(Space, s);
    var t := After(Space, s);
    var n := IntegerSpan(t);
    SpanIs(Space, t[n..]);
    SplitAt(t, n);
  }

  predicate SpacesOk(it: Item, most: nat) {
    All(Space, it.gap) && All(Space, it.pad) && All(Space, it.tail) && Fits(it.number, most)
  }

  lemma ReadColonIs(s: seq<byte>, lead: seq<byte>, name: Name, most: nat)
    requires ReadColon(s, lead, name, most).Some?
    ensures var r := ReadColon(s, lead, name, most).value;
            && r.item.lead == lead && r.item.name == name && SpacesOk(r.item, most)
            && s == PutValue(r.item, r.rest) && Stops(Space, r.rest)
  {
    SpanIs(Space, s);
    PastIs(COLON, After(Space, s));
    var t := Past(COLON, After(Space, s)).value;
    hide After, Run, Past, ReadNumber, Fits, All, Stops;
    ReadNumberIs(t, lead, name, Run(Space, s), most);
  }

  lemma ReadKeyIs(s: seq<byte>, lead: seq<byte>, most: nat)
    requires ReadKey(s, lead, most).Some?
    ensures var r := ReadKey(s, lead, most).value;
            && r.item.lead == lead && SpacesOk(r.item, most) && Stops(Space, r.rest)
            && s == Key(r.item.name) + ([QUOTE] + PutValue(r.item, r.rest))
  {
    SpanIs(KeyText, s);
    PastIs(QUOTE, After(KeyText, s));
    var t := Past(QUOTE, After(KeyText, s)).value;
    var name := NameOf(Run(KeyText, s)).value;
    assert Run(KeyText, s) == Key(name);
    hide After, Run, Past, Key, NameOf, ReadColon, PutValue, SpacesOk, Stops, All;
    ReadColonIs(t, lead, name, most);
  }

  lemma ReadItemIs(s: seq<byte>, most: nat)
    requires ReadItem(s, most).Some?
    ensures var r := ReadItem(s, most).value;
            ItemOk(r.item, most) && s == Put(r.item, r.rest) && Stops(Space, r.rest)
  {
    SpanIs(Space, s);
    PastIs(QUOTE, After(Space, s));
    var t := Past(QUOTE, After(Space, s)).value;
    hide After, Run, Past, Key, ReadKey, Fits, Stops, All;
    ReadKeyIs(t, Run(Space, s), most);
  }

  lemma {:induction false} ReadItemsOf(items: seq<Item>, seen: set<Name>, rest: seq<byte>, most: nat)
    requires items != [] && ItemsOk(items, seen, most)
    ensures ReadItems(PutItems(items, rest), seen, most) == Some(ReadList(items, rest))
    decreases |items|
  {
    hide Put, ReadItem, ItemOk;
    if |items| == 1 {
      ReadItemOf(items[0], [CLOSE] + rest, most);
      assert items == [items[0]] && ([CLOSE] + rest)[1..] == rest;
    } else {
      var more := PutItems(items[1..], rest);
      ReadItemOf(items[0], [COMMA] + more, most);
      ReadItemsOf(items[1..], seen + {items[0].name}, rest, most);
      assert items == [items[0]] + items[1..] && ([COMMA] + more)[1..] == more;
    }
  }

  lemma {:induction false} ReadItemsIs(s: seq<byte>, seen: set<Name>, most: nat)
    requires ReadItems(s, seen, most).Some?
    ensures var l := ReadItems(s, seen, most).value;
            l.items != [] && ItemsOk(l.items, seen, most) && s == PutItems(l.items, l.rest)
    decreases |s|
  {
    hide Put, ReadItem, ItemOk;
    ReadItemIs(s, most);
    var r := ReadItem(s, most).value;
    if r.rest[0] == CLOSE {
      assert r.rest == [CLOSE] + r.rest[1..];
    } else {
      ReadItemsIs(r.rest[1..], seen + {r.item.name}, most);
      var l := ReadItems(r.rest[1..], seen + {r.item.name}, most).value;
      assert ([r.item] + l.items)[1..] == l.items;
      assert r.rest == [COMMA] + r.rest[1..];
    }
  }

  lemma ItemsStart(items: seq<Item>, rest: seq<byte>, most: nat)
    requires items != [] && ItemOk(items[0], most)
    ensures Past(CLOSE, After(Space, PutItems(items, rest))) == None
  {
    var it := items[0];
    var more := if |items| == 1 then [CLOSE] + rest else [COMMA] + PutItems(items[1..], rest);
    SpanOf(Space, it.lead, [QUOTE] + (Key(it.name) + ([QUOTE] + PutValue(it, more))));
    hide After, Fits, Key, PutValue;
  }

  lemma BlankRuns(s: seq<byte>)
    ensures After(Space, s) == [] <==> All(Space, s)
  {
    if All(Space, s) {
      SpanOf(Space, s, []);
      ConcatEmpty(s);
    } else {
      SpanIs(Space, s);
      ConcatEmpty(Run(Space, s));
    }
  }

  lemma ReadObjectOf(b: Body, most: nat)
    requires b.Object? && BodyOk(b, most)
    ensures var t := if b.items == [] then b.inner + ([CLOSE] + b.trail) else PutItems(b.items, b.trail);
            ReadObject(t, b.lead, most) == Some(b)
  {
    BlankRuns(b.trail);
    if b.items == [] {
      SpanOf(Space, b.inner, [CLOSE] + b.trail);
      PastOf(CLOSE, b.trail);
      hide After, Run, Past;
    } else {
      ItemsStart(b.items, b.trail, most);
      ReadItemsOf(b.items, {}, b.trail, most);
      hide After, Run, Past, ReadItems, PutItems;
    }
  }

  lemma ReadObjectIs(s: seq<byte>, lead: seq<byte>, most: nat)
    requires ReadObject(s, lead, most).Some? && All(Space, lead)
    ensures var b := ReadObject(s, lead, most).value;
            && b.Object? && BodyOk(b, most) && b.lead == lead
            && s == if b.items == [] then b.inner + ([CLOSE] + b.trail) else PutItems(b.items, b.trail)
  {
    var t := Past(CLOSE, After(Space, s));
    if t.Some? {
      SpanIs(Space, s);
      PastIs(CLOSE, After(Space, s));
      BlankRuns(t.value);
      hide After, Run, Past;
    } else {
      ReadItemsIs(s, {}, most);
      BlankRuns(ReadItems(s, {}, most).value.rest);
      hide After, Run, Past, ReadItems, PutItems;
    }
  }

  /** The parser inverts the grammar: it reads a body to a tree exactly when that tree is written so. */
  lemma ParserIsGrammar(s: seq<byte>, b: Body, most: nat)
    ensures ReadBody(s, most) == Some(b) <==> BodyOk(b, most) && Written(b) == s
  {
    if BodyOk(b, most) && Written(b) == s {
      if b.Blank? {
        BlankRuns(s);
        hide After;
      } else {
        var t := if b.items == [] then b.inner + ([CLOSE] + b.trail) else PutItems(b.items, b.trail);
        SpanOf(Space, b.lead, [OPEN] + t);
        PastOf(OPEN, t);
        ReadObjectOf(b, most);
        hide After, Run, Past, PutItems, ReadObject;
      }
    }
    if ReadBody(s, most) == Some(b) {
      var t := Past(OPEN, After(Space, s));
      if t.Some? {
        SpanIs(Space, s);
        PastIs(OPEN, After(Space, s));
        ReadObjectIs(t.value, Run(Space, s), most);
        hide After, Run, Past, PutItems, ReadObject;
      } else {
        BlankRuns(s);
        hide After;
      }
    }
  }

  // ---------------- which of it is JSON ----------------

  const VERTICAL_TAB: byte := 0x0b
  const FORM_FEED: byte := 0x0c

  /** White space of section 2 of RFC 8259. */
  predicate JsonSpace(s: seq<byte>) {
    forall i :: 0 <= i < |s| ==> s[i] == 0x20 || s[i] == 0x09 || s[i] == 0x0a || s[i] == 0x0d
  }

  predicate ItemStrict(it: Item) {
    JsonSpace(it.lead) && JsonSpace(it.gap) && JsonSpace(it.pad) && JsonSpace(it.tail)
  }

  predicate ItemsStrict(items: seq<Item>) {
    items == [] || (ItemStrict(items[0]) && ItemsStrict(items[1..]))
  }

  predicate Strict(b: Body) {
    b.Object? && JsonSpace(b.lead) && JsonSpace(b.inner) && JsonSpace(b.trail) && ItemsStrict(b.items)
  }

  /** An object of RFC 8259 with at most one lifetime and one port, each an integer that fits. */
  ghost predicate JsonObject(s: seq<byte>, most: nat) {
    exists b :: BodyOk(b, most) && Strict(b) && Written(b) == s
  }

  predicate NoFeeds(s: seq<byte>) { VERTICAL_TAB !in s && FORM_FEED !in s }

  lemma NoFeedsConcat(a: seq<byte>, b: seq<byte>)
    ensures NoFeeds(a + b) <==> NoFeeds(a) && NoFeeds(b)
  {
  }

  lemma SpaceIsStrict(s: seq<byte>)
    requires All(Space, s)
    ensures JsonSpace(s) <==> NoFeeds(s)
  {
    if NoFeeds(s) {
      forall i | 0 <= i < |s| ensures s[i] == 0x20 || s[i] == 0x09 || s[i] == 0x0a || s[i] == 0x0d {
        assert Is(Space, s[i]) && s[i] in s;
      }
    }
  }

  lemma FixedHasNoFeeds(name: Name, number: seq<byte>, most: nat)
    requires Fits(number, most)
    ensures NoFeeds([QUOTE]) && NoFeeds([COLON]) && NoFeeds([COMMA]) && NoFeeds([OPEN]) && NoFeeds([CLOSE])
    ensures NoFeeds(Key(name)) && NoFeeds(number)
  {
    var d := Digits(number);
    forall i | 0 <= i < |d| ensures d[i] != VERTICAL_TAB && d[i] != FORM_FEED {
      assert Is(Digit, d[i]);
    }
    assert number == d || number == [MINUS] + d;
  }

  lemma PutValueFeeds(it: Item, rest: seq<byte>, most: nat)
    requires ItemOk(it, most)
    ensures NoFeeds(PutValue(it, rest)) <==>
              JsonSpace(it.gap) && JsonSpace(it.pad) && JsonSpace(it.tail) && NoFeeds(rest)
  {
    SpaceIsStrict(it.gap);
    SpaceIsStrict(it.pad);
    SpaceIsStrict(it.tail);
    FixedHasNoFeeds(it.name, it.number, most);
    hide NoFeeds, JsonSpace, All, Fits, Key;
    NoFeedsConcat(it.gap, [COLON] + (it.pad + (it.number + (it.tail + rest))));
    NoFeedsConcat([COLON], it.pad + (it.number + (it.tail + rest)));
    NoFeedsConcat(it.pad, it.number + (it.tail + rest));
    NoFeedsConcat(it.number, it.tail + rest);
    NoFeedsConcat(it.tail, rest);
  }

  lemma PutFeeds(it: Item, rest: seq<byte>, most: nat)
    requires ItemOk(it, most)
    ensures NoFeeds(Put(it, rest)) <==> ItemStrict(it) && NoFeeds(rest)
  {
    SpaceIsStrict(it.lead);
    PutValueFeeds(it, rest, most);
    FixedHasNoFeeds(it.name, it.number, most);
    hide NoFeeds, JsonSpace, All, Fits, Key, PutValue;
    var v := PutValue(it, rest);
    NoFeedsConcat(it.lead, [QUOTE] + (Key(it.name) + ([QUOTE] + v)));
    NoFeedsConcat([QUOTE], Key(it.name) + ([QUOTE] + v));
    NoFeedsConcat(Key(it.name), [QUOTE] + v);
    NoFeedsConcat([QUOTE], v);
  }

  lemma {:induction false} PutItemsFeeds(items: seq<Item>, seen: set<Name>, rest: seq<byte>, most: nat)
    requires items != [] && ItemsOk(items, seen, most)
    ensures NoFeeds(PutItems(items, rest)) <==> ItemsStrict(items) && NoFeeds(rest)
    decreases |items|
  {
    FixedHasNoFeeds(Port, items[0].number, most);
    hide NoFeeds, ItemStrict, Put, Fits;
    if |items| == 1 {
      assert items[1..] == [];
      PutFeeds(items[0], [CLOSE] + rest, most);
      NoFeedsConcat([CLOSE], rest);
    } else {
      var more := PutItems(items[1..], rest);
      PutItemsFeeds(items[1..], seen + {items[0].name}, rest, most);
      PutFeeds(items[0], [COMMA] + more, most);
      NoFeedsConcat([COMMA], more);
    }
  }

  lemma WrittenFeeds(b: Body, most: nat)
    requires BodyOk(b, most) && b.Object?
    ensures Strict(b) <==> NoFeeds(Written(b))
  {
    SpaceIsStrict(b.lead);
    SpaceIsStrict(b.inner);
    SpaceIsStrict(b.trail);
    assert NoFeeds([OPEN]) && NoFeeds([CLOSE]) && JsonSpace([]);
    hide NoFeeds, JsonSpace, All;
    var t := if b.items == [] then b.inner + ([CLOSE] + b.trail) else PutItems(b.items, b.trail);
    NoFeedsConcat(b.lead, [OPEN] + t);
    NoFeedsConcat([OPEN], t);
    if b.items == [] {
      NoFeedsConcat(b.inner, [CLOSE] + b.trail);
      NoFeedsConcat([CLOSE], b.trail);
    } else {
      PutItemsFeeds(b.items, {}, b.trail, most);
      assert b.inner == [];
    }
  }

  /**
   * An accepted object is one of RFC 8259 if and only if it holds no vertical tab and no
   * form feed: isspace takes those two for white space, the standard does not.
   */
  lemma AcceptedIsJson(s: seq<byte>, most: nat)
    requires ReadBody(s, most).Some? && ReadBody(s, most).value.Object?
    ensures JsonObject(s, most) <==> NoFeeds(s)
  {
    var b := ReadBody(s, most).value;
    ParserIsGrammar(s, b, most);
    WrittenFeeds(b, most);
    hide Strict, Written, BodyOk, ReadBody, NoFeeds;
    if JsonObject(s, most) {
      var b2 :| BodyOk(b2, most) && Strict(b2) && Written(b2) == s;
      ParserIsGrammar(s, b2, most);
      assert b2 == b;
    }
  }

  /** And every such object is accepted. */
  lemma JsonIsAccepted(s: seq<byte>, most: nat)
    requires JsonObject(s, most)
    ensures ReadBody(s, most).Some? && ReadBody(s, most).value.Object?
  {
    hide Written, BodyOk, ReadBody, Strict;
    var b :| BodyOk(b, most) && Strict(b) && Written(b) == s;
    ParserIsGrammar(s, b, most);
    assert b.Object? by { StrictIsObject(b); }
  }

  lemma StrictIsObject(b: Body)
    requires Strict(b)
    ensures b.Object?
  {
  }

  /** Three octets that are accepted and are not JSON. */
  lemma VerticalTabIsAccepted(most: nat)
    ensures var s := [OPEN, VERTICAL_TAB, CLOSE];
            ReadBody(s, most).Some? && ReadBody(s, most).value.Object? && !JsonObject(s, most)
  {
    var s, b := [OPEN, VERTICAL_TAB, CLOSE], Object([], [], [VERTICAL_TAB], []);
    assert Written(b) == s && BodyOk(b, most);
    ParserIsGrammar(s, b, most);
    AcceptedIsJson(s, most);
    assert VERTICAL_TAB in s;
  }

  lemma NoneSkipped(c: Class, b: byte, rest: seq<byte>)
    requires !Is(c, b)
    ensures Run(c, [b] + rest) == [] && After(c, [b] + rest) == [b] + rest
  {
    SpanOf(c, [], [b] + rest);
    ConcatEmpty([b] + rest);
  }

  lemma OtherNameIsNoItem(name: seq<byte>, rest: seq<byte>, most: nat)
    requires All(KeyText, name) && NameOf(name) == None
    ensures ReadItem([QUOTE] + (name + ([QUOTE] + rest)), most) == None
  {
    var t := name + ([QUOTE] + rest);
    NoneSkipped(Space, QUOTE, t);
    PastOf(QUOTE, t);
    SpanOf(KeyText, name, [QUOTE] + rest);
    hide After, Run, NameOf, Past, All;
  }

  lemma NoItemNoBody(t: seq<byte>, most: nat)
    requires ReadItem([QUOTE] + t, most) == None
    ensures ReadBody([OPEN] + ([QUOTE] + t), most) == None
  {
    NoneSkipped(Space, OPEN, [QUOTE] + t);
    NoneSkipped(Space, QUOTE, t);
    PastOf(OPEN, [QUOTE] + t);
    assert Past(CLOSE, [QUOTE] + t) == None;
    assert ReadItems([QUOTE] + t, {}, most) == None;
    hide After, Run, Past, ReadItem, ReadItems;
  }

  /** A first name not written octet for octet, so any written with escapes, is refused. */
  lemma OtherNamesAreRefused(name: seq<byte>, rest: seq<byte>, most: nat)
    requires All(KeyText, name) && NameOf(name) == None
    ensures ReadBody([OPEN] + ([QUOTE] + (name + ([QUOTE] + rest))), most) == None
  {
    OtherNameIsNoItem(name, rest, most);
    NoItemNoBody(name + ([QUOTE] + rest), most);
  }

  /** An object naming a port by an escape: JSON, and refused. */
  lemma EscapedNameIsRefused(most: nat)
    ensures ReadBody([OPEN] + ([QUOTE] + (Ascii("p\\u006frt") + ([QUOTE] + Ascii(":1}")))), most) == None
  {
    var name := Ascii("p\\u006frt");
    assert |name| == 9 && All(KeyText, name) && NameOf(name) == None by {
      assert name[1] == 0x5c && Key(Port)[1] == 0x6f && |Key(Lifetime)| == 8 && |Key(Port)| == 4;
    }
    OtherNamesAreRefused(name, Ascii(":1}"), most);
  }

  // ---------------- the names and numbers, octet by octet ----------------

  function Plain(name: Name, number: seq<byte>): Item { Item([], name, [], [], number, []) }

  lemma PlainIsPut(name: Name, number: seq<byte>, rest: seq<byte>)
    ensures Put(Plain(name, number), rest) == [QUOTE] + Key(name) + [QUOTE, COLON] + (number + rest)
  {
    var t := number + rest;
    ConcatEmpty(rest);
    ConcatEmpty(t);
    assert PutValue(Plain(name, number), rest) == [COLON] + t;
    ConcatEmpty([QUOTE] + (Key(name) + ([QUOTE] + ([COLON] + t))));
    ConcatAssoc([QUOTE], [COLON], t);
    ConcatAssoc([QUOTE], Key(name), [QUOTE, COLON] + t);
    ConcatAssoc([QUOTE] + Key(name), [QUOTE, COLON], t);
  }

  lemma Spelled()
    ensures [OPEN] + ([QUOTE] + Key(Lifetime) + [QUOTE, COLON]) == Ascii("{\"lifetime\":")
    ensures [COMMA] + ([QUOTE] + Key(Port) + [QUOTE, COLON]) == Ascii(",\"port\":")
    ensures [CLOSE] == Ascii("}")
  {
  }

  /** The text is an object that gives the fields these values. */
  predicate Asks(s: seq<byte>, most: nat, lifetime: int, port: int) {
    var b := ReadBody(s, most);
    && b.Some? && b.value.Object?
    && Given(b.value.items, Lifetime) == Some(lifetime) && Given(b.value.items, Port) == Some(port)
  }

  /** An object that gives both, written out: each field gets the number behind its own name. */
  lemma BothAreRead(lifetime: seq<byte>, port: seq<byte>, most: nat)
    requires Fits(lifetime, most) && Fits(port, most)
    ensures var s := Ascii("{\"lifetime\":") + (lifetime + (Ascii(",\"port\":") + (port + Ascii("}"))));
            Asks(s, most, IntegerValue(lifetime), IntegerValue(port))
  {
    var b := Object([], [Plain(Lifetime, lifetime), Plain(Port, port)], [], []);
    BothAreWritten(lifetime, port);
    BothAreOk(lifetime, port, most);
    BothAreGiven(lifetime, port, most);
    hide Fits, BodyOk, Given, IntegerValue, Ascii, Written, ReadBody;
    ParserIsGrammar(Written(b), b, most);
  }

  lemma BothAreOk(lifetime: seq<byte>, port: seq<byte>, most: nat)
    requires Fits(lifetime, most) && Fits(port, most)
    ensures BodyOk(Object([], [Plain(Lifetime, lifetime), Plain(Port, port)], [], []), most)
  {
    var items := [Plain(Lifetime, lifetime), Plain(Port, port)];
    hide Fits;
    assert items[1..] == [Plain(Port, port)] && items[1..][1..] == [];
    assert ItemsOk(items[1..][1..], {Lifetime} + {Port}, most);
    assert {} + {Lifetime} == {Lifetime};
    assert ItemsOk(items[1..], {Lifetime}, most);
  }

  lemma BothAreGiven(lifetime: seq<byte>, port: seq<byte>, most: nat)
    requires Fits(lifetime, most) && Fits(port, most)
    ensures var items := [Plain(Lifetime, lifetime), Plain(Port, port)];
            && Given(items, Lifetime) == Some(IntegerValue(lifetime)) && Given(items, Port) == Some(IntegerValue(port))
  {
    var items := [Plain(Lifetime, lifetime), Plain(Port, port)];
    assert items[1..] == [Plain(Port, port)];
  }

  lemma BothAreWritten(lifetime: seq<byte>, port: seq<byte>)
    ensures Written(Object([], [Plain(Lifetime, lifetime), Plain(Port, port)], [], []))
         == Ascii("{\"lifetime\":") + (lifetime + (Ascii(",\"port\":") + (port + Ascii("}"))))
  {
    var items := [Plain(Lifetime, lifetime), Plain(Port, port)];
    assert items[1..] == [Plain(Port, port)];
    Spelled();
    hide Key, Ascii;
    var last := Put(Plain(Port, port), [CLOSE]);
    ConcatEmpty([CLOSE]);
    assert PutItems(items[1..], []) == last;
    PlainIsPut(Port, port, [CLOSE]);
    PlainIsPut(Lifetime, lifetime, [COMMA] + last);
    hide Put;
    ConcatAssoc([COMMA], [QUOTE] + Key(Port) + [QUOTE, COLON], port + [CLOSE]);
    ConcatAssoc([OPEN], [QUOTE] + Key(Lifetime) + [QUOTE, COLON], lifetime + ([COMMA] + last));
    ConcatEmpty([OPEN] + PutItems(items, []));
  }

  /** So {"lifetime":-5,"port":49152} asks for exactly that. */
  lemma OptionsAreRead(most: nat)
    requires most >= 49152
    ensures var s := Ascii("{\"lifetime\":") + (Ascii("-5") + (Ascii(",\"port\":") + (Ascii("49152") + Ascii("}"))));
            Asks(s, most, -5, 49152)
  {
    LiteralNumbers(most);
    hide Fits, IntegerValue, Ascii, Asks;
    BothAreRead(Ascii("-5"), Ascii("49152"), most);
  }

  lemma NumberSnoc(digits: seq<byte>, d: byte)
    requires (forall i :: 0 <= i < |digits| ==> IsDigit(digits[i])) && 0x30 <= d <= 0x39
    ensures Number(digits + [d]) == Number(digits) * 10 + (d - 0x30)
  {
    assert (digits + [d])[..|digits|] == digits;
  }

  lemma LiteralNumbers(most: nat)
    requires most >= 49152
    ensures Fits(Ascii("-5"), most) && IntegerValue(Ascii("-5")) == -5
    ensures Fits(Ascii("49152"), most) && IntegerValue(Ascii("49152")) == 49152
  {
    var m, n := Ascii("-5"), Ascii("49152");
    assert m == [MINUS, 0x35] && Digits(m) == [0x35] && n == [0x34, 0x39, 0x31, 0x35, 0x32] && Digits(n) == n;
    assert All(Digit, [0x35]) && All(Digit, n);
    Five();
    PortNumber();
    hide Number, Ascii, Digits;
  }

  lemma Five()
    ensures Number([0x35]) == 5
  {
    NumberSnoc([], 0x35);
    ConcatEmpty([0x35]);
  }

  lemma PortNumber()
    ensures Number([0x34, 0x39, 0x31, 0x35, 0x32]) == 49152
  {
    assert Number([0x34]) == 4 by {
      NumberSnoc([], 0x34);
      ConcatEmpty([0x34]);
    }
    assert Number([0x34, 0x39, 0x31]) == 491 by {
      NumberSnoc([0x34], 0x39);
      NumberSnoc([0x34, 0x39], 0x31);
      assert [0x34] + [0x39] == [0x34, 0x39] && [0x34, 0x39] + [0x31] == [0x34, 0x39, 0x31];
    }
    hide Number;
    NumberSnoc([0x34, 0x39, 0x31], 0x35);
    NumberSnoc([0x34, 0x39, 0x31, 0x35], 0x32);
    assert [0x34, 0x39, 0x31] + [0x35] == [0x34, 0x39, 0x31, 0x35];
    assert [0x34, 0x39, 0x31, 0x35] + [0x32] == [0x34, 0x39, 0x31, 0x35, 0x32];
  }

  /** A body of one octet that is not an object is accepted exactly for the white space of isspace. */
  lemma BlankOctets(b: byte, most: nat)
    requires b != OPEN
    ensures ReadBody([b], most).Some? <==> b in {9, 10, 11, 12, 13, 32}
  {
    if b in {9, 10, 11, 12, 13, 32} {
      assert All(Space, [b]) && Written(Blank([b])) == [b];
      hide ReadBody;
      ParserIsGrammar([b], Blank([b]), most);
    } else {
      assert !Is(Space, b);
      NoneSkipped(Space, b, []);
      ConcatEmpty([b]);
      hide Run, After, ReadObject;
    }
  }

  lemma {:induction false} DecimalIsInteger(n: nat)
    ensures IsInteger(Decimal(n)) && IntegerValue(Decimal(n)) == n && Decimal(n)[0] != MINUS
    ensures (Decimal(n)[0] == 0x30 <==> n == 0) && (n == 0 ==> |Decimal(n)| == 1)
  {
    NumberDecimal(n);
    DecimalStarts(n);
  }

  lemma {:induction false} DecimalStarts(n: nat)
    ensures Decimal(n)[0] == 0x30 <==> n == 0
    ensures n == 0 ==> Decimal(n) == [0x30]
  {
    if n >= 10 {
      DecimalStarts(n / 10);
      assert Decimal(n)[0] == Decimal(n / 10)[0];
    }
  }

  /** A decimal is taken up to LONG_MAX, and with a minus down to LONG_MIN. */
  lemma LongsFit(n: nat, most: nat)
    ensures Fits(Decimal(n), most) <==> n <= most
    ensures Fits([MINUS] + Decimal(n), most) <==> n <= most + 1
    ensures IntegerValue(Decimal(n)) == n
  {
    DecimalIsInteger(n);
    NumberDecimal(n);
    var m := [MINUS] + Decimal(n);
    assert m[1..] == Decimal(n);
    assert Digits(m) == Decimal(n) && m != Decimal(n);
    hide Decimal, Number;
  }

  // ---------------- the loops ----------------

  method SkipWhile(c: Class, body: seq<byte>, p: nat) returns (q: nat)
    requires p <= |body|
    ensures p <= q <= |body| && q == p + Span(c, body[p..])
    ensures body[p..q] == Run(c, body[p..]) && body[q..] == After(c, body[p..])
  {
    q := p;
    while q < |body| && Is(c, body[q])
      invariant p <= q <= |body|
      invariant q + Span(c, body[q..]) == p + Span(c, body[p..])
    {
      assert body[q..][1..] == body[q + 1..];
      q := q + 1;
    }
  }

  /** Past the integer at `p`, or `p` itself when there is none. */
  method IntegerEnd(body: seq<byte>, p: nat) returns (end: nat)
    requires p <= |body|
    ensures end == p + IntegerSpan(body[p..])
  {
    hide Span, Run, After;
    var q := p;
    ghost var s := body[p..];
    assert p < |body| ==> s[0] == body[p];
    if q < |body| && body[q] == MINUS {
      q := q + 1;
    }
    end := SkipWhile(Digit, body, q);
    assert s[q - p..] == body[q..] && (q < |body| ==> s[q - p] == body[q]);
    if end == q || (body[q] == 0x30 && end > q + 1) {
      end := p;
    }
  }

  function GivenOr(items: seq<Item>, name: Name, otherwise: int): int {
    match Given(items, name)
    case None => otherwise
    case Some(v) => v
  }

  function Names(items: seq<Item>): set<Name> {
    if items == [] then {} else Names(items[..|items| - 1]) + {items[|items| - 1].name}
  }

  predicate Numbered(items: seq<Item>) { forall i :: 0 <= i < |items| ==> All(Digit, Digits(items[i].number)) }

  lemma {:induction false} GivenSnoc(items: seq<Item>, it: Item, name: Name)
    requires Numbered(items) && All(Digit, Digits(it.number))
    ensures Given(items + [it], name)
         == if Given(items, name).Some? then Given(items, name)
            else if it.name == name then Some(IntegerValue(it.number)) else None
    decreases |items|
  {
    hide All, IntegerValue;
    if items == [] {
      assert (items + [it])[1..] == [] && (items + [it])[0] == it;
    } else {
      assert (items + [it])[1..] == items[1..] + [it];
      GivenSnoc(items[1..], it, name);
    }
  }

  lemma {:induction false} GivenIsNamed(items: seq<Item>, name: Name)
    requires Numbered(items)
    ensures Given(items, name).Some? <==> name in Names(items)
    decreases |items|
  {
    hide All, IntegerValue;
    if items != [] {
      var last := |items| - 1;
      assert items == items[..last] + [items[last]];
      GivenIsNamed(items[..last], name);
      GivenSnoc(items[..last], items[last], name);
    }
  }

  lemma NamesSnoc(items: seq<Item>, it: Item)
    ensures Names(items + [it]) == Names(items) + {it.name}
  {
    assert (items + [it])[..|items|] == items;
  }

  /** One member, from `p`, its leading white space ending at `q`. */
  method ReadMember(body: seq<byte>, p: nat, q: nat, most: nat)
    returns (ok: bool, name: Name, value: int, after: nat)
    requires p <= q <= |body| && body[p..q] == Run(Space, body[p..]) && body[q..] == After(Space, body[p..])
    ensures ok <==> ReadItem(body[p..], most).Some?
    ensures ok ==> var r := ReadItem(body[p..], most).value;
                   && p < after <= |body| && r.rest == body[after..] && r.item.name == name
                   && All(Digit, Digits(r.item.number)) && value == IntegerValue(r.item.number)
  {
    hide After, Run, Key, ReadColon;
    name, value, after := Port, 0, p;
    if q == |body| || body[q] != QUOTE {
      return false, name, value, after;
    }
    var key := q + 1;
    assert Past(QUOTE, body[q..]) == Some(body[key..]);
    var quote := SkipWhile(KeyText, body, key);
    if quote == |body| {
      return false, name, value, after;
    }
    KeyEnds(body[key..]);
    assert Past(QUOTE, body[quote..]) == Some(body[quote + 1..]);
    var named := NameOf(body[key..quote]);
    if named == None {
      return false, name, value, after;
    }
    name := named.value;
    ok, value, after := ReadValue(body, quote + 1, body[p..q], name, most);
  }

  lemma KeyEnds(s: seq<byte>)
    requires After(KeyText, s) != []
    ensures After(KeyText, s)[0] == QUOTE
  {
    SpanIs(KeyText, s);
  }

  /** The colon and the number after a name, and the white space around them. */
  method ReadValue(body: seq<byte>, p: nat, ghost lead: seq<byte>, ghost name: Name, most: nat)
    returns (ok: bool, value: int, after: nat)
    requires p <= |body|
    ensures ok <==> ReadColon(body[p..], lead, name, most).Some?
    ensures ok ==> var r := ReadColon(body[p..], lead, name, most).value;
                   && p < after <= |body| && r.rest == body[after..] && r.item.name == name
                   && All(Digit, Digits(r.item.number)) && value == IntegerValue(r.item.number)
  {
    hide After, Run, IntegerValue, IntegerSpan;
    value, after := 0, p;
    var colon := SkipWhile(Space, body, p);
    if colon == |body| || body[colon] != COLON {
      return false, value, after;
    }
    assert Past(COLON, body[colon..]) == Some(body[colon + 1..]);
    var number := SkipWhile(Space, body, colon + 1);
    var end := IntegerEnd(body, number);
    assert body[number..][..end - number] == body[number..end] && body[number..][end - number..] == body[end..];
    if end == number || !Fits(body[number..end], most) {
      return false, value, after;
    }
    value := IntegerValue(body[number..end]);
    after := SkipWhile(Space, body, end);
    ok := true;
  }

  // ---------------- the whole parser ----------------

  function Prefixed(done: seq<Item>, l: Option<ReadList>): Option<ReadList> {
    match l
    case None => None
    case Some(r) => Some(ReadList(done + r.items, r.rest))
  }

  lemma NoItemAtClose(s: seq<byte>, most: nat)
    requires Past(CLOSE, After(Space, s)).Some?
    ensures ReadItem(s, most) == None
  {
  }

  /** The loop's turn: one member, then the end, a comma, or an error. */
  lemma ItemsStep(s: seq<byte>, done: seq<Item>, most: nat)
    ensures Prefixed(done, ReadItems(s, Names(done), most)) ==
      match ReadItem(s, most)
      case None => None
      case Some(r) =>
        if r.item.name in Names(done) || r.rest == [] then None
        else if r.rest[0] == CLOSE then Some(ReadList(done + [r.item], r.rest[1..]))
        else if r.rest[0] != COMMA then None
        else Prefixed(done + [r.item], ReadItems(r.rest[1..], Names(done + [r.item]), most))
  {
    hide ReadItem;
    var r := ReadItem(s, most);
    if r.Some? {
      NamesSnoc(done, r.value.item);
      if r.value.rest != [] && r.value.rest[0] == COMMA {
        var l := ReadItems(r.value.rest[1..], Names(done) + {r.value.item.name}, most);
        if l.Some? {
          ConcatAssoc(done, [r.value.item], l.value.items);
        }
      }
    }
  }

  ghost predicate Taken(b: Body, lifetime0: int, port0: int, lifetime: int, port: int) {
    && lifetime == (if b.Blank? then lifetime0 else GivenOr(b.items, Lifetime, lifetime0))
    && port == (if b.Blank? then port0 else GivenOr(b.items, Port, port0))
  }

  /** The rest of the body after the closing brace. */
  method Finish(body: seq<byte>, p: nat) returns (ok: bool)
    requires p <= |body|
    ensures ok <==> After(Space, body[p..]) == []
  {
    var q := SkipWhile(Space, body, p);
    ok := q == |body|;
  }

  ghost predicate Progress(s: seq<byte>, t: seq<byte>, done: seq<Item>, most: nat) {
    && Numbered(done)
    && Prefixed([], ReadItems(t, {}, most)) == Prefixed(done, ReadItems(s, Names(done), most))
  }

  lemma MemberTaken(done: seq<Item>, it: Item, otherwise: int, name: Name)
    requires Numbered(done) && All(Digit, Digits(it.number)) && it.name !in Names(done)
    ensures Numbered(done + [it])
    ensures GivenOr(done + [it], name, otherwise)
         == if name == it.name then IntegerValue(it.number) else GivenOr(done, name, otherwise)
  {
    hide All, IntegerValue, Names, Given;
    GivenSnoc(done, it, name);
    GivenIsNamed(done, name);
  }

  /** A member that is there and new: what was given, and what is left to read. */
  lemma TurnTaken(s: seq<byte>, t: seq<byte>, done: seq<Item>, c: byte, rest: seq<byte>, most: nat)
    requires Progress(s, t, done, most) && ReadItem(s, most).Some?
    requires var r := ReadItem(s, most).value;
             r.rest == [c] + rest && r.item.name !in Names(done) && All(Digit, Digits(r.item.number))
    ensures var more := done + [ReadItem(s, most).value.item];
            && (c == COMMA ==> Progress(rest, t, more, most))
            && (c == CLOSE ==> ReadItems(t, {}, most) == Some(ReadList(more, rest)))
            && (c != COMMA && c != CLOSE ==> ReadItems(t, {}, most) == None)
  {
    ItemsStep(s, done, most);
    PrefixedNone(ReadItems(t, {}, most));
    MemberTaken(done, ReadItem(s, most).value.item, 0, Port);
    assert ([c] + rest)[1..] == rest;
    hide ReadItems, ReadItem, Names, All, Given, Prefixed;
  }

  lemma PrefixedNone(l: Option<ReadList>)
    ensures Prefixed([], l) == l
  {
    if l.Some? {
      ConcatEmpty(l.value.items);
    }
  }

  lemma TurnRefused(s: seq<byte>, t: seq<byte>, done: seq<Item>, most: nat)
    requires Progress(s, t, done, most)
    requires match ReadItem(s, most)
             case None => true
             case Some(r) => r.rest == [] || r.item.name in Names(done)
    ensures ReadItems(t, {}, most) == None
  {
    ItemsStep(s, done, most);
    PrefixedNone(ReadItems(t, {}, most));
    hide ReadItems, ReadItem, Names, All;
  }

  /** The parser's variables, and what they say about the members read so far. */
  datatype Options = Options(lifetime: int, port: int, sawLifetime: bool, sawPort: bool)

  predicate Saw(o: Options, name: Name) { if name == Lifetime then o.sawLifetime else o.sawPort }

  function Set(o: Options, name: Name, value: int): Options {
    if name == Lifetime then o.(lifetime := value, sawLifetime := true) else o.(port := value, sawPort := true)
  }

  ghost predicate Values(o: Options, done: seq<Item>, lifetime0: int, port0: int) {
    o.lifetime == GivenOr(done, Lifetime, lifetime0) && o.port == GivenOr(done, Port, port0)
  }

  ghost predicate Loop(o: Options, s: seq<byte>, t: seq<byte>, done: seq<Item>, lifetime0: int, port0: int, most: nat) {
    && Progress(s, t, done, most) && Values(o, done, lifetime0, port0)
    && forall name :: Saw(o, name) <==> name in Names(done)
  }

  lemma LoopRefused(o: Options, s: seq<byte>, t: seq<byte>, done: seq<Item>, lifetime0: int, port0: int, most: nat)
    requires Loop(o, s, t, done, lifetime0, port0, most)
    requires match ReadItem(s, most)
             case None => true
             case Some(r) => r.rest == [] || Saw(o, r.item.name)
    ensures ReadItems(t, {}, most) == None
  {
    hide ReadItem, ReadItems, Names, Progress, Values, Saw;
    TurnRefused(s, t, done, most);
  }

  lemma ValuesTurn(o: Options, done: seq<Item>, it: Item, lifetime0: int, port0: int)
    requires Values(o, done, lifetime0, port0) && Numbered(done)
    requires All(Digit, Digits(it.number)) && it.name !in Names(done)
    ensures Values(Set(o, it.name, IntegerValue(it.number)), done + [it], lifetime0, port0)
  {
    hide IntegerValue, All, GivenOr, Digits, Names;
    MemberTaken(done, it, lifetime0, Lifetime);
    MemberTaken(done, it, port0, Port);
  }

  lemma LoopTurn(o: Options, s: seq<byte>, t: seq<byte>, done: seq<Item>, lifetime0: int, port0: int,
                 c: byte, rest: seq<byte>, most: nat)
    requires Loop(o, s, t, done, lifetime0, port0, most) && ReadItem(s, most).Some?
    requires var r := ReadItem(s, most).value;
             r.rest == [c] + rest && !Saw(o, r.item.name) && All(Digit, Digits(r.item.number))
    ensures var it := ReadItem(s, most).value.item;
            var o' := Set(o, it.name, IntegerValue(it.number));
            && (c == COMMA ==> Loop(o', rest, t, done + [it], lifetime0, port0, most))
            && (c == CLOSE ==> ReadItems(t, {}, most) == Some(ReadList(done + [it], rest))
                               && Values(o', done + [it], lifetime0, port0))
            && (c != COMMA && c != CLOSE ==> ReadItems(t, {}, most) == None)
  {
    var it := ReadItem(s, most).value.item;
    assert Numbered(done);
    hide ReadItem, ReadItems, Names, Progress, IntegerValue, All, Given, GivenOr, Digits, Numbered, Values;
    TurnTaken(s, t, done, c, rest, most);
    ValuesTurn(o, done, it, lifetime0, port0);
    SawTurn(o, done, it);
    hide Saw, Set;
  }

  lemma SawTurn(o: Options, done: seq<Item>, it: Item)
    requires forall name :: Saw(o, name) <==> name in Names(done)
    ensures forall name, value :: Saw(Set(o, it.name, value), name) <==> name in Names(done + [it])
  {
    NamesSnoc(done, it);
    hide Names;
  }

  lemma LoopBegins(t: seq<byte>, lifetime0: int, port0: int, most: nat)
    ensures Loop(Options(lifetime0, port0, false, false), t, t, [], lifetime0, port0, most)
  {
  }

  /** After a comma: whether the object ends without another member. */
  method TrailingComma(body: seq<byte>, i: nat, ghost most: nat) returns (trailing: bool)
    requires i <= |body|
    ensures trailing ==> ReadItem(body[i..], most) == None
  {
    var next := SkipWhile(Space, body, i);
    trailing := next < |body| && body[next] == CLOSE;
    if trailing {
      assert Past(CLOSE, body[next..]).Some?;
      NoItemAtClose(body[i..], most);
    }
  }

  /** One turn of the loop up to what follows the member; a name seen before is refused. */
  method TakeMember(body: seq<byte>, i: nat, o: Options, most: nat) returns (ok: bool, o': Options, after: nat)
    requires i <= |body|
    ensures ok <==> match ReadItem(body[i..], most)
                    case None => false
                    case Some(r) => r.rest != [] && !Saw(o, r.item.name)
    ensures ok ==> var r := ReadItem(body[i..], most).value;
                   && i < after < |body| && r.rest == [body[after]] + body[after + 1..]
                   && All(Digit, Digits(r.item.number)) && o' == Set(o, r.item.name, IntegerValue(r.item.number))
  {
    hide ReadItem, After, Run, IntegerValue, Digits, All, Span;
    var q := SkipWhile(Space, body, i);
    var got, name, value, at := ReadMember(body, i, q, most);
    o', after := o, at;
    if !got {
      return false, o', after;
    }
    if name == Lifetime && !o.sawLifetime {
      o' := o.(lifetime := value, sawLifetime := true);
    } else if name == Port && !o.sawPort {
      o' := o.(port := value, sawPort := true);
    } else {
      return false, o', after;
    }
    ok := after < |body|;
  }

  datatype Turn = Refused | Closed | Onwards

  /** One turn of the loop: refused, the object closed, or another member to come. */
  method TakeTurn(body: seq<byte>, i: nat, o: Options, ghost whole: seq<byte>, ghost done: seq<Item>,
                  lifetime0: int, port0: int, most: nat)
    returns (turn: Turn, o': Options, at: nat, ghost done': seq<Item>)
    requires i <= |body| && Loop(o, body[i..], whole, done, lifetime0, port0, most)
    ensures turn == Refused ==> ReadItems(whole, {}, most) == None
    ensures turn != Refused ==> i < at <= |body|
    ensures turn == Closed ==>
              ReadItems(whole, {}, most) == Some(ReadList(done', body[at..])) && Values(o', done', lifetime0, port0)
    ensures turn == Onwards ==> Loop(o', body[at..], whole, done', lifetime0, port0, most)
  {
    hide ReadItem, ReadItems, Loop, IntegerValue, Digits, All, Values, Saw, Set;
    var taken, after;
    taken, o', after := TakeMember(body, i, o, most);
    at, done' := i, done;
    if !taken {
      LoopRefused(o, body[i..], whole, done, lifetime0, port0, most);
      return Refused, o', at, done';
    }
    LoopTurn(o, body[i..], whole, done, lifetime0, port0, body[after], body[after + 1..], most);
    at := after + 1;
    done' := done + [ReadItem(body[i..], most).value.item];
    turn := if body[after] == CLOSE then Closed else if body[after] == COMMA then Onwards else Refused;
  }

  /** The members, each new, with commas between them, through the closing brace. */
  method LoopMembers(body: seq<byte>, p: nat, lifetime0: int, port0: int, most: nat)
    returns (ok: bool, o: Options, end: nat)
    requires p <= |body|
    ensures ok <==> ReadItems(body[p..], {}, most).Some?
    ensures ok ==> var l := ReadItems(body[p..], {}, most).value;
                   end <= |body| && l.rest == body[end..] && Values(o, l.items, lifetime0, port0)
  {
    o, end := Options(lifetime0, port0, false, false), p;
    ghost var done: seq<Item> := [];
    ghost var whole := body[p..];
    LoopBegins(whole, lifetime0, port0, most);
    hide ReadItem, ReadItems, Loop, Values;
    while true
      invariant end <= |body|
      invariant Loop(o, body[end..], whole, done, lifetime0, port0, most)
      decreases |body| - end
    {
      var turn;
      turn, o, end, done := TakeTurn(body, end, o, whole, done, lifetime0, port0, most);
      if turn != Onwards {
        return turn == Closed, o, end;
      }
      var trailing := TrailingComma(body, end, most);
      if trailing {
        LoopRefused(o, body[end..], whole, done, lifetime0, port0, most);
        return false, o, end;
      }
    }
  }

  /** The loop over members; `p` is just past the opening brace. */
  method ReadMembers(body: seq<byte>, p: nat, lifetime0: int, port0: int, most: nat)
    returns (ok: bool, lifetime: int, port: int)
    requires p <= |body|
    ensures ok <==> ReadObject(body[p..], [], most).Some?
    ensures ok ==> Taken(ReadObject(body[p..], [], most).value, lifetime0, port0, lifetime, port)
  {
    hide ReadItems, Span;
    lifetime, port := lifetime0, port0;
    var q := SkipWhile(Space, body, p);
    if q < |body| && body[q] == CLOSE {
      assert Past(CLOSE, body[q..]) == Some(body[q + 1..]);
      ok := Finish(body, q + 1);
      return;
    }
    assert Past(CLOSE, body[q..]) == None;
    var o, end;
    ok, o, end := LoopMembers(body, p, lifetime0, port0, most);
    if ok {
      ok := Finish(body, end);
    }
    lifetime, port := o.lifetime, o.port;
  }

  /**
   * Accepts exactly the bodies of the grammar: white space only, or an object with at
   * most one lifetime and at most one port. The fields an accepted body names are
   * taken, the others keep their values.
   */
  method ParseOptions(body: seq<byte>, lifetime0: int, port0: int, most: nat)
    returns (ok: bool, lifetime: int, port: int)
    ensures ok <==> exists b :: BodyOk(b, most) && Written(b) == body
    ensures ok ==> forall b :: BodyOk(b, most) && Written(b) == body ==> Taken(b, lifetime0, port0, lifetime, port)
  {
    forall b ensures ReadBody(body, most) == Some(b) <==> BodyOk(b, most) && Written(b) == body {
      ParserIsGrammar(body, b, most);
    }
    hide ReadObject, BodyOk, Written, After, Run;
    lifetime, port := lifetime0, port0;
    assert body[0..] == body;
    var p := SkipWhile(Space, body, 0);
    if p == |body| {
      assert ReadBody(body, most) == Some(Blank(body));
      return true, lifetime, port;
    }
    if body[p] != OPEN {
      assert ReadBody(body, most) == None;
      return false, lifetime, port;
    }
    assert Past(OPEN, body[p..]) == Some(body[p + 1..]);
    ok, lifetime, port := ReadMembers(body, p + 1, lifetime0, port0, most);
    ObjectRead(body[p + 1..], Run(Space, body), most);
  }

  lemma ObjectRead(s: seq<byte>, lead: seq<byte>, most: nat)
    ensures ReadObject(s, lead, most).Some? <==> ReadObject(s, [], most).Some?
    ensures ReadObject(s, lead, most).Some? ==>
              && ReadObject(s, lead, most).value.Object? && ReadObject(s, [], most).value.Object?
              && ReadObject(s, lead, most).value.items == ReadObject(s, [], most).value.items
  {
    hide ReadItems, After;
  }
}
