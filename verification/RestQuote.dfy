/**
 * Quoting a C string for a JSON reply (`otbr_rest_quote_json_string`,
 * main/otbr_rest_wire.h:21-60), against the string reader of section 7 of RFC 8259.
 */
module RestQuote {
  import opened Bytes
  import opened LogText
  import opened LogJson

  /** What one octet is written as. */
  function Unit(c: byte): (u: seq<byte>)
    ensures 1 <= |u| <= 6
  {
    if c == QUOTE || c == BACKSLASH then [BACKSLASH, c]
    else if c < SPACE then [BACKSLASH, 0x75, 0x30, 0x30, HexDigit(c / 16), HexDigit(c % 16)]
    else [c]
  }

  function Units(value: seq<byte>): seq<byte> {
    if value == [] then [] else Unit(value[0]) + Units(value[1..])
  }

  function Quoted(value: seq<byte>): seq<byte> { [QUOTE] + (Units(value) + [QUOTE]) }

  lemma HexReads(n: nat)
    requires n < 16
    ensures HexValue(HexDigit(n)) == Some(n)
  {
  }

  lemma UnitReads(c: byte, rest: seq<byte>)
    ensures Unescape(Unit(c) + rest) == Prepend([c], Unescape(rest))
  {
    var s := Unit(c) + rest;
    if c == QUOTE || c == BACKSLASH {
      assert s[2..] == rest;
    } else if c < SPACE {
      HexReads(c / 16);
      HexReads(c % 16);
      assert HexValue(0x30) == Some(0);
      assert s[2..6] == [0x30, 0x30, HexDigit(c / 16), HexDigit(c % 16)];
      assert CodeUnit(s[2..6]) == Some(c);
      assert s[6..] == rest;
    } else {
      assert s[1..] == rest;
    }
  }

  /** The quoted string is read back octet for octet. */
  lemma {:induction false} QuotedReadsBack(value: seq<byte>, rest: seq<byte>)
    ensures Unescape(Units(value) + ([QUOTE] + rest)) == Some(Split(value, rest))
    ensures Quoted(value)[1..] + rest == Units(value) + ([QUOTE] + rest)
    decreases |value|
  {
    ConcatAssoc(Units(value), [QUOTE], rest);
    if value == [] {
      ConcatEmpty([QUOTE] + rest);
    } else {
      ConcatAssoc(Unit(value[0]), Units(value[1..]), [QUOTE] + rest);
      UnitReads(value[0], Units(value[1..]) + ([QUOTE] + rest));
      hide Unescape, Unit;
      QuotedReadsBack(value[1..], rest);
      assert [value[0]] + value[1..] == value;
    }
  }

  lemma {:induction false} UnitsSnoc(a: seq<byte>, c: byte)
    ensures Units(a + [c]) == Units(a) + Unit(c)
    decreases |a|
  {
    if a == [] {
      assert [c][1..] == [] && a + [c] == [c];
    } else {
      UnitsSnoc(a[1..], c);
      assert (a + [c])[1..] == a[1..] + [c];
      ConcatAssoc(Unit(a[0]), Units(a[1..]), Unit(c));
    }
  }

  lemma {:induction false} UnitsGrow(value: seq<byte>, i: nat)
    requires i <= |value|
    ensures |Units(value[..i])| <= |Units(value)|
    ensures i < |value| ==> |Units(value[..i])| + |Unit(value[i])| <= |Units(value)|
    decreases |value| - i
  {
    if i < |value| {
      UnitsSnoc(value[..i], value[i]);
      assert value[..i] + [value[i]] == value[..i + 1];
      UnitsGrow(value, i + 1);
    } else {
      assert value[..i] == value;
    }
  }

  method WriteUnit(c: byte, buf: array<byte>, at: nat) returns (n: nat)
    requires at < buf.Length
    modifies buf
    ensures n == 0 <==> at + |Unit(c)| > buf.Length - 1
    ensures n > 0 ==> n == |Unit(c)| && buf[..at + n] == old(buf[..at]) + Unit(c)
  {
    var end := buf.Length - 1;
    if c == QUOTE || c == BACKSLASH {
      if end - at < 2 {
        return 0;
      }
      Store(buf, at, [BACKSLASH, c]);
      return 2;
    } else if c < SPACE {
      if end - at < 6 {
        return 0;
      }
      Store(buf, at, [BACKSLASH, 0x75, 0x30, 0x30, HexDigit(c / 16), HexDigit(c % 16)]);
      return 6;
    }
    if at == end {
      return 0;
    }
    Store(buf, at, [c]);
    return 1;
  }

  /** Succeeds exactly when the quoted string and its NUL fit; the buffer then holds them. */
  method Quote(value: Option<seq<byte>>, buf: array?<byte>) returns (ok: bool)
    requires value.Some? ==> forall i :: 0 <= i < |value.value| ==> value.value[i] != 0
    modifies buf
    ensures ok <==> value.Some? && buf != null && |Quoted(value.value)| + 1 <= buf.Length
    ensures ok ==> var n := |Quoted(value.value)|; buf[..n] == Quoted(value.value) && buf[n] == 0
  {
    if value == None || buf == null || buf.Length < 3 {
      return false;
    }
    var v := value.value;
    Store(buf, 0, [QUOTE]);
    var used := 1;
    assert v[..0] == [];
    for i := 0 to |v|
      invariant 1 <= used < buf.Length
      invariant buf[..used] == [QUOTE] + Units(v[..i])
    {
      UnitsGrow(v, i);
      UnitsSnoc(v[..i], v[i]);
      assert v[..i] + [v[i]] == v[..i + 1];
      ConcatAssoc([QUOTE], Units(v[..i]), Unit(v[i]));
      var n := WriteUnit(v[i], buf, used);
      if n == 0 {
        return false;
      }
      used := used + n;
    }
    assert v[..|v|] == v;
    if used == buf.Length - 1 {
      return false;
    }
    ConcatAssoc([QUOTE], Units(v), [QUOTE]);
    Store(buf, used, [QUOTE]);
    buf[used + 1] := 0;
    return true;
  }
}
