/** Octets, optional values and the two list folds the models share. */
module Bytes {

  type byte = b: int | 0 <= b < 256

  datatype Option<+T> = None | Some(value: T)

  /** The octets of an ASCII literal. */
  function Ascii(s: string): (r: seq<byte>)
    requires forall i :: 0 <= i < |s| ==> s[i] as int < 128
    ensures |r| == |s|
    ensures forall i :: 0 <= i < |s| ==> r[i] == s[i] as int
  {
    seq(|s|, i requires 0 <= i < |s| => s[i] as int)
  }

  function Flatten(parts: seq<seq<byte>>): seq<byte> {
    if parts == [] then [] else parts[0] + Flatten(parts[1..])
  }

  lemma {:induction false} FlattenConcat(a: seq<seq<byte>>, b: seq<seq<byte>>)
    ensures Flatten(a + b) == Flatten(a) + Flatten(b)
  {
    if a == [] {
      ConcatEmpty(b);
      ConcatEmpty(Flatten(b));
    } else {
      FlattenConcat(a[1..], b);
      DropConcat(a, b, 1);
      ConcatAssoc(a[0], Flatten(a[1..]), Flatten(b));
    }
  }

  /** Stated once, so that proofs need not search for sequence extensionality. */
  lemma ConcatAssoc<T>(a: seq<T>, b: seq<T>, c: seq<T>)
    ensures a + b + c == a + (b + c)
  {
  }

  lemma ConcatEmpty<T>(a: seq<T>)
    ensures a + [] == a && [] + a == a
  {
  }

  lemma SplitAt<T>(s: seq<T>, k: nat)
    requires k <= |s|
    ensures s[..k] + s[k..] == s
  {
  }

  lemma DropConcat<T>(a: seq<T>, b: seq<T>, n: nat)
    requires n <= |a|
    ensures (a + b)[n..] == a[n..] + b && (n < |a| ==> (a + b)[n] == a[n])
  {
  }

  lemma SplitAround<T>(s: seq<T>, k: nat)
    requires k < |s|
    ensures s[..k] + [s[k]] + s[k + 1..] == s
  {
  }

  function Min(a: int, b: int): int {
    if a < b then a else b
  }

  /** memcpy: the octets from `at` on become `data`, the rest stay. */
  method Store(dst: array<byte>, at: nat, data: seq<byte>)
    requires at + |data| <= dst.Length
    modifies dst
    ensures dst[..at + |data|] == old(dst[..at]) + data
    ensures forall k :: at + |data| <= k < dst.Length ==> dst[k] == old(dst[k])
  {
    forall j | 0 <= j < |data| {
      dst[at + j] := data[j];
    }
    assert dst[..at] == old(dst[..at]);
    assert dst[at..at + |data|] == data;
  }
}
