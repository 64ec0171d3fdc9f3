/**
 Values shared by every component (crates/model and small helpers on sequences and texts).

 A text or an identifier is a `string` whose characters stand for its bytes.
 */
module Model {

  datatype Option<+T> = None | Some(value: T)

  datatype Result<+T, +E> = Ok(value: T) | Err(error: E)

  type PeerId = string
  type ProtocolId = string
  type SessionId = string
  type Endpoint = string

  datatype TrafficClass = Control | Interactive | Bulk | Background

  datatype PathKind = DirectUdp | DirectIpv6 | Relay | Loopback | Lan

  const U32_LIMIT := 0x1_0000_0000
  const U64_MAX := 0xFFFF_FFFF_FFFF_FFFF

  function Min(a: int, b: int): int {
    if a <= b then a else b
  }

  /** Addition of unsigned 64-bit integers that stops at the largest one. */
  function SaturatingAdd(a: nat, b: nat): nat {
    Min(a + b, U64_MAX)
  }

  function SaturatingMul(a: nat, b: nat): nat {
    Min(a * b, U64_MAX)
  }

  // ---------------------------------------------------------------- sequences

  /** The last `n` elements, or all of them. */
  function LastN<T>(s: seq<T>, n: nat): seq<T> {
    if |s| <= n then s else s[|s| - n..]
  }

  function Filter<T>(s: seq<T>, keep: T -> bool): seq<T> {
    if s == [] then []
    else if keep(s[0]) then [s[0]] + Filter(s[1..], keep)
    else Filter(s[1..], keep)
  }

  lemma {:induction false} FilterAppend<T>(a: seq<T>, b: seq<T>, keep: T -> bool)
    ensures Filter(a + b, keep) == Filter(a, keep) + Filter(b, keep)
  {
    if a == [] {
      assert a + b == b;
    } else {
      assert (a + b)[1..] == a[1..] + b;
      FilterAppend(a[1..], b, keep);
    }
  }

  lemma {:induction false} FilterMembers<T>(s: seq<T>, keep: T -> bool)
    ensures forall x :: x in Filter(s, keep) <==> x in s && keep(x)
    ensures |Filter(s, keep)| <= |s|
  {
    if s != [] {
      FilterMembers(s[1..], keep);
      assert s == [s[0]] + s[1..];
    }
  }

  lemma {:induction false} FilterAll<T>(s: seq<T>, keep: T -> bool)
    requires forall x :: x in s ==> keep(x)
    ensures Filter(s, keep) == s
  {
    if s != [] {
      assert s[0] in s;
      FilterAll(s[1..], keep);
      assert s == [s[0]] + s[1..];
    }
  }

  lemma {:induction false} FilterNone<T>(s: seq<T>, keep: T -> bool)
    requires forall x :: x in s ==> !keep(x)
    ensures Filter(s, keep) == []
  {
    if s != [] {
      assert s[0] in s;
      FilterNone(s[1..], keep);
    }
  }

  /** The first element that `same` accepts is replaced by `entry`, or `entry` is appended. */
  function PutWhere<T>(s: seq<T>, entry: T, same: T -> bool): seq<T> {
    if s == [] then [entry]
    else if same(s[0]) then [entry] + s[1..]
    else [s[0]] + PutWhere(s[1..], entry, same)
  }

  /** The loop that keeps what `keep` accepts, in order. */
  method Retain<T>(all: seq<T>, keep: T -> bool) returns (kept: seq<T>)
    ensures kept == Filter(all, keep)
  {
    kept := [];
    for i := 0 to |all|
      invariant kept == Filter(all[..i], keep)
    {
      FilterAppend(all[..i], [all[i]], keep);
      assert all[..i + 1] == all[..i] + [all[i]];
      if keep(all[i]) {
        kept := kept + [all[i]];
      }
    }
    assert all[..|all|] == all;
  }

  /** The loop that looks for the element to replace. */
  method StoreWhere<T>(all: seq<T>, entry: T, same: T -> bool) returns (stored: seq<T>)
    ensures stored == PutWhere(all, entry, same)
  {
    var i := 0;
    while i < |all| && !same(all[i])
      invariant 0 <= i <= |all|
      invariant PutWhere(all, entry, same) == all[..i] + PutWhere(all[i..], entry, same)
    {
      assert all[..i + 1] == all[..i] + [all[i]];
      assert all[i..][1..] == all[i + 1..];
      i := i + 1;
    }
    if i < |all| {
      assert all[i..][1..] == all[i + 1..];
      stored := all[i := entry];
    } else {
      stored := all + [entry];
    }
  }

  /** The distinct elements of `keys`, each exactly once, in some order. */
  ghost predicate Enumerates<T(!new)>(order: seq<T>, keys: set<T>) {
    && (forall i, j :: 0 <= i < j < |order| ==> order[i] != order[j])
    && (forall k :: k in order <==> k in keys)
  }

  // ---------------------------------------------------------------- texts

  predicate StartsWith(text: string, prefix: string) {
    |prefix| <= |text| && text[..|prefix|] == prefix
  }

  predicate Contains(text: string, pattern: string) {
    exists i :: 0 <= i <= |text| && StartsWith(text[i..], pattern)
  }

  function CountChar(text: string, c: char): nat {
    if text == "" then 0 else (if text[0] == c then 1 else 0) + CountChar(text[1..], c)
  }

  function NatText(n: nat): string {
    if n < 10 then [Digit(n)] else NatText(n / 10) + [Digit(n % 10)]
  }

  function Digit(n: nat): char
    requires n < 10
  {
    "0123456789"[n]
  }
}
