/**
  A JavaScript plain object as the request code sees it: an ordered list of
  own properties with pairwise distinct keys. The order is the object's
  property order, which is what `qs.stringify` and `JSON.stringify` walk.
 */
module Mapping {
  import opened Wrappers

  /** The property values a request's `params` or `json` object may hold. */
  datatype Value = Null | Bool(b: bool) | Num(n: int) | Str(s: string)

  type Entry = (string, Value)

  /** No key occurs twice: a JavaScript object has one slot per key. */
  predicate DistinctKeys(f: seq<Entry>)
  {
    forall i, j :: 0 <= i < j < |f| ==> f[i].0 != f[j].0
  }

  type Fields = f: seq<Entry> | DistinctKeys(f) witness []

  /** The keys in property order. */
  function KeysOf(f: seq<Entry>): seq<string>
  {
    if f == [] then [] else [f[0].0] + KeysOf(f[1..])
  }

  /** Property read `obj[k]`; `None` stands for `undefined`. */
  function Lookup(f: seq<Entry>, k: string): Option<Value>
  {
    if f == [] then None
    else if f[0].0 == k then Some(f[0].1)
    else Lookup(f[1..], k)
  }

  predicate IsDigit(c: char)
  {
    '0' <= c <= '9'
  }

  /** The number a string of decimal digits denotes. */
  function DecimalValue(s: string): int
    requires forall i :: 0 <= i < |s| ==> IsDigit(s[i])
  {
    if s == [] then 0 else DecimalValue(s[..|s| - 1]) * 10 + (s[|s| - 1] as int - '0' as int)
  }

  /**
    An array index in the JavaScript sense: the canonical decimal form of an
    integer below 2^32 - 1. Objects list such keys first, in numeric order,
    whatever the order in which they were added.
   */
  predicate IsArrayIndex(k: string)
  {
    && |k| > 0
    && (forall i :: 0 <= i < |k| ==> IsDigit(k[i]))
    && (k[0] == '0' ==> |k| == 1)
    && DecimalValue(k) < 0xFFFF_FFFF
  }

  /**
    Property assignment `obj[k] = v` for a key that is not an array index:
    an existing property keeps its place and gets the new value, a new key
    is appended at the end.
   */
  function SetField(f: Fields, k: string, v: Value): (r: Fields)
    requires !IsArrayIndex(k)
    ensures Lookup(r, k) == Some(v)
    ensures forall k' :: k' != k ==> Lookup(r, k') == Lookup(f, k')
    ensures KeysOf(r) == if k in KeysOf(f) then KeysOf(f) else KeysOf(f) + [k]
    ensures |r| == if k in KeysOf(f) then |f| else |f| + 1
    ensures forall i :: 0 <= i < |f| && f[i].0 != k ==> r[i] == f[i]
  {
    KeysOfIndex(f);
    if f == [] then [(k, v)]
    else if f[0].0 == k then [(k, v)] + f[1..]
    else
      KeyNotInTail(f);
      var rest := SetField(f[1..], k, v);
      KeysOfIndex(rest);
      [f[0]] + rest
  }

  /** The head key of a well-formed object does not occur again. */
  lemma {:induction false} KeyNotInTail(f: Fields)
    requires f != []
    ensures f[0].0 !in KeysOf(f[1..])
  {
    KeysOfIndex(f[1..]);
  }

  /** `KeysOf` lists exactly the keys found at the object's positions. */
  lemma {:induction false} KeysOfIndex(f: seq<Entry>)
    ensures |KeysOf(f)| == |f|
    ensures forall i :: 0 <= i < |f| ==> KeysOf(f)[i] == f[i].0
  {
    if f != [] {
      KeysOfIndex(f[1..]);
    }
  }

  /** A second assignment to the same key overrides the first. */
  lemma {:induction false} SetFieldLastWins(f: Fields, k: string, v1: Value, v2: Value)
    requires !IsArrayIndex(k)
    ensures SetField(SetField(f, k, v1), k, v2) == SetField(f, k, v2)
  {
    if f != [] && f[0].0 != k {
      SetFieldLastWins(f[1..], k, v1, v2);
    }
  }

  /** Assigning the same value twice is the same as assigning it once. */
  lemma SetFieldIdempotent(f: Fields, k: string, v: Value)
    requires !IsArrayIndex(k)
    ensures SetField(SetField(f, k, v), k, v) == SetField(f, k, v)
  {
    SetFieldLastWins(f, k, v, v);
  }
}
