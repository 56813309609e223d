/**
  The signed contract: the request's HTTP method (its verb), path and encoded payload
  joined by newlines, and the split a receiver performs to take it apart
  again.
 */
module Contract {
  import opened Wrappers

  const Newline: char := '\n'

  /** `[options.method, options.path, payload].join('\n')` */
  function Join(verb: string, path: string, payload: string): string
  {
    verb + [Newline] + path + [Newline] + payload
  }

  /** The text before the first newline and the text after it, if there is one. */
  function SplitFirst(s: string): (r: Option<(string, string)>)
    ensures r.None? <==> Newline !in s
    ensures r.Some? ==> Newline !in r.value.0 && s == r.value.0 + [Newline] + r.value.1
  {
    if s == [] then None
    else if s[0] == Newline then Some(([], s[1..]))
    else
      match SplitFirst(s[1..])
      case None => None
      case Some((line, rest)) => Some(([s[0]] + line, rest))
  }

  /**
    The receiver's reading of a contract: the first line is the HTTP verb, the
    second the path, and everything after the second newline the payload.
   */
  function Parse(c: string): (r: Option<(string, string, string)>)
    ensures r.Some? ==> Newline !in r.value.0 && Newline !in r.value.1
    ensures r.Some? ==> Join(r.value.0, r.value.1, r.value.2) == c
    ensures r.None? <==> Newline !in c || Newline !in SplitFirst(c).value.1
  {
    match SplitFirst(c)
    case None => None
    case Some((verb, rest)) =>
      match SplitFirst(rest)
      case None => None
      case Some((path, payload)) => Some((verb, path, payload))
  }

  /** Splitting `a + "\n" + b` at the first newline gives back `a` and `b` when `a` has none. */
  lemma {:induction false} SplitFirstJoin(a: string, b: string)
    requires Newline !in a
    ensures SplitFirst(a + [Newline] + b) == Some((a, b))
  {
    var s := a + [Newline] + b;
    if a != [] {
      assert s[1..] == a[1..] + [Newline] + b;
      SplitFirstJoin(a[1..], b);
      assert [s[0]] + a[1..] == a;
    }
  }

  /** A receiver recovers verb, path and payload exactly, whatever the payload holds. */
  lemma ParseJoin(verb: string, path: string, payload: string)
    requires Newline !in verb && Newline !in path
    ensures Parse(Join(verb, path, payload)) == Some((verb, path, payload))
  {
    assert Join(verb, path, payload) == verb + [Newline] + (path + [Newline] + payload);
    SplitFirstJoin(verb, path + [Newline] + payload);
    SplitFirstJoin(path, payload);
  }

  /** With newline-free verbs and paths, different requests never share a contract. */
  lemma JoinInjective(m1: string, p1: string, x1: string, m2: string, p2: string, x2: string)
    requires Newline !in m1 && Newline !in p1 && Newline !in m2 && Newline !in p2
    requires Join(m1, p1, x1) == Join(m2, p2, x2)
    ensures m1 == m2 && p1 == p2 && x1 == x2
  {
    ParseJoin(m1, p1, x1);
    ParseJoin(m2, p2, x2);
  }

  /** Two contracts for the same method and path are equal only if their payloads are. */
  lemma JoinCancelsPrefix(verb: string, path: string, x1: string, x2: string)
    requires Join(verb, path, x1) == Join(verb, path, x2)
    ensures x1 == x2
  {
    var n := |verb + [Newline] + path + [Newline]|;
    assert x1 == Join(verb, path, x1)[n..];
    assert x2 == Join(verb, path, x2)[n..];
  }

  /**
    Without that condition the contract is ambiguous: a newline in the path
    lets two different path/payload splits produce the same signed text.
   */
  lemma JoinAmbiguousWithNewlinePath()
    ensures Join("GET", "/a\nb", "c") == Join("GET", "/a", "b\nc")
  {
  }
}
