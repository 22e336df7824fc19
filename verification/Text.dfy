/** Splitting and trimming of text, as Go's strings and bytes packages do it. */
module Text {

  type Byte = b: int | 0 <= b < 0x100

  /** Position of the first `c`, or the length. */
  function IndexOf<T(==)>(s: seq<T>, c: T): (n: nat)
    ensures n <= |s| && c !in s[..n] && (n < |s| ==> s[n] == c)
  {
    if s == [] || s[0] == c then 0 else 1 + IndexOf(s[1..], c)
  }

  lemma {:induction false} IndexOfAfter<T>(head: seq<T>, c: T, tail: seq<T>)
    requires c !in head
    ensures IndexOf(head + [c] + tail, c) == |head|
  {
    if head != [] {
      IndexOfAfter(head[1..], c, tail);
      assert (head + [c] + tail)[1..] == head[1..] + [c] + tail;
    }
  }

  lemma {:induction false} IndexOfAbsent<T>(s: seq<T>, c: T)
    requires c !in s
    ensures IndexOf(s, c) == |s|
  {
    if s != [] {
      IndexOfAbsent(s[1..], c);
    }
  }

  /** The parts between the separators: always at least one, possibly empty ones. */
  function Split(s: string, c: char): (r: seq<string>)
    ensures r != [] && forall part <- r :: c !in part
    decreases |s|
  {
    var n := IndexOf(s, c);
    if n == |s| then assert s[..n] == s; [s] else [s[..n]] + Split(s[n + 1..], c)
  }

  lemma SplitCons(part: string, c: char, rest: string)
    requires c !in part
    ensures Split(part + [c] + rest, c) == [part] + Split(rest, c)
  {
    IndexOfAfter(part, c, rest);
    var s := part + [c] + rest;
    assert s[..|part|] == part && s[|part| + 1..] == rest;
  }

  lemma SplitWhole(part: string, c: char)
    requires c !in part
    ensures Split(part, c) == [part]
  {
    IndexOfAbsent(part, c);
  }

  /** unicode.IsSpace */
  predicate IsSpace(c: char) {
    || c == ' ' || '\t' <= c <= '\r' || c == '\U{85}' || c == '\U{A0}' || c == '\U{1680}'
    || '\U{2000}' <= c <= '\U{200A}' || c == '\U{2028}' || c == '\U{2029}' || c == '\U{202F}'
    || c == '\U{205F}' || c == '\U{3000}'
  }

  function TrimSpace(s: string): string {
    if s != "" && IsSpace(s[0]) then TrimSpace(s[1..])
    else if s != "" && IsSpace(s[|s| - 1]) then TrimSpace(s[..|s| - 1])
    else s
  }
}
