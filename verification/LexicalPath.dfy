/**
 * Lexical path processing as in Go's path/filepath on Unix: cleaning, joining, making absolute.
 *
 * A path is split at its slashes; cleaning works on the names between them.
 */
module LexicalPath {

  import Text

  const SLASH := '/'

  predicate IsAbs(p: string) {
    p != "" && p[0] == SLASH
  }

  predicate NoSlash(name: string) {
    SLASH !in name
  }

  /** The names between the slashes. */
  function Split(p: string): (r: seq<string>)
    ensures r != [] && forall name <- r :: NoSlash(name)
  {
    Text.Split(p, SLASH)
  }

  /** strings.Join with "/" */
  function JoinNames(names: seq<string>): string {
    if names == [] then ""
    else if |names| == 1 then names[0]
    else names[0] + "/" + JoinNames(names[1..])
  }

  // ---------------------------------------------------------------- cleaning

  /** What the next name does to the names kept so far. */
  function Push(rooted: bool, kept: seq<string>, name: string): seq<string> {
    if name == "" || name == "." then kept
    else if name == ".." then
      if kept != [] && kept[|kept| - 1] != ".." then kept[..|kept| - 1]
      else if rooted then kept
      else kept + [".."]
    else kept + [name]
  }

  function Reduce(rooted: bool, kept: seq<string>, names: seq<string>): seq<string>
    decreases |names|
  {
    if names == [] then kept else Reduce(rooted, Push(rooted, kept, names[0]), names[1..])
  }

  /** The names that cleaning leaves of a path. */
  function Names(p: string): seq<string> {
    Reduce(IsAbs(p), [], Split(p))
  }

  function Render(rooted: bool, names: seq<string>): string {
    if rooted then "/" + JoinNames(names)
    else if names == [] then "."
    else JoinNames(names)
  }

  function Clean(p: string): string {
    if p == "" then "." else Render(IsAbs(p), Names(p))
  }

  /** filepath.Join of two elements: empty ones are ignored. */
  function Join2(a: string, b: string): string {
    if a == "" then if b == "" then "" else Clean(b)
    else if b == "" then Clean(a)
    else Clean(a + "/" + b)
  }

  /** filepath.Abs in a given working directory. */
  function Abs(cwd: string, p: string): string {
    if IsAbs(p) then Clean(p) else Join2(cwd, p)
  }

  // ---------------------------------------------------------------- shape of cleaned names

  predicate IsName(name: string) {
    name != "" && name != "." && NoSlash(name)
  }

  predicate Plain(names: seq<string>) {
    forall name <- names :: IsName(name) && name != ".."
  }

  /** Dot-dots, if any, form a leading run; a rooted path has none. */
  predicate Normal(rooted: bool, names: seq<string>) {
    && (forall i :: 0 <= i < |names| ==> IsName(names[i]))
    && (forall i, j :: 0 <= i < j < |names| && names[j] == ".." ==> names[i] == "..")
    && (rooted ==> ".." !in names)
  }

  lemma PushKeepsNormal(rooted: bool, kept: seq<string>, name: string)
    requires Normal(rooted, kept) && NoSlash(name)
    ensures Normal(rooted, Push(rooted, kept, name))
  {
  }

  lemma {:induction false} ReduceIsNormal(rooted: bool, kept: seq<string>, names: seq<string>)
    requires Normal(rooted, kept) && forall name <- names :: NoSlash(name)
    ensures Normal(rooted, Reduce(rooted, kept, names))
    decreases |names|
  {
    if names != [] {
      PushKeepsNormal(rooted, kept, names[0]);
      ReduceIsNormal(rooted, Push(rooted, kept, names[0]), names[1..]);
    }
  }

  /** A cleaned path has dot-dots only as a leading run, and none if it is absolute. */
  lemma CleanedNames(p: string)
    ensures Normal(IsAbs(p), Names(p))
  {
    ReduceIsNormal(IsAbs(p), [], Split(p));
  }

  lemma {:induction false} ReduceAppends(rooted: bool, kept: seq<string>, a: seq<string>, b: seq<string>)
    ensures Reduce(rooted, kept, a + b) == Reduce(rooted, Reduce(rooted, kept, a), b)
    decreases |a|
  {
    if a == [] {
      assert a + b == b;
    } else {
      assert (a + b)[1..] == a[1..] + b;
      ReduceAppends(rooted, Push(rooted, kept, a[0]), a[1..], b);
    }
  }

  /** Names that are themselves clean are taken over unchanged. */
  lemma {:induction false} ReducePlain(rooted: bool, kept: seq<string>, names: seq<string>)
    requires Plain(names)
    ensures Reduce(rooted, kept, names) == kept + names
    decreases |names|
  {
    if names != [] {
      assert names[0] in names;
      ReducePlain(rooted, kept + [names[0]], names[1..]);
    }
  }

  lemma {:induction false} ReduceNormal(rooted: bool, done: seq<string>, names: seq<string>)
    requires Normal(rooted, done + names)
    ensures Reduce(rooted, done, names) == done + names
    decreases |names|
  {
    if names != [] {
      var all := done + names;
      assert all[|done|] == names[0];
      assert done + [names[0]] + names[1..] == all;
      if names[0] == ".." && done != [] {
        assert all[|done| - 1] == "..";
      }
      ReduceNormal(rooted, done + [names[0]], names[1..]);
    }
  }

  // ---------------------------------------------------------------- rendering and splitting again

  lemma SplitCons(name: string, rest: string)
    requires NoSlash(name)
    ensures Split(name + "/" + rest) == [name] + Split(rest)
  {
    Text.SplitCons(name, SLASH, rest);
    assert name + "/" + rest == name + [SLASH] + rest;
  }

  lemma Regroup(a: string, n: nat, b: string)
    requires n < |a| && a[n] == SLASH
    ensures a + "/" + b == a[..n] + "/" + (a[n + 1..] + "/" + b)
  {
    assert a == a[..n] + "/" + a[n + 1..];
  }

  lemma Associative(a: seq<string>, b: seq<string>, c: seq<string>)
    ensures a + b + c == a + (b + c)
  {
  }

  /** Splitting at a slash splits both sides. */
  lemma {:induction false} SplitConcat(a: string, b: string)
    ensures Split(a + "/" + b) == Split(a) + Split(b)
    decreases |a|
  {
    var n := Text.IndexOf(a, SLASH);
    if n == |a| {
      assert a[..n] == a;
      SplitCons(a, b);
    } else {
      var head, tail := a[..n], a[n + 1..];
      Regroup(a, n, b);
      SplitCons(head, tail + "/" + b);
      SplitConcat(tail, b);
      Associative([head], Split(tail), Split(b));
    }
  }

  lemma {:induction false} SplitJoined(names: seq<string>)
    requires names != [] && forall name <- names :: NoSlash(name)
    ensures Split(JoinNames(names)) == names
  {
    assert names[0] in names;
    if |names| == 1 {
      Text.SplitWhole(names[0], SLASH);
    } else {
      SplitCons(names[0], JoinNames(names[1..]));
      SplitJoined(names[1..]);
    }
  }

  lemma NormalNoSlash(rooted: bool, names: seq<string>)
    requires Normal(rooted, names)
    ensures forall name <- names :: NoSlash(name)
  {
  }

  /** A rendered list of cleaned names is absolute as asked, and has just these names. */
  lemma NamesOfRendered(rooted: bool, names: seq<string>)
    requires Normal(rooted, names)
    ensures IsAbs(Render(rooted, names)) == rooted
    ensures Names(Render(rooted, names)) == names
  {
    NormalNoSlash(rooted, names);
    if rooted {
      RootedNames(names);
    } else if names == [] {
      DotHasNoNames();
    } else {
      SplitJoined(names);
      JoinedStart(names);
      assert [] + names == names;
      ReduceNormal(false, [], names);
    }
  }

  lemma DotHasNoNames()
    ensures Names(".") == []
  {
    Text.SplitWhole(".", SLASH);
    assert Split(".") == ["."];
    assert Reduce(false, [], ["."]) == Reduce(false, Push(false, [], "."), []);
  }

  lemma SplitRooted(rest: string)
    ensures Split("/" + rest) == [""] + Split(rest)
  {
    SplitCons("", rest);
    assert "" + "/" + rest == "/" + rest;
  }

  lemma RootedNames(names: seq<string>)
    requires Normal(true, names)
    ensures Names("/" + JoinNames(names)) == names
  {
    SplitRooted(JoinNames(names));
    if names == [] {
      Text.SplitWhole("", SLASH);
      ReduceBlank(["", ""]);
    } else {
      NormalNoSlash(true, names);
      SplitJoined(names);
      ReduceAppends(true, [], [""], names);
      ReduceBlank([""]);
      assert [] + names == names;
      ReduceNormal(true, [], names);
    }
  }

  lemma {:induction false} ReduceBlank(names: seq<string>)
    requires forall i :: 0 <= i < |names| ==> names[i] == ""
    ensures Reduce(true, [], names) == []
    decreases |names|
  {
    if names != [] {
      ReduceBlank(names[1..]);
    }
  }

  lemma JoinedStart(names: seq<string>)
    requires names != [] && IsName(names[0])
    ensures JoinNames(names) != "" && JoinNames(names)[0] == names[0][0]
    ensures !IsAbs(JoinNames(names))
  {
  }

  /** Cleaning keeps a path absolute or relative, and keeps its names; so it is idempotent. */
  lemma CleanIsIdempotent(p: string)
    ensures p != "" ==> IsAbs(Clean(p)) == IsAbs(p)
    ensures Names(Clean(p)) == Names(p) && Clean(p) != ""
    ensures Clean(Clean(p)) == Clean(p)
  {
    CleanedNames(p);
    if p == "" {
      EmptyHasNoNames();
      DotHasNoNames();
    } else {
      NamesOfRendered(IsAbs(p), Names(p));
      RenderedNonempty(IsAbs(p), Names(p));
    }
  }

  lemma EmptyHasNoNames()
    ensures Names("") == []
  {
    assert Split("") == [""];
    assert Reduce(false, [], [""]) == Reduce(false, Push(false, [], ""), []);
  }

  lemma RenderedNonempty(rooted: bool, names: seq<string>)
    requires Normal(rooted, names)
    ensures Render(rooted, names) != ""
  {
    if !rooted && names != [] {
      JoinedStart(names);
    }
  }

  /** Appending a path to another one reduces its names on top of the other's. */
  lemma NamesOfJoined(a: string, b: string)
    requires a != ""
    ensures IsAbs(a + "/" + b) == IsAbs(a)
    ensures Names(a + "/" + b) == Reduce(IsAbs(a), Names(a), Split(b))
  {
    SplitConcat(a, b);
    ReduceAppends(IsAbs(a), [], Split(a), Split(b));
  }

  /** Appending names that stay inside adds them and nothing else. */
  lemma NamesOfAppended(a: string, names: seq<string>)
    requires a != "" && names != [] && Plain(names)
    ensures IsAbs(a + "/" + JoinNames(names)) == IsAbs(a)
    ensures Names(a + "/" + JoinNames(names)) == Names(a) + names
  {
    NamesOfJoined(a, JoinNames(names));
    SplitJoined(names);
    ReducePlain(IsAbs(a), Names(a), names);
  }
}
