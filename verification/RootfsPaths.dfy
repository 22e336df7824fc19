/**
 * The two checks of a layer path: by the admission webhook (mutate.go) when a pod is created and
 * by the snapshotter (path.go) when the layer is prepared; and the overlap check of special paths.
 */
module RootfsPaths {

  import opened Wrappers
  import opened LexicalPath

  // ---------------------------------------------------------------- relative layer paths

  predicate HasPrefix(s: string, prefix: string) {
    prefix <= s
  }

  /** validateRelativePath */
  predicate AdmissionAccepts(p: string) {
    if p == "" then true
    else if IsAbs(p) then false
    else
      var cleaned := Clean(p);
      cleaned == "." || !(cleaned == ".." || (|cleaned| >= 3 && cleaned[..3] == "../"))
  }

  /** safeLayerPath: the cleaned path, empty for the volume root, or a refusal. */
  function SafeLayerPath(p: string): Option<string> {
    if p == "" || p == "." then Some("")
    else if IsAbs(p) then None
    else
      var cleaned := Clean(p);
      if cleaned == "." then Some("")
      else if ".." in Split(cleaned) then None
      else Some(cleaned)
  }

  /** safeJoin, with the working directory that filepath.Abs consults. */
  function SafeJoin(cwd: string, root: string, p: string): Option<string> {
    var layer := SafeLayerPath(p);
    if layer.None? then None else Some(Abs(cwd, Join2(root, layer.value)))
  }

  /** A path that does not leave the directory it starts from. */
  predicate Inside(p: string) {
    !IsAbs(p) && ".." !in Names(p)
  }

  lemma DotDotStart(names: seq<string>)
    requires Normal(false, names) && names != []
    ensures var text := JoinNames(names);
            (text == ".." || (|text| >= 3 && text[..3] == "../")) <==> names[0] == ".."
  {
    var text := JoinNames(names);
    assert IsName(names[0]);
    if |names| > 1 {
      assert text == names[0] + "/" + JoinNames(names[1..]);
      if |names[0]| >= 2 {
        assert text[..2] == names[0][..2];
        if |names[0]| == 2 {
          assert text[2] == SLASH;
          assert text[..3] == text[..2] + [text[2]];
        } else {
          assert text[2] == names[0][2];
        }
      } else {
        assert text[1] == SLASH;
      }
    } else if |text| >= 3 {
      assert text[2] != SLASH;
    }
  }

  lemma LeadingDotDot(names: seq<string>)
    requires Normal(false, names) && names != []
    ensures names[0] == ".." <==> ".." in names
  {
  }

  lemma AdmissionAcceptsInside(p: string)
    ensures AdmissionAccepts(p) <==> Inside(p)
  {
    CleanedNames(p);
    if p == "" {
      EmptyHasNoNames();
    } else if !IsAbs(p) {
      if Names(p) != [] {
        DotDotStart(Names(p));
        LeadingDotDot(Names(p));
        CleanedIsDotOnlyIfEmpty(p);
      }
    }
  }

  lemma CleanedIsDotOnlyIfEmpty(p: string)
    requires p != "" && !IsAbs(p) && Names(p) != []
    ensures Clean(p) != "."
  {
    CleanedNames(p);
    CleanIsIdempotent(p);
    DotHasNoNames();
  }

  lemma SnapshotterAcceptsInside(p: string)
    ensures SafeLayerPath(p).Some? <==> Inside(p)
    ensures Inside(p) ==> SafeLayerPath(p).value == (if Names(p) == [] then "" else JoinNames(Names(p)))
  {
    CleanedNames(p);
    if p == "" {
      EmptyHasNoNames();
    } else if p == "." {
      DotHasNoNames();
    } else if !IsAbs(p) && Names(p) != [] {
      CleanedIsDotOnlyIfEmpty(p);
      NormalNoSlash(false, Names(p));
      SplitJoined(Names(p));
    }
  }

  /** Admission and the snapshotter accept exactly the same paths, for every string. */
  lemma ChecksAgree(p: string)
    ensures AdmissionAccepts(p) <==> SafeLayerPath(p).Some?
    ensures AdmissionAccepts(p) <==> Inside(p)
  {
    AdmissionAcceptsInside(p);
    SnapshotterAcceptsInside(p);
  }

  lemma InsideIsPlain(p: string)
    requires Inside(p)
    ensures Plain(Names(p))
  {
    CleanedNames(p);
  }

  lemma JoinedLayer(root: string, p: string)
    requires Inside(p) && root != ""
    ensures var layer := SafeLayerPath(p);
            && layer.Some? && Join2(root, layer.value) != ""
            && IsAbs(Join2(root, layer.value)) == IsAbs(root)
            && Names(Join2(root, layer.value)) == Names(root) + Names(p)
  {
    SnapshotterAcceptsInside(p);
    InsideIsPlain(p);
    var names := Names(p);
    if names == [] {
      CleanIsIdempotent(root);
      assert Names(root) + names == Names(root);
    } else {
      assert names[0] in names;
      JoinedStart(names);
      NamesOfAppended(root, names);
      CleanIsIdempotent(root + "/" + JoinNames(names));
    }
  }

  /** An absolute path is its own Abs up to cleaning. */
  lemma AbsOfAbsolute(cwd: string, p: string)
    requires IsAbs(p)
    ensures IsAbs(Abs(cwd, p)) && Names(Abs(cwd, p)) == Names(p) && Abs(cwd, p) == Render(true, Names(p))
  {
    CleanIsIdempotent(p);
  }

  /**
   * Under an absolute root every accepted path is joined to the root itself or to a path below
   * it: the names of the root, followed by those of the layer path.
   */
  lemma SafeJoinStaysBelow(cwd: string, root: string, p: string)
    requires IsAbs(root)
    ensures SafeJoin(cwd, root, p).Some? <==> Inside(p)
    ensures Inside(p) ==> SafeJoin(cwd, root, p) == Some(Render(true, Names(root) + Names(p)))
    ensures Inside(p) && Names(p) != [] && Names(root) != [] ==>
              HasPrefix(SafeJoin(cwd, root, p).value, Clean(root) + "/")
  {
    SnapshotterAcceptsInside(p);
    if Inside(p) {
      JoinedLayer(root, p);
      AbsOfAbsolute(cwd, Join2(root, SafeLayerPath(p).value));
      if Names(p) != [] && Names(root) != [] {
        JoinNamesAppend(Names(root), Names(p));
      }
    }
  }

  lemma {:induction false} JoinNamesAppend(a: seq<string>, b: seq<string>)
    requires a != [] && b != []
    ensures JoinNames(a + b) == JoinNames(a) + "/" + JoinNames(b)
  {
    if |a| > 1 {
      JoinNamesAppend(a[1..], b);
      assert (a + b)[1..] == a[1..] + b;
    } else {
      assert (a + b)[1..] == b;
    }
  }

  // ---------------------------------------------------------------- special paths

  /** pathsOverlap */
  predicate Overlap(left: string, right: string) {
    left == right || HasPrefix(left, right + "/") || HasPrefix(right, left + "/")
  }

  /** One path is the other or lies below it. */
  predicate Nested(a: seq<string>, b: seq<string>) {
    a <= b || b <= a
  }

  /** validateSpecialPath: the cleaned path, unless it is relative or the root. */
  function SpecialPath(p: string): Option<string> {
    if !IsAbs(p) then None
    else if Clean(p) == "/" then None
    else Some(Clean(p))
  }

  predicate Slashless(names: seq<string>) {
    forall i :: 0 <= i < |names| ==> NoSlash(names[i])
  }

  lemma SameHead(x: string, s: string, y: string, t: string)
    requires NoSlash(x) && NoSlash(y)
    requires s != "" && s[0] == SLASH && (t == "" || t[0] == SLASH)
    requires x + s <= y + t
    ensures x == y && s <= t
  {
    assert (x + s)[|x|] == SLASH && (y + t)[|x|] == SLASH;
    assert |y| <= |x|;
    assert (y + t)[|y|] == SLASH && (x + s)[|y|] == SLASH;
    assert |x| <= |y|;
    assert (x + s)[..|x|] == x && (y + t)[..|x|] == y;
    assert (x + s)[|x|..] == s && (y + t)[|x|..] == t;
  }

  /** JoinNames without its first name, slash included. */
  function Onward(names: seq<string>): string
    requires names != []
  {
    if |names| == 1 then "" else "/" + JoinNames(names[1..])
  }

  lemma HeadAndOnward(names: seq<string>)
    requires names != []
    ensures JoinNames(names) == names[0] + Onward(names)
  {
  }

  /** The same first name, and the rest of the texts one a prefix of the other. */
  lemma FirstNames(a: seq<string>, b: seq<string>)
    requires a != [] && b != [] && Slashless(a) && Slashless(b) && JoinNames(a) + "/" <= JoinNames(b)
    ensures a[0] == b[0] && Onward(a) + "/" <= Onward(b)
  {
    HeadAndOnward(a);
    HeadAndOnward(b);
    assert JoinNames(a) + "/" == a[0] + (Onward(a) + "/");
    SameHead(a[0], Onward(a) + "/", b[0], Onward(b));
  }

  lemma {:induction false} PrefixGivesBelow(a: seq<string>, b: seq<string>)
    requires a != [] && b != [] && Slashless(a) && Slashless(b) && JoinNames(a) + "/" <= JoinNames(b)
    ensures a < b
    decreases |a|
  {
    FirstNames(a, b);
    if |a| > 1 {
      assert (Onward(a) + "/")[1..] == JoinNames(a[1..]) + "/";
      assert Onward(b)[1..] == JoinNames(b[1..]);
      PrefixGivesBelow(a[1..], b[1..]);
    }
    assert a == [a[0]] + a[1..] && b == [b[0]] + b[1..];
  }

  /** On joined names, "text plus slash is a prefix" means "fewer names, all equal". */
  lemma PrefixMeansBelow(a: seq<string>, b: seq<string>)
    requires a != [] && b != [] && Slashless(a) && Slashless(b)
    ensures JoinNames(a) + "/" <= JoinNames(b) <==> a < b
  {
    if JoinNames(a) + "/" <= JoinNames(b) {
      PrefixGivesBelow(a, b);
    }
    if a < b {
      assert b == a + b[|a|..];
      JoinNamesAppend(a, b[|a|..]);
    }
  }

  lemma JoinIsInjective(a: seq<string>, b: seq<string>)
    requires a != [] && b != [] && Slashless(a) && Slashless(b) && JoinNames(a) == JoinNames(b)
    ensures a == b
  {
    SplitJoined(a);
    SplitJoined(b);
  }

  lemma RootedPrefix(s: string, t: string)
    ensures "/" + s <= "/" + t <==> s <= t
  {
    if s <= t {
      assert ("/" + t)[..|s| + 1] == "/" + s;
    }
    if "/" + s <= "/" + t {
      assert ("/" + s)[1..] == s && ("/" + t)[1..] == t;
    }
  }

  /** On cleaned absolute paths other than the root, the overlap check is nesting. */
  lemma OverlapIsNesting(a: seq<string>, b: seq<string>)
    requires Normal(true, a) && Normal(true, b) && a != [] && b != []
    ensures Overlap(Render(true, a), Render(true, b)) <==> Nested(a, b)
  {
    var l, r := JoinNames(a), JoinNames(b);
    assert ("/" + l) + "/" == "/" + (l + "/");
    assert ("/" + r) + "/" == "/" + (r + "/");
    RootedPrefix(l + "/", r);
    RootedPrefix(r + "/", l);
    PrefixMeansBelow(a, b);
    PrefixMeansBelow(b, a);
    if "/" + l == "/" + r {
      assert ("/" + l)[1..] == l && ("/" + r)[1..] == r;
      JoinIsInjective(a, b);
    }
    if Nested(a, b) && |a| == |b| {
      assert a == b;
    }
  }

  lemma SpecialPathNames(p: string)
    requires SpecialPath(p).Some?
    ensures Normal(true, Names(p)) && Names(p) != [] && SpecialPath(p).value == Render(true, Names(p))
  {
    CleanedNames(p);
    assert Render(true, []) == "/";
  }
}
