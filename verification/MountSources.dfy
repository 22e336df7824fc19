/**
 * The bind-mount sources that stage 0 opens and the descriptor numbers at which stage 1 puts
 * them: the byte string and the environment variable written by the runtime (container_linux.go,
 * bootstrapData and newInitProcess) against send_mountsources and receive_mountsources (nsexec.c).
 */
module MountSources {

  import opened Decimal
  import opened Text
  import opened Wrappers
  import opened Netlink
  import opened NamespacePaths

  datatype Mount = Mount(bind: bool, source: Path)

  const STDIO_FDS: nat := 3
  const INT_MAX: nat := 0x7FFF_FFFF

  // ---------------------------------------------------------------- the runtime's side

  /** One C string per mount, empty for a mount that is not a bind mount. */
  function SourceList(mounts: seq<Mount>): seq<Byte> {
    if mounts == [] then []
    else (if mounts[0].bind then mounts[0].source else []) + [0] + SourceList(mounts[1..])
  }

  /** No bind source contains a NUL byte; otherwise the runtime refuses the configuration. */
  predicate NulFree(mounts: seq<Mount>) {
    forall m <- mounts :: m.bind ==> 0 !in m.source
  }

  lemma Regroup(a: seq<Byte>, b: seq<Byte>, c: seq<Byte>)
    ensures a + b + [0] + c == a + (b + [0] + c)
    ensures a + [] == a
  {
  }

  method EncodeSources(mounts: seq<Mount>) returns (r: Option<seq<Byte>>)
    ensures r == if NulFree(mounts) then Some(SourceList(mounts)) else None
  {
    var bytes: seq<Byte> := [];
    var i := 0;
    while i < |mounts|
      invariant 0 <= i <= |mounts|
      invariant NulFree(mounts[..i])
      invariant bytes + SourceList(mounts[i..]) == SourceList(mounts)
    {
      ghost var before := bytes;
      ghost var rest := SourceList(mounts[i + 1..]);
      assert mounts[i..][1..] == mounts[i + 1..];
      assert mounts[i] in mounts;
      if mounts[i].bind {
        if 0 in mounts[i].source {
          return None;
        }
        bytes := bytes + mounts[i].source;
      }
      bytes := bytes + [0];
      Regroup(before, if mounts[i].bind then mounts[i].source else [], rest);
      assert mounts[..i + 1] == mounts[..i] + [mounts[i]];
      i := i + 1;
    }
    assert mounts[..i] == mounts && mounts[i..] == [];
    assert bytes + [] == bytes;
    r := Some(bytes);
  }

  /** The descriptor number recorded for each mount: the next extra file, or -1. */
  function Slots(mounts: seq<Mount>, files: nat): (r: seq<int>)
    ensures |r| == |mounts|
  {
    if mounts == [] then []
    else if mounts[0].bind then [STDIO_FDS + files] + Slots(mounts[1..], files + 1)
    else [-1] + Slots(mounts[1..], files)
  }

  function After(m: Mount, files: nat): nat {
    if m.bind then files + 1 else files
  }

  lemma SlotsStep(mounts: seq<Mount>, files: nat)
    requires mounts != []
    ensures Slots(mounts, files)[0] == if mounts[0].bind then STDIO_FDS + files else -1
    ensures Slots(mounts, files)[1..] == Slots(mounts[1..], After(mounts[0], files))
  {
  }

  method MountFds(mounts: seq<Mount>, extraFiles: nat) returns (fds: array<int>)
    ensures fds[..] == Slots(mounts, extraFiles)
  {
    fds := new int[|mounts|];
    var files, i := extraFiles, 0;
    while i < |mounts|
      invariant 0 <= i <= |mounts|
      invariant Slots(mounts, extraFiles)[i..] == Slots(mounts[i..], files)
      invariant forall k :: 0 <= k < i ==> fds[k] == Slots(mounts, extraFiles)[k]
    {
      SlotsStep(mounts[i..], files);
      assert mounts[i..][1..] == mounts[i + 1..];
      ghost var all := Slots(mounts, extraFiles);
      assert all[i..][0] == all[i] && all[i..][1..] == all[i + 1..];
      if !mounts[i].bind {
        fds[i] := -1;
      } else {
        files := files + 1;
        fds[i] := STDIO_FDS + files - 1;
      }
      i := i + 1;
    }
  }

  /** json.Marshal of a list of integers. */
  function Marshal(fds: seq<int>): string {
    if fds == [] then "[]" else "[" + MarshalItems(fds)
  }

  /** The numbers, separated by commas, and the closing bracket. */
  function MarshalItems(fds: seq<int>): string
    requires fds != []
  {
    FormatInt(fds[0]) + if |fds| == 1 then "]" else "," + MarshalItems(fds[1..])
  }

  // ---------------------------------------------------------------- the C side

  /** The strings that send_mountsources opens, in order. */
  function Opened(s: seq<Byte>): seq<Path>
    decreases |s|
  {
    if s == [] then []
    else if s[0] == 0 then Opened(s[1..])
    else
      var n := IndexOf(s, 0);
      [s[..n]] + if n < |s| then Opened(s[n + 1..]) else []
  }

  method SendSources(s: seq<Byte>) returns (sent: seq<Path>)
    ensures sent == Opened(s)
  {
    sent := [];
    var rest := s;
    while rest != []
      invariant Opened(s) == sent + Opened(rest)
      decreases |rest|
    {
      if rest[0] == 0 {
        rest := rest[1..];
      } else {
        var n := IndexOf(rest, 0);
        sent := sent + [rest[..n]];
        rest := if n < |rest| then rest[n + 1..] else [];
      }
    }
  }

  /** isspace in the C locale */
  predicate IsCSpace(c: char) {
    c == ' ' || '\t' <= c <= '\r'
  }

  function DigitRun(s: string): (n: nat)
    ensures n <= |s| && AllDigits(s[..n]) && (n < |s| ==> !IsDigit(s[n]))
  {
    if s == "" || !IsDigit(s[0]) then 0 else 1 + DigitRun(s[1..])
  }

  /** An optional sign and digits: the value and how many characters they took. */
  function Signed(s: string): (r: (int, nat))
    ensures r.1 <= |s|
  {
    var sign := if s != "" && (s[0] == '-' || s[0] == '+') then 1 else 0;
    var n := DigitRun(s[sign..]);
    if n == 0 then (0, 0)
    else
      var v: int := Value(s[sign..][..n]);
      (if sign == 1 && s[0] == '-' then -v else v, sign + n)
  }

  /** strtol in base ten, without its saturation at the ends of the long range. */
  function Strtol(s: string): (r: (int, nat))
    ensures r.1 <= |s|
  {
    if s != "" && IsCSpace(s[0]) then
      var r := Strtol(s[1..]);
      if r.1 == 0 then (0, 0) else (r.0, 1 + r.1)
    else Signed(s)
  }

  /** The descriptor numbers that receive_mountsources fills; none when it bails out. */
  function ReceiveSlots(text: string): Option<seq<int>> {
    if text == "" || text[0] != '[' then None
    else if |text| > 1 && text[1] == ']' then Some([])
    else ReadSlots(text[1..])
  }

  function ReadSlots(s: string): Option<seq<int>>
    decreases |s|
  {
    var (v, n) := Strtol(s);
    if n == 0 || n == |s| then None
    else if v < -1 || v > INT_MAX then None
    else
      var rest := if s[n] == ']' then Some([]) else ReadSlots(s[n + 1..]);
      if rest.None? then None
      else if v == -1 then rest
      else Some([v] + rest.value)
  }

  // ---------------------------------------------------------------- round trips

  function BindSources(mounts: seq<Mount>): seq<Path> {
    if mounts == [] then []
    else (if mounts[0].bind then [mounts[0].source] else []) + BindSources(mounts[1..])
  }

  function NonEmpty(paths: seq<Path>): (r: seq<Path>)
    ensures |r| <= |paths|
  {
    if paths == [] then []
    else (if paths[0] == [] then [] else [paths[0]]) + NonEmpty(paths[1..])
  }

  /** Stage 0 opens the non-empty bind sources, in mount order. */
  lemma {:induction false} OpensTheBindSources(mounts: seq<Mount>)
    requires NulFree(mounts)
    ensures Opened(SourceList(mounts) + [0]) == NonEmpty(BindSources(mounts))
  {
    if mounts != [] {
      var m := mounts[0];
      var rest := SourceList(mounts[1..]) + [0];
      OpensTheBindSources(mounts[1..]);
      var s := SourceList(mounts) + [0];
      if m.bind && m.source != [] {
        assert m in mounts;
        assert s == m.source + [0] + rest;
        IndexOfAfter(m.source, 0, rest);
        assert s[..|m.source|] == m.source && s[|m.source| + 1..] == rest;
      } else {
        assert s == [0] + rest;
        assert s[1..] == rest;
        if m.bind {
          assert BindSources(mounts)[1..] == BindSources(mounts[1..]);
        } else {
          assert BindSources(mounts) == BindSources(mounts[1..]);
        }
      }
    } else {
      assert SourceList(mounts) + [0] == [0];
    }
  }

  lemma {:induction false} NothingSkippedIff(paths: seq<Path>)
    ensures |NonEmpty(paths)| == |paths| <==> [] !in paths
    ensures [] !in paths ==> NonEmpty(paths) == paths
  {
    if paths != [] {
      NothingSkippedIff(paths[1..]);
      assert paths == [paths[0]] + paths[1..];
    }
  }

  lemma {:induction false} EmptyBindSource(mounts: seq<Mount>)
    ensures [] in BindSources(mounts) <==> exists m <- mounts :: m.bind && m.source == []
  {
    if mounts != [] {
      EmptyBindSource(mounts[1..]);
      assert mounts == [mounts[0]] + mounts[1..];
    }
  }

  function Used(fds: seq<int>): seq<int> {
    if fds == [] then []
    else (if fds[0] == -1 then [] else [fds[0]]) + Used(fds[1..])
  }

  predicate SlotValues(fds: seq<int>) {
    forall i :: 0 <= i < |fds| ==> -1 <= fds[i] <= INT_MAX
  }

  lemma {:induction false} DigitRunOf(digits: string, rest: string)
    requires AllDigits(digits) && rest != "" && !IsDigit(rest[0])
    ensures DigitRun(digits + rest) == |digits|
  {
    if digits == "" {
      assert digits + rest == rest;
    } else {
      DigitRunOf(digits[1..], rest);
      assert (digits + rest)[1..] == digits[1..] + rest;
    }
  }

  /** `s` is these digits and then a character that is not a digit. */
  ghost predicate Leads(digits: string, s: string) {
    && digits != "" && AllDigits(digits) && |digits| < |s|
    && s[..|digits|] == digits && !IsDigit(s[|digits|])
  }

  lemma LeadingRun(digits: string, s: string)
    requires Leads(digits, s)
    ensures DigitRun(s) == |digits|
  {
    DigitRunOf(digits, s[|digits|..]);
    assert digits + s[|digits|..] == s;
  }

  lemma UnsignedDigits(digits: string, s: string)
    requires Leads(digits, s)
    ensures Strtol(s) == (Value(digits) as int, |digits|)
  {
    LeadingRun(digits, s);
    assert IsDigit(digits[0]) && s[0] == digits[0] && s[0..] == s;
  }

  lemma NegativeDigits(digits: string, s: string)
    requires s != "" && s[0] == '-' && Leads(digits, s[1..])
    ensures Strtol(s) == (-(Value(digits) as int), 1 + |digits|)
  {
    LeadingRun(digits, s[1..]);
  }

  /** `text` is a decimal numeral of `v`. */
  ghost predicate Numeral(text: string, v: int) {
    && text != ""
    && if text[0] == '-' then text[1..] != "" && AllDigits(text[1..]) && v == -(Value(text[1..]) as int)
       else AllDigits(text) && v == Value(text)
  }

  lemma FormatIntIsNumeral(v: int)
    ensures Numeral(FormatInt(v), v)
  {
    if v < 0 {
      FormatIsNumeral(-v);
      assert FormatInt(v)[1..] == Format(-v);
    } else {
      FormatIsNumeral(v);
      assert IsDigit(Format(v)[0]);
    }
  }

  lemma StrtolOf(text: string, v: int, rest: string)
    requires Numeral(text, v) && rest != "" && !IsDigit(rest[0])
    ensures Strtol(text + rest) == (v, |text|)
  {
    var s := text + rest;
    if text[0] == '-' {
      assert s[1..] == text[1..] + rest;
      assert s[1..][..|text| - 1] == text[1..];
      assert s[1..][|text| - 1] == rest[0];
      NegativeDigits(text[1..], s);
    } else {
      assert s[..|text|] == text;
      UnsignedDigits(text, s);
    }
  }

  lemma ReadSlotsStep(text: string, v: int, rest: string)
    requires rest != "" && -1 <= v <= INT_MAX && text != ""
    requires Strtol(text + rest) == (v, |text|)
    ensures var more := if rest[0] == ']' then Some([]) else ReadSlots(rest[1..]);
            ReadSlots(text + rest) == if more.None? then None
                                      else if v == -1 then more else Some([v] + more.value)
  {
    assert (text + rest)[|text|] == rest[0];
    assert (text + rest)[|text| + 1..] == rest[1..];
  }

  /** One number of the list, followed by what the reader makes of the rest. */
  lemma ReadFormatted(v: int, rest: string)
    requires rest != "" && !IsDigit(rest[0]) && -1 <= v <= INT_MAX
    ensures var more := if rest[0] == ']' then Some([]) else ReadSlots(rest[1..]);
            ReadSlots(FormatInt(v) + rest) == if more.None? then None
                                              else if v == -1 then more else Some([v] + more.value)
  {
    FormatIntIsNumeral(v);
    StrtolOf(FormatInt(v), v, rest);
    ReadSlotsStep(FormatInt(v), v, rest);
  }

  lemma ReadThenMore(v: int, rest: string, used: seq<int>)
    requires -1 <= v <= INT_MAX && rest != "" && rest[0] == ',' && ReadSlots(rest[1..]) == Some(used)
    ensures ReadSlots(FormatInt(v) + rest) == Some((if v == -1 then [] else [v]) + used)
  {
    ReadFormatted(v, rest);
    assert [] + used == used;
  }

  lemma ReadLast(v: int)
    requires -1 <= v <= INT_MAX
    ensures ReadSlots(FormatInt(v) + "]") == Some(if v == -1 then [] else [v])
  {
    ReadFormatted(v, "]");
    assert [v] + [] == [v];
  }

  lemma {:induction false} ReadSlotsOf(fds: seq<int>)
    requires fds != [] && SlotValues(fds)
    ensures ReadSlots(MarshalItems(fds)) == Some(Used(fds))
  {
    if |fds| == 1 {
      ReadLast(fds[0]);
      assert Used(fds[1..]) == [];
      assert Used(fds) == if fds[0] == -1 then [] else [fds[0]];
    } else {
      ReadSlotsOf(fds[1..]);
      ReadThenMore(fds[0], "," + MarshalItems(fds[1..]), Used(fds[1..]));
    }
  }

  lemma ItemsStart(fds: seq<int>)
    requires fds != []
    ensures MarshalItems(fds) != "" && MarshalItems(fds)[0] != ']'
  {
    var v := fds[0];
    FormatIsNumeral(if v < 0 then -v else v);
    assert FormatInt(v)[0] == '-' || IsDigit(FormatInt(v)[0]);
  }

  /** The C reader recovers exactly the numbers in use, in order. */
  lemma SlotsRoundTrip(fds: seq<int>)
    requires SlotValues(fds)
    ensures ReceiveSlots(Marshal(fds)) == Some(Used(fds))
  {
    if fds != [] {
      ItemsStart(fds);
      ReadSlotsOf(fds);
      assert Marshal(fds)[1..] == MarshalItems(fds);
    }
  }

  // ---------------------------------------------------------------- where each descriptor lands

  /** Descriptor j, sent for the j-th opened path, is moved to the j-th number in use. */
  function Landed(sent: seq<Path>, slots: seq<int>): map<int, Path> {
    if sent == [] || slots == [] then map[]
    else Landed(sent[1..], slots[1..])[slots[0] := sent[0]]
  }

  lemma {:induction false} UsedSlotsOf(mounts: seq<Mount>, files: nat)
    ensures var used := Used(Slots(mounts, files));
            && |used| == |BindSources(mounts)|
            && (forall k :: 0 <= k < |used| ==> used[k] == STDIO_FDS + files + k)
            && (forall i :: 0 <= i < |mounts| ==>
                  var v := Slots(mounts, files)[i];
                  v == -1 || STDIO_FDS + files <= v < STDIO_FDS + files + |mounts|)
  {
    if mounts != [] {
      UsedSlotsOf(mounts[1..], After(mounts[0], files));
    }
  }

  /** A bind mount, and only it, has a number, and there is the descriptor of its source. */
  predicate AtItsSlot(mounts: seq<Mount>, files: nat, landed: map<int, Path>, i: nat)
    requires i < |mounts|
  {
    var slot := Slots(mounts, files)[i];
    if mounts[i].bind then slot in landed && landed[slot] == mounts[i].source else slot == -1
  }

  ghost predicate EachAtItsSlot(mounts: seq<Mount>, files: nat, landed: map<int, Path>) {
    forall i :: 0 <= i < |mounts| ==> AtItsSlot(mounts, files, landed, i)
  }

  /** The first mount adds its own descriptor, if it has one, to those of the others. */
  lemma LandedStep(mounts: seq<Mount>, files: nat)
    requires mounts != []
    ensures var next := After(mounts[0], files);
            var rest := Landed(BindSources(mounts[1..]), Used(Slots(mounts[1..], next)));
            Landed(BindSources(mounts), Used(Slots(mounts, files)))
            == if mounts[0].bind then rest[STDIO_FDS + files := mounts[0].source] else rest
  {
    SlotsStep(mounts, files);
    if mounts[0].bind {
      assert BindSources(mounts)[1..] == BindSources(mounts[1..]);
      assert Used(Slots(mounts, files))[1..] == Used(Slots(mounts, files)[1..]);
    } else {
      assert BindSources(mounts) == BindSources(mounts[1..]);
      assert Used(Slots(mounts, files)) == Used(Slots(mounts, files)[1..]);
    }
  }

  lemma {:induction false} LandedAtItsSlot(mounts: seq<Mount>, files: nat)
    ensures var landed := Landed(BindSources(mounts), Used(Slots(mounts, files)));
            && EachAtItsSlot(mounts, files, landed)
            && forall v <- landed :: v >= STDIO_FDS + files
  {
    if mounts != [] {
      var next := After(mounts[0], files);
      LandedAtItsSlot(mounts[1..], next);
      SlotsStep(mounts, files);
      LandedStep(mounts, files);
      var landed := Landed(BindSources(mounts), Used(Slots(mounts, files)));
      forall i | 0 <= i < |mounts| ensures AtItsSlot(mounts, files, landed, i) {
        if i > 0 {
          var rest := Landed(BindSources(mounts[1..]), Used(Slots(mounts[1..], next)));
          assert AtItsSlot(mounts[1..], next, rest, i - 1);
          assert mounts[i] == mounts[1..][i - 1] && Slots(mounts, files)[i] == Slots(mounts, files)[1..][i - 1];
        }
      }
    }
  }

  /**
   * Stage 0 sends as many descriptors as stage 1 waits for exactly when no bind source is empty;
   * then every bind mount finds its own source at the number recorded for it.
   */
  lemma SourcesReachTheirMounts(mounts: seq<Mount>, extraFiles: nat)
    requires NulFree(mounts) && STDIO_FDS + extraFiles + |mounts| <= INT_MAX
    ensures var sent := Opened(SourceList(mounts) + [0]);
            var slots := ReceiveSlots(Marshal(Slots(mounts, extraFiles)));
            && slots.Some? && |sent| <= |slots.value|
            && (|sent| == |slots.value| <==> forall m <- mounts :: m.bind ==> m.source != [])
            && (|sent| == |slots.value| ==> EachAtItsSlot(mounts, extraFiles, Landed(sent, slots.value)))
  {
    OpensTheBindSources(mounts);
    UsedSlotsOf(mounts, extraFiles);
    SlotsRoundTrip(Slots(mounts, extraFiles));
    NothingSkippedIff(BindSources(mounts));
    EmptyBindSource(mounts);
    LandedAtItsSlot(mounts, extraFiles);
  }
}
