/** The text form of a whitelist: `CgroupString` lines written, `devices.list` lines read. */
module DevicesList {
  import opened Permissions
  import opened DeviceTable
  import opened Decimal
  import opened Wrappers

  const MAX_UINT32: nat := 0xffff_ffff

  datatype Entry = Entry(meta: Meta, perms: Perms)

  // ------------------------------------------------------------------- splitting

  predicate IsSeparator(c: char) {
    c == ' ' || c == ':'
  }

  predicate IsWord(s: string) {
    s != "" && forall i :: 0 <= i < |s| ==> !IsSeparator(s[i])
  }

  function Flush(word: string): seq<string> {
    if word == "" then [] else [word]
  }

  /** The maximal separator-free runs of `word + s`, where `word` is the run read so far. */
  function Fields(s: string, word: string := ""): seq<string> {
    if s == "" then Flush(word)
    else if IsSeparator(s[0]) then Flush(word) + Fields(s[1..], "")
    else Fields(s[1..], word + [s[0]])
  }

  lemma {:induction false} FieldsReadsWord(w: string, rest: string, word: string)
    requires forall i :: 0 <= i < |w| ==> !IsSeparator(w[i])
    ensures Fields(w + rest, word) == Fields(rest, word + w)
  {
    if w == "" {
      assert w + rest == rest && word + w == word;
    } else {
      assert (w + rest)[1..] == w[1..] + rest;
      FieldsReadsWord(w[1..], rest, word + [w[0]]);
      assert word + [w[0]] + w[1..] == word + w;
    }
  }

  lemma FieldsTakesWord(w: string, sep: char, rest: string)
    requires IsWord(w) && IsSeparator(sep)
    ensures Fields(w + [sep] + rest) == [w] + Fields(rest)
  {
    assert w + [sep] + rest == w + ([sep] + rest) && "" + w == w;
    FieldsReadsWord(w, [sep] + rest, "");
    assert ([sep] + rest)[1..] == rest;
  }

  lemma FieldsLastWord(w: string)
    requires forall i :: 0 <= i < |w| ==> !IsSeparator(w[i])
    ensures Fields(w) == Flush(w)
  {
    assert w + "" == w && "" + w == w;
    FieldsReadsWord(w, "", "");
  }

  // --------------------------------------------------------------------- parsing

  function ParseNumber(s: string): Option<int> {
    if s == "*" then Some(WILDCARD)
    else match ParseUint(s, MAX_UINT32)
      case Some(n) => Some(n)
      case None => None
  }

  /** `parseLine`: an entry, or `None` for a line of type 'a'. */
  function ParseLine(line: string): Result<Option<Entry>> {
    var fields := Fields(line);
    if |fields| != 4 then Err(BadLine(line))
    else if fields[0] == "a" then Ok(None)
    else if fields[0] != "b" && fields[0] != "c" then Err(BadLine(line))
    else
      var major := ParseNumber(fields[1]);
      var minor := ParseNumber(fields[2]);
      if major.None? || minor.None? then Err(BadLine(line))
      else if !IsValid(fields[3]) || IsEmpty(fields[3]) then Err(BadLine(line))
      else Ok(Some(Entry(Meta(fields[0][0], major.value, minor.value), fields[3])))
  }

  /** `allow`: a missing entry switches to allow-all. */
  function AllowEntry(t: Table, entry: Option<Entry>): Result<Table> {
    match entry
    case None => Ok(Table(true, map[]))
    case Some(e) => ApplyRule(t, Rule(e.meta.node, e.meta.major, e.meta.minor, e.perms, true))
  }

  /** The table that `EmulatorFromList` builds from the lines. */
  function FromLines(lines: seq<string>): Result<Table> {
    if lines == [] then Ok(Table(false, map[]))
    else match FromLines(lines[..|lines| - 1])
      case Err(e) => Err(e)
      case Ok(t) =>
        match ParseLine(lines[|lines| - 1])
        case Err(e) => Err(e)
        case Ok(entry) => AllowEntry(t, entry)
  }

  // -------------------------------------------------------------------- printing

  function NumberText(n: int): string {
    if n == WILDCARD then "*" else FormatInt(n)
  }

  function CgroupString(m: Meta, perms: Perms): string {
    [m.node] + " " + (NumberText(m.major) + ":" + (NumberText(m.minor) + " " + perms))
  }

  predicate InRange(n: int) {
    n == WILDCARD || 0 <= n <= MAX_UINT32
  }

  lemma NumberRoundTrip(n: int)
    ensures IsWord(NumberText(n))
    ensures ParseNumber(NumberText(n)) == if InRange(n) then Some(n) else None
  {
    if n != WILDCARD {
      FormatIsNumeral(if n < 0 then -n else n);
      if n < 0 {
        assert !IsDigit(FormatInt(n)[0]);
      } else {
        ParseFormat(n, MAX_UINT32);
        assert IsDigit(FormatInt(n)[0]);
      }
    }
  }

  predicate Printable(m: Meta, perms: Perms) {
    InRange(m.major) && InRange(m.minor) && !IsEmpty(perms)
  }

  lemma ValidIsSeparatorFree(perms: Perms)
    requires IsValid(perms)
    ensures forall i :: 0 <= i < |perms| ==> !IsSeparator(perms[i])
  {
  }

  lemma LineFields(m: Meta, perms: Perms)
    requires m.node == BLOCK_DEVICE || m.node == CHAR_DEVICE
    requires IsValid(perms)
    ensures Fields(CgroupString(m, perms)) == [[m.node], NumberText(m.major), NumberText(m.minor)] + Flush(perms)
  {
    var major, minor := NumberText(m.major), NumberText(m.minor);
    NumberRoundTrip(m.major);
    NumberRoundTrip(m.minor);
    ValidIsSeparatorFree(perms);
    FieldsTakesWord([m.node], ' ', major + ":" + (minor + " " + perms));
    FieldsTakesWord(major, ':', minor + " " + perms);
    FieldsTakesWord(minor, ' ', perms);
    FieldsLastWord(perms);
  }

  /** A printed line reads back as the same entry, if and only if its numbers fit
      in 32 bits (or are wildcards) and it grants something; otherwise it is refused. */
  lemma LineRoundTrip(m: Meta, perms: Perms)
    requires m.node == BLOCK_DEVICE || m.node == CHAR_DEVICE
    requires IsValid(perms)
    ensures Printable(m, perms) ==> ParseLine(CgroupString(m, perms)) == Ok(Some(Entry(m, perms)))
    ensures !Printable(m, perms) ==> ParseLine(CgroupString(m, perms)).Err?
  {
    LineFields(m, perms);
    NumberRoundTrip(m.major);
    NumberRoundTrip(m.minor);
  }

  // ------------------------------------------------------------------ whole list

  function PrintAll(rules: Rules, metas: seq<Meta>): seq<string> {
    if metas == [] then []
    else
      var m := metas[|metas| - 1];
      PrintAll(rules, metas[..|metas| - 1]) + [CgroupString(m, PermsAt(rules, m))]
  }

  predicate AllPrintable(rules: Rules, metas: seq<Meta>) {
    forall m :: m in metas ==> Printable(m, PermsAt(rules, m))
  }

  function Restrict(rules: Rules, metas: seq<Meta>): Rules
    requires forall m :: m in metas ==> m in rules
  {
    map m | m in metas :: rules[m]
  }

  ghost predicate ReadsBack(r: Result<Table>, rules: Rules, metas: seq<Meta>)
    requires forall m :: m in metas ==> m in rules
  {
    if AllPrintable(rules, metas) then r == Ok(Table(false, Restrict(rules, metas))) else r.Err?
  }

  /** Reading back any listing of the keys, in any order and with repeats. */
  lemma {:induction false} PrintedPrefix(rules: Rules, metas: seq<Meta>)
    requires WellFormed(rules) && forall m :: m in metas ==> m in rules
    ensures ReadsBack(FromLines(PrintAll(rules, metas)), rules, metas)
  {
    if metas != [] {
      var init, m := metas[..|metas| - 1], metas[|metas| - 1];
      assert metas == init + [m];
      PrintedPrefix(rules, init);
      FromLinesSnoc(PrintAll(rules, init), CgroupString(m, rules[m]));
      LineRoundTrip(m, rules[m]);
      AddPrinted(rules, init, m);
    }
  }

  lemma FromLinesSnoc(lines: seq<string>, line: string)
    ensures FromLines(lines + [line])
         == match FromLines(lines)
            case Err(e) => Err(e)
            case Ok(t) =>
              match ParseLine(line)
              case Err(e) => Err(e)
              case Ok(entry) => AllowEntry(t, entry)
  {
    assert (lines + [line])[..|lines|] == lines;
  }

  lemma AddPrinted(rules: Rules, init: seq<Meta>, m: Meta)
    requires WellFormed(rules) && m in rules && forall x :: x in init ==> x in rules
    ensures AllowEntry(Table(false, Restrict(rules, init)), Some(Entry(m, rules[m])))
         == Ok(Table(false, Restrict(rules, init + [m])))
  {
    var read := Restrict(rules, init);
    AllowOnWhitelist(read, Entry(m, rules[m]));
    MergeSame(rules[m], PermsAt(read, m));
    RestrictGrows(rules, init, m);
  }

  lemma RestrictGrows(rules: Rules, init: seq<Meta>, m: Meta)
    requires m in rules && forall x :: x in init ==> x in rules
    ensures Restrict(rules, init)[m := rules[m]] == Restrict(rules, init + [m])
  {
  }

  lemma AllowOnWhitelist(rules: Rules, e: Entry)
    requires e.meta.node == BLOCK_DEVICE || e.meta.node == CHAR_DEVICE
    ensures AllowEntry(Table(false, rules), Some(e))
         == Ok(Table(false, rules[e.meta := Union(e.perms, PermsAt(rules, e.meta))]))
  {
    var r := Rule(e.meta.node, e.meta.major, e.meta.minor, e.perms, true);
    assert r.Key() == e.meta;
  }

  lemma MergeSame(p: Perms, q: Perms)
    requires IsValid(p) && (q == p || q == "")
    ensures Union(p, q) == p
  {
    assert forall c :: Has(Union(p, q), c) <==> Has(p, c);
    ValidIsExtensional(Union(p, q), p);
  }

  /** Printing a whitelist and reading it back gives the same table if and only if every entry is printable. */
  lemma ListRoundTrip(t: Table, metas: seq<Meta>)
    requires WellFormed(t.rules) && !t.defaultAllow
    requires forall m :: m in metas <==> m in t.rules
    ensures FromLines(PrintAll(t.rules, metas)) == Ok(t)
       <==> forall m :: m in t.rules ==> Printable(m, t.rules[m])
  {
    PrintedPrefix(t.rules, metas);
    RestrictToAll(t.rules, metas);
  }

  lemma RestrictToAll(rules: Rules, metas: seq<Meta>)
    requires forall m :: m in metas <==> m in rules
    ensures Restrict(rules, metas) == rules
    ensures AllPrintable(rules, metas) <==> forall m :: m in rules ==> Printable(m, rules[m])
  {
  }

  /** One line of type 'a' in a readable list makes the whole list allow-all. */
  lemma {:induction false} WildcardLineAllowsAll(lines: seq<string>, i: nat)
    requires forall l :: l in lines ==> ParseLine(l).Ok?
    requires i < |lines| && ParseLine(lines[i]) == Ok(None)
    ensures FromLines(lines) == Ok(Table(true, map[]))
  {
    var init, last := lines[..|lines| - 1], lines[|lines| - 1];
    if ParseLine(last) == Ok(None) {
      ReadableListLoads(init);
    } else {
      assert init[i] == lines[i];
      WildcardLineAllowsAll(init, i);
      var e := ParseLine(last).value.value;
      RemoveFromNothing(e);
    }
  }

  lemma {:induction false} ReadableListLoads(lines: seq<string>)
    requires forall l :: l in lines ==> ParseLine(l).Ok?
    ensures FromLines(lines).Ok?
    ensures FromLines(lines).value.defaultAllow ==> FromLines(lines).value.rules == map[]
  {
    if lines != [] {
      var init, last := lines[..|lines| - 1], lines[|lines| - 1];
      ReadableListLoads(init);
      assert ParseLine(last).Ok?;
      if ParseLine(last).value.Some? {
        RemoveFromNothing(ParseLine(last).value.value);
      }
    }
  }

  /** In allow-all an 'allow' entry is a removal from the empty table: nothing to do. */
  lemma RemoveFromNothing(e: Entry)
    requires e.meta.node == BLOCK_DEVICE || e.meta.node == CHAR_DEVICE
    ensures AllowEntry(Table(true, map[]), Some(e)) == Ok(Table(true, map[]))
  {
    HoleIsWiderOverlap(map[], e.meta, e.perms);
    assert forall w, c :: !Holds(map[], w, c);
    RemoveMeans(map[], e.meta, e.perms);
    var left := Removed(map[], e.meta, e.perms);
    EmptyMeansNothing(Difference("", e.perms));
    assert left == map[];
  }
}
