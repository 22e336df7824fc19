/** The emulator object: a table updated in place, method by method as in the source.
    Every method is tied to the functions of the value modules. */
module DeviceEmulator {
  import opened Permissions
  import opened DeviceTable
  import opened DeviceTransition
  import opened Wrappers
  import opened DevicesList

  /** `orderedEntries`: the map's entries, sorted. */
  method OrderedEntries(rules: Rules) returns (entries: seq<Entry>)
    ensures |entries| == |Ordered(rules.Keys)|
    ensures forall i :: 0 <= i < |entries| ==>
                          entries[i] == Entry(Ordered(rules.Keys)[i], PermsAt(rules, Ordered(rules.Keys)[i]))
  {
    var order: seq<Meta> := [];
    var left := rules.Keys;
    while left != {}
      invariant left <= rules.Keys && Lists(order, rules.Keys - left)
      decreases |left|
    {
      var m :| m in left;
      order := Insert(order, m);
      left := left - {m};
    }
    OrderIsUnique(order, Ordered(rules.Keys), rules.Keys);
    entries := seq(|order|, i requires 0 <= i < |order| => Entry(order[i], PermsAt(rules, order[i])));
  }

  class Emulator {
    var defaultAllow: bool
    var rules: Rules

    function State(): Table
      reads this
    {
      Table(defaultAllow, rules)
    }

    constructor (defaultAllow: bool)
      ensures State() == Table(defaultAllow, map[])
    {
      this.defaultAllow := defaultAllow;
      this.rules := map[];
    }

    predicate IsBlacklist()
      reads this
    {
      defaultAllow
    }

    method Add(m: Meta, perms: Perms)
      modifies this`rules
      ensures rules == AddRule(old(rules), m, perms)
    {
      var oldPerms := PermsAt(rules, m);
      rules := rules[m := Union(perms, oldPerms)];
    }

    /** `rmRule`: refuses to punch a hole in a wider wildcard, else subtracts. */
    method Remove(m: Meta, perms: Perms) returns (r: Result<()>)
      modifies this`rules
      ensures r.Err? <==> exists w, c :: Wider(w, m) && Holds(old(rules), w, c) && Has(perms, c)
      ensures rules == if r.Ok? then Removed(old(rules), m, perms) else old(rules)
      ensures r.Err? ==> r == Err(HoleInWildcard(m))
    {
      HoleIsWiderOverlap(rules, m, perms);
      var partials := Partials(m);
      for i := 0 to 3
        invariant forall j :: 0 <= j < i && partials[j] != m
                              ==> IsEmpty(Intersection(PermsAt(rules, partials[j]), perms))
      {
        if partials[i] != m {
          var partialPerms := PermsAt(rules, partials[i]);
          if !IsEmpty(Intersection(partialPerms, perms)) {
            return Err(HoleInWildcard(m));
          }
        }
      }
      var newPerms := Difference(PermsAt(rules, m), perms);
      if IsEmpty(newPerms) {
        rules := rules - {m};
      } else {
        rules := rules[m := newPerms];
      }
      r := Ok(());
    }

    /** `allow` when `allowed`, `deny` otherwise; `None` stands for the nil rule that resets. */
    method Update(entry: Option<Entry>, allowed: bool) returns (r: Result<()>)
      requires entry.Some? ==> CanCgroup(entry.value.meta.node)
      modifies this
      ensures Updated(old(State()), entry, allowed, State(), r)
    {
      if entry.None? || entry.value.meta.node == WILDCARD_DEVICE {
        defaultAllow, rules := allowed, map[];
        return Ok(());
      }
      HoleIsWiderOverlap(rules, entry.value.meta, entry.value.perms);
      if defaultAllow == allowed {
        r := Remove(entry.value.meta, entry.value.perms);
      } else {
        Add(entry.value.meta, entry.value.perms);
        r := Ok(());
      }
    }

    /** `Apply`: the new table is the one the rule denotes; an error changes nothing. */
    method Apply(rule: Rule) returns (r: Result<()>)
      modifies this
      ensures match ApplyRule(old(State()), rule)
              case Ok(t) => r.Ok? && State() == t
              case Err(e) => r == Err(e) && State() == old(State())
    {
      if !CanCgroup(rule.node) {
        return Err(NonCgroupType(rule.node));
      }
      var inner := if rule.node == WILDCARD_DEVICE then None else Some(Entry(rule.Key(), rule.perms));
      r := Update(inner, rule.allow);
    }

    /** `Transition`: the sorted edit script from this table to the target's. */
    method Transition(target: Emulator) returns (script: seq<Rule>)
      ensures script == Script(State(), target.State())
    {
      script := [];
      var oldRules := rules;
      if IsBlacklist() || defaultAllow != target.defaultAllow {
        script := [Rule(WILDCARD_DEVICE, -1, -1, "rwm", target.defaultAllow)];
        oldRules := map[];
      }
      var drops := InverseRules(oldRules, target.rules, target.defaultAllow);
      var adds := InverseRules(target.rules, oldRules, !target.defaultAllow);
      ScriptParts(State(), target.State(), oldRules);
      script := script + drops + adds;
    }

    /** `Rules`: the script from deny-all to this table. */
    method MinimalRules() returns (script: seq<Rule>)
      ensures script == Script(Table(false, map[]), State())
    {
      var denyAll := new Emulator(false);
      script := denyAll.Transition(this);
    }
  }

  /** The script as `Transition` assembles it, where a reset forgets the old rules. */
  lemma ScriptParts(source: Table, target: Table, oldRules: Rules)
    requires oldRules == if Disruptive(source, target) then map[] else source.rules
    ensures Script(source, target)
         == (if Disruptive(source, target) then [Reset(target)] else [])
            + Drops(oldRules, target.rules, Ordered(oldRules.Keys), target.defaultAllow)
            + Drops(target.rules, oldRules, Ordered(target.rules.Keys), !target.defaultAllow)
  {
    var drops := Drops(oldRules, target.rules, Ordered(oldRules.Keys), target.defaultAllow);
    if Disruptive(source, target) {
      NonemptyHasMember(Ordered(oldRules.Keys));
      assert [Reset(target)] + drops == [Reset(target)];
    } else {
      assert [] + drops == drops;
    }
  }

  /** One more entry of a listing adds its rule, if it loses anything. */
  lemma DropsStep(from: Rules, to: Rules, order: seq<Meta>, i: nat, allow: bool)
    requires i < |order|
    ensures Drops(from, to, order[..i + 1], allow)
         == Drops(from, to, order[..i], allow) + DropOf(from, to, order[i], allow)
  {
    assert order[..i + 1][..i] == order[..i];
  }

  /** Both loops of `Transition`: a rule for every entry of `from` that `to` lacks in part. */
  method InverseRules(from: Rules, to: Rules, allow: bool) returns (script: seq<Rule>)
    ensures script == Drops(from, to, Ordered(from.Keys), allow)
  {
    var entries := OrderedEntries(from);
    ghost var order := Ordered(from.Keys);
    script := [];
    for i := 0 to |entries|
      invariant script == Drops(from, to, order[..i], allow)
    {
      var meta, perms := entries[i].meta, entries[i].perms;
      DropsStep(from, to, order, i, allow);
      var dropped := Difference(perms, PermsAt(to, meta));
      assert dropped == Lost(from, to, meta);
      if !IsEmpty(dropped) {
        script := script + [Rule(meta.node, meta.major, meta.minor, dropped, allow)];
      }
    }
    assert order[..|order|] == order;
  }

  /** What `allow`/`deny` do to a table. */
  ghost predicate Updated(before: Table, entry: Option<Entry>, allowed: bool, after: Table, r: Result<()>)
    requires entry.Some? ==> CanCgroup(entry.value.meta.node)
  {
    match entry
    case None => r.Ok? && after == Table(allowed, map[])
    case Some(e) =>
      match ApplyRule(before, Rule(e.meta.node, e.meta.major, e.meta.minor, e.perms, allowed))
      case Ok(t) => r.Ok? && after == t
      case Err(err) => r == Err(err) && after == before
  }

  /** `EmulatorFromList`: read every line, stop at the first bad one. */
  method FromList(lines: seq<string>) returns (e: Emulator, r: Result<()>)
    ensures fresh(e)
    ensures match FromLines(lines)
            case Ok(t) => r.Ok? && e.State() == t
            case Err(err) => r == Err(err)
  {
    e := new Emulator(false);
    r := Ok(());
    for i := 0 to |lines|
      invariant FromLines(lines[..i]) == Ok(e.State()) && r.Ok?
    {
      assert lines[..i + 1][..i] == lines[..i];
      var entry := ParseLine(lines[i]);
      if entry.Err? {
        PrefixFails(lines, i + 1);
        return e, Err(entry.error);
      }
      r := e.Update(entry.value, true);
      if r.Err? {
        PrefixFails(lines, i + 1);
        return;
      }
    }
    assert lines[..|lines|] == lines;
  }

  lemma {:induction false} PrefixFails(lines: seq<string>, k: nat)
    requires k <= |lines| && FromLines(lines[..k]).Err?
    ensures FromLines(lines) == Err(FromLines(lines[..k]).error)
    decreases |lines| - k
  {
    if k == |lines| {
      assert lines[..k] == lines;
    } else {
      assert lines[..k + 1][..k] == lines[..k];
      PrefixFails(lines, k + 1);
    }
  }
}
