/** How gentle an edit script is: what holds after every prefix of it. */
module DeviceScript {
  import opened Permissions
  import opened DeviceTable
  import opened DeviceTransition

  /** `r` takes away only what `target` lacks, or gives only what `source` lacked. */
  ghost predicate Needed(r: Rule, source: Rules, target: Rules) {
    && (r.node == BLOCK_DEVICE || r.node == CHAR_DEVICE)
    && !IsEmpty(r.perms)
    && r.perms == if r.allow then Lost(target, source, r.Key()) else Lost(source, target, r.Key())
  }

  lemma {:induction false} DropsShape(source: Rules, target: Rules, order: seq<Meta>, allow: bool)
    ensures forall r :: r in Drops(source, target, order, allow) ==>
                          && r.Key() in order && r.allow == allow && !IsEmpty(r.perms)
                          && r.perms == Lost(source, target, r.Key())
  {
    if order != [] {
      var init, m := order[..|order| - 1], order[|order| - 1];
      assert order == init + [m];
      DropsShape(source, target, init, allow);
    }
  }

  /** A whitelist-to-whitelist script holds no reset rule and no superfluous rule. */
  lemma ScriptIsNeeded(source: Table, target: Table)
    requires WellFormed(source.rules) && WellFormed(target.rules) && !Disruptive(source, target)
    ensures forall r :: r in Script(source, target) ==>
                          r.node != WILDCARD_DEVICE && Needed(r, source.rules, target.rules)
  {
    var drops := Drops(source.rules, target.rules, Ordered(source.rules.Keys), false);
    var adds := Adds(source.rules, target.rules, Ordered(target.rules.Keys), true);
    DropsShape(source.rules, target.rules, Ordered(source.rules.Keys), false);
    DropsShape(target.rules, source.rules, Ordered(target.rules.Keys), true);
    forall r: Rule | r in drops + adds
      ensures r.node != WILDCARD_DEVICE && Needed(r, source.rules, target.rules)
    {
      assert r in drops || r in adds;
      assert if r in drops then r.Key() in source.rules else r.Key() in target.rules;
    }
  }

  /** Between the intersection and the union of source and target, exception by exception. */
  ghost predicate Bounded(rules: Rules, source: Rules, target: Rules) {
    forall m, c {:trigger Holds(rules, m, c)} ::
      && (Holds(source, m, c) && Holds(target, m, c) ==> Holds(rules, m, c))
      && (Holds(rules, m, c) ==> Holds(source, m, c) || Holds(target, m, c))
  }

  ghost predicate Between(t: Table, source: Table, target: Table) {
    !t.defaultAllow && WellFormed(t.rules) && Bounded(t.rules, source.rules, target.rules)
  }

  /** Needed rules, however many are applied, keep the table between source and target. */
  lemma {:induction false} NeededRunIsBetween(source: Table, target: Table, script: seq<Rule>)
    requires Between(source, source, target) && ApplyAll(source, script).Ok?
    requires forall r :: r in script ==> Needed(r, source.rules, target.rules)
    ensures Between(ApplyAll(source, script).value, source, target)
  {
    if script != [] {
      var init, r := script[..|script| - 1], script[|script| - 1];
      NeededRunIsBetween(source, target, init);
      NeededStaysBetween(ApplyAll(source, init).value, r, source, target);
    }
  }

  /** After every applied prefix the table lies between source and target. */
  lemma PrefixIsBetween(source: Table, target: Table, k: nat)
    requires WellFormed(source.rules) && WellFormed(target.rules) && !Disruptive(source, target)
    requires k <= |Script(source, target)| && ApplyAll(source, Script(source, target)[..k]).Ok?
    ensures Between(ApplyAll(source, Script(source, target)[..k]).value, source, target)
  {
    ScriptIsNeeded(source, target);
    NeededRunIsBetween(source, target, Script(source, target)[..k]);
  }

  lemma NeededStaysBetween(t: Table, r: Rule, source: Table, target: Table)
    requires Between(t, source, target) && Needed(r, source.rules, target.rules) && ApplyRule(t, r).Ok?
    ensures Between(ApplyRule(t, r).value, source, target)
  {
    if r.allow {
      AddMeans(t.rules, r.Key(), r.perms);
    } else {
      RemoveMeans(t.rules, r.Key(), r.perms);
    }
  }

  // ---------------------------------------------------------------- written once

  predicate WritesTo(r: Rule, m: Meta, c: char) {
    r.Key() == m && Has(r.perms, c)
  }

  function Writes(script: seq<Rule>, m: Meta, c: char): nat {
    if script == [] then 0
    else Writes(script[..|script| - 1], m, c) + if WritesTo(script[|script| - 1], m, c) then 1 else 0
  }

  lemma {:induction false} WritesConcat(a: seq<Rule>, b: seq<Rule>, m: Meta, c: char)
    ensures Writes(a + b, m, c) == Writes(a, m, c) + Writes(b, m, c)
  {
    if b == [] {
      assert a + b == a;
    } else {
      var init := b[..|b| - 1];
      WritesConcat(a, init, m, c);
      assert (a + b)[..|a + b| - 1] == a + init;
    }
  }

  lemma {:induction false} DropsWriteOnce(source: Rules, target: Rules, order: seq<Meta>, allow: bool, m: Meta, c: char)
    requires Sorted(order)
    ensures Writes(Drops(source, target, order, allow), m, c)
         == if m in order && Has(Lost(source, target, m), c) then 1 else 0
  {
    if order != [] {
      var init, last := order[..|order| - 1], order[|order| - 1];
      assert order == init + [last];
      assert last !in init;
      assert m in order <==> m in init || m == last;
      DropsWriteOnce(source, target, init, allow, m, c);
      WritesConcat(Drops(source, target, init, allow), DropOf(source, target, last, allow), m, c);
      WritesOfOne(source, target, last, allow, m, c);
    }
  }

  lemma WritesOfOne(source: Rules, target: Rules, last: Meta, allow: bool, m: Meta, c: char)
    ensures Writes(DropOf(source, target, last, allow), m, c)
         == if m == last && Has(Lost(source, target, last), c) then 1 else 0
  {
    var perms := Lost(source, target, last);
    EmptyMeansNothing(perms);
    if !IsEmpty(perms) {
      var r := Rule(last.node, last.major, last.minor, perms, allow);
      assert [r][..0] == [];
      assert Writes([r], m, c) == Writes([], m, c) + if WritesTo(r, m, c) then 1 else 0;
    }
  }

  /** Every (exception, permission) pair that differs is written exactly once, and no other is written. */
  lemma ChangedPairsWrittenOnce(source: Table, target: Table, m: Meta, c: char)
    requires !Disruptive(source, target)
    ensures Writes(Script(source, target), m, c)
         == if Holds(source.rules, m, c) != Holds(target.rules, m, c) then 1 else 0
  {
    var oldOrder, newOrder := Ordered(source.rules.Keys), Ordered(target.rules.Keys);
    WritesConcat(Drops(source.rules, target.rules, oldOrder, false),
                 Adds(source.rules, target.rules, newOrder, true), m, c);
    DropsWriteOnce(source.rules, target.rules, oldOrder, false, m, c);
    DropsWriteOnce(target.rules, source.rules, newOrder, true, m, c);
    assert Holds(source.rules, m, c) ==> m in oldOrder;
    assert Holds(target.rules, m, c) ==> m in newOrder;
  }

  /** A whitelist's script to itself is empty. */
  lemma SelfTransitionIsEmpty(t: Table)
    requires WellFormed(t.rules) && !t.defaultAllow
    ensures Script(t, t) == []
  {
    ScriptIsNeeded(t, t);
    if Script(t, t) != [] {
      var r := Script(t, t)[0];
      assert r in Script(t, t);
      EmptyMeansNothing(r.perms);
      assert false;
    }
  }

  // ------------------------------------------------------------ access on the way

  /** Some single exception grants `c` on `d` in both tables. */
  ghost predicate KeptGrant(source: Rules, target: Rules, d: Meta, c: char) {
    exists m :: Matches(m, d) && Holds(source, m, c) && Holds(target, m, c)
  }

  lemma ScriptIsApplied(source: Table, target: Table)
    requires WellFormed(source.rules) && WellFormed(target.rules) && !Disruptive(source, target)
    requires HoleFree(source.rules, target.rules)
    ensures ApplyAll(source, Script(source, target)).Ok?
  {
    var drops := Drops(source.rules, target.rules, Ordered(source.rules.Keys), false);
    var adds := Adds(source.rules, target.rules, Ordered(target.rules.Keys), true);
    ApplyAllConcat(source, drops, adds);
    ListingIsInitial(Ordered(source.rules.Keys), source.rules.Keys);
    DropsTrim(source.rules, target.rules, Ordered(source.rules.Keys));
    AddsFill(ApplyAll(source, drops).value, source.rules, target.rules, Ordered(target.rules.Keys));
  }

  /** Access stays granted through the whole script if and only if one exception keeps granting it;
      being allowed before and after through different exceptions is not enough. */
  lemma NoSpuriousDenialIffKept(source: Table, target: Table, d: Meta, c: char)
    requires WellFormed(source.rules) && WellFormed(target.rules) && !Disruptive(source, target)
    requires HoleFree(source.rules, target.rules)
    ensures (forall k :: 0 <= k <= |Script(source, target)| ==>
                           var r := ApplyAll(source, Script(source, target)[..k]);
                           r.Ok? && Allowed(r.value, d, c))
       <==> KeptGrant(source.rules, target.rules, d, c)
  {
    var script := Script(source, target);
    if KeptGrant(source.rules, target.rules, d, c) {
      ScriptIsApplied(source, target);
      var m :| Matches(m, d) && Holds(source.rules, m, c) && Holds(target.rules, m, c);
      forall k | 0 <= k <= |script|
        ensures ApplyAll(source, script[..k]).Ok? && Allowed(ApplyAll(source, script[..k]).value, d, c)
      {
        PrefixIsApplied(source, script, k);
        PrefixIsBetween(source, target, k);
        assert Holds(ApplyAll(source, script[..k]).value.rules, m, c);
      }
    } else {
      var drops := Drops(source.rules, target.rules, Ordered(source.rules.Keys), false);
      assert script[..|drops|] == drops;
      ListingIsInitial(Ordered(source.rules.Keys), source.rules.Keys);
      DropsTrim(source.rules, target.rules, Ordered(source.rules.Keys));
      var mid := ApplyAll(source, drops).value;
      TrimmedDenies(mid, source.rules, target.rules, d, c);
    }
  }

  lemma TrimmedDenies(mid: Table, source: Rules, target: Rules, d: Meta, c: char)
    requires IsTrimmed(Ok(mid), source, target, Ordered(source.Keys)) && !KeptGrant(source, target, d, c)
    ensures !Allowed(mid, d, c)
  {
    if m :| Matches(m, d) && Holds(mid.rules, m, c) {
      assert false;
    }
  }

  /** No prefix grants an access that neither table grants. */
  lemma NoSpuriousGrant(source: Table, target: Table, k: nat, d: Meta, c: char)
    requires WellFormed(source.rules) && WellFormed(target.rules) && !Disruptive(source, target)
    requires k <= |Script(source, target)| && ApplyAll(source, Script(source, target)[..k]).Ok?
    requires Allowed(ApplyAll(source, Script(source, target)[..k]).value, d, c)
    ensures Allowed(source, d, c) || Allowed(target, d, c)
  {
    PrefixIsBetween(source, target, k);
    var t := ApplyAll(source, Script(source, target)[..k]).value;
    var m :| Matches(m, d) && Holds(t.rules, m, c);
    assert Holds(source.rules, m, c) || Holds(target.rules, m, c);
  }

  // ------------------------------------------------------------------- Rules()

  /** `Rules()` rebuilds every table from deny-all, exactly when no key is hollow. */
  lemma RulesRebuildTable(t: Table)
    requires WellFormed(t.rules)
    ensures ApplyAll(Table(false, map[]), Script(Table(false, map[]), t)) == Ok(t) <==> Hollow(t.rules) == {}
  {
    var empty := Table(false, map[]);
    if Disruptive(empty, t) {
      DisruptiveReplay(empty, t);
    } else {
      GentleReplay(empty, t);
      assert HoleFree(empty.rules, t.rules);
      assert Hollow(empty.rules) == {};
    }
  }

  const WILD := Meta(CHAR_DEVICE, WILDCARD, WILDCARD)
  const DEV_NULL := Meta(CHAR_DEVICE, 1, 3)
  const BOTH := Table(false, map[WILD := "r", DEV_NULL := "r"])
  const WILD_ONLY := Table(false, map[WILD := "r"])

  /** Two tables the code cannot move between: "c 1:3 r" goes while "c *:* r" stays. */
  lemma BlockedTransitionExample()
    ensures ApplyAll(BOTH, Script(BOTH, WILD_ONLY)) != Ok(WILD_ONLY)
  {
    ExampleTables();
    ReplayForOrdinaryNumbers(BOTH, WILD_ONLY);
  }

  lemma ExampleTables()
    ensures WellFormed(BOTH.rules) && WellFormed(WILD_ONLY.rules)
    ensures Hollow(BOTH.rules) == {} && Hollow(WILD_ONLY.rules) == {}
    ensures Wider(WILD, DEV_NULL)
    ensures Holds(BOTH.rules, DEV_NULL, 'r') && !Holds(WILD_ONLY.rules, DEV_NULL, 'r')
    ensures Holds(BOTH.rules, WILD, 'r') && Holds(WILD_ONLY.rules, WILD, 'r')
  {
    assert BitsOf("r") == Bits(true, false, false) && IsValid("r") && Has("r", 'r');
  }
}
