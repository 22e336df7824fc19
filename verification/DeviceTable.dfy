/** The allow/deny exception table of the cgroup v1 devices controller, as a value.

    A table is a default policy plus exceptions keyed by (type, major, minor),
    where -1 is a wildcard. This module gives the meaning of one rule and of a
    list of rules, and relates it to the access decision a device sees. */
module DeviceTable {
  import opened Permissions

  const WILDCARD: int := -1
  const WILDCARD_DEVICE: char := 'a'
  const BLOCK_DEVICE: char := 'b'
  const CHAR_DEVICE: char := 'c'

  datatype Meta = Meta(node: char, major: int, minor: int)

  type Rules = map<Meta, Perms>

  datatype Table = Table(defaultAllow: bool, rules: Rules)

  datatype Rule = Rule(node: char, major: int, minor: int, perms: Perms, allow: bool) {
    function Key(): Meta {
      Meta(node, major, minor)
    }
  }

  datatype Error = NonCgroupType(node: char) | HoleInWildcard(meta: Meta) | BadLine(line: string)

  datatype Result<+T> = Ok(value: T) | Err(error: Error)

  predicate CanCgroup(node: char) {
    node == WILDCARD_DEVICE || node == BLOCK_DEVICE || node == CHAR_DEVICE
  }

  /** The permissions stored for `m`; a missing key reads as none. */
  function PermsAt(rules: Rules, m: Meta): Perms {
    if m in rules then rules[m] else ""
  }

  predicate Holds(rules: Rules, m: Meta, c: char) {
    Has(PermsAt(rules, m), c)
  }

  /** What every reachable table satisfies: concrete types and canonical strings. */
  predicate WellFormed(rules: Rules) {
    forall m :: m in rules ==> (m.node == BLOCK_DEVICE || m.node == CHAR_DEVICE) && IsValid(rules[m])
  }

  /** Keys kept with no permission at all: an add of "" leaves one behind. */
  function Hollow(rules: Rules): set<Meta> {
    set m | m in rules && IsEmpty(rules[m])
  }

  lemma EqualRules(a: Rules, b: Rules)
    requires WellFormed(a) && WellFormed(b)
    requires forall m, c :: Holds(a, m, c) <==> Holds(b, m, c)
    requires Hollow(a) == Hollow(b)
    ensures a == b
  {
    forall m | m in a || m in b
      ensures m in a && m in b && a[m] == b[m]
    {
      SameEntry(a, b, m);
      SameEntry(b, a, m);
    }
  }

  lemma SameEntry(a: Rules, b: Rules, m: Meta)
    requires WellFormed(a) && WellFormed(b)
    requires forall m, c :: Holds(a, m, c) <==> Holds(b, m, c)
    requires Hollow(a) == Hollow(b)
    ensures m in a ==> m in b && a[m] == b[m]
  {
    if m in a {
      if IsEmpty(a[m]) {
        assert m in Hollow(b);
      } else {
        EmptyMeansNothing(a[m]);
        var c :| Has(a[m], c);
        assert Holds(a, m, c) && Holds(b, m, c);
        assert forall c :: Has(a[m], c) <==> Holds(a, m, c);
        assert forall c :: Has(b[m], c) <==> Holds(b, m, c);
        ValidIsExtensional(a[m], b[m]);
      }
    }
  }

  // ---------------------------------------------------------------- one rule

  function AddRule(rules: Rules, m: Meta, perms: Perms): Rules {
    rules[m := Union(perms, PermsAt(rules, m))]
  }

  /** The wildcard keys that `rmRule` inspects before removing from `m`. */
  function Partials(m: Meta): seq<Meta> {
    [Meta(m.node, WILDCARD, m.minor), Meta(m.node, m.major, WILDCARD), Meta(m.node, WILDCARD, WILDCARD)]
  }

  /** A different key, whose pattern covers that of `m`. */
  predicate Wider(w: Meta, m: Meta) {
    && w != m && w.node == m.node
    && (w.major == WILDCARD || w.major == m.major)
    && (w.minor == WILDCARD || w.minor == m.minor)
  }

  lemma PartialsAreTheWiderKeys(m: Meta, w: Meta)
    ensures w in Partials(m) && w != m <==> Wider(w, m)
  {
    assert Partials(m)[0] == Meta(m.node, WILDCARD, m.minor);
    assert Partials(m)[1] == Meta(m.node, m.major, WILDCARD);
    assert Partials(m)[2] == Meta(m.node, WILDCARD, WILDCARD);
  }

  predicate PunchesHole(rules: Rules, m: Meta, perms: Perms) {
    exists i :: 0 <= i < 3 && Partials(m)[i] != m
                && !IsEmpty(Intersection(PermsAt(rules, Partials(m)[i]), perms))
  }

  /** A removal is refused exactly when a wider exception holds one of the permissions. */
  lemma HoleIsWiderOverlap(rules: Rules, m: Meta, perms: Perms)
    ensures PunchesHole(rules, m, perms) <==> exists w, c :: Wider(w, m) && Holds(rules, w, c) && Has(perms, c)
  {
    if PunchesHole(rules, m, perms) {
      var i :| 0 <= i < 3 && Partials(m)[i] != m && !IsEmpty(Intersection(PermsAt(rules, Partials(m)[i]), perms));
      var w := Partials(m)[i];
      PartialsAreTheWiderKeys(m, w);
      EmptyMeansNothing(Intersection(PermsAt(rules, w), perms));
      var c :| Has(Intersection(PermsAt(rules, w), perms), c);
      assert Wider(w, m) && Holds(rules, w, c) && Has(perms, c);
    }
    if w, c :| Wider(w, m) && Holds(rules, w, c) && Has(perms, c) {
      PartialsAreTheWiderKeys(m, w);
      var i :| 0 <= i < 3 && Partials(m)[i] == w;
      EmptyMeansNothing(Intersection(PermsAt(rules, w), perms));
      assert Has(Intersection(PermsAt(rules, w), perms), c);
    }
  }

  function Removed(rules: Rules, m: Meta, perms: Perms): Rules {
    var left := Difference(PermsAt(rules, m), perms);
    if IsEmpty(left) then rules - {m} else rules[m := left]
  }

  function RmRule(rules: Rules, m: Meta, perms: Perms): Result<Rules> {
    if PunchesHole(rules, m, perms) then Err(HoleInWildcard(m)) else Ok(Removed(rules, m, perms))
  }

  /** `Apply`: a rule of type 'a' resets the table, any other adds or removes an exception. */
  function ApplyRule(t: Table, r: Rule): Result<Table> {
    if !CanCgroup(r.node) then Err(NonCgroupType(r.node))
    else if r.node == WILDCARD_DEVICE then Ok(Table(r.allow, map[]))
    else if IsRemoval(t, r) then
      match RmRule(t.rules, r.Key(), r.perms)
      case Ok(rules) => Ok(Table(t.defaultAllow, rules))
      case Err(e) => Err(e)
    else Ok(Table(t.defaultAllow, AddRule(t.rules, r.Key(), r.perms)))
  }

  /** The rule repeats the default policy, so it takes an exception away. */
  predicate IsRemoval(t: Table, r: Rule) {
    r.node != WILDCARD_DEVICE && r.allow == t.defaultAllow
  }

  lemma AddMeans(rules: Rules, m: Meta, perms: Perms)
    requires WellFormed(rules) && (m.node == BLOCK_DEVICE || m.node == CHAR_DEVICE)
    ensures WellFormed(AddRule(rules, m, perms))
    ensures forall x, c {:trigger Holds(AddRule(rules, m, perms), x, c)} ::
              Holds(AddRule(rules, m, perms), x, c) <==> Holds(rules, x, c) || (x == m && Has(perms, c))
    ensures (exists c :: Has(perms, c)) ==> Hollow(AddRule(rules, m, perms)) == Hollow(rules) - {m}
  {
    var u := Union(perms, PermsAt(rules, m));
    if c :| Has(perms, c) {
      assert Has(u, c);
      UpdateHollow(rules, m, u);
    }
  }

  lemma UpdateHollow(rules: Rules, m: Meta, perms: Perms)
    requires !IsEmpty(perms)
    ensures Hollow(rules[m := perms]) == Hollow(rules) - {m}
  {
  }

  lemma RemoveMeans(rules: Rules, m: Meta, perms: Perms)
    requires WellFormed(rules)
    ensures WellFormed(Removed(rules, m, perms))
    ensures forall x, c {:trigger Holds(Removed(rules, m, perms), x, c)} ::
              Holds(Removed(rules, m, perms), x, c) <==> Holds(rules, x, c) && !(x == m && Has(perms, c))
    ensures Hollow(Removed(rules, m, perms)) == Hollow(rules) - {m}
  {
    var left := Difference(PermsAt(rules, m), perms);
    EmptyMeansNothing(left);
    if IsEmpty(left) {
      assert Hollow(rules - {m}) == Hollow(rules) - {m};
    } else {
      UpdateHollow(rules, m, left);
    }
  }

  lemma ApplyKeepsWellFormed(t: Table, r: Rule)
    requires WellFormed(t.rules) && ApplyRule(t, r).Ok?
    ensures WellFormed(ApplyRule(t, r).value.rules)
  {
    if r.node != WILDCARD_DEVICE {
      AddMeans(t.rules, r.Key(), r.perms);
      RemoveMeans(t.rules, r.Key(), r.perms);
    }
  }

  // ----------------------------------------------------------- lists of rules

  /** Apply rules in order, stopping at the first that is refused. */
  function ApplyAll(t: Table, script: seq<Rule>): Result<Table> {
    if script == [] then Ok(t)
    else match ApplyAll(t, script[..|script| - 1])
      case Ok(u) => ApplyRule(u, script[|script| - 1])
      case Err(e) => Err(e)
  }

  lemma ApplyAllSnoc(t: Table, script: seq<Rule>, r: Rule)
    ensures ApplyAll(t, script + [r])
         == match ApplyAll(t, script) case Ok(u) => ApplyRule(u, r) case Err(e) => Err(e)
  {
    assert (script + [r])[..|script|] == script;
  }

  lemma {:induction false} ApplyAllConcat(t: Table, a: seq<Rule>, b: seq<Rule>)
    ensures ApplyAll(t, a + b)
         == match ApplyAll(t, a) case Ok(u) => ApplyAll(u, b) case Err(e) => Err(e)
  {
    if b == [] {
      assert a + b == a;
    } else {
      var init, last := b[..|b| - 1], b[|b| - 1];
      ApplyAllConcat(t, a, init);
      assert a + b == a + init + [last];
      ApplyAllSnoc(t, a + init, last);
    }
  }

  // ------------------------------------------------------------ access decision

  /** A real device node: a type with concrete numbers. */
  predicate IsDevice(d: Meta) {
    d.major >= 0 && d.minor >= 0
  }

  predicate Matches(m: Meta, d: Meta) {
    m == d || Wider(m, d)
  }

  ghost predicate Excepted(rules: Rules, d: Meta, c: char) {
    exists m :: Matches(m, d) && Holds(rules, m, c)
  }

  ghost predicate Allowed(t: Table, d: Meta, c: char) {
    if Excepted(t.rules, d, c) then !t.defaultAllow else t.defaultAllow
  }

  predicate RuleMatches(r: Rule, d: Meta, c: char) {
    r.node == WILDCARD_DEVICE || (Matches(r.Key(), d) && Has(r.perms, c))
  }

  /** What a reader of the rule list expects: the last matching rule decides. */
  ghost predicate LastMatch(t: Table, script: seq<Rule>, d: Meta, c: char) {
    if script == [] then Allowed(t, d, c)
    else
      var last := script[|script| - 1];
      if RuleMatches(last, d, c) then last.allow else LastMatch(t, script[..|script| - 1], d, c)
  }

  predicate Compatible(x: int, y: int) {
    x >= WILDCARD && y >= WILDCARD && (x == WILDCARD || y == WILDCARD || x == y)
  }

  /** Some device matches both keys. */
  predicate Overlap(a: Meta, b: Meta) {
    a.node == b.node && Compatible(a.major, b.major) && Compatible(a.minor, b.minor)
  }

  function Common(a: Meta, b: Meta): (d: Meta)
    requires Overlap(a, b)
    ensures IsDevice(d) && Matches(a, d) && Matches(b, d)
  {
    Meta(a.node,
         if a.major >= 0 then a.major else if b.major >= 0 then b.major else 0,
         if a.minor >= 0 then a.minor else if b.minor >= 0 then b.minor else 0)
  }

  /** No other exception keeps, for some matching device, a permission the removal names. */
  ghost predicate Clean(t: Table, r: Rule) {
    IsRemoval(t, r) ==>
      forall m, c :: m != r.Key() && Overlap(m, r.Key()) && Has(r.perms, c) ==> !Holds(t.rules, m, c)
  }

  /** The rule decides every device it matches and leaves every other device alone. */
  ghost predicate Decides(t: Table, r: Rule, u: Table) {
    forall d, c :: IsDevice(d) ==>
                     (Allowed(u, d, c) <==> if RuleMatches(r, d, c) then r.allow else Allowed(t, d, c))
  }

  /** One applied rule means what it says if and only if it is `Clean`. */
  lemma RuleDecidesIffClean(t: Table, r: Rule)
    requires WellFormed(t.rules) && ApplyRule(t, r).Ok?
    ensures Decides(t, r, ApplyRule(t, r).value) <==> Clean(t, r)
  {
    var u := ApplyRule(t, r).value;
    if !IsRemoval(t, r) {
      if r.node != WILDCARD_DEVICE {
        AdditionDecides(t, r, u);
      }
    } else if Clean(t, r) {
      CleanRemovalDecides(t, r, u);
    } else {
      UncleanRemovalFails(t, r, u);
    }
  }

  lemma UncleanRemovalFails(t: Table, r: Rule, u: Table)
    requires WellFormed(t.rules) && ApplyRule(t, r) == Ok(u)
    requires IsRemoval(t, r) && !Clean(t, r)
    ensures !Decides(t, r, u)
  {
    RemoveMeans(t.rules, r.Key(), r.perms);
    var m, c :| m != r.Key() && Overlap(m, r.Key()) && Has(r.perms, c) && Holds(t.rules, m, c);
    var d := Common(m, r.Key());
    assert Holds(u.rules, m, c);
    assert Excepted(u.rules, d, c) && RuleMatches(r, d, c);
  }

  lemma CleanRemovalDecides(t: Table, r: Rule, u: Table)
    requires WellFormed(t.rules) && ApplyRule(t, r) == Ok(u)
    requires IsRemoval(t, r) && Clean(t, r)
    ensures Decides(t, r, u)
  {
    RemoveMeans(t.rules, r.Key(), r.perms);
    forall d, c | IsDevice(d)
      ensures Allowed(u, d, c) <==> if RuleMatches(r, d, c) then r.allow else Allowed(t, d, c)
    {
      if RuleMatches(r, d, c) {
        if m :| Matches(m, d) && Holds(u.rules, m, c) {
          assert m != r.Key() && Overlap(m, r.Key());
        }
      } else if m :| Matches(m, d) && Holds(t.rules, m, c) {
        assert Holds(u.rules, m, c);
      }
    }
  }

  lemma AdditionDecides(t: Table, r: Rule, u: Table)
    requires WellFormed(t.rules) && ApplyRule(t, r) == Ok(u)
    requires r.node != WILDCARD_DEVICE && !IsRemoval(t, r)
    ensures Decides(t, r, u)
  {
    AddMeans(t.rules, r.Key(), r.perms);
    forall d, c | IsDevice(d)
      ensures Allowed(u, d, c) <==> if RuleMatches(r, d, c) then r.allow else Allowed(t, d, c)
    {
      if RuleMatches(r, d, c) {
        assert Holds(u.rules, r.Key(), c);
      } else if m :| Matches(m, d) && Holds(t.rules, m, c) {
        assert Holds(u.rules, m, c);
      }
    }
  }

  /** A successful removal at concrete numbers is always clean: that is what the hole check buys. */
  lemma ConcreteRemovalIsClean(t: Table, r: Rule)
    requires ApplyRule(t, r).Ok?
    requires IsRemoval(t, r) ==> r.major >= 0 && r.minor >= 0
    ensures Clean(t, r)
  {
    if IsRemoval(t, r) {
      HoleIsWiderOverlap(t.rules, r.Key(), r.perms);
      forall m, c | m != r.Key() && Overlap(m, r.Key()) && Has(r.perms, c)
        ensures !Holds(t.rules, m, c)
      {
        assert Wider(m, r.Key());
      }
    }
  }

  ghost predicate ConcreteAfter(t: Table, before: seq<Rule>, r: Rule) {
    ApplyAll(t, before).Ok? && IsRemoval(ApplyAll(t, before).value, r) ==> r.major >= 0 && r.minor >= 0
  }

  /** Every rule of the list that removes an exception names concrete numbers. */
  ghost predicate ConcreteRemovals(t: Table, script: seq<Rule>) {
    forall k :: 0 <= k < |script| ==> ConcreteAfter(t, script[..k], script[k])
  }

  /** The list is applied without error and decides every access by its last matching rule. */
  ghost predicate Obeys(t: Table, script: seq<Rule>) {
    && ApplyAll(t, script).Ok?
    && forall d, c :: IsDevice(d) ==> (Allowed(ApplyAll(t, script).value, d, c) <==> LastMatch(t, script, d, c))
  }

  ghost predicate CleanAfter(t: Table, before: seq<Rule>, r: Rule) {
    ApplyAll(t, before).Ok? ==> Clean(ApplyAll(t, before).value, r)
  }

  /** Each rule is clean in the table that it finds. */
  ghost predicate CleanAlong(t: Table, script: seq<Rule>) {
    forall k :: 0 <= k < |script| ==> CleanAfter(t, script[..k], script[k])
  }

  ghost predicate ObeysAlong(t: Table, script: seq<Rule>) {
    forall k :: 0 <= k <= |script| ==> Obeys(t, script[..k])
  }

  lemma {:induction false} AppliedKeepsWellFormed(t: Table, script: seq<Rule>)
    requires WellFormed(t.rules) && ApplyAll(t, script).Ok?
    ensures WellFormed(ApplyAll(t, script).value.rules)
  {
    if script != [] {
      AppliedKeepsWellFormed(t, script[..|script| - 1]);
      ApplyKeepsWellFormed(ApplyAll(t, script[..|script| - 1]).value, script[|script| - 1]);
    }
  }

  /** One more rule: the law goes on to hold exactly if that rule is clean. */
  lemma ObeysOneMore(t: Table, init: seq<Rule>, r: Rule)
    requires WellFormed(t.rules) && ApplyAll(t, init + [r]).Ok? && Obeys(t, init)
    ensures Obeys(t, init + [r]) <==> Clean(ApplyAll(t, init).value, r)
  {
    ApplyAllSnoc(t, init, r);
    var u := ApplyAll(t, init).value;
    var v := ApplyRule(u, r).value;
    AppliedKeepsWellFormed(t, init);
    RuleDecidesIffClean(u, r);
    assert (init + [r])[..|init|] == init;
    assert forall d, c :: LastMatch(t, init + [r], d, c)
                     <==> if RuleMatches(r, d, c) then r.allow else LastMatch(t, init, d, c);
    assert Obeys(t, init + [r]) <==> Decides(u, r, v);
  }

  /**
   * A rule list applied without error decides every access by its last matching rule after each
   * of its rules if and only if each rule is clean in the table that it finds.
   */
  lemma {:induction false} LastMatchDecidesIffClean(t: Table, script: seq<Rule>)
    requires WellFormed(t.rules) && ApplyAll(t, script).Ok?
    ensures ObeysAlong(t, script) <==> CleanAlong(t, script)
  {
    if script == [] {
      assert script[..0] == [];
    } else {
      var init, r := script[..|script| - 1], script[|script| - 1];
      assert script == init + [r];
      assert forall k :: 0 <= k <= |init| ==> init[..k] == script[..k];
      LastMatchDecidesIffClean(t, init);
      AlongOneMore(t, init, r);
    }
  }

  lemma CleanAlongSnoc(t: Table, init: seq<Rule>, r: Rule)
    ensures CleanAlong(t, init + [r]) <==> CleanAlong(t, init) && CleanAfter(t, init, r)
  {
    var script := init + [r];
    assert forall k :: 0 <= k < |init| ==> init[..k] == script[..k] && init[k] == script[k];
    assert script[..|init|] == init && script[|init|] == r;
  }

  lemma ObeysAlongSnoc(t: Table, init: seq<Rule>, r: Rule)
    ensures ObeysAlong(t, init + [r]) <==> ObeysAlong(t, init) && Obeys(t, init + [r])
  {
    var script := init + [r];
    assert forall k :: 0 <= k <= |init| ==> init[..k] == script[..k];
    assert script[..|script|] == script;
  }

  lemma AlongOneMore(t: Table, init: seq<Rule>, r: Rule)
    requires WellFormed(t.rules) && ApplyAll(t, init + [r]).Ok? && ApplyAll(t, init).Ok?
    requires ObeysAlong(t, init) <==> CleanAlong(t, init)
    ensures ObeysAlong(t, init + [r]) <==> CleanAlong(t, init + [r])
  {
    CleanAlongSnoc(t, init, r);
    ObeysAlongSnoc(t, init, r);
    if ObeysAlong(t, init) {
      assert init[..|init|] == init;
      ObeysOneMore(t, init, r);
    }
  }

  lemma {:induction false} PrefixIsApplied(t: Table, script: seq<Rule>, k: nat)
    requires k <= |script| && ApplyAll(t, script).Ok?
    ensures ApplyAll(t, script[..k]).Ok?
    decreases |script|
  {
    if k == |script| {
      assert script[..k] == script;
    } else {
      PrefixIsApplied(t, script[..|script| - 1], k);
      assert script[..|script| - 1][..k] == script[..k];
    }
  }

  lemma {:induction false} EachIsApplied(t: Table, script: seq<Rule>, k: nat)
    requires k < |script| && ApplyAll(t, script).Ok?
    ensures ApplyAll(t, script[..k]).Ok? && ApplyRule(ApplyAll(t, script[..k]).value, script[k]).Ok?
    decreases |script|
  {
    if k < |script| - 1 {
      var init := script[..|script| - 1];
      EachIsApplied(t, init, k);
      assert init[..k] == script[..k];
    }
  }

  lemma ConcreteIsCleanAt(t: Table, before: seq<Rule>, r: Rule)
    requires ApplyAll(t, before).Ok? && ApplyRule(ApplyAll(t, before).value, r).Ok? && ConcreteAfter(t, before, r)
    ensures CleanAfter(t, before, r)
  {
    ConcreteRemovalIsClean(ApplyAll(t, before).value, r);
  }

  lemma ConcreteIsCleanAlong(t: Table, script: seq<Rule>)
    requires ApplyAll(t, script).Ok? && ConcreteRemovals(t, script)
    ensures CleanAlong(t, script)
  {
    forall k | 0 <= k < |script| ensures CleanAfter(t, script[..k], script[k]) {
      EachIsApplied(t, script, k);
      ConcreteIsCleanAt(t, script[..k], script[k]);
    }
  }

  /** With concrete removals only, that condition is met: the last matching rule decides. */
  lemma LastMatchDecides(t: Table, script: seq<Rule>)
    requires WellFormed(t.rules) && ApplyAll(t, script).Ok? && ConcreteRemovals(t, script)
    ensures ObeysAlong(t, script) && Obeys(t, script)
  {
    ConcreteIsCleanAlong(t, script);
    LastMatchDecidesIffClean(t, script);
    assert script[..|script|] == script;
  }

  /** With a wildcard removal the law fails: a narrower exception survives it. */
  lemma WildcardRemovalCounterexample()
    ensures var allow5 := Rule('c', 5, 0, "r", true);
            var denyAll := Rule('c', WILDCARD, WILDCARD, "r", false);
            var t := ApplyAll(Table(false, map[]), [allow5, denyAll]);
            t.Ok? && Allowed(t.value, Meta('c', 5, 0), 'r')
            && !LastMatch(Table(false, map[]), [allow5, denyAll], Meta('c', 5, 0), 'r')
  {
    var t0 := Table(false, map[]);
    var allow5 := Rule('c', 5, 0, "r", true);
    var denyAll := Rule('c', WILDCARD, WILDCARD, "r", false);
    var key := Meta('c', 5, 0);
    ApplyAllSnoc(t0, [], allow5);
    ApplyAllSnoc(t0, [allow5], denyAll);
    assert [] + [allow5] == [allow5] && [allow5] + [denyAll] == [allow5, denyAll];
    AddMeans(map[], key, "r");
    var rules := AddRule(map[], key, "r");
    HoleIsWiderOverlap(rules, denyAll.Key(), "r");
    RemoveMeans(rules, denyAll.Key(), "r");
    var left := Removed(rules, denyAll.Key(), "r");
    assert Has("r", 'r') && Holds(rules, key, 'r') && Holds(left, key, 'r');
    assert Matches(key, key);
  }
}
