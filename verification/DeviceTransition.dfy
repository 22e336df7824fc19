/** The edit script between two exception tables, and what replaying it does. */
module DeviceTransition {
  import opened Permissions
  import opened DeviceTable

  // ------------------------------------------------------------------ sort order

  /** The order of `orderedEntries`: by major, then minor, then type. */
  predicate Before(a: Meta, b: Meta) {
    || a.major < b.major
    || (a.major == b.major && a.minor < b.minor)
    || (a.major == b.major && a.minor == b.minor && a.node < b.node)
  }

  predicate Sorted(s: seq<Meta>) {
    forall i, j :: 0 <= i < j < |s| ==> Before(s[i], s[j])
  }

  /** `s` lists exactly the keys, in order, each once. */
  ghost predicate Lists(s: seq<Meta>, keys: set<Meta>) {
    Sorted(s) && forall m :: m in s <==> m in keys
  }

  function Insert(s: seq<Meta>, m: Meta): (r: seq<Meta>)
    requires Sorted(s) && m !in s
    ensures Sorted(r) && forall x :: x in r <==> x in s || x == m
  {
    if s == [] || Before(m, s[0]) then [m] + s
    else
      var rest := Insert(s[1..], m);
      assert forall i :: 0 <= i < |rest| ==> rest[i] in s[1..] || rest[i] == m;
      [s[0]] + rest
  }

  lemma NonemptyHasMember(s: seq<Meta>)
    ensures s != [] ==> exists m :: m in s
  {
    if s != [] {
      assert s[0] in s;
    }
  }

  lemma {:induction false} OrderIsUnique(s: seq<Meta>, t: seq<Meta>, keys: set<Meta>)
    requires Lists(s, keys) && Lists(t, keys)
    ensures s == t
  {
    if s == [] {
      NonemptyHasMember(t);
    } else {
      assert s[0] in t && t != [] && t[0] in s;
      assert s[0] == t[0];
      forall m
        ensures m in s[1..] <==> m in keys - {s[0]}
        ensures m in t[1..] <==> m in keys - {s[0]}
      {
        assert m in s <==> m == s[0] || m in s[1..];
        assert m in t <==> m == t[0] || m in t[1..];
      }
      OrderIsUnique(s[1..], t[1..], keys - {s[0]});
      assert s == [s[0]] + s[1..] && t == [t[0]] + t[1..];
    }
  }

  lemma {:induction false} ListingExists(keys: set<Meta>)
    ensures exists s :: Lists(s, keys)
  {
    if keys == {} {
      assert Lists([], keys);
    } else {
      var m :| m in keys;
      ListingExists(keys - {m});
      var s :| Lists(s, keys - {m});
      assert Lists(Insert(s, m), keys);
    }
  }

  /** The one sorted listing of a key set. */
  ghost function Ordered(keys: set<Meta>): (s: seq<Meta>)
    ensures Lists(s, keys)
  {
    ListingExists(keys);
    var s :| Lists(s, keys);
    s
  }

  // ---------------------------------------------------------------------- script

  function Lost(source: Rules, target: Rules, m: Meta): Perms {
    Difference(PermsAt(source, m), PermsAt(target, m))
  }

  /** The inverse rule for one key, if it loses anything. */
  function DropOf(source: Rules, target: Rules, m: Meta, allow: bool): seq<Rule> {
    var perms := Lost(source, target, m);
    if IsEmpty(perms) then [] else [Rule(m.node, m.major, m.minor, perms, allow)]
  }

  /** Inverse rules for what the target no longer has, in the given order. */
  function Drops(source: Rules, target: Rules, order: seq<Meta>, allow: bool): seq<Rule> {
    if order == [] then []
    else
      var m := order[|order| - 1];
      Drops(source, target, order[..|order| - 1], allow) + DropOf(source, target, m, allow)
  }

  /** The adds are the drops of the opposite direction, with the opposite polarity. */
  function Adds(source: Rules, target: Rules, order: seq<Meta>, allow: bool): seq<Rule> {
    Drops(target, source, order, allow)
  }

  predicate Disruptive(source: Table, target: Table) {
    source.defaultAllow || source.defaultAllow != target.defaultAllow
  }

  function Reset(target: Table): Rule {
    Rule(WILDCARD_DEVICE, -1, -1, "rwm", target.defaultAllow)
  }

  ghost function Script(source: Table, target: Table): seq<Rule> {
    if Disruptive(source, target) then
      [Reset(target)] + Adds(map[], target.rules, Ordered(target.rules.Keys), !target.defaultAllow)
    else
      Drops(source.rules, target.rules, Ordered(source.rules.Keys), target.defaultAllow)
      + Adds(source.rules, target.rules, Ordered(target.rules.Keys), !target.defaultAllow)
  }

  // --------------------------------------------------------------------- replay

  /** The table between drops and adds, once the keys in `done` are trimmed. */
  ghost predicate Trimmed(rules: Rules, source: Rules, target: Rules, done: seq<Meta>) {
    && WellFormed(rules)
    && Hollow(rules) == Hollow(source)
    && forall m, c {:trigger Holds(rules, m, c)} ::
         Holds(rules, m, c) <==> Holds(source, m, c) && (m in done ==> Holds(target, m, c))
  }

  /** The wider key `w` still holds `c`, which `m` loses, when the script reaches `m`. */
  predicate Blocks(source: Rules, target: Rules, m: Meta, w: Meta, c: char) {
    && Wider(w, m)
    && Has(Lost(source, target, m), c)
    && Holds(source, w, c)
    && (Before(w, m) ==> Holds(target, w, c))
  }

  ghost predicate Blocked(source: Rules, target: Rules, m: Meta) {
    exists w, c :: Blocks(source, target, m, w, c)
  }

  /** No lost permission is held by a wider wildcard that the script leaves standing. */
  ghost predicate HoleFree(source: Rules, target: Rules) {
    forall m :: m in source ==> !Blocked(source, target, m)
  }

  ghost predicate BlockedAmong(source: Rules, target: Rules, order: seq<Meta>) {
    exists m :: m in order && Blocked(source, target, m)
  }

  /** `done` is an initial part of the sorted listing of the keys. */
  ghost predicate Initial(done: seq<Meta>, keys: set<Meta>) {
    && Sorted(done)
    && (forall m :: m in done ==> m in keys)
    && (forall m, w :: m in done && w in keys && Before(w, m) ==> w in done)
  }

  lemma ListingIsInitial(order: seq<Meta>, keys: set<Meta>)
    requires Lists(order, keys)
    ensures Initial(order, keys)
  {
  }

  lemma InitialShrinks(done: seq<Meta>, m: Meta, keys: set<Meta>)
    requires Initial(done + [m], keys)
    ensures Initial(done, keys) && m in keys && m !in done
    ensures forall w :: w in keys ==> (w in done <==> Before(w, m))
  {
    var s := done + [m];
    assert s[|done|] == m && m in s;
    forall i | 0 <= i < |done|
      ensures Before(done[i], m)
    {
      assert s[i] == done[i] && Before(s[i], s[|done|]);
    }
    forall i, j | 0 <= i < j < |done|
      ensures Before(done[i], done[j])
    {
      assert Before(s[i], s[j]);
    }
    assert forall x :: x in done ==> x in s;
    forall x, w | x in done && w in keys && Before(w, x)
      ensures w in done
    {
      assert w in s && Before(x, m);
    }
  }

  ghost predicate IsTrimmed(r: Result<Table>, source: Rules, target: Rules, done: seq<Meta>) {
    r.Ok? && !r.value.defaultAllow && Trimmed(r.value.rules, source, target, done)
  }

  ghost predicate DropsOutcome(r: Result<Table>, source: Rules, target: Rules, done: seq<Meta>) {
    if BlockedAmong(source, target, done) then r.Err? else IsTrimmed(r, source, target, done)
  }

  /** Replaying the drops trims every key, unless one of them is blocked. */
  lemma {:induction false} DropsTrim(source: Rules, target: Rules, done: seq<Meta>)
    requires WellFormed(source) && Initial(done, source.Keys)
    ensures DropsOutcome(ApplyAll(Table(false, source), Drops(source, target, done, false)), source, target, done)
  {
    if done != [] {
      var init, m := done[..|done| - 1], done[|done| - 1];
      assert done == init + [m];
      InitialShrinks(init, m, source.Keys);
      DropsTrim(source, target, init);
      var r := ApplyAll(Table(false, source), Drops(source, target, init, false));
      ApplyAllConcat(Table(false, source), Drops(source, target, init, false), DropOf(source, target, m, false));
      if r.Ok? {
        DropOne(source, target, init, m, r.value);
      }
    }
  }

  /** One drop: refused exactly when `m` is blocked, else it trims that key. */
  lemma DropOne(source: Rules, target: Rules, done: seq<Meta>, m: Meta, t: Table)
    requires WellFormed(source) && Initial(done + [m], source.Keys)
    requires IsTrimmed(Ok(t), source, target, done)
    ensures var r := ApplyAll(t, DropOf(source, target, m, false));
            if Blocked(source, target, m) then r.Err? else IsTrimmed(r, source, target, done + [m])
  {
    var perms := Lost(source, target, m);
    InitialShrinks(done, m, source.Keys);
    if IsEmpty(perms) {
      DropNothing(source, target, done, m, t.rules);
    } else {
      ApplyRemoval(t, m, perms);
      HoleIsBlock(source, target, done, m, t.rules);
      RemoveTrims(source, target, t.rules, done, m);
    }
  }

  lemma ApplyRemoval(t: Table, m: Meta, perms: Perms)
    requires !t.defaultAllow && (m.node == BLOCK_DEVICE || m.node == CHAR_DEVICE)
    ensures ApplyAll(t, [Rule(m.node, m.major, m.minor, perms, false)])
         == if PunchesHole(t.rules, m, perms) then Err(HoleInWildcard(m))
            else Ok(Table(false, Removed(t.rules, m, perms)))
  {
    ApplyOne(t, Rule(m.node, m.major, m.minor, perms, false));
  }

  lemma DropNothing(source: Rules, target: Rules, done: seq<Meta>, m: Meta, rules: Rules)
    requires IsEmpty(Lost(source, target, m)) && Trimmed(rules, source, target, done)
    ensures !Blocked(source, target, m) && Trimmed(rules, source, target, done + [m])
  {
    EmptyMeansNothing(Lost(source, target, m));
    LostNothing(source, target, m);
  }

  lemma ApplyOne(t: Table, r: Rule)
    ensures ApplyAll(t, [r]) == ApplyRule(t, r)
  {
    ApplyAllSnoc(t, [], r);
    assert [] + [r] == [r];
  }

  lemma LostNothing(source: Rules, target: Rules, m: Meta)
    requires forall c :: !Has(Lost(source, target, m), c)
    ensures forall c :: Holds(source, m, c) ==> Holds(target, m, c)
  {
    forall c | Holds(source, m, c)
      ensures Holds(target, m, c)
    {
      assert !Has(Lost(source, target, m), c);
    }
  }

  lemma RemoveTrims(source: Rules, target: Rules, rules: Rules, done: seq<Meta>, m: Meta)
    requires WellFormed(source) && Trimmed(rules, source, target, done)
    requires !IsEmpty(Lost(source, target, m))
    ensures Trimmed(Removed(rules, m, Lost(source, target, m)), source, target, done + [m])
  {
    var perms := Lost(source, target, m);
    RemoveMeans(rules, m, perms);
    EmptyMeansNothing(perms);
    var c :| Has(perms, c);
    assert Holds(source, m, c);
    assert m !in Hollow(source);
  }

  lemma HoleIsBlock(source: Rules, target: Rules, done: seq<Meta>, m: Meta, rules: Rules)
    requires forall w :: w in source ==> (w in done <==> Before(w, m))
    requires Trimmed(rules, source, target, done)
    ensures PunchesHole(rules, m, Lost(source, target, m)) <==> Blocked(source, target, m)
  {
    var perms := Lost(source, target, m);
    HoleIsWiderOverlap(rules, m, perms);
    assert forall w, c :: Holds(source, w, c) ==> w in source;
    if Blocked(source, target, m) {
      var w, c :| Blocks(source, target, m, w, c);
      assert Wider(w, m) && Holds(rules, w, c) && Has(perms, c);
    }
    if PunchesHole(rules, m, perms) {
      var w, c :| Wider(w, m) && Holds(rules, w, c) && Has(perms, c);
      assert Blocks(source, target, m, w, c);
    }
  }

  /** The keys among `done` that gain a permission. */
  function Gaining(source: Rules, target: Rules, done: seq<Meta>): set<Meta> {
    set m | m in done && !IsEmpty(Lost(target, source, m))
  }

  ghost predicate Filled(r: Result<Table>, t: Table, source: Rules, target: Rules, done: seq<Meta>) {
    && r.Ok? && r.value.defaultAllow == t.defaultAllow && WellFormed(r.value.rules)
    && Hollow(r.value.rules) == Hollow(t.rules) - Gaining(source, target, done)
    && forall m, c {:trigger Holds(r.value.rules, m, c)} ::
         Holds(r.value.rules, m, c)
         <==> Holds(t.rules, m, c) || (m in done && Holds(target, m, c) && !Holds(source, m, c))
  }

  /** Adds are never refused; they give each listed key the target's permissions. */
  lemma {:induction false} AddsFill(t: Table, source: Rules, target: Rules, done: seq<Meta>)
    requires WellFormed(t.rules) && WellFormed(target)
    requires forall m :: m in done ==> m in target
    ensures Filled(ApplyAll(t, Adds(source, target, done, !t.defaultAllow)), t, source, target, done)
  {
    if done != [] {
      var init, m := done[..|done| - 1], done[|done| - 1];
      assert done == init + [m];
      AddsFill(t, source, target, init);
      var before := Adds(source, target, init, !t.defaultAllow);
      ApplyAllConcat(t, before, DropOf(target, source, m, !t.defaultAllow));
      AddOne(ApplyAll(t, before).value, t, source, target, init, m);
    }
  }

  lemma AddOne(u: Table, t: Table, source: Rules, target: Rules, done: seq<Meta>, m: Meta)
    requires WellFormed(target) && m in target
    requires Filled(Ok(u), t, source, target, done)
    ensures Filled(ApplyAll(u, DropOf(target, source, m, !t.defaultAllow)), t, source, target, done + [m])
  {
    var perms := Lost(target, source, m);
    if IsEmpty(perms) {
      AddNothing(u, t, source, target, done, m);
    } else {
      ApplyOne(u, Rule(m.node, m.major, m.minor, perms, !t.defaultAllow));
      AddFills(u, t, source, target, done, m);
    }
  }

  lemma AddNothing(u: Table, t: Table, source: Rules, target: Rules, done: seq<Meta>, m: Meta)
    requires Filled(Ok(u), t, source, target, done) && IsEmpty(Lost(target, source, m))
    ensures Filled(Ok(u), t, source, target, done + [m])
  {
    EmptyMeansNothing(Lost(target, source, m));
    LostNothing(target, source, m);
    assert Gaining(source, target, done + [m]) == Gaining(source, target, done);
  }

  lemma AddFills(u: Table, t: Table, source: Rules, target: Rules, done: seq<Meta>, m: Meta)
    requires WellFormed(target) && m in target
    requires Filled(Ok(u), t, source, target, done)
    requires !IsEmpty(Lost(target, source, m))
    ensures Filled(Ok(Table(u.defaultAllow, AddRule(u.rules, m, Lost(target, source, m)))), t, source, target,
                   done + [m])
  {
    var perms := Lost(target, source, m);
    AddMeans(u.rules, m, perms);
    EmptyMeansNothing(perms);
    GainingSnoc(source, target, done, m);
    var rules := AddRule(u.rules, m, perms);
    assert Hollow(rules) == Hollow(t.rules) - Gaining(source, target, done + [m]);
    forall x, c
      ensures Holds(rules, x, c)
         <==> Holds(t.rules, x, c) || (x in done + [m] && Holds(target, x, c) && !Holds(source, x, c))
    {
      assert Holds(rules, x, c) <==> Holds(u.rules, x, c) || (x == m && Has(perms, c));
    }
  }

  lemma GainingSnoc(source: Rules, target: Rules, done: seq<Meta>, m: Meta)
    requires !IsEmpty(Lost(target, source, m))
    ensures Gaining(source, target, done + [m]) == Gaining(source, target, done) + {m}
  {
  }

  // -------------------------------------------------------------- main theorem

  /** Hollow keys survive a script untouched unless the target fills them. */
  ghost predicate HollowAgree(source: Table, target: Table) {
    if Disruptive(source, target) then Hollow(target.rules) == {}
    else Hollow(target.rules) <= Hollow(source.rules) <= target.rules.Keys
  }

  /** Replaying the script on the source gives exactly the target, if and only if
      no lost permission sits under a surviving wildcard and hollow keys agree. */
  lemma ReplayReachesTarget(source: Table, target: Table)
    requires WellFormed(source.rules) && WellFormed(target.rules)
    ensures ApplyAll(source, Script(source, target)) == Ok(target)
       <==> (Disruptive(source, target) || HoleFree(source.rules, target.rules)) && HollowAgree(source, target)
  {
    if Disruptive(source, target) {
      DisruptiveReplay(source, target);
    } else {
      GentleReplay(source, target);
    }
  }

  lemma DisruptiveReplay(source: Table, target: Table)
    requires WellFormed(target.rules) && Disruptive(source, target)
    ensures ApplyAll(source, Script(source, target)) == Ok(target) <==> Hollow(target.rules) == {}
  {
    var order := Ordered(target.rules.Keys);
    var adds := Adds(map[], target.rules, order, !target.defaultAllow);
    var cleared := Table(target.defaultAllow, map[]);
    ApplyAllConcat(source, [Reset(target)], adds);
    ApplyAllSnoc(source, [], Reset(target));
    assert [] + [Reset(target)] == [Reset(target)];
    AddsFill(cleared, map[], target.rules, order);
    var r := ApplyAll(cleared, adds).value;
    assert Hollow(r.rules) == {};
    if Hollow(target.rules) == {} {
      EqualRules(r.rules, target.rules);
    }
  }

  lemma GentleReplay(source: Table, target: Table)
    requires WellFormed(source.rules) && WellFormed(target.rules) && !Disruptive(source, target)
    ensures ApplyAll(source, Script(source, target)) == Ok(target)
       <==> HoleFree(source.rules, target.rules)
            && Hollow(target.rules) <= Hollow(source.rules) <= target.rules.Keys
  {
    var drops := Drops(source.rules, target.rules, Ordered(source.rules.Keys), false);
    var adds := Adds(source.rules, target.rules, Ordered(target.rules.Keys), true);
    ApplyAllConcat(source, drops, adds);
    ListingIsInitial(Ordered(source.rules.Keys), source.rules.Keys);
    DropsTrim(source.rules, target.rules, Ordered(source.rules.Keys));
    assert BlockedAmong(source.rules, target.rules, Ordered(source.rules.Keys))
      <==> !HoleFree(source.rules, target.rules);
    if HoleFree(source.rules, target.rules) {
      AddsComplete(ApplyAll(source, drops).value, source.rules, target.rules);
    }
  }

  /** From the fully trimmed table the adds reach the target, up to hollow keys. */
  lemma AddsComplete(mid: Table, source: Rules, target: Rules)
    requires WellFormed(source) && WellFormed(target)
    requires IsTrimmed(Ok(mid), source, target, Ordered(source.Keys))
    ensures ApplyAll(mid, Adds(source, target, Ordered(target.Keys), true)) == Ok(Table(false, target))
       <==> Hollow(target) <= Hollow(source) <= target.Keys
  {
    var order := Ordered(target.Keys);
    AddsFill(mid, source, target, order);
    var r := ApplyAll(mid, Adds(source, target, order, true)).value;
    FilledHollow(source, target, r.rules, order);
    forall m, c
      ensures Holds(r.rules, m, c) <==> Holds(target, m, c)
    {
      assert Holds(r.rules, m, c)
        <==> Holds(mid.rules, m, c) || (m in order && Holds(target, m, c) && !Holds(source, m, c));
      assert Holds(source, m, c) ==> m in Ordered(source.Keys);
      assert Holds(target, m, c) ==> m in order;
    }
    if Hollow(r.rules) == Hollow(target) {
      EqualRules(r.rules, target);
    }
  }

  lemma FilledHollow(source: Rules, target: Rules, filled: Rules, order: seq<Meta>)
    requires WellFormed(source) && WellFormed(target) && Lists(order, target.Keys)
    requires Hollow(filled) == Hollow(source) - Gaining(source, target, order)
    ensures Hollow(filled) == Hollow(target) <==> Hollow(target) <= Hollow(source) <= target.Keys
  {
    forall m | m in target && m in Hollow(source)
      ensures m in Gaining(source, target, order) <==> m !in Hollow(target)
    {
      HollowGains(source, target, m);
      assert m in order;
    }
    forall m | m in Hollow(source) && m !in target
      ensures m in Hollow(filled) && m !in Hollow(target)
    {
      assert m !in order;
    }
  }

  lemma HollowGains(source: Rules, target: Rules, m: Meta)
    requires WellFormed(target) && m in target && m in Hollow(source)
    ensures IsEmpty(Lost(target, source, m)) <==> IsEmpty(target[m])
  {
    var perms := Lost(target, source, m);
    EmptyMeansNothing(perms);
    EmptyMeansNothing(target[m]);
    if c :| Has(target[m], c) {
      assert Has(perms, c);
    }
    if c :| Has(perms, c) {
      assert Has(target[m], c);
    }
  }

  /** With numbers from -1 up, wider keys sort first, so blocking is about the two tables only. */
  lemma WiderSortsFirst(w: Meta, m: Meta)
    requires Wider(w, m) && m.major >= WILDCARD && m.minor >= WILDCARD
    ensures Before(w, m)
  {
  }

  /** The condition as a caller can check it: a permission that an exception loses
      is not kept, in both tables, by a wider wildcard. */
  lemma ReplayForOrdinaryNumbers(source: Table, target: Table)
    requires WellFormed(source.rules) && WellFormed(target.rules)
    requires Hollow(source.rules) == {} == Hollow(target.rules)
    requires forall m :: m in source.rules ==> m.major >= WILDCARD && m.minor >= WILDCARD
    requires !Disruptive(source, target)
    ensures ApplyAll(source, Script(source, target)) == Ok(target)
       <==> !exists m, w, c :: Wider(w, m) && Holds(source.rules, m, c) && !Holds(target.rules, m, c)
                               && Holds(source.rules, w, c) && Holds(target.rules, w, c)
  {
    ReplayReachesTarget(source, target);
    if !HoleFree(source.rules, target.rules) {
      var m :| m in source.rules && Blocked(source.rules, target.rules, m);
      var w, c :| Blocks(source.rules, target.rules, m, w, c);
      WiderSortsFirst(w, m);
      assert Holds(source.rules, m, c) && !Holds(target.rules, m, c);
    }
    if m, w, c :| Wider(w, m) && Holds(source.rules, m, c) && !Holds(target.rules, m, c)
                  && Holds(source.rules, w, c) && Holds(target.rules, w, c) {
      assert m in source.rules && Has(Lost(source.rules, target.rules, m), c);
      assert Blocks(source.rules, target.rules, m, w, c);
    }
  }
}
