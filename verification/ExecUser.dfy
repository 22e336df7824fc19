/**
 * Resolution of a user specification against passwd and group data (libcontainer/user/user.go),
 * for the "uid:gid" text that the runtime builds (utils_linux.go).
 *
 * A file is the sequence of its lines. Numbers are 64-bit, as Go's int on this platform.
 */
module ExecUser {

  import opened Decimal
  import opened Text
  import opened Wrappers

  const MAX_ID: nat := 0x7FFF_FFFF
  const MAX_INT: int := 0x7FFF_FFFF_FFFF_FFFF

  // ---------------------------------------------------------------- text

  /** strconv.Atoi: the value, clamped or zero on an error, and whether there was none. */
  function Atoi(s: string): (int, bool) {
    var signed := s != "" && (s[0] == '-' || s[0] == '+');
    var digits := if signed then s[1..] else s;
    if digits == "" || !AllDigits(digits) then (0, false)
    else
      var v: int := Value(digits);
      if signed && s[0] == '-' then if v > MAX_INT + 1 then (-MAX_INT - 1, false) else (-v, true)
      else if v > MAX_INT then (MAX_INT, false)
      else (v, true)
  }

  // ---------------------------------------------------------------- the files

  datatype User = User(name: string, uid: int, gid: int, home: string)
  datatype Group = Group(name: string, gid: int, list: seq<string>)

  /** Absent files are nil readers; reading one can fail. */
  datatype File = Absent | Unreadable | Lines(lines: seq<string>)

  /** The text of a field; fields that a line does not have keep their zero value. */
  function Field(parts: seq<string>, i: nat): string {
    if i < |parts| then parts[i] else ""
  }

  /** name:password:UID:GID:GECOS:directory:shell, conversion errors ignored */
  function ParseUser(line: string): User {
    var parts := Split(line, ':');
    User(Field(parts, 0), Atoi(Field(parts, 2)).0, Atoi(Field(parts, 3)).0, Field(parts, 5))
  }

  /** group_name:password:GID:user_list */
  function ParseGroup(line: string): Group {
    var parts := Split(line, ':');
    Group(Field(parts, 0), Atoi(Field(parts, 2)).0, if Field(parts, 3) == "" then [] else Split(Field(parts, 3), ','))
  }

  /** The user that a line describes, if it is a wanted one. */
  function UserAt(line: string, wanted: User -> bool): Option<User> {
    var text := TrimSpace(line);
    if text == "" || !wanted(ParseUser(text)) then None else Some(ParseUser(text))
  }

  function GroupAt(line: string, wanted: Group -> bool): Option<Group> {
    var text := TrimSpace(line);
    if text == "" || text[0] == '#' || !wanted(ParseGroup(text)) then None else Some(ParseGroup(text))
  }

  function UserEntries(lines: seq<string>, wanted: User -> bool): seq<Option<User>> {
    seq(|lines|, i requires 0 <= i < |lines| => UserAt(lines[i], wanted))
  }

  function GroupEntries(lines: seq<string>, wanted: Group -> bool): seq<Option<Group>> {
    seq(|lines|, i requires 0 <= i < |lines| => GroupAt(lines[i], wanted))
  }

  /** The values that are there, in order. */
  function Collect<T>(xs: seq<Option<T>>): seq<T> {
    if xs == [] then []
    else Collect(xs[..|xs| - 1]) + if xs[|xs| - 1].Some? then [xs[|xs| - 1].value] else []
  }

  function Users(lines: seq<string>, wanted: User -> bool): seq<User> {
    Collect(UserEntries(lines, wanted))
  }

  function Groups(lines: seq<string>, wanted: Group -> bool): seq<Group> {
    Collect(GroupEntries(lines, wanted))
  }

  /** ParsePasswdFilter over the lines of a readable file. */
  method ParsePasswdFilter(lines: seq<string>, wanted: User -> bool) returns (out: seq<User>)
    ensures out == Users(lines, wanted)
  {
    out := [];
    var i := 0;
    ghost var entries := UserEntries(lines, wanted);
    while i < |lines|
      invariant 0 <= i <= |lines| && out == Collect(entries[..i])
    {
      assert entries[..i + 1][..i] == entries[..i];
      var line := TrimSpace(lines[i]);
      i := i + 1;
      if line == "" {
        continue;
      }
      var u := ParseUser(line);
      if wanted(u) {
        out := out + [u];
      }
    }
    assert entries[..i] == entries;
  }

  method ParseGroupFilter(lines: seq<string>, wanted: Group -> bool) returns (out: seq<Group>)
    ensures out == Groups(lines, wanted)
  {
    out := [];
    var i := 0;
    ghost var entries := GroupEntries(lines, wanted);
    while i < |lines|
      invariant 0 <= i <= |lines| && out == Collect(entries[..i])
    {
      assert entries[..i + 1][..i] == entries[..i];
      var line := TrimSpace(lines[i]);
      i := i + 1;
      if line == "" || line[0] == '#' {
        continue;
      }
      var g := ParseGroup(line);
      if wanted(g) {
        out := out + [g];
      }
    }
    assert entries[..i] == entries;
  }

  // ---------------------------------------------------------------- GetExecUser

  datatype Resolved = Resolved(uid: int, gid: int, sgids: seq<int>, home: string)

  datatype Error = PasswdUnreadable | GroupUnreadable | NoSuchUser | NoSuchGroup | OutOfRange

  datatype Result = Ok(user: Resolved) | Failed(error: Error)

  function WantedUser(userArg: string, defaultUid: int): User -> bool {
    (u: User) =>
      if userArg == "" then u.uid == defaultUid
      else if Atoi(userArg).1 then Atoi(userArg).0 == u.uid
      else u.name == userArg
  }

  function WantedGroup(groupArg: string, userName: string): Group -> bool {
    (g: Group) =>
      if groupArg == "" then userName in g.list
      else if Atoi(groupArg).1 then Atoi(groupArg).0 == g.gid
      else g.name == groupArg
  }

  function LinesOf(f: File): seq<string> {
    if f.Lines? then f.lines else []
  }

  function UsersIn(f: File, wanted: User -> bool): seq<User> {
    Users(LinesOf(f), wanted)
  }

  function GroupsIn(f: File, wanted: Group -> bool): seq<Group> {
    Groups(LinesOf(f), wanted)
  }

  predicate InRange(id: int) {
    0 <= id <= MAX_ID
  }

  function Gids(groups: seq<Group>): seq<int> {
    seq(|groups|, i requires 0 <= i < |groups| => groups[i].gid)
  }

  /** The user part: the user so far, with the name of the matched entry. */
  function ResolveUser(userArg: string, defaults: Resolved, users: seq<User>): (Result, string) {
    if users != [] then
      (Ok(defaults.(uid := users[0].uid, gid := users[0].gid, home := users[0].home)), users[0].name)
    else if userArg == "" then (Ok(defaults), "")
    else if !Atoi(userArg).1 then (Failed(NoSuchUser), "")
    else if !InRange(Atoi(userArg).0) then (Failed(OutOfRange), "")
    else (Ok(defaults.(uid := Atoi(userArg).0)), "")
  }

  /** The group part. */
  function ResolveGroup(groupArg: string, user: Resolved, groups: seq<Group>): Result {
    if groupArg == "" then Ok(if groups == [] then user else user.(sgids := Gids(groups)))
    else if groups != [] then Ok(user.(gid := groups[0].gid))
    else if !Atoi(groupArg).1 then Failed(NoSuchGroup)
    else if !InRange(Atoi(groupArg).0) then Failed(OutOfRange)
    else Ok(user.(gid := Atoi(groupArg).0))
  }

  function Resolve(spec: string, defaults: Resolved, passwd: File, group: File): Result {
    var parts := Split(spec, ':');
    var userArg, groupArg := Field(parts, 0), Field(parts, 1);
    if passwd.Unreadable? then Failed(PasswdUnreadable)
    else
      var (user, name) := ResolveUser(userArg, defaults, UsersIn(passwd, WantedUser(userArg, defaults.uid)));
      if user.Failed? then user
      else if groupArg == "" && name == "" then user
      else if group.Unreadable? then Failed(GroupUnreadable)
      else ResolveGroup(groupArg, user.user, GroupsIn(group, WantedGroup(groupArg, name)))
  }

  /** What becomes of the user once the passwd entries are known. */
  method TakeUser(userArg: string, defaults: Resolved, users: seq<User>) returns (r: Result, matched: string)
    ensures (r, matched) == ResolveUser(userArg, defaults, users)
  {
    var (uidArg, uidOk) := Atoi(userArg);
    var user := defaults;
    matched := "";
    if users != [] {
      matched := users[0].name;
      user := user.(uid := users[0].uid, gid := users[0].gid, home := users[0].home);
    } else if userArg != "" {
      if !uidOk {
        return Failed(NoSuchUser), "";
      }
      user := user.(uid := uidArg);
      if user.uid < 0 || user.uid > MAX_ID {
        return Failed(OutOfRange), "";
      }
    }
    r := Ok(user);
  }

  /** ... and of its groups once the group entries are. */
  method TakeGroups(groupArg: string, found: Resolved, groups: seq<Group>) returns (r: Result)
    ensures r == ResolveGroup(groupArg, found, groups)
  {
    var (gidArg, gidOk) := Atoi(groupArg);
    var user := found;
    if groupArg != "" {
      if groups != [] {
        user := user.(gid := groups[0].gid);
      } else {
        if !gidOk {
          return Failed(NoSuchGroup);
        }
        user := user.(gid := gidArg);
        if user.gid < 0 || user.gid > MAX_ID {
          return Failed(OutOfRange);
        }
      }
    } else if groups != [] {
      user := user.(sgids := Gids(groups));
    }
    r := Ok(user);
  }

  method GetExecUser(spec: string, defaults: Resolved, passwd: File, group: File) returns (r: Result)
    ensures r == Resolve(spec, defaults, passwd, group)
  {
    var parts := Split(spec, ':');
    var userArg, groupArg := Field(parts, 0), Field(parts, 1);
    if passwd.Unreadable? {
      return Failed(PasswdUnreadable);
    }
    var users: seq<User> := [];
    if passwd.Lines? {
      users := ParsePasswdFilter(passwd.lines, WantedUser(userArg, defaults.uid));
    }
    var matched;
    r, matched := TakeUser(userArg, defaults, users);
    if r.Failed? || (groupArg == "" && matched == "") {
      return;
    }
    if group.Unreadable? {
      return Failed(GroupUnreadable);
    }
    var groups: seq<Group> := [];
    if group.Lines? {
      groups := ParseGroupFilter(group.lines, WantedGroup(groupArg, matched));
    }
    r := TakeGroups(groupArg, r.user, groups);
  }

  // ---------------------------------------------------------------- "uid:gid"

  /** The specification that newProcess builds. */
  function IdSpec(uid: nat, gid: nat): string {
    Format(uid) + ":" + Format(gid)
  }

  lemma AtoiOfDigits(s: string)
    requires s != "" && AllDigits(s) && Value(s) <= MAX_INT
    ensures Atoi(s) == (Value(s) as int, true)
  {
    assert IsDigit(s[0]);
  }

  lemma SpecParts(uid: nat, gid: nat)
    requires uid <= MAX_INT && gid <= MAX_INT
    ensures Split(IdSpec(uid, gid), ':') == [Format(uid), Format(gid)]
    ensures Format(uid) != "" && Atoi(Format(uid)) == (uid as int, true)
    ensures Format(gid) != "" && Atoi(Format(gid)) == (gid as int, true)
  {
    FormatIsNumeral(uid);
    FormatIsNumeral(gid);
    SpecOfTwo(Format(uid), Format(gid));
    AtoiOfDigits(Format(uid));
    AtoiOfDigits(Format(gid));
  }

  function WithUid(uid: int): User -> bool {
    (u: User) => u.uid == uid
  }

  function WithGid(gid: int): Group -> bool {
    (g: Group) => g.gid == gid
  }

  predicate HasUid(passwd: File, uid: int) {
    UsersIn(passwd, WithUid(uid)) != []
  }

  predicate HasGid(group: File, gid: int) {
    GroupsIn(group, WithGid(gid)) != []
  }

  lemma SameUsers(lines: seq<string>, p: User -> bool, q: User -> bool)
    requires forall u :: p(u) == q(u)
    ensures UserEntries(lines, p) == UserEntries(lines, q) && Users(lines, p) == Users(lines, q)
  {
  }

  lemma SameGroups(lines: seq<string>, p: Group -> bool, q: Group -> bool)
    requires forall g :: p(g) == q(g)
    ensures GroupEntries(lines, p) == GroupEntries(lines, q) && Groups(lines, p) == Groups(lines, q)
  {
  }

  /** The first value is that of the first place that has one. */
  predicate FirstAt<T>(xs: seq<Option<T>>, i: int) {
    0 <= i < |xs| && xs[i].Some? && forall j :: 0 <= j < i ==> xs[j].None?
  }

  lemma {:induction false} CollectFirst<T>(xs: seq<Option<T>>)
    ensures Collect(xs) == [] <==> forall i :: 0 <= i < |xs| ==> xs[i].None?
    ensures Collect(xs) != [] ==> exists i :: FirstAt(xs, i) && Collect(xs)[0] == xs[i].value
  {
    if xs != [] {
      var n := |xs| - 1;
      CollectFirst(xs[..n]);
      if Collect(xs[..n]) != [] {
        var i :| FirstAt(xs[..n], i) && Collect(xs[..n])[0] == xs[..n][i].value;
        assert FirstAt(xs, i) && Collect(xs)[0] == xs[i].value;
      } else if xs[n].Some? {
        assert forall j :: 0 <= j < n ==> xs[j] == xs[..n][j];
        assert FirstAt(xs, n) && Collect(xs)[0] == xs[n].value;
      }
    }
  }

  lemma {:induction false} CollectIsAll<T>(xs: seq<Option<T>>)
    ensures forall x :: x in Collect(xs) <==> Some(x) in xs
  {
    if xs != [] {
      var n := |xs| - 1;
      CollectIsAll(xs[..n]);
      assert xs == xs[..n] + [xs[n]];
    }
  }

  lemma UsersByUid(passwd: File, userArg: string, uid: int, defaultUid: int)
    requires userArg != "" && Atoi(userArg) == (uid, true)
    ensures var users := UsersIn(passwd, WantedUser(userArg, defaultUid));
            && (users != [] <==> HasUid(passwd, uid))
            && (users != [] ==> users[0].uid == uid)
  {
    SameUsers(LinesOf(passwd), WantedUser(userArg, defaultUid), WithUid(uid));
    CollectFirst(UserEntries(LinesOf(passwd), WantedUser(userArg, defaultUid)));
  }

  lemma GroupsByGid(group: File, groupArg: string, gid: int, name: string)
    requires groupArg != "" && Atoi(groupArg) == (gid, true)
    ensures var groups := GroupsIn(group, WantedGroup(groupArg, name));
            && (groups != [] <==> HasGid(group, gid))
            && (groups != [] ==> groups[0].gid == gid)
  {
    SameGroups(LinesOf(group), WantedGroup(groupArg, name), WithGid(gid));
    CollectFirst(GroupEntries(LinesOf(group), WantedGroup(groupArg, name)));
  }

  predicate Resolvable(uid: int, gid: int, passwd: File, group: File) {
    && !passwd.Unreadable? && !group.Unreadable?
    && (InRange(uid) || HasUid(passwd, uid)) && (InRange(gid) || HasGid(group, gid))
  }

  lemma NumericUser(userArg: string, uid: int, defaults: Resolved, passwd: File)
    requires userArg != "" && Atoi(userArg) == (uid, true)
    ensures var r := ResolveUser(userArg, defaults, UsersIn(passwd, WantedUser(userArg, defaults.uid))).0;
            && (r.Ok? <==> InRange(uid) || HasUid(passwd, uid))
            && (r.Ok? ==> r.user.uid == uid && r.user.sgids == defaults.sgids)
  {
    UsersByUid(passwd, userArg, uid, defaults.uid);
  }

  lemma NumericGroup(groupArg: string, gid: int, user: Resolved, name: string, group: File)
    requires groupArg != "" && Atoi(groupArg) == (gid, true)
    ensures var r := ResolveGroup(groupArg, user, GroupsIn(group, WantedGroup(groupArg, name)));
            && (r.Ok? <==> InRange(gid) || HasGid(group, gid))
            && (r.Ok? ==> r.user == user.(gid := gid))
  {
    GroupsByGid(group, groupArg, gid, name);
  }

  /** Two numeric parts, however written. */
  lemma NumericParts(spec: string, userArg: string, groupArg: string, uid: int, gid: int,
                     defaults: Resolved, passwd: File, group: File)
    requires Split(spec, ':') == [userArg, groupArg] && userArg != "" && groupArg != ""
    requires Atoi(userArg) == (uid, true) && Atoi(groupArg) == (gid, true)
    ensures var r := Resolve(spec, defaults, passwd, group);
            && (r.Ok? ==> r.user.uid == uid && r.user.gid == gid && r.user.sgids == defaults.sgids)
            && (r.Ok? <==> Resolvable(uid, gid, passwd, group))
  {
    NumericUser(userArg, uid, defaults, passwd);
    var (user, name) := ResolveUser(userArg, defaults, UsersIn(passwd, WantedUser(userArg, defaults.uid)));
    if user.Ok? {
      NumericGroup(groupArg, gid, user.user, name, group);
    }
  }

  /**
   * Whatever passwd and group contain, "uid:gid" resolves to exactly that uid and gid if it
   * resolves at all; and it does exactly when both files can be read or are absent and each id
   * is at most 2^31-1 or is listed.
   */
  lemma IdsResolveExactly(uid: nat, gid: nat, defaults: Resolved, passwd: File, group: File)
    requires uid <= MAX_INT && gid <= MAX_INT
    ensures var r := Resolve(IdSpec(uid, gid), defaults, passwd, group);
            && (r.Ok? ==> r.user.uid == uid && r.user.gid == gid && r.user.sgids == defaults.sgids)
            && (r.Ok? <==> Resolvable(uid, gid, passwd, group))
  {
    SpecParts(uid, gid);
    NumericParts(IdSpec(uid, gid), Format(uid), Format(gid), uid, gid, defaults, passwd, group);
  }

  /** For ids up to 2^31-1 nothing in the files matters. */
  lemma SmallIdsAlwaysResolve(uid: nat, gid: nat, defaults: Resolved, passwd: File, group: File)
    requires uid <= MAX_ID && gid <= MAX_ID && !passwd.Unreadable? && !group.Unreadable?
    ensures var r := Resolve(IdSpec(uid, gid), defaults, passwd, group);
            r.Ok? && r.user.uid == uid && r.user.gid == gid
  {
    IdsResolveExactly(uid, gid, defaults, passwd, group);
  }

  // ---------------------------------------------------------------- names and defaults

  function Named(name: string): User -> bool {
    (u: User) => u.name == name
  }

  function Listing(name: string): Group -> bool {
    (g: Group) => name in g.list
  }

  /** Some group of the file lists the user and has that gid. */
  ghost predicate ListedIn(group: File, name: string, gid: int) {
    exists g :: Some(g) in GroupEntries(LinesOf(group), Listing(name)) && g.gid == gid
  }

  /** The supplementary groups are those of the groups that list the user; with none, the defaults. */
  ghost predicate SgidsOf(sgids: seq<int>, group: File, name: string, defaults: seq<int>) {
    if exists gid :: ListedIn(group, name, gid) then forall gid :: gid in sgids <==> ListedIn(group, name, gid)
    else sgids == defaults
  }

  lemma GidsAreListed(group: File, name: string)
    ensures forall gid :: gid in Gids(GroupsIn(group, Listing(name))) <==> ListedIn(group, name, gid)
  {
    GidsOfGroups(GroupsIn(group, Listing(name)));
    CollectIsAll(GroupEntries(LinesOf(group), Listing(name)));
  }

  lemma SupplementaryGroups(user: Resolved, group: File, name: string)
    ensures var r := ResolveGroup("", user, GroupsIn(group, WantedGroup("", name)));
            && r.Ok? && SgidsOf(r.user.sgids, group, name, user.sgids)
            && r.user == user.(sgids := r.user.sgids)
  {
    SameGroups(LinesOf(group), WantedGroup("", name), Listing(name));
    var groups := GroupsIn(group, WantedGroup("", name));
    GidsAreListed(group, name);
    if groups != [] {
      assert Gids(groups)[0] in Gids(groups);
    }
  }

  lemma GidsOfGroups(groups: seq<Group>)
    ensures forall gid :: gid in Gids(groups) <==> exists g <- groups :: g.gid == gid
  {
    forall gid ensures gid in Gids(groups) <==> exists g <- groups :: g.gid == gid {
      if gid in Gids(groups) {
        var i :| 0 <= i < |Gids(groups)| && Gids(groups)[i] == gid;
        assert groups[i] in groups;
      }
      if g :| g in groups && g.gid == gid {
        var i :| 0 <= i < |groups| && groups[i] == g;
        assert Gids(groups)[i] == gid;
      }
    }
  }

  lemma SpecWithoutGroup(userArg: string)
    requires ':' !in userArg
    ensures Field(Split(userArg, ':'), 0) == userArg && Field(Split(userArg, ':'), 1) == ""
  {
    SplitWhole(userArg, ':');
  }

  /**
   * A name resolves to the first passwd entry of that name in file order, with the gids of all
   * groups that list it; without such an entry it is an error.
   */
  lemma NameResolves(name: string, defaults: Resolved, passwd: File, group: File)
    requires name != "" && ':' !in name && !Atoi(name).1 && !passwd.Unreadable? && !group.Unreadable?
    ensures var r := Resolve(name, defaults, passwd, group);
            var entries := UserEntries(LinesOf(passwd), Named(name));
            if forall i :: 0 <= i < |entries| ==> entries[i].None? then r == Failed(NoSuchUser)
            else
              && r.Ok? && SgidsOf(r.user.sgids, group, name, defaults.sgids)
              && exists i :: FirstAt(entries, i) && SameAccount(r.user, entries[i].value)
  {
    SpecWithoutGroup(name);
    SameUsers(LinesOf(passwd), WantedUser(name, defaults.uid), Named(name));
    CollectFirst(UserEntries(LinesOf(passwd), Named(name)));
    var users := Users(LinesOf(passwd), Named(name));
    if users != [] {
      assert users[0].name == name;
      SupplementaryGroups(ResolveUser(name, defaults, users).0.user, group, name);
    }
  }

  predicate SameAccount(r: Resolved, u: User) {
    r.uid == u.uid && r.gid == u.gid && r.home == u.home
  }

  /**
   * An empty specification resolves to the first passwd entry with the default uid, with the gids
   * of all groups that list its name; without such an entry, to the defaults.
   */
  lemma EmptyResolves(defaults: Resolved, passwd: File, group: File)
    requires !passwd.Unreadable? && !group.Unreadable?
    ensures var r := Resolve("", defaults, passwd, group);
            var entries := UserEntries(LinesOf(passwd), WithUid(defaults.uid));
            if forall i :: 0 <= i < |entries| ==> entries[i].None? then r == Ok(defaults)
            else
              && r.Ok? && r.user.uid == defaults.uid
              && exists i :: FirstAt(entries, i) && DefaultAccount(r.user, entries[i].value, group, defaults)
  {
    SpecWithoutGroup("");
    SameUsers(LinesOf(passwd), WantedUser("", defaults.uid), WithUid(defaults.uid));
    CollectFirst(UserEntries(LinesOf(passwd), WithUid(defaults.uid)));
    var users := Users(LinesOf(passwd), WithUid(defaults.uid));
    if users != [] {
      assert users[0].uid == defaults.uid;
      DefaultUser(users[0], defaults, group);
    }
  }

  lemma DefaultUser(u: User, defaults: Resolved, group: File)
    ensures var user := defaults.(uid := u.uid, gid := u.gid, home := u.home);
            var r := if u.name == "" then Ok(user)
                     else ResolveGroup("", user, GroupsIn(group, WantedGroup("", u.name)));
            r.Ok? && DefaultAccount(r.user, u, group, defaults)
  {
    SupplementaryGroups(defaults.(uid := u.uid, gid := u.gid, home := u.home), group, u.name);
  }

  /** The account of the entry, with the groups that list its name, if it has one. */
  ghost predicate DefaultAccount(r: Resolved, u: User, group: File, defaults: Resolved) {
    && SameAccount(r, u)
    && if u.name == "" then r.sgids == defaults.sgids else SgidsOf(r.sgids, group, u.name, defaults.sgids)
  }

  function GroupNamed(name: string): Group -> bool {
    (g: Group) => g.name == name
  }

  /**
   * What the user part gives: the first entry that it describes, by name, uid or the default uid;
   * without one, the default or a uid in range, and otherwise an error. The groups stay.
   */
  lemma UserPartMeans(userArg: string, defaults: Resolved, passwd: File)
    ensures var r := UserPart(userArg, defaults, passwd);
            var entries := UserEntries(LinesOf(passwd), WantedUser(userArg, defaults.uid));
            && (r.Ok? ==> r.user.sgids == defaults.sgids)
            && if exists i :: 0 <= i < |entries| && entries[i].Some?
               then r.Ok? && exists i :: FirstAt(entries, i) && SameAccount(r.user, entries[i].value)
               else r == if userArg == "" then Ok(defaults)
                         else if !Atoi(userArg).1 then Failed(NoSuchUser)
                         else if !InRange(Atoi(userArg).0) then Failed(OutOfRange)
                         else Ok(defaults.(uid := Atoi(userArg).0))
  {
    CollectFirst(UserEntries(LinesOf(passwd), WantedUser(userArg, defaults.uid)));
  }

  function UserPart(userArg: string, defaults: Resolved, passwd: File): Result {
    ResolveUser(userArg, defaults, UsersIn(passwd, WantedUser(userArg, defaults.uid))).0
  }

  lemma GroupPart(groupArg: string, user: Resolved, userName: string, group: File)
    requires groupArg != "" && !Atoi(groupArg).1
    ensures var r := ResolveGroup(groupArg, user, GroupsIn(group, WantedGroup(groupArg, userName)));
            var entries := GroupEntries(LinesOf(group), GroupNamed(groupArg));
            if forall i :: 0 <= i < |entries| ==> entries[i].None? then r == Failed(NoSuchGroup)
            else exists i :: FirstAt(entries, i) && r == Ok(user.(gid := entries[i].value.gid))
  {
    SameGroups(LinesOf(group), WantedGroup(groupArg, userName), GroupNamed(groupArg));
    CollectFirst(GroupEntries(LinesOf(group), GroupNamed(groupArg)));
  }

  /**
   * A user part with a group name resolves to the user with the gid of the first group of that
   * name in file order and the default supplementary groups; without such a group it is an error,
   * and so it is if the user part is one.
   */
  lemma GroupNameResolves(userArg: string, groupArg: string, defaults: Resolved, passwd: File, group: File)
    requires ':' !in userArg && ':' !in groupArg && groupArg != "" && !Atoi(groupArg).1
    requires !passwd.Unreadable? && !group.Unreadable?
    ensures var r := Resolve(userArg + ":" + groupArg, defaults, passwd, group);
            var user := UserPart(userArg, defaults, passwd);
            var entries := GroupEntries(LinesOf(group), GroupNamed(groupArg));
            if user.Failed? then r == user
            else if forall i :: 0 <= i < |entries| ==> entries[i].None? then r == Failed(NoSuchGroup)
            else
              && r.Ok? && r.user.sgids == defaults.sgids
              && exists i :: FirstAt(entries, i) && r.user == user.user.(gid := entries[i].value.gid)
  {
    SpecOfTwo(userArg, groupArg);
    UserPartMeans(userArg, defaults, passwd);
    var (user, name) := ResolveUser(userArg, defaults, UsersIn(passwd, WantedUser(userArg, defaults.uid)));
    if user.Ok? {
      GroupPart(groupArg, user.user, name, group);
    }
  }

  lemma SpecOfTwo(userArg: string, groupArg: string)
    requires ':' !in userArg && ':' !in groupArg
    ensures Split(userArg + ":" + groupArg, ':') == [userArg, groupArg]
  {
    SplitCons(userArg, ':', groupArg);
    SplitWhole(groupArg, ':');
    assert userArg + ":" + groupArg == userArg + [':'] + groupArg;
  }
}
