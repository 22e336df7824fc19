/**
 * The list of namespaces to join: ordered and joined by the runtime (container_linux.go,
 * orderNamespacePaths), taken apart again by the C stage (nsexec.c, join_namespaces).
 */
module NamespacePaths {

  import opened Text
  import opened Wrappers
  import opened Netlink

  datatype Ns = User | Ipc | Uts | Net | Pid | Mnt | Cgroup

  /** configs.NamespaceTypes */
  const ORDER := [User, Ipc, Uts, Net, Pid, Mnt, Cgroup]

  type Path = seq<Byte>

  const COMMA: Byte := 44
  const COLON: Byte := 58

  function Ascii(s: string): (r: seq<Byte>)
    ensures |r| == |s|
  {
    seq(|s|, i requires 0 <= i < |s| => s[i] as int % 256)
  }

  /** configs.NsName */
  function Name(ns: Ns): seq<Byte> {
    match ns
    case Net => Ascii("net")
    case Mnt => Ascii("mnt")
    case Pid => Ascii("pid")
    case Ipc => Ascii("ipc")
    case User => Ascii("user")
    case Uts => Ascii("uts")
    case Cgroup => Ascii("cgroup")
  }

  /** nsflag: the namespace that a name stands for, or none. */
  function NsOfName(name: seq<Byte>): Option<Ns> {
    if name == Name(Cgroup) then Some(Cgroup)
    else if name == Name(Ipc) then Some(Ipc)
    else if name == Name(Mnt) then Some(Mnt)
    else if name == Name(Net) then Some(Net)
    else if name == Name(Pid) then Some(Pid)
    else if name == Name(User) then Some(User)
    else if name == Name(Uts) then Some(Uts)
    else None
  }

  // ---------------------------------------------------------------- the runtime's side

  /** What the runtime can find out about the machine. */
  datatype Host = Host(supported: set<Ns>, files: set<Path>, egid: int) {
    /** os.Lstat; a path with a NUL byte never reaches the kernel. */
    predicate Exists(p: Path) {
      0 !in p && p in files
    }
  }

  datatype Join = Join(ns: Ns, path: Path) {
    function Entry(): seq<Byte> {
      Name(ns) + [COLON] + path
    }
  }

  datatype Refusal = Unsupported(ns: Ns) | Missing(ns: Ns) | CommaInPath(ns: Ns)

  datatype Ordered = Joins(joins: seq<Join>) | Refused(why: Refusal)

  /** A namespace of the container for which there is a path to join. */
  predicate Wanted(namespaces: set<Ns>, paths: map<Ns, Path>, ns: Ns) {
    ns in namespaces && ns in paths && paths[ns] != []
  }

  function Objection(host: Host, ns: Ns, p: Path): Option<Refusal> {
    if ns !in host.supported then Some(Unsupported(ns))
    else if !host.Exists(p) then Some(Missing(ns))
    else if COMMA in p then Some(CommaInPath(ns))
    else None
  }

  /** The wanted namespaces among `types`, in that order, up to the first objection. */
  function OrderFrom(types: seq<Ns>, namespaces: set<Ns>, paths: map<Ns, Path>, host: Host): Ordered {
    if types == [] then Joins([])
    else
      var ns := types[0];
      var objection := if Wanted(namespaces, paths, ns) then Objection(host, ns, paths[ns]) else None;
      if objection.Some? then Refused(objection.value)
      else
        var rest := OrderFrom(types[1..], namespaces, paths, host);
        if rest.Refused? || !Wanted(namespaces, paths, ns) then rest
        else Joins([Join(ns, paths[ns])] + rest.joins)
  }

  function Order(namespaces: set<Ns>, paths: map<Ns, Path>, host: Host): Ordered {
    OrderFrom(ORDER, namespaces, paths, host)
  }

  lemma {:induction false} OrderFromAppends(before: seq<Ns>, types: seq<Ns>, namespaces: set<Ns>,
                                            paths: map<Ns, Path>, host: Host)
    requires OrderFrom(before, namespaces, paths, host).Joins?
    ensures var all := OrderFrom(before + types, namespaces, paths, host);
            var rest := OrderFrom(types, namespaces, paths, host);
            all == if rest.Refused? then rest
                   else Joins(OrderFrom(before, namespaces, paths, host).joins + rest.joins)
  {
    if before == [] {
      assert before + types == types;
    } else {
      assert (before + types)[1..] == before[1..] + types;
      OrderFromAppends(before[1..], types, namespaces, paths, host);
    }
  }

  /** The loop of orderNamespacePaths, over any list of namespace types. */
  method OrderListed(types: seq<Ns>, namespaces: set<Ns>, paths: map<Ns, Path>, host: Host) returns (r: Ordered)
    ensures r == OrderFrom(types, namespaces, paths, host)
  {
    var joins: seq<Join> := [];
    var i := 0;
    while i < |types|
      invariant 0 <= i <= |types|
      invariant OrderFrom(types[..i], namespaces, paths, host) == Joins(joins)
    {
      var ns := types[i];
      assert types == types[..i] + types[i..];
      OrderFromAppends(types[..i], types[i..], namespaces, paths, host);
      assert types[..i + 1] == types[..i] + [ns];
      OrderFromAppends(types[..i], [ns], namespaces, paths, host);
      if Wanted(namespaces, paths, ns) {
        var objection := Objection(host, ns, paths[ns]);
        if objection.Some? {
          return Refused(objection.value);
        }
        joins := joins + [Join(ns, paths[ns])];
      }
      i := i + 1;
    }
    assert types[..|types|] == types;
    r := Joins(joins);
  }

  method OrderNamespacePaths(namespaces: set<Ns>, paths: map<Ns, Path>, host: Host) returns (r: Ordered)
    ensures r == Order(namespaces, paths, host)
  {
    r := OrderListed(ORDER, namespaces, paths, host);
  }

  predicate Distinct(types: seq<Ns>) {
    forall i, j :: 0 <= i < j < |types| ==> types[i] != types[j]
  }

  /** The accepted list holds each wanted namespace of `types` once, with its own usable path. */
  ghost predicate Covers(types: seq<Ns>, namespaces: set<Ns>, paths: map<Ns, Path>, host: Host, joins: seq<Join>) {
    && (forall ns :: ns in types && Wanted(namespaces, paths, ns) ==> Join(ns, paths[ns]) in joins)
    && (forall j <- joins :: j.ns in types && Wanted(namespaces, paths, j.ns) && j.path == paths[j.ns]
                             && Objection(host, j.ns, j.path).None?)
    && (forall a, b :: 0 <= a < b < |joins| ==> joins[a].ns != joins[b].ns)
  }

  lemma {:induction false} OrderFromCovers(types: seq<Ns>, namespaces: set<Ns>, paths: map<Ns, Path>, host: Host)
    requires Distinct(types)
    ensures var r := OrderFrom(types, namespaces, paths, host);
            && (r.Joins? ==> Covers(types, namespaces, paths, host, r.joins))
            && (r.Refused? <==> exists ns :: ns in types && Wanted(namespaces, paths, ns)
                                             && Objection(host, ns, paths[ns]).Some?)
  {
    if types != [] {
      assert types[0] !in types[1..];
      OrderFromCovers(types[1..], namespaces, paths, host);
    }
  }

  /**
   * Either some wanted path is refused, or the list holds exactly the wanted namespaces, once
   * each, and the user namespace, if it is among them, comes first.
   */
  lemma OrderIsComplete(namespaces: set<Ns>, paths: map<Ns, Path>, host: Host)
    ensures var r := Order(namespaces, paths, host);
            && (r.Refused? <==> exists ns :: ns in ORDER && Wanted(namespaces, paths, ns)
                                             && Objection(host, ns, paths[ns]).Some?)
            && (r.Joins? ==> && Covers(ORDER, namespaces, paths, host, r.joins)
                             && (Wanted(namespaces, paths, User) ==> r.joins != [] && r.joins[0].ns == User))
  {
    OrderFromCovers(ORDER, namespaces, paths, host);
  }

  /** strings.Join */
  function JoinWith(entries: seq<seq<Byte>>): seq<Byte> {
    if entries == [] then []
    else if |entries| == 1 then entries[0]
    else entries[0] + [COMMA] + JoinWith(entries[1..])
  }

  function Entries(joins: seq<Join>): (r: seq<seq<Byte>>)
    ensures |r| == |joins|
    ensures forall i :: 0 <= i < |joins| ==> r[i] == joins[i].Entry()
  {
    if joins == [] then [] else [joins[0].Entry()] + Entries(joins[1..])
  }

  // ---------------------------------------------------------------- the C side

  /** A C string ends at its first NUL. */
  function CString(s: seq<Byte>): seq<Byte> {
    s[..IndexOf(s, 0)]
  }

  /** The tokens that repeated strtok_r calls return. */
  function Tokens(s: seq<Byte>): seq<seq<Byte>>
    decreases |s|
  {
    if s == [] then []
    else if s[0] == COMMA then Tokens(s[1..])
    else
      var n := IndexOf(s, COMMA);
      [s[..n]] + if n < |s| then Tokens(s[n + 1..]) else []
  }

  /** What is opened and later handed to setns, in order. */
  datatype Target = Target(ns: Option<Ns>, path: Path)

  function Targets(tokens: seq<seq<Byte>>): Option<seq<Target>> {
    if tokens == [] then Some([])
    else
      var n := IndexOf(tokens[0], COLON);
      if n == |tokens[0]| then None
      else
        var rest := Targets(tokens[1..]);
        if rest.None? then None
        else Some([Target(NsOfName(tokens[0][..n]), tokens[0][n + 1..])] + rest.value)
  }

  /** join_namespaces up to the setns calls; none when it bails out. */
  function JoinTargets(payload: seq<Byte>): Option<seq<Target>> {
    var tokens := Tokens(CString(payload));
    if tokens == [] then None else Targets(tokens)
  }

  // ---------------------------------------------------------------- round trip

  predicate PlainEntry(e: seq<Byte>) {
    e != [] && COMMA !in e && 0 !in e
  }

  lemma {:induction false} TokensOfJoined(entries: seq<seq<Byte>>)
    requires forall e <- entries :: PlainEntry(e)
    ensures Tokens(JoinWith(entries)) == entries
  {
    if |entries| == 1 {
      assert PlainEntry(entries[0]);
      IndexOfAbsent(entries[0], COMMA);
      assert entries[0][..|entries[0]|] == entries[0];
      assert entries == [entries[0]];
    } else if entries != [] {
      var head, tail := entries[0], JoinWith(entries[1..]);
      assert PlainEntry(head);
      TokensOfJoined(entries[1..]);
      IndexOfAfter(head, COMMA, tail);
      var s := head + [COMMA] + tail;
      assert s[..|head|] == head && s[|head| + 1..] == tail;
    }
  }

  lemma {:induction false} JoinedHasNoNul(entries: seq<seq<Byte>>)
    requires forall e <- entries :: PlainEntry(e)
    ensures 0 !in JoinWith(entries)
  {
    if entries != [] {
      assert PlainEntry(entries[0]);
      JoinedHasNoNul(entries[1..]);
    }
  }

  lemma CStringOf(s: seq<Byte>)
    requires 0 !in s
    ensures CString(s + [0]) == s
  {
    IndexOfAfter(s, 0, []);
    assert s + [0] + [] == s + [0];
  }

  function TargetOf(j: Join): Target {
    Target(Some(j.ns), j.path)
  }

  function TargetsOf(joins: seq<Join>): (r: seq<Target>)
    ensures |r| == |joins|
    ensures forall i :: 0 <= i < |joins| ==> r[i] == TargetOf(joins[i])
  {
    if joins == [] then [] else [TargetOf(joins[0])] + TargetsOf(joins[1..])
  }

  lemma EntrySplits(j: Join)
    ensures IndexOf(j.Entry(), COLON) == |Name(j.ns)|
    ensures NsOfName(j.Entry()[..|Name(j.ns)|]) == Some(j.ns)
    ensures j.Entry()[|Name(j.ns)| + 1..] == j.path
  {
    IndexOfAfter(Name(j.ns), COLON, j.path);
    assert j.Entry()[..|Name(j.ns)|] == Name(j.ns);
    NameRecovered(j.ns);
  }

  lemma NameRecovered(ns: Ns)
    ensures NsOfName(Name(ns)) == Some(ns) && COLON !in Name(ns)
  {
    var name := Name(ns);
    assert name[0] == match ns case Net => 110 case Mnt => 109 case Pid => 112 case Ipc => 105
                               case User => 117 case Uts => 117 case Cgroup => 99;
    assert |name| == match ns case User => 4 case Cgroup => 6 case _ => 3;
  }

  lemma {:induction false} TargetsOfEntries(joins: seq<Join>)
    ensures Targets(Entries(joins)) == Some(TargetsOf(joins))
  {
    if joins != [] {
      TargetsOfEntries(joins[1..]);
      EntrySplits(joins[0]);
    }
  }

  lemma NamesArePlain(ns: Ns)
    ensures COMMA !in Name(ns) && 0 !in Name(ns)
  {
  }

  lemma EntryIsPlain(j: Join, host: Host)
    requires Objection(host, j.ns, j.path).None?
    ensures PlainEntry(j.Entry())
  {
    NamesArePlain(j.ns);
  }

  lemma EntriesArePlain(joins: seq<Join>, host: Host)
    requires forall j <- joins :: Objection(host, j.ns, j.path).None?
    ensures forall e <- Entries(joins) :: PlainEntry(e)
  {
    forall i | 0 <= i < |joins| ensures PlainEntry(Entries(joins)[i]) {
      assert joins[i] in joins;
      EntryIsPlain(joins[i], host);
    }
  }

  /** Taking apart a list of usable paths gives the list back; an empty list is refused. */
  lemma JoinTargetsOf(joins: seq<Join>, host: Host)
    requires forall j <- joins :: Objection(host, j.ns, j.path).None?
    ensures JoinTargets(JoinWith(Entries(joins)) + [0]) == if joins == [] then None else Some(TargetsOf(joins))
  {
    var entries := Entries(joins);
    EntriesArePlain(joins, host);
    JoinedHasNoNul(entries);
    CStringOf(JoinWith(entries));
    TokensOfJoined(entries);
    TargetsOfEntries(joins);
  }

  /**
   * The C stage opens and joins exactly the accepted namespaces, in the same order, unless none
   * is wanted: then it refuses to go on.
   */
  lemma JoinListRoundTrip(namespaces: set<Ns>, paths: map<Ns, Path>, host: Host)
    requires Order(namespaces, paths, host).Joins?
    ensures var joins := Order(namespaces, paths, host).joins;
            JoinTargets(JoinWith(Entries(joins)) + [0])
            == if exists ns :: ns in ORDER && Wanted(namespaces, paths, ns) then Some(TargetsOf(joins)) else None
  {
    var joins := Order(namespaces, paths, host).joins;
    OrderFromCovers(ORDER, namespaces, paths, host);
    JoinTargetsOf(joins, host);
    if joins != [] {
      assert joins[0] in joins;
    }
  }
}
