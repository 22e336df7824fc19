/**
 * The whole bootstrap message: which attributes the runtime writes for a container
 * (container_linux.go, bootstrapData) and what the C stage therefore knows.
 */
module Bootstrap {

  import opened Decimal
  import opened Text
  import opened Wrappers
  import opened Netlink
  import opened NamespacePaths
  import opened MountSources
  import NsExec
  import NsExecProgress

  datatype IdMap = IdMap(containerId: int, hostId: int, size: int)

  datatype Container = Container(
    namespaces: set<Ns>,
    uidMappings: seq<IdMap>,
    gidMappings: seq<IdMap>,
    rootlessEuid: bool,
    newuidmapPath: Path,
    newgidmapPath: Path,
    oomScoreAdj: Option<int>,
    mounts: seq<Mount>)

  datatype Request = Request(cloneFlags: U32, paths: map<Ns, Path>, initStandard: bool)

  datatype Error = BadPath(why: Refusal) | NulInSource | TooLong

  datatype Result = Written(bytes: seq<Byte>) | Error(error: Error)

  /** encodeIDMapping */
  function MapText(maps: seq<IdMap>): string {
    if maps == [] then ""
    else FormatInt(maps[0].containerId) + " " + FormatInt(maps[0].hostId) + " " + FormatInt(maps[0].size) + "\n"
         + MapText(maps[1..])
  }

  /** shouldSendMountSources */
  predicate SendsSources(c: Container) {
    User in c.namespaces && Mnt in c.namespaces && !c.rootlessEuid && exists m <- c.mounts :: m.bind
  }

  /** requiresRootOrMappingTool */
  predicate NeedsMappingTool(c: Container, host: Host) {
    c.gidMappings != [IdMap(0, host.egid, 1)]
  }

  /** The setgroup flag is sent: there are own gid mappings, and not just that of the caller. */
  predicate SendsSetgroup(c: Container, q: Request, host: Host) {
    User !in q.paths && c.gidMappings != [] && NeedsMappingTool(c, host)
  }

  // ---------------------------------------------------------------- what is to be said

  function Given<T>(when: bool, value: T): Option<T> {
    if when then Some(value) else None
  }

  /** The contents of the message, attribute by attribute. */
  datatype Contents = Contents(
    cloneFlags: U32,
    nsPaths: Option<seq<Byte>>,
    uidmapPath: Option<seq<Byte>>,
    uidmap: Option<seq<Byte>>,
    gidmap: Option<seq<Byte>>,
    gidmapPath: Option<seq<Byte>>,
    setgroup: bool,
    oomScoreAdj: Option<seq<Byte>>,
    rootlessEuid: bool,
    sources: Option<seq<Byte>>)

  function ContentsOf(c: Container, q: Request, host: Host, joins: seq<Join>): Contents {
    var ownUser := User !in q.paths;
    var uids, gids := ownUser && c.uidMappings != [], ownUser && c.gidMappings != [];
    Contents(
      q.cloneFlags,
      Given(q.paths != map[], JoinWith(Entries(joins))),
      Given(uids && c.rootlessEuid && c.newuidmapPath != [], c.newuidmapPath),
      Given(uids, Ascii(MapText(c.uidMappings))),
      Given(gids, Ascii(MapText(c.gidMappings))),
      Given(gids && c.rootlessEuid && c.newgidmapPath != [], c.newgidmapPath),
      SendsSetgroup(c, q, host),
      if c.oomScoreAdj.Some? then Some(Ascii(FormatInt(c.oomScoreAdj.value))) else None,
      c.rootlessEuid,
      Given(q.initStandard && SendsSources(c), SourceList(c.mounts)))
  }

  // ---------------------------------------------------------------- how it is said

  function Attribute(kind: U16, value: Option<seq<Byte>>): seq<Attr> {
    if value.Some? then [Bytes(kind, value.value)] else []
  }

  function SetgroupAttribute(on: bool): seq<Attr> {
    if on then [Flag(SETGROUP, true)] else []
  }

  /** The attributes in the order in which they are added to the request, last part first. */
  function Tail(m: Contents): seq<Attr> {
    Attribute(OOM_SCORE_ADJ, m.oomScoreAdj)
    + ([Flag(ROOTLESS_EUID, m.rootlessEuid)] + (Attribute(MOUNT_SOURCES, m.sources) + []))
  }

  function Middle(m: Contents): seq<Attr> {
    Attribute(GIDMAP, m.gidmap)
    + (Attribute(GIDMAP_PATH, m.gidmapPath) + (SetgroupAttribute(m.setgroup) + Tail(m)))
  }

  function Attrs(m: Contents): seq<Attr> {
    [Int32(CLONE_FLAGS, m.cloneFlags)]
    + (Attribute(NS_PATHS, m.nsPaths)
       + (Attribute(UIDMAP_PATH, m.uidmapPath) + (Attribute(UIDMAP, m.uidmap) + Middle(m))))
  }

  predicate Short(value: Option<seq<Byte>>) {
    value.Some? ==> |value.value| <= 0xFFFF - HEADER - 1
  }

  predicate AllShort(m: Contents) {
    && Short(m.nsPaths) && Short(m.uidmapPath) && Short(m.uidmap) && Short(m.gidmap) && Short(m.gidmapPath)
    && Short(m.oomScoreAdj) && Short(m.sources)
  }

  predicate Kinded(attrs: seq<Attr>) {
    forall a <- attrs :: WellKinded(a)
  }

  predicate Fitting(attrs: seq<Attr>) {
    forall a <- attrs :: a.Fits()
  }

  /** What bootstrapData returns. */
  function Write(little: bool, seqNo: U32, c: Container, q: Request, host: Host): Result {
    var order := if q.paths != map[] then Order(c.namespaces, q.paths, host) else Joins([]);
    if order.Refused? then Error(BadPath(order.why))
    else if q.initStandard && SendsSources(c) && !NulFree(c.mounts) then Error(NulInSource)
    else
      var attrs := Attrs(ContentsOf(c, q, host, order.joins));
      if !Fitting(attrs) then Error(TooLong)
      else
        EncodedBound(little, attrs);
        Written(Message(little, seqNo, attrs))
  }

  lemma {:induction false} EncodedBound(little: bool, attrs: seq<Attr>)
    requires Fitting(attrs)
    ensures |EncodeAll(little, attrs)| <= 0x1_0000 * |attrs|
  {
    if attrs != [] {
      EncodedBound(little, attrs[1..]);
      assert attrs[0].Fits() && |Encode(little, attrs[0])| <= 0x1_0000;
      assert 0x1_0000 * |attrs| == 0x1_0000 * |attrs[1..]| + 0x1_0000;
    }
  }

  // ---------------------------------------------------------------- what is heard

  /** A byte string arrives with its terminating NUL; an absent one stays null. */
  function Heard(value: Option<seq<Byte>>): Option<seq<Byte>> {
    if value.Some? then Some(value.value + [0]) else None
  }

  /** A flag is read back from its first byte, which holds it on little-endian hosts only. */
  function HeardFlag(little: bool, on: bool): Byte {
    if on && little then 1 else 0
  }

  function Understood(little: bool, m: Contents): Config {
    Config(m.cloneFlags, HeardFlag(little, m.rootlessEuid), HeardFlag(little, m.setgroup),
           Heard(m.oomScoreAdj), Heard(m.nsPaths), Heard(m.uidmap), Heard(m.gidmap),
           Heard(m.uidmapPath), Heard(m.gidmapPath), Heard(m.sources))
  }

  /** The structure after an optional attribute. */
  function SetIf(little: bool, c: Config, kind: U16, value: Option<seq<Byte>>): Config
    requires WellKinded(Bytes(kind, []))
  {
    if value.Some? then Meant(little, c, Bytes(kind, value.value)) else c
  }

  lemma One(little: bool, c: Config, a: Attr, rest: seq<Attr>)
    requires WellKinded(a) && Kinded(rest)
    ensures Kinded([a] + rest) && (Fitting([a] + rest) <==> a.Fits() && Fitting(rest))
    ensures MeantAll(little, c, [a] + rest) == MeantAll(little, Meant(little, c, a), rest)
  {
    var all := [a] + rest;
    assert all[1..] == rest;
    assert forall x :: x in all <==> x == a || x in rest;
  }

  lemma Maybe(little: bool, c: Config, kind: U16, value: Option<seq<Byte>>, rest: seq<Attr>)
    requires WellKinded(Bytes(kind, [])) && Kinded(rest)
    ensures var all := Attribute(kind, value) + rest;
            && Kinded(all) && (Fitting(all) <==> Short(value) && Fitting(rest))
            && MeantAll(little, c, all) == MeantAll(little, SetIf(little, c, kind, value), rest)
  {
    if value.Some? {
      One(little, c, Bytes(kind, value.value), rest);
    } else {
      assert Attribute(kind, value) + rest == rest;
    }
  }

  /** The structure before its last attributes are stored, and after. */
  predicate TailUnset(c: Config) {
    c.oomScoreAdj.None? && c.mountSources.None?
  }

  function TailSet(little: bool, c: Config, m: Contents): Config {
    c.(oomScoreAdj := Heard(m.oomScoreAdj), rootlessEuid := HeardFlag(little, m.rootlessEuid),
       mountSources := Heard(m.sources))
  }

  lemma TailHeard(little: bool, c: Config, m: Contents)
    requires TailUnset(c)
    ensures Kinded(Tail(m)) && (Fitting(Tail(m)) <==> Short(m.oomScoreAdj) && Short(m.sources))
    ensures MeantAll(little, c, Tail(m)) == TailSet(little, c, m)
  {
    var c1 := SetIf(little, c, OOM_SCORE_ADJ, m.oomScoreAdj);
    var flag := Flag(ROOTLESS_EUID, m.rootlessEuid);
    var last := Attribute(MOUNT_SOURCES, m.sources) + [];
    Maybe(little, Meant(little, c1, flag), MOUNT_SOURCES, m.sources, []);
    One(little, c1, flag, last);
    Maybe(little, c, OOM_SCORE_ADJ, m.oomScoreAdj, [flag] + last);
  }

  lemma TailIsKinded(m: Contents)
    ensures Kinded(Tail(m))
  {
    TailHeard(true, EMPTY, m);
  }

  lemma MaybeSetgroup(little: bool, c: Config, on: bool, rest: seq<Attr>)
    requires Kinded(rest) && c.setgroup == 0
    ensures var all := SetgroupAttribute(on) + rest;
            && Kinded(all) && (Fitting(all) <==> Fitting(rest))
            && MeantAll(little, c, all) == MeantAll(little, c.(setgroup := HeardFlag(little, on)), rest)
  {
    if on {
      One(little, c, Flag(SETGROUP, true), rest);
    } else {
      assert SetgroupAttribute(on) + rest == rest;
      assert c == c.(setgroup := HeardFlag(little, on));
    }
  }

  predicate MiddleUnset(c: Config) {
    TailUnset(c) && c.gidmap.None? && c.gidmapPath.None? && c.setgroup == 0
  }

  function MiddleSet(little: bool, c: Config, m: Contents): Config {
    c.(gidmap := Heard(m.gidmap), gidmapPath := Heard(m.gidmapPath), setgroup := HeardFlag(little, m.setgroup))
  }

  lemma MiddleHeard(little: bool, c: Config, m: Contents)
    requires MiddleUnset(c)
    ensures Kinded(Middle(m)) && (Fitting(Middle(m)) <==> Short(m.gidmap) && Short(m.gidmapPath) && Fitting(Tail(m)))
    ensures MeantAll(little, c, Middle(m)) == MeantAll(little, MiddleSet(little, c, m), Tail(m))
  {
    var c1 := SetIf(little, c, GIDMAP, m.gidmap);
    var c2 := SetIf(little, c1, GIDMAP_PATH, m.gidmapPath);
    TailIsKinded(m);
    var end := SetgroupAttribute(m.setgroup) + Tail(m);
    MaybeSetgroup(little, c2, m.setgroup, Tail(m));
    Maybe(little, c1, GIDMAP_PATH, m.gidmapPath, end);
    Maybe(little, c, GIDMAP, m.gidmap, Attribute(GIDMAP_PATH, m.gidmapPath) + end);
  }

  function FrontSet(m: Contents): Config {
    EMPTY.(cloneFlags := m.cloneFlags, namespaces := Heard(m.nsPaths), uidmapPath := Heard(m.uidmapPath),
           uidmap := Heard(m.uidmap))
  }

  lemma FrontHeard(little: bool, m: Contents)
    ensures Kinded(Middle(m)) && Kinded(Attrs(m))
    ensures Fitting(Attrs(m))
       <==> Short(m.nsPaths) && Short(m.uidmapPath) && Short(m.uidmap) && Fitting(Middle(m))
    ensures MeantAll(little, EMPTY, Attrs(m)) == MeantAll(little, FrontSet(m), Middle(m))
  {
    var c1 := EMPTY.(cloneFlags := m.cloneFlags);
    var c2 := SetIf(little, c1, NS_PATHS, m.nsPaths);
    var c3 := SetIf(little, c2, UIDMAP_PATH, m.uidmapPath);
    MiddleHeard(little, EMPTY, m);
    var third := Attribute(UIDMAP, m.uidmap) + Middle(m);
    Maybe(little, c3, UIDMAP, m.uidmap, Middle(m));
    Maybe(little, c2, UIDMAP_PATH, m.uidmapPath, third);
    Maybe(little, c1, NS_PATHS, m.nsPaths, Attribute(UIDMAP_PATH, m.uidmapPath) + third);
    One(little, EMPTY, Int32(CLONE_FLAGS, m.cloneFlags),
        Attribute(NS_PATHS, m.nsPaths) + (Attribute(UIDMAP_PATH, m.uidmapPath) + third));
  }

  /** The attributes fit exactly when every text is short enough, and then say what was meant. */
  lemma AttrsAreUnderstood(little: bool, m: Contents)
    ensures Kinded(Attrs(m)) && (Fitting(Attrs(m)) <==> AllShort(m))
    ensures MeantAll(little, EMPTY, Attrs(m)) == Understood(little, m)
  {
    FrontHeard(little, m);
    MiddleHeard(little, FrontSet(m), m);
    TailHeard(little, MiddleSet(little, FrontSet(m), m), m);
  }

  // ---------------------------------------------------------------- the two sides agree

  /** Nothing that the runtime was asked to say is refused. */
  ghost predicate Acceptable(c: Container, q: Request, host: Host) {
    && (forall ns :: ns in ORDER && Wanted(c.namespaces, q.paths, ns) ==> Objection(host, ns, q.paths[ns]).None?)
    && (q.initStandard && SendsSources(c) ==> NulFree(c.mounts))
  }

  function JoinsOf(c: Container, q: Request, host: Host): seq<Join>
    requires Order(c.namespaces, q.paths, host).Joins?
  {
    Order(c.namespaces, q.paths, host).joins
  }

  lemma {:induction false} NothingToJoin(types: seq<Ns>, namespaces: set<Ns>, host: Host)
    ensures OrderFrom(types, namespaces, map[], host) == Joins([])
  {
    if types != [] {
      NothingToJoin(types[1..], namespaces, host);
    }
  }

  /** The message is written exactly when nothing is refused and no text is too long. */
  lemma WrittenIff(little: bool, seqNo: U32, c: Container, q: Request, host: Host)
    ensures Acceptable(c, q, host) ==> Order(c.namespaces, q.paths, host).Joins?
    ensures Write(little, seqNo, c, q, host).Written?
       <==> Acceptable(c, q, host) && AllShort(ContentsOf(c, q, host, JoinsOf(c, q, host)))
  {
    OrderFromCovers(ORDER, c.namespaces, q.paths, host);
    NothingToJoin(ORDER, c.namespaces, host);
    var order := Order(c.namespaces, q.paths, host);
    if order.Joins? {
      AttrsAreUnderstood(little, ContentsOf(c, q, host, order.joins));
    }
  }

  lemma WrittenBytes(little: bool, seqNo: U32, c: Container, q: Request, host: Host)
    requires Write(little, seqNo, c, q, host).Written?
    ensures Order(c.namespaces, q.paths, host).Joins?
    ensures var attrs := Attrs(ContentsOf(c, q, host, JoinsOf(c, q, host)));
            && Fitting(attrs)
            && MESSAGE_HEADER + |EncodeAll(little, attrs)| < 0x1_0000_0000
            && Write(little, seqNo, c, q, host).bytes == Message(little, seqNo, attrs)
  {
    NothingToJoin(ORDER, c.namespaces, host);
    EncodedBound(little, Attrs(ContentsOf(c, q, host, JoinsOf(c, q, host))));
  }

  /**
   * Whenever a message is written, the C stage, reading it from the pipe with anything behind
   * it, understands all that was meant.
   */
  lemma BootstrapRoundTrip(little: bool, seqNo: U32, c: Container, q: Request, host: Host, more: seq<Byte>)
    requires Write(little, seqNo, c, q, host).Written?
    ensures Order(c.namespaces, q.paths, host).Joins?
    ensures Receive(little, Write(little, seqNo, c, q, host).bytes + more)
         == Ok(Understood(little, ContentsOf(c, q, host, JoinsOf(c, q, host))))
  {
    WrittenBytes(little, seqNo, c, q, host);
    var m := ContentsOf(c, q, host, JoinsOf(c, q, host));
    AttrsAreUnderstood(little, m);
    MessageRoundTrip(little, seqNo, Attrs(m), more);
  }

  /** Both flags reach the C stage on little-endian hosts; elsewhere only an unset flag does. */
  lemma FlagsArriveIff(little: bool, seqNo: U32, c: Container, q: Request, host: Host, more: seq<Byte>)
    requires Write(little, seqNo, c, q, host).Written?
    ensures var heard := Receive(little, Write(little, seqNo, c, q, host).bytes + more);
            && heard.Ok?
            && ((heard.config.rootlessEuid != 0) == c.rootlessEuid <==> little || !c.rootlessEuid)
            && ((heard.config.setgroup != 0) == SendsSetgroup(c, q, host) <==> little || !SendsSetgroup(c, q, host))
  {
    BootstrapRoundTrip(little, seqNo, c, q, host, more);
  }

  /** The C stage joins exactly the wanted namespaces, the user namespace first, if there is one to join. */
  lemma NamespacesAreJoined(little: bool, c: Container, q: Request, host: Host)
    requires Acceptable(c, q, host) && q.paths != map[]
    ensures Order(c.namespaces, q.paths, host).Joins?
    ensures var joins := JoinsOf(c, q, host);
            var heard := Understood(little, ContentsOf(c, q, host, joins)).namespaces;
            && heard.Some?
            && JoinTargets(heard.value)
               == (if exists ns :: ns in ORDER && Wanted(c.namespaces, q.paths, ns)
                   then Some(TargetsOf(joins)) else None)
            && (Wanted(c.namespaces, q.paths, User) ==> joins != [] && joins[0].ns == User)
  {
    OrderIsComplete(c.namespaces, q.paths, host);
    JoinListRoundTrip(c.namespaces, q.paths, host);
  }

  /** The handshake parameters that the message and the environment variable fix. */
  function Handshake(little: bool, m: Contents, slotText: string, flags: set<NsExec.Flag>, pid: nat): NsExec.Config
    requires m.sources.Some? && ReceiveSlots(slotText).Some?
  {
    NsExec.Config(flags, true, |Opened(Understood(little, m).mountSources.value)|, |ReceiveSlots(slotText).value|, pid)
  }

  /**
   * For a container whose sources are sent, stage 0 and stage 1 agree on the number of
   * descriptors exactly when no bind source is empty; then each bind mount gets its own source.
   */
  lemma SourcesAgreeIff(little: bool, c: Container, q: Request, host: Host, extraFiles: nat,
                        flags: set<NsExec.Flag>, pid: nat)
    requires Acceptable(c, q, host) && q.initStandard && SendsSources(c)
    requires Order(c.namespaces, q.paths, host).Joins?
    requires STDIO_FDS + extraFiles + |c.mounts| <= INT_MAX
    ensures var m := ContentsOf(c, q, host, JoinsOf(c, q, host));
            var slotText := Marshal(Slots(c.mounts, extraFiles));
            && ReceiveSlots(slotText).Some?
            && var handshake := Handshake(little, m, slotText, flags, pid);
            && (NsExecProgress.FdsAgree(handshake) <==> forall mount <- c.mounts :: mount.bind ==> mount.source != [])
            && (NsExecProgress.FdsAgree(handshake) ==>
                  EachAtItsSlot(c.mounts, extraFiles,
                    Landed(Opened(Understood(little, m).mountSources.value), ReceiveSlots(slotText).value)))
  {
    SourcesReachTheirMounts(c.mounts, extraFiles);
  }
}
