/** Safety of the nsexec handshake over every run. */
module NsExecSafety {
  import opened Wrappers
  import opened NsExec

  /** How far stage 1 got. */
  function Rank1(pc: Pc1): nat {
    match pc
    case Unborn1 => 0
    case CloseC1 => 1
    case Join => 2
    case UnshareUser => 3
    case SendMapPls => 4
    case ReadMapAck => 5
    case UnshareRest => 6
    case SendMountPls => 7
    case RecvFds(_) => 8
    case ReadMountAck => 9
    case Spawn2 => 10
    case SendPidPls => 11
    case SendPid => 12
    case ReadPidAck => 13
    case SendFinish1 => 14
    case Leave1 => 15
    case Exit1 => 16
  }

  function Rank2(pc: Pc2): nat {
    match pc
    case Unborn2 => 0
    case CloseG1 => 1
    case CloseC0In2 => 2
    case ReadGo => 3
    case Setup => 4
    case UnshareCgroup => 5
    case SendFinish2 => 6
    case CloseG0In2 => 7
    case Returned => 8
  }

  /** Stage 0 is done with stage 1. */
  predicate Late(pc: Pc0) {
    pc.CloseG0? || pc.SendGo? || pc.ReadFinish? || pc.Exit0?
  }

  /** Stage 0 has not yet looked at the next message. */
  predicate Idle(pc: Pc0) {
    pc.CloseC0? || pc.Loop?
  }

  function Fds(from: nat, to: nat): seq<Msg>
    requires from <= to
  {
    seq(to - from, i requires i >= 0 => Fd(from + i))
  }

  // ------------------------------------------------------------------- invariants

  /** The child socketpair: what is in flight, given how far stages 0 and 1 are. */
  predicate ChildLink(c: Config, s: State) {
    match s.pc1
    case Unborn1 => s.pc0.Spawn1? && s.child.up == [] && s.child.down == []
    case ReadMapAck =>
      || (Idle(s.pc0) && s.child.up == [UserMapPls] && s.child.down == [])
      || ((s.pc0.WriteMaps? || s.pc0.SendMapAck?) && s.child.up == [] && s.child.down == [])
      || (s.pc0.Loop? && s.child.up == [] && s.child.down == [UserMapAck])
    case RecvFds(k) => k <= c.slots && FdLink(c, s, k)
    case ReadMountAck => FdLink(c, s, c.slots)
    case SendPid =>
      s.child.down == [] && ((Idle(s.pc0) && s.child.up == [RecvPidPls]) || (s.pc0.ReadPid? && s.child.up == []))
    case ReadPidAck =>
      || (Idle(s.pc0) && s.child.up == [RecvPidPls, Pid(c.stage2Pid)] && s.child.down == [])
      || (s.pc0.ReadPid? && s.child.up == [Pid(c.stage2Pid)] && s.child.down == [])
      || (s.pc0.SendPidAck? && s.child.up == [] && s.child.down == [])
      || ((s.pc0.ForwardPid? || s.pc0.Loop?) && s.child.up == [] && s.child.down == [RecvPidAck])
    case SendFinish1 => (s.pc0.ForwardPid? || s.pc0.Loop?) && s.child.up == [] && s.child.down == []
    case Leave1 => FinishLink(s)
    case Exit1 => FinishLink(s)
    case _ => Idle(s.pc0) && s.child.up == [] && s.child.down == []
  }

  /** While stage 1 waits for mount fds and has taken `k` of them. */
  predicate FdLink(c: Config, s: State, k: nat) {
    || (k == 0 && Idle(s.pc0) && s.child.up == [MountSourcesPls] && s.child.down == [])
    || (s.child.up == []
        && match s.pc0
           case SendFds(j) => k <= j <= c.sources && s.child.down == Fds(k, j)
           case SendMountAck => k <= c.sources && s.child.down == Fds(k, c.sources)
           case Loop => k <= c.sources && s.child.down == Fds(k, c.sources) + [MountSourcesAck]
           case _ => false)
  }

  predicate FinishLink(s: State) {
    s.child.down == []
    && ((s.child.up == [ChildFinish] && (s.pc0.ForwardPid? || s.pc0.Loop?)) || (s.child.up == [] && Late(s.pc0)))
  }

  /** The grandchild socketpair. */
  predicate GrandchildLink(s: State) {
    && (s.pc2.Unborn2? <==> Rank1(s.pc1) <= Rank1(Spawn2))
    && match s.pc0
       case ReadFinish =>
         || (s.grand.down == [Grandchild] && s.grand.up == [] && 1 <= Rank2(s.pc2) <= 3)
         || (s.grand.down == [] && s.grand.up == [] && 4 <= Rank2(s.pc2) <= 6)
         || (s.grand.down == [] && s.grand.up == [ChildFinish] && Rank2(s.pc2) >= 7)
       case Exit0 => s.grand.down == [] && s.grand.up == [] && Rank2(s.pc2) >= 7
       case _ => s.grand.down == [] && s.grand.up == [] && Rank2(s.pc2) <= 3
  }

  /** The pid has been forwarded, as a function of how far stages 0 and 1 are. */
  predicate Forwarded(s: State) {
    Late(s.pc0) || (s.pc0.Loop? && (Rank1(s.pc1) > Rank1(ReadPidAck) || (s.pc1.ReadPidAck? && s.child.up == [])))
  }

  function Installed(c: Config, s: State): nat {
    match s.pc1
    case RecvFds(k) => k
    case _ => if c.mountSources && Rank1(s.pc1) > 8 then c.slots else 0
  }

  /** The unshare calls made so far, in order. */
  function UnsharesSoFar(c: Config, s: State): seq<set<Flag>> {
    (if User in c.flags && Rank1(s.pc1) > Rank1(UnshareUser) then [{User}] else [])
    + (if Rank1(s.pc1) > Rank1(UnshareRest) then [c.flags - {User, Cgroup}] else [])
    + (if Cgroup in c.flags && Rank2(s.pc2) > Rank2(UnshareCgroup) then [{Cgroup}] else [])
  }

  predicate MapFact(c: Config, s: State) {
    && (s.pc0.SendMapAck? || (s.pc0.Loop? && s.pc1.ReadMapAck? && s.child.up == []) ==> s.h.mapsWritten)
    && (User in c.flags && Rank1(s.pc1) > Rank1(ReadMapAck) ==> s.h.mapsWritten)
  }

  function UpTo(n: nat): seq<nat> {
    seq(n, i requires i >= 0 => i)
  }

  /** Fd number i of the list was installed as the i-th. */
  predicate FdFact(c: Config, s: State) {
    s.h.installed == UpTo(Installed(c, s))
  }

  predicate PidFact(c: Config, s: State) {
    && s.h.forwarded == (if Forwarded(s) then [c.stage2Pid] else [])
    && (s.pc0.SendPidAck? || s.pc0.ForwardPid? ==> s.gotPid == c.stage2Pid)
    && (s.h.finishSent <==> Rank1(s.pc1) > Rank1(SendFinish1))
  }

  predicate UnshareFact(c: Config, s: State) {
    s.h.unshares == UnsharesSoFar(c, s)
  }

  /** Statements guarded by the configuration are reached only under it. */
  predicate GuardFact(c: Config, s: State) {
    && (s.pc1.UnshareUser? || s.pc1.SendMapPls? || s.pc1.ReadMapAck? ==> User in c.flags)
    && (s.pc1.SendMountPls? || s.pc1.RecvFds? || s.pc1.ReadMountAck? ==> c.mountSources)
    && (s.pc2.UnshareCgroup? ==> Cgroup in c.flags)
  }

  predicate Inv(c: Config, s: State) {
    && ChildLink(c, s) && GrandchildLink(s) && GuardFact(c, s)
    && MapFact(c, s) && FdFact(c, s) && PidFact(c, s) && UnshareFact(c, s)
  }

  lemma InitInv(c: Config)
    ensures Inv(c, Init())
  {
  }

  // ------------------------------------------------------- what a step leaves alone

  predicate Frame0(s: State, t: State) {
    && t.pc2 == s.pc2 && t.pc1 == (if s.pc0.Spawn1? then CloseC1 else s.pc1)
    && t.h == s.h.(mapsWritten := t.h.mapsWritten, forwarded := t.h.forwarded)
    && (s.pc0.WriteMaps? || t.h.mapsWritten == s.h.mapsWritten)
    && (s.pc0.ForwardPid? || t.h.forwarded == s.h.forwarded)
    && (s.pc0.SendGo? || s.pc0.ReadFinish? || t.grand == s.grand)
    && (s.pc0.Loop? || Late(s.pc0) == Late(t.pc0))
    && (s.pc0.Loop? || s.pc0.ReadPid? || t.child.up == s.child.up)
  }

  lemma Step0Frame(c: Config, s: State, t: State)
    requires Step0(c, s) == Some(t)
    ensures Frame0(s, t)
  {
    if s.pc0.Loop? {
      LoopFrame(c, s, t);
    }
  }

  lemma LoopFrame(c: Config, s: State, t: State)
    requires Step0(c, s) == Some(t) && s.pc0.Loop?
    ensures Frame0(s, t)
  {
  }

  /** Where stage 1 goes when its statement succeeds. */
  function Next1(c: Config, pc: Pc1): Pc1 {
    match pc
    case Unborn1 => CloseC1
    case CloseC1 => Join
    case Join => if User in c.flags then UnshareUser else UnshareRest
    case UnshareUser => SendMapPls
    case SendMapPls => ReadMapAck
    case ReadMapAck => UnshareRest
    case UnshareRest => if c.mountSources then SendMountPls else Spawn2
    case SendMountPls => RecvFds(0)
    case RecvFds(k) => if k >= c.slots then ReadMountAck else RecvFds(k + 1)
    case ReadMountAck => Spawn2
    case Spawn2 => SendPidPls
    case SendPidPls => SendPid
    case SendPid => ReadPidAck
    case ReadPidAck => SendFinish1
    case SendFinish1 => Leave1
    case Leave1 => Exit1
    case Exit1 => Exit1
  }

  predicate Frame1(c: Config, s: State, t: State) {
    && t.pc0 == s.pc0 && t.pc2 == (if s.pc1.Spawn2? then CloseG1 else s.pc2)
    && (t == Die1(s) || t.pc1 == Next1(c, s.pc1)) && (s.pc1.Spawn2? ==> t.pc1.SendPidPls?)
    && t.grand.up == s.grand.up && t.grand.down == s.grand.down
    && t.gotPid == s.gotPid && t.h.mapsWritten == s.h.mapsWritten && t.h.forwarded == s.h.forwarded
    && (s.pc1.UnshareUser? || s.pc1.UnshareRest? || t.h.unshares == s.h.unshares)
    && (s.pc1.RecvFds? || t.h.installed == s.h.installed)
  }

  lemma Step1Frame(c: Config, s: State, t: State)
    requires Step1(c, s) == Some(t)
    ensures Frame1(c, s, t)
  {
    if Rank1(s.pc1) <= 4 {
      EarlyStep1Frame(c, s, t);
    } else if Rank1(s.pc1) <= 8 {
      MiddleStep1Frame(c, s, t);
    } else {
      LateStep1Frame(c, s, t);
    }
  }

  lemma EarlyStep1Frame(c: Config, s: State, t: State)
    requires Step1(c, s) == Some(t) && Rank1(s.pc1) <= 4
    ensures Frame1(c, s, t)
  {
  }

  lemma MiddleStep1Frame(c: Config, s: State, t: State)
    requires Step1(c, s) == Some(t) && 4 < Rank1(s.pc1) <= 8
    ensures Frame1(c, s, t)
  {
  }

  lemma LateStep1Frame(c: Config, s: State, t: State)
    requires Step1(c, s) == Some(t) && Rank1(s.pc1) > 8
    ensures Frame1(c, s, t)
  {
  }

  lemma Step2Frame(c: Config, s: State, t: State)
    requires Step2(c, s) == Some(t)
    ensures t.pc0 == s.pc0 && t.pc1 == s.pc1 && t.child.up == s.child.up && t.child.down == s.child.down
    ensures t.gotPid == s.gotPid && t.h == s.h.(unshares := t.h.unshares)
  {
  }

  // ---------------------------------------------------------------------- stage 0

  lemma Step0KeepsChildLink(c: Config, s: State, t: State)
    requires ChildLink(c, s) && GuardFact(c, s) && Step0(c, s) == Some(t)
    ensures ChildLink(c, t)
  {
    match s.pc0
    case Loop => LoopKeepsChildLink(c, s, t);
    case SendFds(j) => SendFdsKeepsChildLink(c, s, t);
    case SendMapAck => AcksKeepChildLink(c, s, t);
    case SendPidAck => AcksKeepChildLink(c, s, t);
    case SendMountAck => AcksKeepChildLink(c, s, t);
    case _ => RestKeepsChildLink(c, s, t);
  }

  lemma AcksKeepChildLink(c: Config, s: State, t: State)
    requires ChildLink(c, s) && Step0(c, s) == Some(t)
    requires s.pc0.SendMapAck? || s.pc0.SendPidAck? || s.pc0.SendMountAck?
    ensures ChildLink(c, t)
  {
  }

  lemma RestKeepsChildLink(c: Config, s: State, t: State)
    requires ChildLink(c, s) && Step0(c, s) == Some(t) && !s.pc0.Loop? && !s.pc0.SendFds?
    requires !s.pc0.SendMapAck? && !s.pc0.SendPidAck? && !s.pc0.SendMountAck?
    ensures ChildLink(c, t)
  {
  }

  lemma LoopKeepsChildLink(c: Config, s: State, t: State)
    requires ChildLink(c, s) && GuardFact(c, s) && Step0(c, s) == Some(t) && s.pc0.Loop?
    ensures ChildLink(c, t)
  {
  }

  lemma SendFdsKeepsChildLink(c: Config, s: State, t: State)
    requires ChildLink(c, s) && Step0(c, s) == Some(t) && s.pc0.SendFds?
    ensures ChildLink(c, t)
  {
    var j := s.pc0.sent;
    var k := if s.pc1.RecvFds? then s.pc1.received else c.slots;
    assert Fds(k, j) + [Fd(j)] == Fds(k, j + 1);
  }

  lemma Step0KeepsGrandchildLink(c: Config, s: State, t: State)
    requires ChildLink(c, s) && GrandchildLink(s) && Step0(c, s) == Some(t)
    ensures GrandchildLink(t)
  {
    if Late(s.pc0) {
      LateStep0KeepsGrandchildLink(c, s, t);
    } else if s.pc0.Loop? {
      LoopKeepsGrandchildLink(c, s, t);
    } else {
      Step0Frame(c, s, t);
      Frame0KeepsGrandchildLink(c, s, t);
    }
  }

  lemma LateStep0KeepsGrandchildLink(c: Config, s: State, t: State)
    requires ChildLink(c, s) && GrandchildLink(s) && Step0(c, s) == Some(t) && Late(s.pc0)
    ensures GrandchildLink(t)
  {
  }

  lemma LoopKeepsGrandchildLink(c: Config, s: State, t: State)
    requires GrandchildLink(s) && Step0(c, s) == Some(t) && s.pc0.Loop?
    ensures GrandchildLink(t)
  {
  }

  lemma Frame0KeepsGrandchildLink(c: Config, s: State, t: State)
    requires ChildLink(c, s) && GrandchildLink(s) && Frame0(s, t) && !Late(s.pc0) && !s.pc0.Loop?
    ensures GrandchildLink(t)
  {
  }

  lemma Step0KeepsMapFact(c: Config, s: State, t: State)
    requires ChildLink(c, s) && MapFact(c, s) && Step0(c, s) == Some(t)
    ensures MapFact(c, t)
  {
    Step0Frame(c, s, t);
    if s.pc0.Loop? || s.pc0.WriteMaps? {
      MapStepKeepsMapFact(c, s, t);
    } else {
      assert s.pc0.Spawn1? ==> s.pc1.Unborn1?;
      assert !t.pc0.SendMapAck? || t.pc0 == s.pc0;
    }
  }

  lemma MapStepKeepsMapFact(c: Config, s: State, t: State)
    requires ChildLink(c, s) && MapFact(c, s) && Step0(c, s) == Some(t)
    requires s.pc0.Loop? || s.pc0.WriteMaps?
    ensures MapFact(c, t)
  {
  }

  lemma Step0KeepsPidFact(c: Config, s: State, t: State)
    requires ChildLink(c, s) && PidFact(c, s) && Step0(c, s) == Some(t)
    ensures PidFact(c, t)
  {
    if s.pc0.Loop? {
      LoopKeepsPidFact(c, s, t);
    } else if s.pc0.ReadPid? || s.pc0.SendPidAck? || s.pc0.ForwardPid? {
      PidStepKeepsPidFact(c, s, t);
    } else {
      Step0Frame(c, s, t);
      assert !t.pc0.SendPidAck? && !t.pc0.ForwardPid?;
      Frame0KeepsPidFact(c, s, t);
    }
  }

  lemma PidStepKeepsPidFact(c: Config, s: State, t: State)
    requires ChildLink(c, s) && PidFact(c, s) && Step0(c, s) == Some(t)
    requires s.pc0.ReadPid? || s.pc0.SendPidAck? || s.pc0.ForwardPid?
    ensures PidFact(c, t)
  {
  }

  lemma Frame0KeepsPidFact(c: Config, s: State, t: State)
    requires ChildLink(c, s) && PidFact(c, s) && Frame0(s, t)
    requires !s.pc0.Loop? && !s.pc0.ReadPid? && !s.pc0.SendPidAck? && !s.pc0.ForwardPid?
    requires !t.pc0.SendPidAck? && !t.pc0.ForwardPid?
    ensures PidFact(c, t)
  {
  }

  lemma LoopKeepsForwarded(c: Config, s: State, t: State)
    requires ChildLink(c, s) && Step0(c, s) == Some(t) && s.pc0.Loop?
    ensures Forwarded(t) == Forwarded(s)
  {
    assert s.child.up != [] && t != Die0(s) ==>
        (Rank1(s.pc1) > Rank1(SendFinish1) <==> Late(t.pc0));
  }

  lemma LoopKeepsPidFact(c: Config, s: State, t: State)
    requires ChildLink(c, s) && PidFact(c, s) && Step0(c, s) == Some(t) && s.pc0.Loop?
    ensures PidFact(c, t)
  {
    LoopFrame(c, s, t);
    LoopKeepsForwarded(c, s, t);
    assert !t.pc0.SendPidAck? && !t.pc0.ForwardPid?;
  }

  lemma Step0KeepsOtherFacts(c: Config, s: State, t: State)
    requires ChildLink(c, s) && GuardFact(c, s) && FdFact(c, s) && UnshareFact(c, s) && Step0(c, s) == Some(t)
    ensures GuardFact(c, t) && FdFact(c, t) && UnshareFact(c, t)
  {
    Step0Frame(c, s, t);
    assert s.pc0.Spawn1? ==> s.pc1.Unborn1?;
    FrameKeepsFacts(c, s, t);
  }

  /** Facts that depend only on stages 1 and 2. */
  lemma FrameKeepsFacts(c: Config, s: State, t: State)
    requires GuardFact(c, s) && FdFact(c, s) && UnshareFact(c, s)
    requires t.pc2 == s.pc2 && (t.pc1 == s.pc1 || (s.pc1.Unborn1? && t.pc1.CloseC1?))
    requires t.h.installed == s.h.installed && t.h.unshares == s.h.unshares
    ensures GuardFact(c, t) && FdFact(c, t) && UnshareFact(c, t)
  {
  }

  // ---------------------------------------------------------------------- stage 1

  lemma Step1KeepsChildLink(c: Config, s: State, t: State)
    requires ChildLink(c, s) && GuardFact(c, s) && Step1(c, s) == Some(t)
    ensures ChildLink(c, t)
  {
    if Rank1(s.pc1) < 8 {
      EarlyStep1KeepsChildLink(c, s, t);
    } else if s.pc1.RecvFds? {
      RecvFdsKeepsChildLink(c, s, t);
    } else {
      LateStep1KeepsChildLink(c, s, t);
    }
  }

  lemma EarlyStep1KeepsChildLink(c: Config, s: State, t: State)
    requires ChildLink(c, s) && Step1(c, s) == Some(t) && Rank1(s.pc1) < 8
    ensures ChildLink(c, t)
  {
  }

  lemma LateStep1KeepsChildLink(c: Config, s: State, t: State)
    requires ChildLink(c, s) && Step1(c, s) == Some(t) && Rank1(s.pc1) > 8
    ensures ChildLink(c, t)
  {
    if s.pc1.ReadMountAck? && s.pc0.Loop? {
      FdsTail(c.slots, c.sources);
    }
  }

  lemma RecvFdsKeepsChildLink(c: Config, s: State, t: State)
    requires ChildLink(c, s) && Step1(c, s) == Some(t) && s.pc1.RecvFds?
    ensures ChildLink(c, t)
  {
    var k := s.pc1.received;
    match s.pc0
    case SendFds(j) => FdsTail(k, j);
    case SendMountAck => FdsTail(k, c.sources);
    case Loop => if s.child.up == [] { FdsTail(k, c.sources); }
    case _ =>
  }

  lemma FdsTail(k: nat, j: nat)
    requires k <= j
    ensures k == j ==> Fds(k, j) == []
    ensures k < j ==> Fds(k, j)[0] == Fd(k) && Fds(k, j)[1..] == Fds(k + 1, j)
    ensures k < j ==> (Fds(k, j) + [MountSourcesAck])[1..] == Fds(k + 1, j) + [MountSourcesAck]
  {
  }

  lemma Step1KeepsGrandchildLink(c: Config, s: State, t: State)
    requires ChildLink(c, s) && GrandchildLink(s) && Step1(c, s) == Some(t)
    ensures GrandchildLink(t)
  {
    Step1Frame(c, s, t);
    Frame1KeepsGrandchildLink(c, s, t);
  }

  lemma Frame1KeepsGrandchildLink(c: Config, s: State, t: State)
    requires ChildLink(c, s) && GrandchildLink(s) && Frame1(c, s, t)
    ensures GrandchildLink(t)
  {
  }

  lemma Step1KeepsGuardFact(c: Config, s: State, t: State)
    requires GuardFact(c, s) && Step1(c, s) == Some(t)
    ensures GuardFact(c, t)
  {
    Step1Frame(c, s, t);
    Frame1KeepsGuardFact(c, s, t);
  }

  lemma Frame1KeepsGuardFact(c: Config, s: State, t: State)
    requires GuardFact(c, s) && Frame1(c, s, t)
    ensures GuardFact(c, t)
  {
  }

  lemma Step1KeepsMapFact(c: Config, s: State, t: State)
    requires ChildLink(c, s) && GuardFact(c, s) && MapFact(c, s) && Step1(c, s) == Some(t)
    ensures MapFact(c, t)
  {
  }

  lemma Step1KeepsFdFact(c: Config, s: State, t: State)
    requires ChildLink(c, s) && GuardFact(c, s) && FdFact(c, s) && Step1(c, s) == Some(t)
    ensures FdFact(c, t)
  {
    if s.pc1.RecvFds? {
      RecvFdsKeepsFdFact(c, s, t);
    } else {
      Step1Frame(c, s, t);
      Frame1KeepsFdFact(c, s, t);
    }
  }

  lemma Frame1KeepsFdFact(c: Config, s: State, t: State)
    requires GuardFact(c, s) && FdFact(c, s) && Frame1(c, s, t) && !s.pc1.RecvFds?
    ensures FdFact(c, t)
  {
  }

  lemma RecvFdsKeepsFdFact(c: Config, s: State, t: State)
    requires ChildLink(c, s) && c.mountSources && FdFact(c, s) && Step1(c, s) == Some(t) && s.pc1.RecvFds?
    ensures FdFact(c, t)
  {
    HeadFdIsNext(c, s);
    var k := s.pc1.received;
    if s.h.installed != t.h.installed {
      assert UpTo(k + 1) == UpTo(k) + [k];
    }
  }

  /** The fd at the head of the queue is the one stage 1 waits for. */
  lemma HeadFdIsNext(c: Config, s: State)
    requires ChildLink(c, s) && s.pc1.RecvFds?
    ensures s.child.down != [] && s.child.down[0].Fd? ==> s.child.down[0] == Fd(s.pc1.received)
  {
  }

  lemma Step1KeepsPidFact(c: Config, s: State, t: State)
    requires ChildLink(c, s) && PidFact(c, s) && Step1(c, s) == Some(t)
    ensures PidFact(c, t)
  {
    if Rank1(s.pc1) < 12 {
      EarlyStep1KeepsPidFact(c, s, t);
    } else {
      LateStep1KeepsPidFact(c, s, t);
    }
  }

  lemma EarlyStep1KeepsPidFact(c: Config, s: State, t: State)
    requires ChildLink(c, s) && PidFact(c, s) && Step1(c, s) == Some(t) && Rank1(s.pc1) < 12
    ensures PidFact(c, t)
  {
    Step1Frame(c, s, t);
    EarlyStep1Unfinished(c, s, t);
  }

  /** Before the pid exchange nothing is forwarded and no finish message is out. */
  lemma EarlyStep1Unfinished(c: Config, s: State, t: State)
    requires Step1(c, s) == Some(t) && Rank1(s.pc1) < 12
    ensures Rank1(t.pc1) <= 12 && t.h.finishSent == s.h.finishSent
  {
  }

  lemma LateStep1KeepsPidFact(c: Config, s: State, t: State)
    requires ChildLink(c, s) && PidFact(c, s) && Step1(c, s) == Some(t) && Rank1(s.pc1) >= 12
    ensures PidFact(c, t)
  {
    if s.pc1.ReadPidAck? || Rank1(s.pc1) < Rank1(ReadPidAck) {
      PidExchangeKeepsPidFact(c, s, t);
    } else {
      FinishKeepsPidFact(c, s, t);
    }
  }

  lemma PidExchangeKeepsPidFact(c: Config, s: State, t: State)
    requires ChildLink(c, s) && PidFact(c, s) && Step1(c, s) == Some(t)
    requires 12 <= Rank1(s.pc1) <= Rank1(ReadPidAck)
    ensures PidFact(c, t)
  {
  }

  lemma FinishKeepsPidFact(c: Config, s: State, t: State)
    requires ChildLink(c, s) && PidFact(c, s) && Step1(c, s) == Some(t) && Rank1(s.pc1) > Rank1(ReadPidAck)
    ensures PidFact(c, t)
  {
    LateStep1Frame(c, s, t);
    FinishIsRecorded(c, s, t);
    assert Forwarded(s) == Forwarded(t);
  }

  /** Past its last acknowledgement stage 1 sends its finish message, and only then. */
  lemma FinishIsRecorded(c: Config, s: State, t: State)
    requires Step1(c, s) == Some(t) && Rank1(s.pc1) > Rank1(ReadPidAck)
    requires s.h.finishSent <==> Rank1(s.pc1) > Rank1(SendFinish1)
    ensures Rank1(t.pc1) > Rank1(ReadPidAck)
    ensures t.h.finishSent <==> Rank1(t.pc1) > Rank1(SendFinish1)
  {
  }

  lemma Step1KeepsUnshareFact(c: Config, s: State, t: State)
    requires ChildLink(c, s) && GrandchildLink(s) && GuardFact(c, s) && UnshareFact(c, s) && Step1(c, s) == Some(t)
    ensures UnshareFact(c, t)
  {
    if s.pc1.UnshareUser? || s.pc1.UnshareRest? {
      UnshareKeepsUnshareFact(c, s, t);
    } else {
      Step1Frame(c, s, t);
      Frame1KeepsUnshareFact(c, s, t);
    }
  }

  lemma UnshareKeepsUnshareFact(c: Config, s: State, t: State)
    requires GrandchildLink(s) && GuardFact(c, s) && UnshareFact(c, s) && Step1(c, s) == Some(t)
    requires s.pc1.UnshareUser? || s.pc1.UnshareRest?
    ensures UnshareFact(c, t)
  {
    if s.pc1.UnshareRest? {
      assert UnsharesSoFar(c, t) == UnsharesSoFar(c, s) + [c.flags - {User, Cgroup}];
    }
  }

  lemma Frame1KeepsUnshareFact(c: Config, s: State, t: State)
    requires GrandchildLink(s) && GuardFact(c, s) && UnshareFact(c, s) && Frame1(c, s, t)
    requires !s.pc1.UnshareUser? && !s.pc1.UnshareRest?
    ensures UnshareFact(c, t)
  {
    assert User in c.flags ==> (Rank1(t.pc1) > 3 <==> Rank1(s.pc1) > 3);
    assert Rank1(t.pc1) > 6 <==> Rank1(s.pc1) > 6;
  }

  // ---------------------------------------------------------------------- stage 2

  lemma Step2KeepsInv(c: Config, s: State, t: State)
    requires Inv(c, s) && Step2(c, s) == Some(t)
    ensures Inv(c, t)
  {
    Step2Frame(c, s, t);
    Step2FrameKeepsFacts(c, s, t);
    Step2KeepsGrandchildLink(c, s, t);
    Step2KeepsUnshareFact(c, s, t);
  }

  lemma Step2FrameKeepsFacts(c: Config, s: State, t: State)
    requires ChildLink(c, s) && MapFact(c, s) && FdFact(c, s) && PidFact(c, s)
    requires t.pc0 == s.pc0 && t.pc1 == s.pc1 && t.child.up == s.child.up && t.child.down == s.child.down
    requires t.gotPid == s.gotPid && t.h == s.h.(unshares := t.h.unshares)
    ensures ChildLink(c, t) && MapFact(c, t) && FdFact(c, t) && PidFact(c, t)
  {
  }

  lemma Step2KeepsGrandchildLink(c: Config, s: State, t: State)
    requires GrandchildLink(s) && Step2(c, s) == Some(t)
    ensures GrandchildLink(t)
  {
  }

  lemma Step2KeepsUnshareFact(c: Config, s: State, t: State)
    requires GuardFact(c, s) && UnshareFact(c, s) && Step2(c, s) == Some(t)
    ensures GuardFact(c, t) && UnshareFact(c, t)
  {
    if s.pc2.UnshareCgroup? {
      assert UnsharesSoFar(c, t) == UnsharesSoFar(c, s) + [{Cgroup}];
    }
  }

  // -------------------------------------------------------------------- every run

  lemma StepKeepsInv(c: Config, s: State, t: State)
    requires Inv(c, s) && Step(c, s, t)
    ensures Inv(c, t)
  {
    if Step0(c, s) == Some(t) {
      Step0KeepsInv(c, s, t);
    } else if Step1(c, s) == Some(t) {
      Step1KeepsInv(c, s, t);
    } else if Step2(c, s) == Some(t) {
      Step2KeepsInv(c, s, t);
    } else {
      CrashKeepsInv(c, s, t);
    }
  }

  lemma Step0KeepsInv(c: Config, s: State, t: State)
    requires Inv(c, s) && Step0(c, s) == Some(t)
    ensures Inv(c, t)
  {
    Step0KeepsChildLink(c, s, t);
    Step0KeepsGrandchildLink(c, s, t);
    Step0KeepsMapFact(c, s, t);
    Step0KeepsPidFact(c, s, t);
    Step0KeepsOtherFacts(c, s, t);
  }

  lemma Step1KeepsInv(c: Config, s: State, t: State)
    requires Inv(c, s) && Step1(c, s) == Some(t)
    ensures Inv(c, t)
  {
    Step1KeepsChildLink(c, s, t);
    Step1KeepsGrandchildLink(c, s, t);
    Step1KeepsGuardFact(c, s, t);
    Step1KeepsMapFact(c, s, t);
    Step1KeepsFdFact(c, s, t);
    Step1KeepsPidFact(c, s, t);
    Step1KeepsUnshareFact(c, s, t);
  }

  lemma CrashKeepsInv(c: Config, s: State, t: State)
    requires Inv(c, s) && Crashes(s, t)
    ensures Inv(c, t)
  {
    DeathIsInvisible(c, s, t);
  }

  /** The invariant does not look at who is alive. */
  lemma DeathIsInvisible(c: Config, s: State, t: State)
    requires Inv(c, s) && t == s.(live0 := t.live0, live1 := t.live1, live2 := t.live2)
    ensures Inv(c, t)
  {
    Step2FrameKeepsFacts(c, s, t);
  }

  /** A run: any interleaving of the processes' statements and of crashes. */
  predicate IsRun(c: Config, run: seq<State>) {
    && run != [] && run[0] == Init()
    && forall i :: 0 <= i < |run| - 1 ==> Step(c, run[i], run[i + 1])
  }

  lemma {:induction false} RunKeepsInv(c: Config, run: seq<State>, i: nat)
    requires IsRun(c, run) && i < |run|
    ensures Inv(c, run[i])
  {
    if i == 0 {
      InitInv(c);
    } else {
      RunKeepsInv(c, run, i - 1);
      StepKeepsInv(c, run[i - 1], run[i]);
    }
  }

  /** In every run, stage 2 is past SYNC_GRANDCHILD only after everything it relies on was done:
      id maps written if a user namespace was asked for, all mount fds installed in order, its
      pid forwarded exactly once, and stage 1's finish message sent. */
  lemma GrandchildRunsLast(c: Config, run: seq<State>, i: nat)
    requires IsRun(c, run) && i < |run| && Rank2(run[i].pc2) > Rank2(ReadGo)
    ensures User in c.flags ==> run[i].h.mapsWritten
    ensures c.mountSources ==> run[i].h.installed == UpTo(c.slots)
    ensures run[i].h.forwarded == [c.stage2Pid]
    ensures run[i].h.finishSent
  {
    RunKeepsInv(c, run, i);
  }

  function Times(calls: seq<set<Flag>>, f: Flag): nat {
    if calls == [] then 0 else Times(calls[..|calls| - 1], f) + if f in calls[|calls| - 1] then 1 else 0
  }

  /** In every state the unshare calls made so far begin the one list of them: no namespace is ever
      unshared twice or unasked, and when stage 2 returns every requested one has been. */
  lemma EachFlagUnsharedOnce(c: Config, run: seq<State>, i: nat, f: Flag)
    requires IsRun(c, run) && i < |run|
    ensures run[i].h.unshares <= AllCalls(c)
    ensures Times(run[i].h.unshares, f) <= if f in c.flags then 1 else 0
    ensures run[i].pc2.Returned? ==> Times(run[i].h.unshares, f) == if f in c.flags then 1 else 0
  {
    RunKeepsInv(c, run, i);
    AllCallsOnce(c, f);
    CallsBeginTheList(c, run[i]);
    var made := run[i].h.unshares;
    assert AllCalls(c) == made + AllCalls(c)[|made|..];
    TimesConcat(made, AllCalls(c)[|made|..], f);
    if run[i].pc2.Returned? {
      ReturnedMeansAllCalls(c, run[i]);
    }
  }

  lemma CallsBeginTheList(c: Config, s: State)
    requires Inv(c, s)
    ensures s.h.unshares <= AllCalls(c)
  {
  }

  lemma ReturnedMeansAllCalls(c: Config, s: State)
    requires Inv(c, s) && s.pc2.Returned?
    ensures s.h.unshares == AllCalls(c)
  {
  }

  /** The unshare calls of a complete handshake. */
  function AllCalls(c: Config): seq<set<Flag>> {
    (if User in c.flags then [{User}] else [])
    + [c.flags - {User, Cgroup}]
    + (if Cgroup in c.flags then [{Cgroup}] else [])
  }

  lemma AllCallsOnce(c: Config, f: Flag)
    ensures Times(AllCalls(c), f) == if f in c.flags then 1 else 0
  {
    var user := if User in c.flags then [{User}] else [];
    var rest := [c.flags - {User, Cgroup}];
    var cgroup := if Cgroup in c.flags then [{Cgroup}] else [];
    TimesConcat(user + rest, cgroup, f);
    TimesConcat(user, rest, f);
    TimesOne({User}, f);
    TimesOne({Cgroup}, f);
    TimesOne(c.flags - {User, Cgroup}, f);
  }

  lemma TimesOne(call: set<Flag>, f: Flag)
    ensures Times([call], f) == if f in call then 1 else 0
  {
    assert [call][..0] == [];
  }

  lemma {:induction false} TimesConcat(a: seq<set<Flag>>, b: seq<set<Flag>>, f: Flag)
    ensures Times(a + b, f) == Times(a, f) + Times(b, f)
  {
    if b == [] {
      assert a + b == a;
    } else {
      assert (a + b)[..|a + b| - 1] == a + b[..|b| - 1];
      TimesConcat(a, b[..|b| - 1], f);
    }
  }
}
