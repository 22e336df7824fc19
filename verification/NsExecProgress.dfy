/** Progress of the nsexec handshake: nobody waits forever, every run ends. */
module NsExecProgress {
  import opened Wrappers
  import opened NsExec
  import opened NsExecSafety

  // ------------------------------------------------------------------- no deadlock

  predicate CanRun(c: Config, s: State) {
    Step0(c, s).Some? || Step1(c, s).Some? || Step2(c, s).Some?
  }

  predicate Waits1(pc: Pc1) {
    pc.ReadMapAck? || pc.RecvFds? || pc.ReadMountAck? || pc.ReadPidAck?
  }

  /** Stage 1 is stuck only while a live stage 0 still owes it a message. */
  lemma Stage1WaitsForStage0(c: Config, s: State)
    requires Active1(s) && Step1(c, s).None?
    ensures Waits1(s.pc1) && s.child.down == [] && Active0(s)
  {
  }

  /** ... and then stage 0 can run. */
  lemma Stage0Answers(c: Config, s: State)
    requires ChildLink(c, s) && Waits1(s.pc1) && s.child.down == [] && Active0(s)
    ensures Step0(c, s).Some?
  {
  }

  lemma Stage1Unblocked(c: Config, s: State)
    requires Inv(c, s) && Active1(s)
    ensures CanRun(c, s)
  {
    if Step1(c, s).None? {
      Stage1WaitsForStage0(c, s);
      Stage0Answers(c, s);
    }
  }

  /** Stage 2 is stuck only before SYNC_GRANDCHILD, while someone can still send it. */
  lemma Stage2WaitsForGo(c: Config, s: State)
    requires Active2(s) && Step2(c, s).None?
    ensures s.pc2.ReadGo? && s.grand.down == [] && (Active0(s) || Active1(s))
  {
  }

  /** Stage 0 is stuck only on an empty queue whose other end is held by another process. */
  lemma Stage0WaitsForOthers(c: Config, s: State)
    requires Active0(s) && Step0(c, s).None?
    ensures s.pc0.Loop? || s.pc0.ReadPid? || s.pc0.ReadFinish?
    ensures Active1(s) || Active2(s)
    ensures !s.pc0.ReadFinish? && !Active1(s) ==> s.pc2.CloseG1? || s.pc2.CloseC0In2?
    ensures s.pc0.ReadFinish? ==> s.grand.up == []
  {
  }

  lemma Stage0Unblocked(c: Config, s: State)
    requires Inv(c, s) && Active0(s)
    ensures CanRun(c, s)
  {
    if Step0(c, s).None? {
      Stage0WaitsForOthers(c, s);
      if Active1(s) {
        Stage1Unblocked(c, s);
      } else if Step2(c, s).None? {
        Stage2WaitsForGo(c, s);
        assert false;
      }
    }
  }

  lemma NoDeadlock(c: Config, s: State)
    requires Inv(c, s) && (Active0(s) || Active1(s) || Active2(s))
    ensures CanRun(c, s)
  {
    if Active0(s) {
      Stage0Unblocked(c, s);
    } else if Active1(s) {
      Stage1Unblocked(c, s);
    } else if Step2(c, s).None? {
      Stage2WaitsForGo(c, s);
      assert false;
    }
  }

  /** A run that cannot go on has every process finished, dead or never born. */
  lemma StuckMeansFinished(c: Config, run: seq<State>)
    requires IsRun(c, run) && !CanRun(c, run[|run| - 1])
    ensures !Active0(run[|run| - 1]) && !Active1(run[|run| - 1]) && !Active2(run[|run| - 1])
  {
    RunKeepsInv(c, run, |run| - 1);
    if Active0(run[|run| - 1]) || Active1(run[|run| - 1]) || Active2(run[|run| - 1]) {
      NoDeadlock(c, run[|run| - 1]);
    }
  }

  // -------------------------------------------------------------------- termination

  function Left0(c: Config, pc: Pc0): nat {
    match pc
    case Spawn1 => 6
    case CloseC0 => 5
    case Loop => 4
    case WriteMaps => 6
    case SendMapAck => 5
    case ReadPid => 7
    case SendPidAck => 6
    case ForwardPid => 5
    case SendFds(j) => 6 + if j <= c.sources then c.sources - j else 0
    case SendMountAck => 5
    case CloseG0 => 3
    case SendGo => 2
    case ReadFinish => 1
    case Exit0 => 0
  }

  function Left1(c: Config, pc: Pc1): nat {
    match pc
    case RecvFds(k) => 8 + if k <= c.slots then c.slots - k else 0
    case _ => (if Rank1(pc) < 8 then c.slots + 1 else 0) + (16 - Rank1(pc))
  }

  function Left2(pc: Pc2): nat {
    8 - Rank2(pc)
  }

  function Alive(s: State): nat {
    (if s.live0 then 1 else 0) + (if s.live1 then 1 else 0) + (if s.live2 then 1 else 0)
  }

  /** Lexicographic: stage 1, its unread messages, stage 0, stage 2, deaths. */
  predicate Smaller(c: Config, t: State, s: State) {
    var l1, l1' := Left1(c, s.pc1), Left1(c, t.pc1);
    var q, q' := |s.child.up|, |t.child.up|;
    var l0, l0' := Left0(c, s.pc0), Left0(c, t.pc0);
    var l2, l2' := Left2(s.pc2), Left2(t.pc2);
    || l1' < l1
    || (l1' == l1 && q' < q)
    || (l1' == l1 && q' == q && l0' < l0)
    || (l1' == l1 && q' == q && l0' == l0 && l2' < l2)
    || (l1' == l1 && q' == q && l0' == l0 && l2' == l2 && Alive(t) < Alive(s))
  }

  lemma Step0Decreases(c: Config, s: State, t: State)
    requires ChildLink(c, s) && Step0(c, s) == Some(t)
    ensures Smaller(c, t, s)
  {
    if s.pc0.Loop? || s.pc0.ReadPid? {
      ReadDecreases(c, s, t);
    } else if s.pc0.SendFds? {
      SendFdsDecreases(c, s, t);
    } else {
      OtherStep0Decreases(c, s, t);
    }
  }

  lemma SendFdsDecreases(c: Config, s: State, t: State)
    requires ChildLink(c, s) && Step0(c, s) == Some(t) && s.pc0.SendFds?
    ensures Smaller(c, t, s)
  {
  }

  lemma OtherStep0Decreases(c: Config, s: State, t: State)
    requires ChildLink(c, s) && Step0(c, s) == Some(t) && !s.pc0.Loop? && !s.pc0.ReadPid? && !s.pc0.SendFds?
    ensures Smaller(c, t, s)
  {
  }

  lemma ReadDecreases(c: Config, s: State, t: State)
    requires Step0(c, s) == Some(t) && (s.pc0.Loop? || s.pc0.ReadPid?)
    ensures Smaller(c, t, s)
  {
  }

  lemma Step1Decreases(c: Config, s: State, t: State)
    requires Step1(c, s) == Some(t)
    ensures Smaller(c, t, s)
  {
    Step1Frame(c, s, t);
    Frame1Decreases(c, s, t);
  }

  lemma Frame1Decreases(c: Config, s: State, t: State)
    requires Active1(s) && Frame1(c, s, t)
    ensures Smaller(c, t, s)
  {
  }

  lemma Step2Decreases(c: Config, s: State, t: State)
    requires Step2(c, s) == Some(t)
    ensures Smaller(c, t, s)
  {
  }

  lemma StepDecreases(c: Config, s: State, t: State)
    requires Inv(c, s) && Step(c, s, t)
    ensures Smaller(c, t, s)
  {
    if Step0(c, s) == Some(t) {
      Step0Decreases(c, s, t);
    } else if Step1(c, s) == Some(t) {
      Step1Decreases(c, s, t);
    } else if Step2(c, s) == Some(t) {
      Step2Decreases(c, s, t);
    }
  }

  lemma {:induction false} Descend(c: Config, f: nat -> State, i: nat)
    requires Inv(c, f(i))
    ensures exists n: nat :: !Step(c, f(n), f(n + 1))
    decreases Left1(c, f(i).pc1), |f(i).child.up|, Left0(c, f(i).pc0), Left2(f(i).pc2), Alive(f(i))
  {
    if Step(c, f(i), f(i + 1)) {
      StepKeepsInv(c, f(i), f(i + 1));
      StepDecreases(c, f(i), f(i + 1));
      Descend(c, f, i + 1);
    }
  }

  /** No run is infinite, whatever the interleaving and whoever dies. */
  lemma EveryRunEnds(c: Config, f: nat -> State)
    requires f(0) == Init()
    ensures exists n: nat :: !Step(c, f(n), f(n + 1))
  {
    InitInv(c);
    Descend(c, f, 0);
  }

  // ------------------------------------------------------------------------ success

  predicate AllLive(s: State) {
    s.live0 && s.live1 && s.live2
  }

  /** As many fds are sent as are waited for. */
  predicate FdsAgree(c: Config) {
    c.mountSources ==> c.sources == c.slots
  }

  lemma NobodyDies0(c: Config, s: State, t: State)
    requires Inv(c, s) && AllLive(s) && Step0(c, s) == Some(t)
    ensures AllLive(t)
  {
  }

  lemma NobodyDies1(c: Config, s: State, t: State)
    requires Inv(c, s) && AllLive(s) && FdsAgree(c) && Step1(c, s) == Some(t)
    ensures AllLive(t)
  {
  }

  lemma NobodyDies2(c: Config, s: State, t: State)
    requires Inv(c, s) && AllLive(s) && Step2(c, s) == Some(t)
    ensures AllLive(t)
  {
  }

  /** A run without crashes. */
  predicate IsSmoothRun(c: Config, run: seq<State>) {
    && run != [] && run[0] == Init()
    && forall i :: 0 <= i < |run| - 1 ==> Runs(c, run[i], run[i + 1])
  }

  lemma {:induction false} SmoothRunStaysLive(c: Config, run: seq<State>, i: nat)
    requires IsSmoothRun(c, run) && FdsAgree(c) && i < |run|
    ensures Inv(c, run[i]) && AllLive(run[i])
  {
    if i == 0 {
      InitInv(c);
    } else {
      SmoothRunStaysLive(c, run, i - 1);
      var s, t := run[i - 1], run[i];
      StepKeepsInv(c, s, t);
      if Step0(c, s) == Some(t) {
        NobodyDies0(c, s, t);
      } else if Step1(c, s) == Some(t) {
        NobodyDies1(c, s, t);
      } else {
        NobodyDies2(c, s, t);
      }
    }
  }

  /** If no system call fails, every maximal run ends with stage 2 returned and both parents gone. */
  lemma SmoothRunSucceeds(c: Config, run: seq<State>)
    requires IsSmoothRun(c, run) && FdsAgree(c) && !CanRun(c, run[|run| - 1])
    ensures run[|run| - 1].pc2.Returned? && run[|run| - 1].pc1.Exit1? && run[|run| - 1].pc0.Exit0?
  {
    var last := run[|run| - 1];
    SmoothRunStaysLive(c, run, |run| - 1);
    if Active0(last) || Active1(last) || Active2(last) {
      NoDeadlock(c, last);
    }
  }

  /** With too few or too many fds the handshake never gets past stage 1: no stage 2 is born. */
  lemma FdMismatchStopsHandshake(c: Config, run: seq<State>, i: nat)
    requires IsRun(c, run) && i < |run| && c.mountSources && c.sources != c.slots
    ensures run[i].pc2.Unborn2?
  {
    FdMismatchStopsStage1(c, run, i);
    RunKeepsInv(c, run, i);
  }

  lemma {:induction false} FdMismatchStopsStage1(c: Config, run: seq<State>, i: nat)
    requires IsRun(c, run) && i < |run| && c.mountSources && c.sources != c.slots
    ensures Rank1(run[i].pc1) <= Rank1(ReadMountAck)
  {
    if i > 0 {
      FdMismatchStopsStage1(c, run, i - 1);
      RunKeepsInv(c, run, i - 1);
      MismatchStep(c, run[i - 1], run[i]);
    }
  }

  lemma MismatchStep(c: Config, s: State, t: State)
    requires Inv(c, s) && Step(c, s, t) && c.mountSources && c.sources != c.slots
    requires Rank1(s.pc1) <= Rank1(ReadMountAck)
    ensures Rank1(t.pc1) <= Rank1(ReadMountAck)
  {
    if Step0(c, s) == Some(t) {
      Step0Frame(c, s, t);
    } else if Step1(c, s) == Some(t) {
      if s.pc1.ReadMountAck? {
        NoAckAtHead(c, s);
      } else {
        Step1Frame(c, s, t);
      }
    } else if Step2(c, s) == Some(t) {
      Step2Frame(c, s, t);
    }
  }

  lemma NoAckAtHead(c: Config, s: State)
    requires ChildLink(c, s) && s.pc1.ReadMountAck? && c.sources != c.slots
    ensures s.child.down != [] ==> s.child.down[0] != MountSourcesAck
  {
  }
}
