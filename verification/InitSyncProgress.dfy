/** Progress of the parent/init handshake, and the runs in which it misbehaves. */
module InitSyncProgress {
  import opened InitSync
  import opened InitSyncSafety

  // ------------------------------------------------------------------- no deadlock

  /** A side can execute its next statement. */
  predicate ChildCanRun(s: State) {
    ChildOpen(s) && (Reads(s.child) ==> s.down != [] || !s.writable)
  }

  predicate ParentCanRun(s: State) {
    match s.parent
    case AwaitByte => s.up != [] || !ChildOpen(s)
    case ReadPid => s.up != [] || !ChildOpen(s)
    case Sync => s.up != [] || !ChildOpen(s)
    case ReadBody => s.up != [] || !ChildOpen(s)
    case AwaitExit => s.killed || s.child.Gone?
    case Cleanup => s.p.byteRead || s.up != [] || !ChildOpen(s)
    case Returned(_) => false
    case Panicked => false
    case _ => true
  }

  /** The child's next statement, when it has one. */
  function ChildNext(c: Config, s: State): (t: State)
    requires ChildCanRun(s)
    ensures ChildStep(c, s, t)
  {
    match s.child
    case SendByte => ChildSend(s, InitByte, ReadBoot, Gone)
    case ReadBoot =>
      if s.down != [] then s.(down := s.down[1..], child := if s.down[0].Bootstrap? then SendPid else Gone)
      else s.(child := Gone)
    case SendPid => ChildSend(s, PidJson, ParseEnv, Gone)
    case ParseEnv => if c.envParses then s.(child := ReadConfig) else Fail(s)
    case ReadConfig => Decode(s, ConfigJson, Prepare)
    case Prepare => s.(child := SendHooks)
    case SendHooks => ChildSend(s, ProcHooks, ReadResume, SendError)
    case ReadResume => Decode(s, ProcResume, Jail)
    case Jail => s.(child := SendReady)
    case SendReady => ChildSend(s, ProcReady, ReadRun, SendError)
    case ReadRun => Decode(s, ProcRun, Label)
    case Label => s.(child := if c.seccomp then SendSeccomp else Finalize)
    case SendSeccomp => ChildSend(s, ProcSeccomp, ReadSeccompDone, SendError)
    case ReadSeccompDone => Decode(s, ProcSeccompDone, Finalize)
    case Finalize => s.(child := Finished)
    case SendError => ChildSend(s, ProcError, SendBody, Gone)
    case SendBody => ChildSend(s, ErrorBody, Gone, Gone)
  }

  function Decode(s: State, expected: Msg, next: ChildPc): (t: State)
    requires s.down != [] || !s.writable
    ensures ChildDecodes(s, t, expected, next)
  {
    if s.down != [] then s.(down := s.down[1..], child := if s.down[0] == expected then next else SendError)
    else Fail(s)
  }

  lemma ParentCanRunMeansStep(c: Config, s: State)
    requires ParentCanRun(s)
    ensures exists t :: ParentStep(c, s, t)
  {
    match s.parent
    case Boot => assert ParentStep(c, s, s.(down := s.down + [Bootstrap], parent := AwaitByte));
    case AwaitByte =>
      if s.up != [] && s.up[0].InitByte? {
        assert ParentStep(c, s, s.(up := s.up[1..], p := s.p.(byteRead := true), parent := ReadPid));
      } else {
        assert ParentStep(c, s, GiveUp(s));
      }
    case ReadPid =>
      if s.up != [] {
        assert ParentStep(c, s, s.(up := s.up[1..], parent := if s.up[0].PidJson? then AwaitStage0 else Cleanup));
      } else {
        assert ParentStep(c, s, GiveUp(s));
      }
    case AwaitStage0 => assert ParentStep(c, s, s.(parent := SendConfig, p := s.p.(switched := true)));
    case SendConfig =>
      assert ParentStep(c, s, if ChildOpen(s) then s.(down := s.down + [ConfigJson], parent := Sync) else GiveUp(s));
    case _ => LaterParentSteps(c, s);
  }

  lemma LaterParentSteps(c: Config, s: State)
    requires ParentCanRun(s) && !Early(s.parent)
    ensures exists t :: ParentStep(c, s, t)
  {
    match s.parent
    case Sync =>
      if s.up != [] {
        assert ParentStep(c, s, s.(up := s.up[1..], parent := Dispatch(s),
                                   p := if Dispatch(s).Verdict? then s.p.(ierr := true) else s.p));
      } else {
        assert ParentStep(c, s, s.(parent := Verdict));
      }
    case ReadBody =>
      if s.up != [] {
        assert ParentStep(c, s, s.(up := s.up[1..], parent := Verdict, p := s.p.(ierr := true)));
      } else {
        assert ParentStep(c, s, s.(parent := Panicked, writable := false));
      }
    case Verdict =>
      assert ParentStep(c, s, if !s.p.sentRun || (c.newns && !s.p.sentResume) then GiveUp(s)
                              else s.(writable := false, parent := if s.p.ierr then AwaitExit else Returned(true)));
    case AwaitExit => assert ParentStep(c, s, GiveUp(s));
    case Cleanup =>
      if s.p.byteRead || s.up == [] {
        assert ParentStep(c, s, s.(parent := Terminate));
      } else {
        assert ParentStep(c, s, s.(up := s.up[1..], p := s.p.(byteRead := true), parent := Terminate));
      }
    case Terminate => assert ParentStep(c, s, s.(parent := Returned(false), writable := false, killed := true));
    case _ => HandlerSteps(c, s);
  }

  lemma HandlerSteps(c: Config, s: State)
    requires Handler(s.parent)
    ensures exists t :: ParentStep(c, s, t)
  {
    match s.parent
    case HooksCgroup => assert ParentStep(c, s, s.(parent := HooksRun, w := s.w.(cgroupSet := true)));
    case HooksRun => assert ParentStep(c, s, s.(parent := SendResume, w := s.w.(hookRuns := s.w.hookRuns + 1)));
    case SendResume =>
      assert ParentStep(c, s, ParentSend(s, ProcResume, s.(parent := Sync, p := s.p.(sentResume := true))));
    case ReadyRlimits =>
      assert ParentStep(c, s, s.(parent := if c.newns then SaveState else ReadyCgroup, w := s.w.(rlimitsSet := true)));
    case ReadyCgroup => assert ParentStep(c, s, s.(parent := ReadyHooks, w := s.w.(cgroupSet := true)));
    case ReadyHooks => assert ParentStep(c, s, s.(parent := SaveState, w := s.w.(hookRuns := s.w.hookRuns + 1)));
    case SaveState => assert ParentStep(c, s, s.(parent := SendRun, w := s.w.(stateSaved := true)));
    case SendRun => assert ParentStep(c, s, ParentSend(s, ProcRun, s.(parent := Sync, p := s.p.(sentRun := true))));
    case Agent => assert ParentStep(c, s, s.(parent := SendSeccompDone));
    case SendSeccompDone => assert ParentStep(c, s, ParentSend(s, ProcSeccompDone, s.(parent := Sync)));
  }

  predicate ParentDone(s: State) {
    s.parent.Returned? || s.parent.Panicked?
  }

  /** A child that waits is owed a message by a parent that can run. */
  lemma WaitingChildIsServed(c: Config, s: State)
    requires Inv(c, s) && ChildOpen(s) && !ChildCanRun(s)
    ensures ParentCanRun(s)
  {
  }

  /** A parent that waits has a child that can run. */
  lemma WaitingParentIsServed(c: Config, s: State)
    requires Inv(c, s) && !ParentDone(s) && !ParentCanRun(s)
    ensures ChildCanRun(s)
  {
  }

  /** No reachable state is a deadlock: while one side is unfinished, some statement can execute. */
  lemma NoDeadlock(c: Config, run: seq<State>, i: nat)
    requires c.envParses && IsRun(c, run) && i < |run|
    requires !ParentDone(run[i]) || ChildOpen(run[i])
    ensures exists t :: Runs(c, run[i], t)
  {
    var s := run[i];
    RunKeepsInv(c, run, i);
    if ChildOpen(s) && !ChildCanRun(s) {
      WaitingChildIsServed(c, s);
    } else if !ParentDone(s) && !ParentCanRun(s) {
      WaitingParentIsServed(c, s);
    }
    if ChildCanRun(s) {
      assert Runs(c, s, ChildNext(c, s));
    } else {
      ParentCanRunMeansStep(c, s);
      var t :| ParentStep(c, s, t);
      assert Runs(c, s, t);
    }
  }

  // -------------------------------------------------------------------- termination

  function ChildLeft(pc: ChildPc): nat {
    if pc.Finished? then 0 else 18 - Rank(pc)
  }

  function ParentLeft(pc: ParentPc): nat {
    match pc
    case Boot => 20
    case AwaitByte => 19
    case ReadPid => 18
    case AwaitStage0 => 17
    case SendConfig => 16
    case Sync => 10
    case HooksCgroup => 13
    case HooksRun => 12
    case SendResume => 11
    case ReadyRlimits => 15
    case ReadyCgroup => 14
    case ReadyHooks => 13
    case SaveState => 12
    case SendRun => 11
    case Agent => 12
    case SendSeccompDone => 11
    case ReadBody => 9
    case Verdict => 8
    case AwaitExit => 7
    case Cleanup => 6
    case Terminate => 5
    case Returned(_) => 0
    case Panicked => 0
  }

  /** Lexicographic: the child, its unread messages, the parent, the kill. */
  predicate Smaller(t: State, s: State) {
    var a, a' := ChildLeft(s.child), ChildLeft(t.child);
    var q, q' := |s.up|, |t.up|;
    var b, b' := ParentLeft(s.parent), ParentLeft(t.parent);
    || a' < a
    || (a' == a && q' < q)
    || (a' == a && q' == q && b' < b)
    || (a' == a && q' == q && b' == b && !s.killed && t.killed)
  }

  lemma ChildReadDecreases(c: Config, s: State, t: State)
    requires ChildStep(c, s, t) && Reads(s.child)
    ensures Smaller(t, s)
  {
  }

  lemma ChildOtherDecreases(c: Config, s: State, t: State)
    requires ChildStep(c, s, t) && !Reads(s.child)
    ensures Smaller(t, s)
  {
  }

  lemma ChildStepDecreases(c: Config, s: State, t: State)
    requires ChildStep(c, s, t)
    ensures Smaller(t, s)
  {
    if Reads(s.child) {
      ChildReadDecreases(c, s, t);
    } else {
      ChildOtherDecreases(c, s, t);
    }
  }

  lemma ParentStepDecreases(c: Config, s: State, t: State)
    requires ParentStep(c, s, t)
    ensures Smaller(t, s)
  {
    if Handler(s.parent) {
      HandlerDecreases(c, s, t);
    } else if Early(s.parent) {
      EarlyDecreases(c, s, t);
    }
  }

  lemma EarlyDecreases(c: Config, s: State, t: State)
    requires ParentStep(c, s, t) && Early(s.parent)
    ensures Smaller(t, s)
  {
  }

  lemma HandlerDecreases(c: Config, s: State, t: State)
    requires ParentStep(c, s, t) && Handler(s.parent)
    ensures Smaller(t, s)
  {
  }

  lemma FailureDecreases(s: State, t: State)
    requires ChildFails(s, t) || ChildKilled(s, t) || ParentFails(s, t)
    ensures Smaller(t, s)
  {
  }

  lemma {:induction false} Descend(c: Config, f: nat -> State, i: nat)
    ensures exists n: nat :: !Step(c, f(n), f(n + 1))
    decreases ChildLeft(f(i).child), |f(i).up|, ParentLeft(f(i).parent), !f(i).killed
  {
    var s, t := f(i), f(i + 1);
    if Step(c, s, t) {
      if ChildStep(c, s, t) {
        ChildStepDecreases(c, s, t);
      } else if ParentStep(c, s, t) {
        ParentStepDecreases(c, s, t);
      } else {
        FailureDecreases(s, t);
      }
      Descend(c, f, i + 1);
    }
  }

  /** No handshake runs forever. */
  lemma EveryRunEnds(c: Config, f: nat -> State)
    ensures exists n: nat :: !Step(c, f(n), f(n + 1))
  {
    Descend(c, f, 0);
  }

  // ------------------------------------------------------------------------ success

  /** Nothing has gone wrong so far. */
  predicate Smooth(s: State) {
    && !s.killed && !s.p.ierr && !OnErrorPath(s.child)
    && (Early(s.parent) || s.parent.Sync? || Handler(s.parent) || s.parent.Verdict? || s.parent == Returned(true))
  }

  lemma ChildStaysSmooth(c: Config, s: State, t: State)
    requires c.envParses && Inv(c, s) && Smooth(s) && ChildStep(c, s, t)
    ensures Smooth(t)
  {
  }

  lemma ParentStaysSmooth(c: Config, s: State, t: State)
    requires c.envParses && Inv(c, s) && Smooth(s) && ParentStep(c, s, t)
    ensures Smooth(t)
  {
    if Handler(s.parent) {
      HandlerStaysSmooth(c, s, t);
    }
  }

  lemma HandlerStaysSmooth(c: Config, s: State, t: State)
    requires Inv(c, s) && Smooth(s) && ParentStep(c, s, t) && Handler(s.parent)
    ensures Smooth(t)
  {
  }

  predicate IsSmoothRun(c: Config, run: seq<State>) {
    && run != [] && run[0] == Init()
    && forall i :: 0 <= i < |run| - 1 ==> Runs(c, run[i], run[i + 1])
  }

  lemma {:induction false} SmoothRunStaysSmooth(c: Config, run: seq<State>, i: nat)
    requires c.envParses && IsSmoothRun(c, run) && i < |run|
    ensures Inv(c, run[i]) && Smooth(run[i])
  {
    if i == 0 {
      InitInv(c);
    } else {
      SmoothRunStaysSmooth(c, run, i - 1);
      var s, t := run[i - 1], run[i];
      StepKeepsInv(c, s, t);
      if ChildStep(c, s, t) {
        ChildStaysSmooth(c, s, t);
      } else {
        ParentStaysSmooth(c, s, t);
      }
    }
  }

  ghost predicate Stuck(c: Config, s: State) {
    forall t :: !Runs(c, s, t)
  }

  /** If nothing fails, a run that cannot go on has `start` returning success and the child done. */
  lemma SmoothRunSucceeds(c: Config, run: seq<State>)
    requires c.envParses && IsSmoothRun(c, run)
    requires Stuck(c, run[|run| - 1])
    ensures run[|run| - 1].parent == Returned(true) && run[|run| - 1].child.Finished?
  {
    var s := run[|run| - 1];
    SmoothRunStaysSmooth(c, run, |run| - 1);
    if !ParentDone(s) || ChildOpen(s) {
      NoDeadlock(c, run, |run| - 1);
    }
  }

  // ------------------------------------------------------------------ bad runs exist

  ghost predicate Reachable(c: Config, s: State) {
    exists run {:trigger IsRun(c, run)} :: IsRun(c, run) && run[|run| - 1] == s
  }

  lemma InitIsReachable(c: Config)
    ensures Reachable(c, Init())
  {
    assert IsRun(c, [Init()]);
  }

  lemma ReachStep(c: Config, s: State, t: State)
    requires Reachable(c, s) && Step(c, s, t)
    ensures Reachable(c, t)
  {
    var run :| IsRun(c, run) && run[|run| - 1] == s;
    var longer := run + [t];
    forall i | 0 <= i < |longer| - 1
      ensures Step(c, longer[i], longer[i + 1])
    {
      if i < |run| - 1 {
        assert Step(c, run[i], run[i + 1]);
      }
    }
    assert IsRun(c, longer);
  }

  /** The child has reported its pid, the parent has not read it yet. */
  function Booted(): State {
    Init().(parent := ReadPid, child := ParseEnv, up := [PidJson], p := Init().p.(byteRead := true))
  }

  lemma BootedIsReachable(c: Config)
    ensures Reachable(c, Booted())
  {
    var s0 := Init();
    var s1 := s0.(down := [Bootstrap], parent := AwaitByte);
    var s2 := s1.(up := [InitByte], child := ReadBoot);
    var s3 := s2.(up := [], p := s2.p.(byteRead := true), parent := ReadPid);
    var s4 := s3.(down := [], child := SendPid);
    InitIsReachable(c);
    assert ParentStep(c, s0, s1);
    ReachStep(c, s0, s1);
    assert ChildStep(c, s1, s2);
    ReachStep(c, s1, s2);
    ReachPid(c, s2, s3, s4);
  }

  lemma ReachPid(c: Config, s2: State, s3: State, s4: State)
    requires Reachable(c, s2)
    requires s2 == Init().(up := [InitByte], down := [Bootstrap], parent := AwaitByte, child := ReadBoot)
    requires s3 == s2.(up := [], p := s2.p.(byteRead := true), parent := ReadPid)
    requires s4 == s3.(down := [], child := SendPid)
    ensures Reachable(c, Booted())
  {
    assert ParentStep(c, s2, s3);
    ReachStep(c, s2, s3);
    assert ChildStep(c, s3, s4);
    ReachStep(c, s3, s4);
    assert ChildStep(c, s4, Booted());
    ReachStep(c, s4, Booted());
  }

  /** A child whose environment does not parse reports its error right behind the pid, and the
      decoder that reads the pid swallows the report. */
  lemma BadEnvironmentLosesReport(c: Config)
    requires !c.envParses
    ensures exists s :: Reachable(c, s) && s.lost == 2
  {
    var s := Booted();
    var s1 := s.(child := SendError);
    var s2 := s1.(up := [PidJson, ProcError], child := SendBody);
    var s3 := s2.(up := [PidJson, ProcError, ErrorBody], child := Gone);
    var s4 := s3.(up := [], lost := 2, parent := AwaitStage0);
    BootedIsReachable(c);
    assert ChildStep(c, s, s1);
    ReachStep(c, s, s1);
    ReachReport(c, s1, s2, s3);
    assert ParentStep(c, s3, s4);
    ReachStep(c, s3, s4);
  }

  /** The error path's two messages. */
  lemma ReachReport(c: Config, s1: State, s2: State, s3: State)
    requires Reachable(c, s1) && s1.child.SendError? && !s1.killed && Listening(s1)
    requires s2 == s1.(up := s1.up + [ProcError], child := SendBody)
    requires s3 == s2.(up := s2.up + [ErrorBody], child := Gone)
    ensures Reachable(c, s2) && Reachable(c, s3)
  {
    assert ChildStep(c, s1, s2);
    ReachStep(c, s1, s2);
    assert ChildStep(c, s2, s3);
    ReachStep(c, s2, s3);
  }

  /** Dropped decoders never lose a message, in any run, if and only if the environment parses. */
  lemma LosslessIffEnvironmentParses(c: Config)
    ensures (forall s :: Reachable(c, s) ==> s.lost == 0) <==> c.envParses
  {
    if c.envParses {
      forall s | Reachable(c, s)
        ensures s.lost == 0
      {
        var run :| IsRun(c, run) && run[|run| - 1] == s;
        RunKeepsInv(c, run, |run| - 1);
      }
    } else {
      BadEnvironmentLosesReport(c);
    }
  }

  /** The child has its configuration, the parent listens. */
  function Configured(): State {
    Init().(parent := Sync, child := Prepare, p := Init().p.(byteRead := true, switched := true))
  }

  lemma ConfiguredIsReachable(c: Config)
    requires c.envParses
    ensures Reachable(c, Configured())
  {
    var s := Booted();
    var s1 := s.(up := s.up[1..], parent := AwaitStage0);
    var s2 := s1.(parent := SendConfig, p := s1.p.(switched := true));
    BootedIsReachable(c);
    ReachStage0(c, s, s1, s2);
    assert s2 == Configured().(parent := SendConfig, child := ParseEnv);
    ReachConfig(c, s2);
  }

  lemma ReachStage0(c: Config, s: State, s1: State, s2: State)
    requires Reachable(c, s) && s.parent.ReadPid? && s.up == [PidJson]
    requires s1 == s.(up := s.up[1..], parent := AwaitStage0)
    requires s2 == s1.(parent := SendConfig, p := s1.p.(switched := true))
    ensures Reachable(c, s2)
  {
    assert ParentStep(c, s, s1);
    ReachStep(c, s, s1);
    assert ParentStep(c, s1, s2);
    ReachStep(c, s1, s2);
  }

  lemma ReachConfig(c: Config, s2: State)
    requires c.envParses && Reachable(c, s2)
    requires s2 == Configured().(parent := SendConfig, child := ParseEnv)
    ensures Reachable(c, Configured())
  {
    var s3 := s2.(down := s2.down + [ConfigJson], parent := Sync);
    var s4 := s3.(child := ReadConfig);
    var s5 := s4.(down := s4.down[1..], child := Prepare);
    assert ParentStep(c, s2, s3);
    ReachStep(c, s2, s3);
    assert ChildStep(c, s3, s4);
    ReachStep(c, s3, s4);
    ReachPrepare(c, s4, s5);
    assert s5 == Configured();
  }

  lemma ReachPrepare(c: Config, s4: State, s5: State)
    requires Reachable(c, s4) && s4.child.ReadConfig? && s4.down == [ConfigJson] && !s4.killed
    requires s5 == s4.(down := s4.down[1..], child := Prepare)
    ensures Reachable(c, s5)
  {
    assert ChildDecodes(s4, s5, ConfigJson, Prepare);
    assert ChildStep(c, s4, s5);
    ReachStep(c, s4, s5);
  }

  /** A child killed between `procError` and the error body makes the parent panic. */
  lemma KilledReporterPanicsParent(c: Config)
    requires c.envParses
    ensures exists s :: Reachable(c, s) && s.parent.Panicked?
  {
    var s := Configured();
    var s1 := s.(child := SendError);
    var s2 := s1.(up := [ProcError], child := SendBody);
    ConfiguredIsReachable(c);
    assert ChildFails(s, s1);
    ReachStep(c, s, s1);
    ReachReport(c, s1, s2, s2.(up := [ProcError, ErrorBody], child := Gone));
    ReachPanic(c, s2);
  }

  lemma ReachPanic(c: Config, s2: State)
    requires Reachable(c, s2) && s2 == Configured().(up := [ProcError], child := SendBody)
    ensures exists s :: Reachable(c, s) && s.parent.Panicked?
  {
    var s3 := s2.(killed := true);
    var s4 := s3.(up := [], parent := ReadBody);
    var s5 := s4.(parent := Panicked, writable := false);
    assert ChildKilled(s2, s3);
    ReachStep(c, s2, s3);
    assert ParentStep(c, s3, s4);
    ReachStep(c, s3, s4);
    assert ParentStep(c, s4, s5);
    ReachStep(c, s4, s5);
  }
}
