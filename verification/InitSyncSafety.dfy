/** Safety of the parent/init handshake over every run. */
module InitSyncSafety {
  import opened InitSync

  // -------------------------------------------------------------------- invariants

  predicate Failing(pc: ParentPc) {
    pc.Cleanup? || pc.Terminate? || pc == Returned(false)
  }

  predicate InHooks(pc: ParentPc) {
    pc.HooksCgroup? || pc.HooksRun? || pc.SendResume?
  }

  predicate InReady(pc: ParentPc) {
    pc.ReadyRlimits? || pc.ReadyCgroup? || pc.ReadyHooks? || pc.SaveState? || pc.SendRun?
  }

  predicate Early(pc: ParentPc) {
    pc.Boot? || pc.AwaitByte? || pc.ReadPid? || pc.AwaitStage0? || pc.SendConfig?
  }

  predicate Handler(pc: ParentPc) {
    InHooks(pc) || InReady(pc) || pc.Agent? || pc.SendSeccompDone?
  }

  /** `parseSync` is over, or was never reached. */
  predicate Tail(pc: ParentPc) {
    pc.Verdict? || pc.AwaitExit? || pc.Cleanup? || pc.Terminate? || pc.Returned? || pc.Panicked?
  }

  /** How far the child got on the ordinary path; the error path has no rank. */
  function Rank(pc: ChildPc): nat {
    match pc
    case SendByte => 0
    case ReadBoot => 1
    case SendPid => 2
    case ParseEnv => 3
    case ReadConfig => 4
    case Prepare => 5
    case SendHooks => 6
    case ReadResume => 7
    case Jail => 8
    case SendReady => 9
    case ReadRun => 10
    case Label => 11
    case SendSeccomp => 12
    case ReadSeccompDone => 13
    case Finalize => 14
    case Finished => 15
    case SendError => 16
    case SendBody => 17
    case Gone => 18
  }

  predicate OnErrorPath(pc: ChildPc) {
    Rank(pc) >= 16
  }

  predicate AwaitsConfig(pc: ChildPc) {
    pc.ParseEnv? || pc.ReadConfig?
  }

  /** At most one message is on its way to the child, and it is the one the child reads next. */
  predicate DownLink(s: State) {
    s.down == [] || OnErrorPath(s.child)
    || (Rank(s.child) <= 1 && s.down == [Bootstrap])
    || (AwaitsConfig(s.child) && s.down == [ConfigJson])
    || (s.child.ReadResume? && s.down == [ProcResume])
    || (s.child.ReadRun? && s.down == [ProcRun])
    || (s.child.ReadSeccompDone? && s.down == [ProcSeccompDone])
  }

  /** What is on its way to the parent while it is in `parseSync`, between two messages. */
  predicate SyncLink(s: State) {
    match s.child
    case ParseEnv => s.up == [] && s.down == [ConfigJson]
    case ReadConfig => s.up == [] && s.down == [ConfigJson]
    case ReadResume => (s.up == [ProcHooks] && s.down == []) || (s.up == [] && s.down == [ProcResume])
    case ReadRun => (s.up == [ProcReady] && s.down == []) || (s.up == [] && s.down == [ProcRun])
    case ReadSeccompDone => (s.up == [ProcSeccomp] && s.down == []) || (s.up == [] && s.down == [ProcSeccompDone])
    case SendBody => s.up == [ProcError]
    case Gone => s.up == [ProcError, ErrorBody]
    case _ => s.up == [] && Rank(s.child) >= 5
  }

  predicate UpLink(s: State) {
    match s.parent
    case Boot =>
      s.down == [] && ((s.child.SendByte? && s.up == []) || (s.child.ReadBoot? && s.up == [InitByte]))
    case AwaitByte =>
      || (s.child.SendByte? && s.up == [] && s.down == [Bootstrap])
      || (s.child.ReadBoot? && s.up == [InitByte] && s.down == [Bootstrap])
      || (s.child.SendPid? && s.up == [InitByte])
      || (AwaitsConfig(s.child) && s.up == [InitByte, PidJson] && s.down == [])
    case ReadPid =>
      || (s.child.ReadBoot? && s.up == [] && s.down == [Bootstrap])
      || (s.child.SendPid? && s.up == [])
      || (AwaitsConfig(s.child) && s.up == [PidJson] && s.down == [])
    case AwaitStage0 => AwaitsConfig(s.child) && s.up == [] && s.down == []
    case SendConfig => AwaitsConfig(s.child) && s.up == [] && s.down == []
    case Sync => SyncLink(s)
    case ReadBody => (s.child.SendBody? && s.up == []) || (s.child.Gone? && s.up == [ErrorBody])
    case Verdict =>
      || s.killed
      || (s.up == [] && if s.p.ierr then AwaitsAnswer(s) || s.child.Gone? else s.child.Finished?)
    case AwaitExit =>
      s.p.ierr && (s.killed || AwaitsAnswer(s) || OnErrorPath(s.child))
    case Returned(ok) => ok ==> s.killed || s.child.Finished?
    case Panicked => s.killed
    case _ =>
      if InHooks(s.parent) then s.child.ReadResume? && s.up == [] && s.down == []
      else if InReady(s.parent) then s.child.ReadRun? && s.up == [] && s.down == []
      else if Failing(s.parent) then true
      else s.child.ReadSeccompDone? && s.up == [] && s.down == []
  }

  predicate AwaitsAnswer(s: State) {
    s.down == [] && (s.child.ReadResume? || s.child.ReadRun? || s.child.ReadSeccompDone?)
  }

  /** Nothing sent before its preconditions hold. */
  predicate OrderFact(s: State) {
    && (s.parent.HooksRun? || s.parent.SendResume? || s.p.sentResume ==> s.w.cgroupSet)
    && (s.parent.SendResume? || s.p.sentResume ==> s.w.hookRuns >= 1)
    && (s.parent.ReadyHooks? ==> s.w.cgroupSet)
    && (InReady(s.parent) && !s.parent.ReadyRlimits? ==> s.w.rlimitsSet)
    && (s.p.sentRun ==> s.w.rlimitsSet)
    && (s.parent.SendRun? || s.p.sentRun ==> s.w.stateSaved)
  }

  /** The child is past an answer only after the parent sent it. */
  predicate AnswerFact(s: State) {
    && (s.child.ReadResume? && s.down != [] ==> s.p.sentResume)
    && (8 <= Rank(s.child) <= 15 ==> s.p.sentResume)
    && (s.child.ReadRun? && s.down != [] ==> s.p.sentRun)
    && (11 <= Rank(s.child) <= 15 ==> s.p.sentRun)
  }

  /** The child has not yet had its hooks run by the first exchange. */
  predicate BeforeHooks(s: State) {
    Rank(s.child) < 7 || (s.child.ReadResume? && (s.up == [ProcHooks] || s.parent.HooksCgroup? || s.parent.HooksRun?))
  }

  /** The second exchange has not run hooks. */
  predicate BeforeReadyHooks(s: State) {
    || s.child.Jail? || s.child.SendReady?
    || (s.child.ReadResume? && (s.down != [] || s.parent.SendResume?))
    || (s.child.ReadRun?
        && (s.up == [ProcReady] || s.parent.ReadyRlimits? || s.parent.ReadyCgroup? || s.parent.ReadyHooks?))
  }

  predicate HookFact(c: Config, s: State) {
    && (s.parent == Returned(true) ==> s.p.sentRun && (c.newns ==> s.p.sentResume))
    && (BeforeHooks(s) ==> s.w.hookRuns == 0)
    && (BeforeReadyHooks(s) ==> s.w.hookRuns == 1)
    && (s.parent.ReadyCgroup? || s.parent.ReadyHooks? ==> !c.newns)
    && s.w.hookRuns <= (if c.newns then 1 else 2)
    && (!c.newns && (s.parent.SaveState? || s.parent.SendRun? || s.p.sentRun) ==> s.w.hookRuns == 2)
  }

  predicate PipeFact(s: State) {
    && (s.writable || s.parent.AwaitExit? || Failing(s.parent) || s.parent.Returned? || s.parent.Panicked?)
    && (s.parent.Returned? || s.parent.Panicked? || s.parent.AwaitExit? ==> !s.writable)
    && (!s.p.byteRead && !s.child.SendByte? && !s.child.Gone? ==>
          s.up != [] || s.parent.Terminate? || s.parent.Returned?)
    && (s.p.byteRead || s.parent.Boot? || s.parent.AwaitByte? || Failing(s.parent))
    && (s.p.byteRead || Rank(s.child) <= 4 || OnErrorPath(s.child))
    && (!s.p.byteRead && AwaitsConfig(s.child) ==> s.down == [])
    && (s.p.ierr ==> Tail(s.parent))
  }

  /** Everything about the pipe except what is on its way up. */
  predicate Pipes(s: State) {
    DownLink(s) && PipeFact(s) && s.lost == 0
  }

  predicate Facts(c: Config, s: State) {
    OrderFact(s) && AnswerFact(s) && HookFact(c, s)
  }

  predicate Inv(c: Config, s: State) {
    UpLink(s) && Pipes(s) && Facts(c, s)
  }

  lemma InitInv(c: Config)
    ensures Inv(c, Init())
  {
  }

  // ------------------------------------------------------------------- child steps

  predicate Sends(pc: ChildPc) {
    || pc.SendByte? || pc.SendPid? || pc.SendHooks? || pc.SendReady? || pc.SendSeccomp?
    || pc.SendError? || pc.SendBody?
  }

  predicate Reads(pc: ChildPc) {
    pc.ReadBoot? || pc.ReadConfig? || pc.ReadResume? || pc.ReadRun? || pc.ReadSeccompDone?
  }

  predicate Works(pc: ChildPc) {
    pc.ParseEnv? || pc.Prepare? || pc.Jail? || pc.Label? || pc.Finalize?
  }

  lemma BootSendsKeepUpLink(c: Config, s: State, t: State)
    requires c.envParses && Inv(c, s) && ChildStep(c, s, t) && (s.child.SendByte? || s.child.SendPid?)
    ensures UpLink(t)
  {
  }

  lemma ReportsKeepUpLink(c: Config, s: State, t: State)
    requires c.envParses && Inv(c, s) && ChildStep(c, s, t) && (s.child.SendError? || s.child.SendBody?)
    ensures UpLink(t)
  {
  }

  lemma RequestsKeepUpLink(c: Config, s: State, t: State)
    requires c.envParses && Inv(c, s) && ChildStep(c, s, t)
    requires s.child.SendHooks? || s.child.SendReady? || s.child.SendSeccomp?
    ensures UpLink(t)
  {
  }

  lemma SyncSendsKeepUpLink(c: Config, s: State, t: State)
    requires c.envParses && Inv(c, s) && ChildStep(c, s, t) && Sends(s.child) && Rank(s.child) > 4
    ensures UpLink(t)
  {
    if s.child.SendError? || s.child.SendBody? {
      ReportsKeepUpLink(c, s, t);
    } else {
      RequestsKeepUpLink(c, s, t);
    }
  }

  lemma SendsKeepPipes(c: Config, s: State, t: State)
    requires c.envParses && Inv(c, s) && ChildStep(c, s, t) && Sends(s.child)
    ensures Pipes(t)
  {
  }

  lemma SendsKeepHookFact(c: Config, s: State, t: State)
    requires c.envParses && Inv(c, s) && ChildStep(c, s, t) && Sends(s.child)
    ensures HookFact(c, t)
  {
  }

  lemma SendsKeepOtherFacts(c: Config, s: State, t: State)
    requires c.envParses && Inv(c, s) && ChildStep(c, s, t) && Sends(s.child)
    ensures OrderFact(t) && AnswerFact(t)
  {
  }

  lemma SendsKeepFacts(c: Config, s: State, t: State)
    requires c.envParses && Inv(c, s) && ChildStep(c, s, t) && Sends(s.child)
    ensures Facts(c, t)
  {
    SendsKeepHookFact(c, s, t);
    SendsKeepOtherFacts(c, s, t);
  }

  lemma BootReadsKeepUpLink(c: Config, s: State, t: State)
    requires c.envParses && Inv(c, s) && ChildStep(c, s, t) && (s.child.ReadBoot? || s.child.ReadConfig?)
    ensures UpLink(t)
  {
  }

  lemma SyncReadsKeepUpLink(c: Config, s: State, t: State)
    requires c.envParses && Inv(c, s) && ChildStep(c, s, t) && Reads(s.child) && Rank(s.child) > 4
    ensures UpLink(t)
  {
  }

  lemma ReadsKeepPipes(c: Config, s: State, t: State)
    requires c.envParses && Inv(c, s) && ChildStep(c, s, t) && Reads(s.child)
    ensures Pipes(t)
  {
  }

  lemma ReadsKeepHookFact(c: Config, s: State, t: State)
    requires c.envParses && Inv(c, s) && ChildStep(c, s, t) && Reads(s.child)
    ensures HookFact(c, t)
  {
  }

  lemma ReadsKeepOtherFacts(c: Config, s: State, t: State)
    requires c.envParses && Inv(c, s) && ChildStep(c, s, t) && Reads(s.child)
    ensures OrderFact(t) && AnswerFact(t)
  {
  }

  lemma ReadsKeepFacts(c: Config, s: State, t: State)
    requires c.envParses && Inv(c, s) && ChildStep(c, s, t) && Reads(s.child)
    ensures Facts(c, t)
  {
    ReadsKeepHookFact(c, s, t);
    ReadsKeepOtherFacts(c, s, t);
  }

  lemma WorksKeepUpLink(c: Config, s: State, t: State)
    requires c.envParses && Inv(c, s) && ChildStep(c, s, t) && Works(s.child)
    ensures UpLink(t)
  {
  }

  lemma WorksKeepRest(c: Config, s: State, t: State)
    requires c.envParses && Inv(c, s) && ChildStep(c, s, t) && Works(s.child)
    ensures Pipes(t) && Facts(c, t)
  {
  }

  lemma ChildStepKeepsInv(c: Config, s: State, t: State)
    requires c.envParses && Inv(c, s) && ChildStep(c, s, t)
    ensures Inv(c, t)
  {
    if Sends(s.child) {
      SendsKeepPipes(c, s, t);
      SendsKeepFacts(c, s, t);
      if Rank(s.child) > 4 {
        SyncSendsKeepUpLink(c, s, t);
      } else {
        BootSendsKeepUpLink(c, s, t);
      }
    } else if Reads(s.child) {
      ReadsKeepPipes(c, s, t);
      ReadsKeepFacts(c, s, t);
      if Rank(s.child) > 4 {
        SyncReadsKeepUpLink(c, s, t);
      } else {
        BootReadsKeepUpLink(c, s, t);
      }
    } else {
      WorksKeepUpLink(c, s, t);
      WorksKeepRest(c, s, t);
    }
  }

  lemma ChildFailsKeepsUpLink(c: Config, s: State, t: State)
    requires c.envParses && Inv(c, s) && ChildFails(s, t)
    ensures UpLink(t)
  {
  }

  lemma ChildFailsKeepsRest(c: Config, s: State, t: State)
    requires c.envParses && Inv(c, s) && ChildFails(s, t)
    ensures Pipes(t) && Facts(c, t)
  {
  }

  lemma ChildKilledKeepsInv(c: Config, s: State, t: State)
    requires c.envParses && Inv(c, s) && ChildKilled(s, t)
    ensures Inv(c, t)
  {
  }

  // ------------------------------------------------------------------ parent steps

  lemma EarlyKeepsUpLink(c: Config, s: State, t: State)
    requires c.envParses && Inv(c, s) && ParentStep(c, s, t) && Early(s.parent)
    ensures UpLink(t)
  {
  }

  lemma EarlyKeepsPipes(c: Config, s: State, t: State)
    requires c.envParses && Inv(c, s) && ParentStep(c, s, t) && Early(s.parent)
    ensures Pipes(t)
  {
  }

  lemma EarlyKeepsHookFact(c: Config, s: State, t: State)
    requires c.envParses && Inv(c, s) && ParentStep(c, s, t) && Early(s.parent)
    ensures HookFact(c, t)
  {
  }

  lemma EarlyKeepsOtherFacts(c: Config, s: State, t: State)
    requires c.envParses && Inv(c, s) && ParentStep(c, s, t) && Early(s.parent)
    ensures OrderFact(t) && AnswerFact(t)
  {
  }

  lemma EarlyKeepsFacts(c: Config, s: State, t: State)
    requires c.envParses && Inv(c, s) && ParentStep(c, s, t) && Early(s.parent)
    ensures Facts(c, t)
  {
    EarlyKeepsHookFact(c, s, t);
    EarlyKeepsOtherFacts(c, s, t);
  }

  lemma SyncKeepsUpLink(c: Config, s: State, t: State)
    requires c.envParses && Inv(c, s) && ParentStep(c, s, t) && s.parent.Sync?
    ensures UpLink(t)
  {
  }

  lemma ReadBodyKeepsUpLink(c: Config, s: State, t: State)
    requires c.envParses && Inv(c, s) && ParentStep(c, s, t) && s.parent.ReadBody?
    ensures UpLink(t)
  {
  }

  lemma ParseKeepsRest(c: Config, s: State, t: State)
    requires c.envParses && Inv(c, s) && ParentStep(c, s, t) && (s.parent.Sync? || s.parent.ReadBody?)
    ensures Pipes(t) && Facts(c, t)
  {
  }

  lemma HooksKeepUpLink(c: Config, s: State, t: State)
    requires c.envParses && Inv(c, s) && ParentStep(c, s, t) && InHooks(s.parent)
    ensures UpLink(t)
  {
  }

  lemma HooksKeepRest(c: Config, s: State, t: State)
    requires c.envParses && Inv(c, s) && ParentStep(c, s, t) && InHooks(s.parent)
    ensures Pipes(t) && Facts(c, t)
  {
  }

  lemma ReadyKeepsUpLink(c: Config, s: State, t: State)
    requires c.envParses && Inv(c, s) && ParentStep(c, s, t) && InReady(s.parent)
    ensures UpLink(t)
  {
  }

  lemma ReadyKeepsPipes(c: Config, s: State, t: State)
    requires c.envParses && Inv(c, s) && ParentStep(c, s, t) && InReady(s.parent)
    ensures Pipes(t)
  {
  }

  lemma ReadyKeepsFacts(c: Config, s: State, t: State)
    requires c.envParses && Inv(c, s) && ParentStep(c, s, t) && InReady(s.parent)
    ensures Facts(c, t)
  {
  }

  lemma SeccompKeepsUpLink(c: Config, s: State, t: State)
    requires c.envParses && Inv(c, s) && ParentStep(c, s, t) && (s.parent.Agent? || s.parent.SendSeccompDone?)
    ensures UpLink(t)
  {
  }

  lemma SeccompKeepsRest(c: Config, s: State, t: State)
    requires c.envParses && Inv(c, s) && ParentStep(c, s, t) && (s.parent.Agent? || s.parent.SendSeccompDone?)
    ensures Pipes(t) && Facts(c, t)
  {
  }

  lemma VerdictKeepsUpLink(c: Config, s: State, t: State)
    requires c.envParses && Inv(c, s) && ParentStep(c, s, t) && (s.parent.Verdict? || s.parent.AwaitExit?)
    ensures UpLink(t)
  {
  }

  lemma VerdictKeepsRest(c: Config, s: State, t: State)
    requires c.envParses && Inv(c, s) && ParentStep(c, s, t) && (s.parent.Verdict? || s.parent.AwaitExit?)
    ensures Pipes(t) && Facts(c, t)
  {
  }

  lemma CleanupKeepsPipes(c: Config, s: State, t: State)
    requires c.envParses && Inv(c, s) && ParentStep(c, s, t) && (s.parent.Cleanup? || s.parent.Terminate?)
    ensures UpLink(t) && Pipes(t)
  {
  }

  lemma CleanupKeepsFacts(c: Config, s: State, t: State)
    requires c.envParses && Inv(c, s) && ParentStep(c, s, t) && (s.parent.Cleanup? || s.parent.Terminate?)
    ensures Facts(c, t)
  {
  }

  lemma HandlerKeepsInv(c: Config, s: State, t: State)
    requires c.envParses && Inv(c, s) && ParentStep(c, s, t) && Handler(s.parent)
    ensures Inv(c, t)
  {
    if InHooks(s.parent) {
      HooksKeepUpLink(c, s, t);
      HooksKeepRest(c, s, t);
    } else if InReady(s.parent) {
      ReadyKeepsUpLink(c, s, t);
      ReadyKeepsPipes(c, s, t);
      ReadyKeepsFacts(c, s, t);
    } else {
      SeccompKeepsUpLink(c, s, t);
      SeccompKeepsRest(c, s, t);
    }
  }

  lemma ParentStepKeepsInv(c: Config, s: State, t: State)
    requires c.envParses && Inv(c, s) && ParentStep(c, s, t)
    ensures Inv(c, t)
  {
    if Early(s.parent) {
      EarlyKeepsUpLink(c, s, t);
      EarlyKeepsPipes(c, s, t);
      EarlyKeepsFacts(c, s, t);
    } else if Handler(s.parent) {
      HandlerKeepsInv(c, s, t);
    } else if s.parent.Sync? || s.parent.ReadBody? {
      if s.parent.Sync? {
        SyncKeepsUpLink(c, s, t);
      } else {
        ReadBodyKeepsUpLink(c, s, t);
      }
      ParseKeepsRest(c, s, t);
    } else if s.parent.Verdict? || s.parent.AwaitExit? {
      VerdictKeepsUpLink(c, s, t);
      VerdictKeepsRest(c, s, t);
    } else {
      CleanupKeepsPipes(c, s, t);
      CleanupKeepsFacts(c, s, t);
    }
  }

  lemma ParentFailsKeepsUpLink(c: Config, s: State, t: State)
    requires c.envParses && Inv(c, s) && ParentFails(s, t)
    ensures UpLink(t)
  {
  }

  lemma ParentFailsKeepsPipes(c: Config, s: State, t: State)
    requires c.envParses && Inv(c, s) && ParentFails(s, t)
    ensures Pipes(t)
  {
  }

  lemma ParentFailsKeepsFacts(c: Config, s: State, t: State)
    requires Facts(c, s) && ParentFails(s, t)
    ensures Facts(c, t)
  {
    assert t == GiveUp(s) || t == Abort(s);
    StoppingKeepsFacts(c, s, t);
  }

  lemma StoppingKeepsFacts(c: Config, s: State, t: State)
    requires Facts(c, s) && (t == GiveUp(s) || t == Abort(s))
    ensures Facts(c, t)
  {
  }

  // -------------------------------------------------------------------- every run

  lemma StepKeepsInv(c: Config, s: State, t: State)
    requires c.envParses && Inv(c, s) && Step(c, s, t)
    ensures Inv(c, t)
  {
    if ChildStep(c, s, t) {
      ChildStepKeepsInv(c, s, t);
    } else if ParentStep(c, s, t) {
      ParentStepKeepsInv(c, s, t);
    } else if ChildFails(s, t) {
      ChildFailsKeepsUpLink(c, s, t);
      ChildFailsKeepsRest(c, s, t);
    } else if ChildKilled(s, t) {
      ChildKilledKeepsInv(c, s, t);
    } else {
      ParentFailsKeepsUpLink(c, s, t);
      ParentFailsKeepsPipes(c, s, t);
      ParentFailsKeepsFacts(c, s, t);
    }
  }

  predicate IsRun(c: Config, run: seq<State>) {
    && run != [] && run[0] == Init()
    && forall i :: 0 <= i < |run| - 1 ==> Step(c, run[i], run[i + 1])
  }

  lemma {:induction false} RunKeepsInv(c: Config, run: seq<State>, i: nat)
    requires c.envParses && IsRun(c, run) && i < |run|
    ensures Inv(c, run[i])
  {
    if i == 0 {
      InitInv(c);
    } else {
      RunKeepsInv(c, run, i - 1);
      StepKeepsInv(c, run[i - 1], run[i]);
    }
  }

  /** `start` succeeds only if procRun was sent after the state file was saved and the rlimits set;
      with a mount namespace also procResume, after the cgroup was configured, with the hooks run
      exactly once (twice without one); and the child finished its init unless it was killed. */
  lemma SuccessMeansSynchronised(c: Config, run: seq<State>, i: nat)
    requires c.envParses && IsRun(c, run) && i < |run| && run[i].parent == Returned(true)
    ensures run[i].p.sentRun && run[i].w.stateSaved && run[i].w.rlimitsSet
    ensures c.newns ==> run[i].p.sentResume && run[i].w.cgroupSet && run[i].w.hookRuns == 1
    ensures !c.newns ==> run[i].w.hookRuns == 2
    ensures run[i].killed || run[i].child.Finished?
    ensures SentInOrder(run, i)
  {
    RunKeepsInv(c, run, i);
    forall j | 0 <= j <= i ensures SentAfterWork(run[j]) {
      RunKeepsInv(c, run, j);
    }
  }

  /** procRun is out only once the state is saved and the rlimits set, procResume only once the
      cgroup is configured and the hooks were run. */
  predicate SentAfterWork(s: State) {
    && (s.p.sentRun ==> s.w.stateSaved && s.w.rlimitsSet)
    && (s.p.sentResume ==> s.w.cgroupSet && s.w.hookRuns >= 1)
  }

  /** ... and that in every state on the way. */
  predicate SentInOrder(run: seq<State>, i: nat)
    requires i < |run|
  {
    forall j :: 0 <= j <= i ==> SentAfterWork(run[j])
  }

  /** At the moment the child may go on, what its parent owed it has been done. */
  lemma ChildWaitsForItsParent(c: Config, run: seq<State>, i: nat)
    requires c.envParses && IsRun(c, run) && i < |run|
    ensures 8 <= Rank(run[i].child) <= 15 ==> run[i].w.cgroupSet && run[i].w.hookRuns >= 1
    ensures 11 <= Rank(run[i].child) <= 15 ==> run[i].w.stateSaved && run[i].w.rlimitsSet
  {
    RunKeepsInv(c, run, i);
  }

  /** The parent's panic on a missing error body needs a killed child. */
  lemma PanicNeedsKill(c: Config, run: seq<State>, i: nat)
    requires c.envParses && IsRun(c, run) && i < |run| && run[i].parent.Panicked?
    ensures run[i].killed
  {
    RunKeepsInv(c, run, i);
  }
}
