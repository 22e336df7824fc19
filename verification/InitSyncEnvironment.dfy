/**
 * The parent/init handshake when the child's environment does not parse: the child reports an
 * error right after its pid. With that case added, the main results hold for every configuration.
 */
module InitSyncEnvironment {
  import opened InitSync
  import opened InitSyncSafety
  import opened InitSyncProgress

  // -------------------------------------------------------------------- invariant

  /** Where the child can get to. */
  predicate ShortPath(pc: ChildPc) {
    Rank(pc) <= 3 || OnErrorPath(pc)
  }

  /** The messages of the short path, numbered in the order in which the child sends them. */
  function Number(m: Msg): nat {
    match m
    case InitByte => 0
    case PidJson => 1
    case ProcError => 2
    case ErrorBody => 3
    case _ => 4
  }

  /** How many the child has sent, if the parent has been listening. */
  function SentCount(pc: ChildPc): nat {
    match pc
    case SendByte => 0
    case ReadBoot => 1
    case SendPid => 1
    case SendBody => 3
    case Gone => 4
    case _ => 2
  }

  /** How many of them the parent has taken, knowingly or not. */
  function Taken(s: State): int {
    SentCount(s.child) - |s.up|
  }

  /** The queue holds the messages not taken yet, in order. */
  predicate Unread(s: State) {
    0 <= Taken(s) && forall j :: 0 <= j < |s.up| ==> Number(s.up[j]) == Taken(s) + j
  }

  /** The parent has read the child's pid and not given up. */
  predicate KnowsPid(pc: ParentPc) {
    pc.AwaitStage0? || pc.SendConfig? || pc.Sync? || pc.ReadBody? || pc.Verdict?
  }

  predicate Queues(s: State) {
    if Listening(s) then
      && s.writable && Unread(s)
      && (!s.p.byteRead ==> Taken(s) == 0)
      && (s.parent.ReadPid? || KnowsPid(s.parent) ==> s.p.byteRead)
      && (KnowsPid(s.parent) ==> Taken(s) >= 2)
      && (s.parent.ReadBody? ==> Taken(s) == 3)
      && (Rank(s.child) <= 1 ==> s.down == [Bootstrap] || (s.down == [] && (s.parent.Boot? || Failing(s.parent))))
      && (s.parent.Boot? ==> s.down == [])
    else !s.writable
  }

  predicate Hopeless(s: State) {
    && !s.p.sentRun && !s.p.sentResume && !Handler(s.parent) && !s.parent.AwaitExit? && s.parent != Returned(true)
    && (s.parent.Panicked? ==> s.killed)
  }

  predicate BadInv(s: State) {
    ShortPath(s.child) && Queues(s) && Hopeless(s)
  }

  lemma InitBad()
    ensures BadInv(Init())
  {
  }

  // -------------------------------------------------------------------- the child's steps

  /** The child sends its next message. */
  lemma SendKeepsBad(s: State, t: State, msg: Msg, next: ChildPc)
    requires BadInv(s) && Listening(s) && t == s.(up := s.up + [msg], child := next)
    requires ShortPath(next) && SentCount(next) == SentCount(s.child) + 1 && Number(msg) == SentCount(s.child)
    requires Rank(next) <= 1 ==> Rank(s.child) <= 1
    ensures BadInv(t)
  {
  }

  lemma ChildSendKeepsBad(s: State, t: State, msg: Msg, next: ChildPc, otherwise: ChildPc)
    requires BadInv(s) && t == ChildSend(s, msg, next, otherwise) && ShortPath(next) && ShortPath(otherwise)
    requires SentCount(next) == SentCount(s.child) + 1 && Number(msg) == SentCount(s.child)
    requires Rank(next) <= 1 ==> Rank(s.child) <= 1
    ensures BadInv(t)
  {
    if Listening(s) {
      SendKeepsBad(s, t, msg, next);
    }
  }

  lemma ChildKeepsBad(c: Config, s: State, t: State)
    requires !c.envParses && BadInv(s) && ChildStep(c, s, t)
    ensures BadInv(t)
  {
    match s.child
    case SendByte => ChildSendKeepsBad(s, t, InitByte, ReadBoot, Gone);
    case SendPid => ChildSendKeepsBad(s, t, PidJson, ParseEnv, Gone);
    case SendError => ChildSendKeepsBad(s, t, ProcError, SendBody, Gone);
    case SendBody => ChildSendKeepsBad(s, t, ErrorBody, Gone, Gone);
    case ReadBoot => ReadBootKeepsBad(c, s, t);
    case ParseEnv =>
  }

  lemma ReadBootKeepsBad(c: Config, s: State, t: State)
    requires BadInv(s) && s.child.ReadBoot? && ChildStep(c, s, t)
    ensures BadInv(t)
  {
  }

  // -------------------------------------------------------------------- the parent's steps

  /** The parent takes `n` messages off the queue and gives up or goes on. */
  lemma TakeKeepsUnread(s: State, t: State, n: nat)
    requires Unread(s) && n <= |s.up| && t.child == s.child && t.up == s.up[n..]
    ensures Unread(t) && Taken(t) == Taken(s) + n
  {
  }

  lemma ReadPidKeepsBad(c: Config, s: State, t: State)
    requires BadInv(s) && s.parent.ReadPid? && ParentStep(c, s, t)
    ensures BadInv(t)
  {
    if s.up != [] {
      TakeKeepsUnread(s, t, 1 + (t.lost - s.lost));
      assert s.up[0].PidJson? ==> Taken(s) == 1;
    }
  }

  lemma AwaitByteKeepsBad(c: Config, s: State, t: State)
    requires BadInv(s) && s.parent.AwaitByte? && ParentStep(c, s, t)
    ensures BadInv(t)
  {
    if s.up != [] && s.up[0].InitByte? {
      TakeKeepsUnread(s, t, 1);
    }
  }

  lemma SendsKeepBad(c: Config, s: State, t: State)
    requires BadInv(s) && (s.parent.Boot? || s.parent.AwaitStage0? || s.parent.SendConfig?) && ParentStep(c, s, t)
    ensures BadInv(t)
  {
  }

  lemma EarlyKeepsBad(c: Config, s: State, t: State)
    requires BadInv(s) && Early(s.parent) && ParentStep(c, s, t)
    ensures BadInv(t)
  {
    if s.parent.AwaitByte? {
      AwaitByteKeepsBad(c, s, t);
    } else if s.parent.ReadPid? {
      ReadPidKeepsBad(c, s, t);
    } else {
      SendsKeepBad(c, s, t);
    }
  }

  /** Only the error report can be at the head of the queue: no handler starts. */
  lemma HeadIsNoRequest(s: State)
    requires Unread(s) && ShortPath(s.child) && s.up != []
    ensures s.up[0].InitByte? || s.up[0].PidJson? || s.up[0].ProcError? || s.up[0].ErrorBody?
    ensures s.up[0].ProcError? ==> Taken(s) == 2
  {
  }

  lemma SyncKeepsBad(c: Config, s: State, t: State)
    requires BadInv(s) && s.parent.Sync? && ParentStep(c, s, t)
    ensures BadInv(t)
  {
    if s.up != [] {
      TakeKeepsUnread(s, t, 1);
      HeadIsNoRequest(s);
    }
  }

  lemma LateKeepsBad(c: Config, s: State, t: State)
    requires BadInv(s) && !Early(s.parent) && !s.parent.Sync? && ParentStep(c, s, t)
    ensures BadInv(t)
  {
    match s.parent
    case ReadBody => if s.up != [] { TakeKeepsUnread(s, t, 1); }
    case Cleanup => if !s.p.byteRead && s.up != [] { TakeKeepsUnread(s, t, 1); }
    case _ =>
  }

  lemma FailureKeepsBad(s: State, t: State)
    requires BadInv(s) && (ParentFails(s, t) || ChildFails(s, t) || ChildKilled(s, t))
    ensures BadInv(t)
  {
  }

  lemma StepKeepsBad(c: Config, s: State, t: State)
    requires !c.envParses && BadInv(s) && Step(c, s, t)
    ensures BadInv(t)
  {
    if ChildStep(c, s, t) {
      ChildKeepsBad(c, s, t);
    } else if ParentStep(c, s, t) {
      if Early(s.parent) {
        EarlyKeepsBad(c, s, t);
      } else if s.parent.Sync? {
        SyncKeepsBad(c, s, t);
      } else {
        LateKeepsBad(c, s, t);
      }
    } else {
      FailureKeepsBad(s, t);
    }
  }

  lemma {:induction false} RunKeepsBad(c: Config, run: seq<State>, i: nat)
    requires !c.envParses && IsRun(c, run) && i < |run|
    ensures BadInv(run[i])
  {
    if i == 0 {
      InitBad();
    } else {
      RunKeepsBad(c, run, i - 1);
      StepKeepsBad(c, run[i - 1], run[i]);
    }
  }

  // -------------------------------------------------------------------- every configuration

  lemma BadStateCanRun(s: State)
    requires BadInv(s) && (!ParentDone(s) || ChildOpen(s))
    ensures ChildCanRun(s) || ParentCanRun(s)
  {
  }

  /** No reachable state is a deadlock, whether the environment parses or not. */
  lemma NeverDeadlocks(c: Config, run: seq<State>, i: nat)
    requires IsRun(c, run) && i < |run| && (!ParentDone(run[i]) || ChildOpen(run[i]))
    ensures exists t :: Runs(c, run[i], t)
  {
    if c.envParses {
      NoDeadlock(c, run, i);
    } else {
      var s := run[i];
      RunKeepsBad(c, run, i);
      BadStateCanRun(s);
      if ChildCanRun(s) {
        assert Runs(c, s, ChildNext(c, s));
      } else {
        ParentCanRunMeansStep(c, s);
        var t :| ParentStep(c, s, t);
        assert Runs(c, s, t);
      }
    }
  }

  /** Success needs an environment that parses, and the full synchronisation. */
  lemma SuccessIsAlwaysSynchronised(c: Config, run: seq<State>, i: nat)
    requires IsRun(c, run) && i < |run| && run[i].parent == Returned(true)
    ensures c.envParses
    ensures run[i].p.sentRun && run[i].w.stateSaved && run[i].w.rlimitsSet
    ensures c.newns ==> run[i].p.sentResume && run[i].w.cgroupSet && run[i].w.hookRuns == 1
    ensures !c.newns ==> run[i].w.hookRuns == 2
    ensures run[i].killed || run[i].child.Finished?
    ensures SentInOrder(run, i)
  {
    if !c.envParses {
      RunKeepsBad(c, run, i);
      assert false;
    }
    SuccessMeansSynchronised(c, run, i);
  }

  /** In every state of every run, with or without success, nothing was sent before its work was done. */
  lemma NothingIsSentEarly(c: Config, run: seq<State>, i: nat)
    requires IsRun(c, run) && i < |run|
    ensures SentAfterWork(run[i])
  {
    if c.envParses {
      RunKeepsInv(c, run, i);
    } else {
      RunKeepsBad(c, run, i);
    }
  }

  /** The parent never panics over a child that was not killed. */
  lemma PanicAlwaysNeedsKill(c: Config, run: seq<State>, i: nat)
    requires IsRun(c, run) && i < |run| && run[i].parent.Panicked?
    ensures run[i].killed
  {
    if c.envParses {
      PanicNeedsKill(c, run, i);
    } else {
      RunKeepsBad(c, run, i);
    }
  }

  /** With a bad environment the child never gets past its error report. */
  lemma BadEnvironmentStopsInit(c: Config, run: seq<State>, i: nat)
    requires !c.envParses && IsRun(c, run) && i < |run|
    ensures ShortPath(run[i].child) && !run[i].p.sentRun
  {
    RunKeepsBad(c, run, i);
  }
}
