/**
 * The container's in-memory state and how it follows the outside world
 * (libcontainer/state_linux.go; refreshState, runType, Pause, Resume, Signal and Destroy in
 * container_linux.go).
 *
 * The world is what the code reads when it looks: the freezer, /proc and the exec fifo. A call
 * may look twice, and the world may differ between the two looks.
 */
module ContainerState {

  import opened Wrappers

  datatype Status = Created | Running | Paused | Stopped

  /** The Go types that implement containerState. */
  datatype State =
    | StoppedState
    | RunningState
    | CreatedState
    | PausedState
    | RestoredState
    | LoadedState(loaded: Status)
  {
    function Status(): Status {
      match this
      case StoppedState => Stopped
      case RunningState => Running
      case CreatedState => Created
      case PausedState => Paused
      case RestoredState => Running
      case LoadedState(s) => s
    }
  }

  /**
   * One look at the world: the freezer (absent if it cannot be read), the start time of the
   * process with init's pid (absent if there is none), whether it is a zombie or dead, and
   * whether the exec fifo exists.
   */
  datatype World = World(frozen: Option<bool>, startTime: Option<nat>, dead: bool, fifo: bool)

  /** What the process keeps in memory about the container. */
  datatype Memory = Memory(state: State, hasInit: bool, startTime: nat)

  /** runType */
  function RunType(m: Memory, w: World): Status {
    if !m.hasInit then Stopped
    else if w.startTime.None? then Stopped
    else if w.startTime.value != m.startTime || w.dead then Stopped
    else if w.fifo then Created
    else Running
  }

  /** The status that the world shows: frozen, else dead or another process, else by the fifo. */
  function Observed(m: Memory, w: World): Status {
    if w.frozen == Some(true) then Paused else RunType(m, w)
  }

  function StateOf(s: Status): State {
    match s
    case Created => CreatedState
    case Running => RunningState
    case Paused => PausedState
    case Stopped => StoppedState
  }

  // ---------------------------------------------------------------- transitions

  datatype Error = FreezerUnreadable | InvalidTransition | ErrRunning | ErrNotRunning | ErrPaused | ErrNotPaused
                 | FreezeFailed | SignalFailed | CleanupFailed | CheckpointUnreadable
                 | SkipsDevices | FifoRefused | StartFailed | ExecFailed

  datatype Outcome<T> = Ok(value: T) | Failed(error: Error)

  /** The transition methods; `again` is the world in which a running state looks once more. */
  function Transition(m: Memory, target: State, again: World): Outcome<State> {
    match m.state
    case StoppedState =>
      if target.RunningState? || target.RestoredState? then Ok(target)
      else if target.StoppedState? then Ok(m.state)
      else Failed(InvalidTransition)
    case RunningState =>
      if target.StoppedState? then if RunType(m, again).Running? then Failed(ErrRunning) else Ok(target)
      else if target.PausedState? then Ok(target)
      else if target.RunningState? then Ok(m.state)
      else Failed(InvalidTransition)
    case CreatedState =>
      if target.RunningState? || target.PausedState? || target.StoppedState? then Ok(target)
      else if target.CreatedState? then Ok(m.state)
      else Failed(InvalidTransition)
    case PausedState =>
      if target.RunningState? || target.StoppedState? then Ok(target)
      else if target.PausedState? then Ok(m.state)
      else Failed(InvalidTransition)
    case RestoredState =>
      if target.StoppedState? || target.RunningState? then Ok(m.state) else Failed(InvalidTransition)
    case LoadedState(_) => Ok(target)
  }

  /** refreshState: the new in-memory state, or why it was refused. */
  function Refresh(m: Memory, w: World, again: World): Outcome<State> {
    if w.frozen.None? then Failed(FreezerUnreadable)
    else Transition(m, StateOf(Observed(m, w)), again)
  }

  /** A second look at a container just seen dead finds it running, or the state cannot follow. */
  predicate Refused(m: Memory, w: World, again: World) {
    var seen := Observed(m, w);
    match m.state
    case StoppedState => seen.Created? || seen.Paused?
    case RunningState => seen.Created? || (seen.Stopped? && RunType(m, again).Running?)
    case CreatedState => false
    case PausedState => seen.Created?
    case RestoredState => seen.Created? || seen.Paused?
    case LoadedState(_) => false
  }

  /**
   * Looking at a container either fails for one of these reasons, or returns what was seen,
   * except that a restored state goes on saying "running" after the container stopped.
   */
  lemma StatusIsTruthful(m: Memory, w: World, again: World)
    ensures Refresh(m, w, again).Ok? <==> w.frozen.Some? && !Refused(m, w, again)
    ensures Refresh(m, w, again).Ok? ==>
              (Refresh(m, w, again).value.Status() == Observed(m, w)
               <==> !(m.state.RestoredState? && Observed(m, w).Stopped?))
    ensures Refresh(m, w, again).Ok? && !m.state.RestoredState? ==>
              Refresh(m, w, again).value == StateOf(Observed(m, w))
    ensures Refresh(m, w, again).Ok? && m.state.RestoredState? ==> Refresh(m, w, again).value == RestoredState
  {
  }

  // ---------------------------------------------------------------- the calls

  /** One look by refreshState, with its second look. */
  datatype Looks = Looks(w: World, again: World)

  /** The exec fifo cannot be made, is made but not handed to the container's root, or is ready. */
  datatype FifoOutcome = NotMade | LeftBehind | Ready

  /**
   * How the start of an init goes: whether the configuration skips devices, what becomes of the
   * fifo, whether the process can be set up, what the hooks see before the created state is
   * stored, whether that point is reached, the start time recorded there (absent if the state
   * cannot be saved), what is seen after it, and whether the rest succeeds.
   */
  datatype StartPlan = StartPlan(skipDevices: bool, fifo: FifoOutcome, setUp: bool,
                                 before: seq<Looks>, reachesCreated: bool,
                                 recorded: Option<nat>, after: seq<Looks>, finishes: bool)

  datatype Call =
    | Start(plan: StartPlan)
    | Exec
    | GetStatus
    | Pause
    | Resume
    | Signal(all: bool, kill: bool)
    | Destroy
    | Restore

  /** How the operations on the outside that a call makes turn out. */
  datatype Luck = Luck(freezes: bool, signals: bool, cleans: bool, cgroupExists: bool, checkpointStat: bool)

  /** What a call did to the outside. */
  datatype Effect =
    | NoEffect
    | Froze
    | Thawed
    | SignalledInit
    | SignalledInitAndThawed
    | SignalledAll
    | CleanedUp(killed: bool)
    | MadeFifo
    | RemovedFifo

  /** Result of a call: what it returned, what memory holds afterwards, what it did outside. */
  datatype Done = Done(result: Outcome<Status>, memory: Memory, effect: Effect)

  function GetStatusDone(m: Memory, w: World, again: World): Done {
    var r := Refresh(m, w, again);
    if r.Failed? then Done(Failed(r.error), m, NoEffect)
    else Done(Ok(r.value.Status()), m.(state := r.value), NoEffect)
  }

  function PauseDone(m: Memory, w: World, again: World, luck: Luck): Done {
    var seen := GetStatusDone(m, w, again);
    if seen.result.Failed? then seen
    else if !seen.result.value.Running? && !seen.result.value.Created? then
      seen.(result := Failed(ErrNotRunning))
    else if !luck.freezes then seen.(result := Failed(FreezeFailed))
    else
      var next := Transition(seen.memory, PausedState, again);
      if next.Failed? then Done(Failed(next.error), seen.memory, Froze)
      else Done(Ok(Paused), seen.memory.(state := next.value), Froze)
  }

  function ResumeDone(m: Memory, w: World, again: World, luck: Luck): Done {
    var seen := GetStatusDone(m, w, again);
    if seen.result.Failed? then seen
    else if !seen.result.value.Paused? then seen.(result := Failed(ErrNotPaused))
    else if !luck.freezes then seen.(result := Failed(FreezeFailed))
    else
      var next := Transition(seen.memory, RunningState, again);
      if next.Failed? then Done(Failed(next.error), seen.memory, Thawed)
      else Done(Ok(Running), seen.memory.(state := next.value), Thawed)
  }

  function SignalDone(m: Memory, w: World, again: World, all: bool, kill: bool, luck: Luck): Done {
    var seen := GetStatusDone(m, w, again);
    if seen.result.Failed? then seen
    else
      var status := seen.result.value;
      if all then
        if status.Stopped? && !luck.cgroupExists then seen
        else if !luck.signals then seen.(result := Failed(SignalFailed))
        else seen.(effect := SignalledAll)
      else if status.Stopped? then seen.(result := Failed(ErrNotRunning))
      else if !luck.signals then seen.(result := Failed(SignalFailed))
      else seen.(effect := if status.Paused? && kill then SignalledInitAndThawed else SignalledInit)
  }

  /** The function destroy: whatever fails, the container is stopped and forgotten. */
  function Destroyed(m: Memory, killed: bool, luck: Luck): Done {
    Done(if luck.cleans then Ok(Stopped) else Failed(CleanupFailed),
         m.(state := StoppedState, hasInit := false), CleanedUp(killed))
  }

  function DestroyNow(m: Memory, again: World, luck: Luck): Done
    requires !m.state.LoadedState?
  {
    match m.state
    case StoppedState => Destroyed(m, false, luck)
    case RunningState =>
      if RunType(m, again).Running? then Done(Failed(ErrRunning), m, NoEffect) else Destroyed(m, false, luck)
    case CreatedState => Destroyed(m, true, luck)
    case PausedState =>
      if RunType(m, again).Running? || RunType(m, again).Created? then Done(Failed(ErrPaused), m, NoEffect)
      else if !luck.freezes then Done(Failed(FreezeFailed), m, NoEffect)
      else Destroyed(m, false, luck)
    case RestoredState =>
      if !luck.checkpointStat then Done(Failed(CheckpointUnreadable), m, NoEffect) else Destroyed(m, false, luck)
  }

  function DestroyDone(m: Memory, w: World, again: World, luck: Luck): Done {
    if !m.state.LoadedState? then DestroyNow(m, again, luck)
    else
      var seen := GetStatusDone(m, w, again);
      if seen.result.Failed? then seen else DestroyNow(seen.memory, again, luck)
  }

  /** The end of a restore: the move to the restored state; the start time is not recorded. */
  function RestoreDone(m: Memory, again: World): Done {
    var next := Transition(m, RestoredState, again);
    if next.Failed? then Done(Failed(next.error), m, NoEffect)
    else Done(Ok(Running), m.(state := next.value, hasInit := true), NoEffect)
  }

  /** Several looks in a row; the first that is refused ends them. */
  function AllLooks(m: Memory, looks: seq<Looks>): Done
    decreases |looks|
  {
    if looks == [] then Done(Ok(m.state.Status()), m, NoEffect)
    else
      var first := GetStatusDone(m, looks[0].w, looks[0].again);
      if first.result.Failed? then first else AllLooks(first.memory, looks[1..])
  }

  /** The inner start, behind the fifo; when it fails, memory keeps what was stored by then. */
  function LaunchDone(m: Memory, plan: StartPlan): Done {
    if !plan.setUp then Done(Failed(StartFailed), m, NoEffect)
    else
      var before := AllLooks(m.(hasInit := true), plan.before);
      if before.result.Failed? then before
      else if !plan.reachesCreated then before.(result := Failed(StartFailed))
      else
        var created := before.memory.(state := CreatedState);
        if plan.recorded.None? then Done(Failed(StartFailed), created, NoEffect)
        else
          var after := AllLooks(created.(startTime := plan.recorded.value), plan.after);
          if after.result.Failed? || plan.finishes then after else after.(result := Failed(StartFailed))
  }

  /** Start of an init process; if the inner start fails, the fifo is removed again. */
  function StartDone(m: Memory, plan: StartPlan): Done {
    if plan.skipDevices then Done(Failed(SkipsDevices), m, NoEffect)
    else
      match plan.fifo
      case NotMade => Done(Failed(FifoRefused), m, NoEffect)
      case LeftBehind => Done(Failed(FifoRefused), m, MadeFifo)
      case Ready =>
        var launch := LaunchDone(m, plan);
        launch.(effect := if launch.result.Ok? then MadeFifo else RemovedFifo)
  }

  /** Exec: reading the fifo lets init go on and removes it; the in-memory state is not touched. */
  function ExecDone(m: Memory, luck: Luck): Done {
    if luck.signals then Done(Ok(m.state.Status()), m, RemovedFifo) else Done(Failed(ExecFailed), m, NoEffect)
  }

  function CallDone(m: Memory, call: Call, w: World, again: World, luck: Luck): Done {
    match call
    case Start(plan) => StartDone(m, plan)
    case Exec => ExecDone(m, luck)
    case GetStatus => GetStatusDone(m, w, again)
    case Pause => PauseDone(m, w, again, luck)
    case Resume => ResumeDone(m, w, again, luck)
    case Signal(all, kill) => SignalDone(m, w, again, all, kill, luck)
    case Destroy => DestroyDone(m, w, again, luck)
    case Restore => RestoreDone(m, again)
  }

  // ---------------------------------------------------------------- the object

  /** linuxContainer, as far as its state is concerned. */
  class LinuxContainer {
    var state: State
    var hasInit: bool
    var startTime: nat

    function Held(): Memory
      reads this
    {
      Memory(state, hasInit, startTime)
    }

    constructor (m: Memory)
      ensures Held() == m
    {
      state, hasInit, startTime := m.state, m.hasInit, m.startTime;
    }

    method MoveTo(target: State, again: World) returns (r: Outcome<State>)
      modifies this
      ensures r == old(Transition(Held(), target, again))
      ensures Held() == old(Held()).(state := if r.Ok? then r.value else old(state))
    {
      r := Transition(Held(), target, again);
      if r.Ok? {
        state := r.value;
      }
    }

    method CurrentStatus(w: World, again: World) returns (r: Outcome<Status>)
      modifies this
      ensures Done(r, Held(), NoEffect) == GetStatusDone(old(Held()), w, again)
    {
      if w.frozen.None? {
        return Failed(FreezerUnreadable);
      }
      var target := if w.frozen.value then PausedState else StateOf(RunType(Held(), w));
      var moved := MoveTo(target, again);
      if moved.Failed? {
        return Failed(moved.error);
      }
      r := Ok(state.Status());
    }

    /** The looks of several hooks, one after the other. */
    method LookAll(looks: seq<Looks>) returns (r: Outcome<Status>)
      modifies this
      ensures Done(r, Held(), NoEffect) == AllLooks(old(Held()), looks)
    {
      r := Ok(state.Status());
      var i := 0;
      while i < |looks|
        invariant 0 <= i <= |looks| && r == Ok(state.Status())
        invariant AllLooks(Held(), looks[i..]) == AllLooks(old(Held()), looks)
      {
        assert looks[i..][1..] == looks[i + 1..];
        r := CurrentStatus(looks[i].w, looks[i].again);
        if r.Failed? {
          return;
        }
        i := i + 1;
      }
      assert looks[i..] == [];
    }

    method Launch(plan: StartPlan) returns (r: Outcome<Status>)
      modifies this
      ensures Done(r, Held(), NoEffect) == LaunchDone(old(Held()), plan)
    {
      if !plan.setUp {
        return Failed(StartFailed);
      }
      hasInit := true;
      r := LookAll(plan.before);
      if r.Failed? {
        return;
      }
      if !plan.reachesCreated {
        return Failed(StartFailed);
      }
      state := CreatedState;
      if plan.recorded.None? {
        return Failed(StartFailed);
      }
      startTime := plan.recorded.value;
      r := LookAll(plan.after);
      if r.Ok? && !plan.finishes {
        r := Failed(StartFailed);
      }
    }

    method Start(plan: StartPlan) returns (r: Outcome<Status>, effect: Effect)
      modifies this
      ensures Done(r, Held(), effect) == StartDone(old(Held()), plan)
    {
      if plan.skipDevices {
        return Failed(SkipsDevices), NoEffect;
      }
      if !plan.fifo.Ready? {
        return Failed(FifoRefused), if plan.fifo.LeftBehind? then MadeFifo else NoEffect;
      }
      effect := MadeFifo;
      r := Launch(plan);
      if r.Failed? {
        effect := RemovedFifo;
      }
    }

    method Pause(w: World, again: World, luck: Luck) returns (r: Outcome<Status>, effect: Effect)
      modifies this
      ensures Done(r, Held(), effect) == PauseDone(old(Held()), w, again, luck)
    {
      r := CurrentStatus(w, again);
      effect := NoEffect;
      if r.Failed? {
        return;
      }
      if !r.value.Running? && !r.value.Created? {
        return Failed(ErrNotRunning), NoEffect;
      }
      if !luck.freezes {
        return Failed(FreezeFailed), NoEffect;
      }
      effect := Froze;
      var moved := MoveTo(PausedState, again);
      r := if moved.Failed? then Failed(moved.error) else Ok(Paused);
    }

    method Resume(w: World, again: World, luck: Luck) returns (r: Outcome<Status>, effect: Effect)
      modifies this
      ensures Done(r, Held(), effect) == ResumeDone(old(Held()), w, again, luck)
    {
      r := CurrentStatus(w, again);
      effect := NoEffect;
      if r.Failed? {
        return;
      }
      if !r.value.Paused? {
        return Failed(ErrNotPaused), NoEffect;
      }
      if !luck.freezes {
        return Failed(FreezeFailed), NoEffect;
      }
      effect := Thawed;
      var moved := MoveTo(RunningState, again);
      r := if moved.Failed? then Failed(moved.error) else Ok(Running);
    }

    method Signal(w: World, again: World, all: bool, kill: bool, luck: Luck)
      returns (r: Outcome<Status>, effect: Effect)
      modifies this
      ensures Done(r, Held(), effect) == SignalDone(old(Held()), w, again, all, kill, luck)
    {
      r := CurrentStatus(w, again);
      effect := NoEffect;
      if r.Failed? {
        return;
      }
      if all {
        if r.value.Stopped? && !luck.cgroupExists {
          return;
        }
        if !luck.signals {
          return Failed(SignalFailed), NoEffect;
        }
        return r, SignalledAll;
      }
      if r.value.Running? || r.value.Created? || r.value.Paused? {
        if !luck.signals {
          return Failed(SignalFailed), NoEffect;
        }
        return r, if r.value.Paused? && kill then SignalledInitAndThawed else SignalledInit;
      }
      return Failed(ErrNotRunning), NoEffect;
    }

    method Destroy(w: World, again: World, luck: Luck) returns (r: Outcome<Status>, effect: Effect)
      modifies this
      ensures Done(r, Held(), effect) == DestroyDone(old(Held()), w, again, luck)
    {
      if state.LoadedState? {
        r := CurrentStatus(w, again);
        if r.Failed? {
          return r, NoEffect;
        }
      }
      var killed := state.CreatedState?;
      if state.RunningState? && RunType(Held(), again).Running? {
        return Failed(ErrRunning), NoEffect;
      }
      if state.PausedState? {
        var t := RunType(Held(), again);
        if t.Running? || t.Created? {
          return Failed(ErrPaused), NoEffect;
        }
        if !luck.freezes {
          return Failed(FreezeFailed), NoEffect;
        }
      }
      if state.RestoredState? && !luck.checkpointStat {
        return Failed(CheckpointUnreadable), NoEffect;
      }
      hasInit := false;
      state := StoppedState;
      r := if luck.cleans then Ok(Stopped) else Failed(CleanupFailed);
      effect := CleanedUp(killed);
    }
  }

  // ---------------------------------------------------------------- single calls

  /** Init, or whatever has its pid now, gets a signal. */
  predicate Signals(m: Memory, w: World, again: World, kill: bool, luck: Luck) {
    var effect := SignalDone(m, w, again, false, kill, luck).effect;
    effect.SignalledInit? || effect.SignalledInitAndThawed?
  }

  /**
   * The pid is signalled although init is gone or another process has its pid exactly for a
   * restored container that is not frozen, and for any other container that is frozen and not
   * already known to be stopped: a frozen container is not checked for init's start time.
   */
  lemma WrongProcessSignalledIff(m: Memory, w: World, again: World, kill: bool, luck: Luck)
    ensures Signals(m, w, again, kill, luck) && RunType(m, w).Stopped?
       <==> && luck.signals && RunType(m, w).Stopped?
            && if m.state.RestoredState? then w.frozen == Some(false)
               else w.frozen == Some(true) && !m.state.StoppedState?
  {
    StatusIsTruthful(m, w, again);
    match w.frozen
    case None =>
    case Some(frozen) => assert frozen ==> Observed(m, w).Paused?;
  }

  /** A frozen container whose init died and whose pid was taken over: the new process is signalled. */
  lemma RecycledPidSignalled(luck: Luck)
    requires luck.signals
    ensures var m, w := Memory(RunningState, true, 5), World(Some(true), Some(9), false, false);
            Signals(m, w, w, true, luck) && w.startTime.value != m.startTime
  {
  }

  /**
   * Pausing either leaves the freezer alone or ends paused, except for a restored container that
   * is not frozen and shows no fifo: that is frozen and then refused.
   */
  lemma PauseIsAllOrNothingIff(m: Memory, w: World, again: World, luck: Luck)
    ensures var done := PauseDone(m, w, again, luck);
            && (done.effect.Froze? && done.result.Failed?
                <==> m.state.RestoredState? && luck.freezes && w.frozen == Some(false) && !RunType(m, w).Created?)
            && (done.result.Ok? ==> done.effect.Froze? && done.memory.state == PausedState)
  {
    StatusIsTruthful(m, w, again);
    match w.frozen
    case None =>
    case Some(frozen) => assert frozen ==> Observed(m, w).Paused?;
  }

  /** A resume that succeeds always ends in the running state, created or not before the pause. */
  lemma ResumeEndsRunning(m: Memory, w: World, again: World, luck: Luck)
    requires ResumeDone(m, w, again, luck).effect.Thawed?
    ensures var done := ResumeDone(m, w, again, luck);
            done.result == Ok(Running) && done.memory.state == RunningState && Observed(m, w).Paused?
  {
    StatusIsTruthful(m, w, again);
  }

  /**
   * After a resume, the next look in the same process is refused exactly when the world is not
   * what a running container may become: the exec fifo is still there, or a dead container is
   * found alive on the second look.
   */
  lemma LookAfterResume(m: Memory, w: World, again: World, luck: Luck, next: World, nextAgain: World)
    requires ResumeDone(m, w, again, luck).effect.Thawed? && next.frozen.Some?
    ensures var after := ResumeDone(m, w, again, luck).memory;
            GetStatusDone(after, next, nextAgain).result.Failed?
            <==> Observed(after, next).Created?
                 || (Observed(after, next).Stopped? && RunType(after, nextAgain).Running?)
  {
    ResumeEndsRunning(m, w, again, luck);
    StatusIsTruthful(ResumeDone(m, w, again, luck).memory, next, nextAgain);
  }

  /** Pausing and resuming a created container in one process leaves a state that cannot be read. */
  lemma ResumedCreatedContainer()
    ensures var created := Memory(CreatedState, true, 5);
            var blocked := World(Some(false), Some(5), false, true);
            var luck := Luck(true, true, true, true, true);
            var paused := PauseDone(created, blocked, blocked, luck);
            var resumed := ResumeDone(paused.memory, blocked.(frozen := Some(true)), blocked, luck);
            && paused.result == Ok(Paused) && resumed.result == Ok(Running)
            && GetStatusDone(resumed.memory, blocked, blocked).result == Failed(InvalidTransition)
  {
  }

  /** What Destroy removes was not seen running by its last look, unless it was created or restored. */
  lemma DestroySparesRunning(m: Memory, w: World, again: World, luck: Luck)
    ensures var done := DestroyDone(m, w, again, luck);
            done.effect.CleanedUp? ==>
              && done.memory == m.(state := StoppedState, hasInit := false)
              && (m.state.RunningState? || m.state.PausedState? ==> !RunType(m, again).Running?)
              && (m.state.LoadedState? && (Observed(m, w).Running? || Observed(m, w).Paused?) ==>
                    !RunType(m, again).Running?)
              && (done.effect.killed <==> m.state.CreatedState? || (m.state.LoadedState? && Observed(m, w).Created?))
  {
  }

  // ---------------------------------------------------------------- runs

  datatype Step = Step(call: Call, w: World, again: World, luck: Luck)

  /** Memory after a sequence of calls, with any outside events between and during them. */
  function After(m: Memory, steps: seq<Step>): Memory {
    if steps == [] then m
    else
      var last := steps[|steps| - 1];
      CallDone(After(m, steps[..|steps| - 1]), last.call, last.w, last.again, last.luck).memory
  }

  predicate NeverRestores(steps: seq<Step>) {
    forall i :: 0 <= i < |steps| ==> !steps[i].call.Restore?
  }

  lemma {:induction false} LooksNeverRestore(m: Memory, looks: seq<Looks>)
    requires !m.state.RestoredState?
    ensures !AllLooks(m, looks).memory.state.RestoredState?
    decreases |looks|
  {
    if looks != [] {
      StatusIsTruthful(m, looks[0].w, looks[0].again);
      LooksNeverRestore(GetStatusDone(m, looks[0].w, looks[0].again).memory, looks[1..]);
    }
  }

  lemma StartNeverRestores(m: Memory, plan: StartPlan)
    requires !m.state.RestoredState?
    ensures !StartDone(m, plan).memory.state.RestoredState?
  {
    LooksNeverRestore(m.(hasInit := true), plan.before);
    var created := AllLooks(m.(hasInit := true), plan.before).memory.(state := CreatedState);
    if plan.recorded.Some? {
      LooksNeverRestore(created.(startTime := plan.recorded.value), plan.after);
    }
  }

  lemma OnlyRestoreRestores(m: Memory, s: Step)
    requires !m.state.RestoredState? && !s.call.Restore?
    ensures !CallDone(m, s.call, s.w, s.again, s.luck).memory.state.RestoredState?
  {
    StatusIsTruthful(m, s.w, s.again);
    if s.call.Start? {
      StartNeverRestores(m, s.call.plan);
    }
  }

  lemma {:induction false} NeverInRestoredState(m: Memory, steps: seq<Step>)
    requires !m.state.RestoredState? && NeverRestores(steps)
    ensures !After(m, steps).state.RestoredState?
  {
    if steps != [] {
      var n := |steps| - 1;
      NeverInRestoredState(m, steps[..n]);
      OnlyRestoreRestores(After(m, steps[..n]), steps[n]);
    }
  }

  /** In every run without a restore, each status returned is the one observed. */
  lemma EveryStatusIsTruthful(m: Memory, steps: seq<Step>, w: World, again: World)
    requires !m.state.RestoredState? && NeverRestores(steps)
    ensures var now := After(m, steps);
            var seen := GetStatusDone(now, w, again).result;
            seen.Ok? ==> seen.value == Observed(now, w)
  {
    NeverInRestoredState(m, steps);
    StatusIsTruthful(After(m, steps), w, again);
  }

  /** Only destroying a restored container, or starting it anew, ends its restored state. */
  lemma RestoredUntilDestroyed(m: Memory, s: Step)
    requires m.state.RestoredState? && !s.call.Destroy? && !s.call.Start?
    ensures CallDone(m, s.call, s.w, s.again, s.luck).memory.state.RestoredState?
  {
    StatusIsTruthful(m, s.w, s.again);
  }

  lemma {:induction false} RestoredStaysRestored(m: Memory, steps: seq<Step>)
    requires m.state.RestoredState?
    requires forall i :: 0 <= i < |steps| ==> !steps[i].call.Destroy? && !steps[i].call.Start?
    ensures After(m, steps).state.RestoredState?
  {
    if steps != [] {
      var n := |steps| - 1;
      RestoredStaysRestored(m, steps[..n]);
      RestoredUntilDestroyed(After(m, steps[..n]), steps[n]);
    }
  }

  // ---------------------------------------------------------------- start-up

  /** Before the created state is stored: a new container whose start time is still zero. */
  predicate StartingUp(m: Memory) {
    m.state.StoppedState? && m.startTime == 0
  }

  /** Every process has a positive start time, in clock ticks since boot. */
  predicate Plausible(w: World) {
    w.startTime.Some? ==> w.startTime.value > 0
  }

  /** During start-up a look succeeds exactly while the cgroup is unfrozen, and changes nothing. */
  lemma StartUpLook(m: Memory, w: World, again: World)
    requires StartingUp(m) && Plausible(w)
    ensures GetStatusDone(m, w, again).result.Ok? <==> w.frozen == Some(false)
    ensures GetStatusDone(m, w, again).memory == m
    ensures w.frozen == Some(false) ==> GetStatusDone(m, w, again).result == Ok(Stopped)
  {
    match w.frozen
    case None =>
    case Some(frozen) => assert RunType(m, w).Stopped? && (!frozen ==> Observed(m, w).Stopped?);
  }

  /** Once the created state is stored, no look is ever refused before the state moves on. */
  lemma CreatedNeverRefuses(m: Memory, w: World, again: World)
    requires m.state.CreatedState? && w.frozen.Some?
    ensures GetStatusDone(m, w, again).result == Ok(Observed(m, w))
  {
    StatusIsTruthful(m, w, again);
  }

  /** All looks are at an unfrozen cgroup, with plausible processes. */
  predicate Unfrozen(looks: seq<Looks>) {
    forall i :: 0 <= i < |looks| ==> Plausible(looks[i].w) && looks[i].w.frozen == Some(false)
  }

  lemma {:induction false} StartUpLooks(m: Memory, looks: seq<Looks>)
    requires StartingUp(m) && Unfrozen(looks)
    ensures AllLooks(m, looks).result == Ok(Stopped) && AllLooks(m, looks).memory == m
    decreases |looks|
  {
    if looks != [] {
      StartUpLook(m, looks[0].w, looks[0].again);
      StartUpLooks(m, looks[1..]);
    }
  }

  /**
   * While the cgroup stays unfrozen, no look before the created state is stored is rejected: the
   * first start of a container is refused at its beginning, fails for another reason, or gets
   * that far.
   */
  lemma StartUpIsNeverRejected(m: Memory, plan: StartPlan)
    requires StartingUp(m) && Unfrozen(plan.before)
    ensures var done := StartDone(m, plan);
            if plan.skipDevices then done == Done(Failed(SkipsDevices), m, NoEffect)
            else if !plan.fifo.Ready? then done.result == Failed(FifoRefused) && done.memory == m
            else if !plan.setUp || !plan.reachesCreated then
              done == Done(Failed(StartFailed), m.(hasInit := m.hasInit || plan.setUp), RemovedFifo)
            else
              && done.memory.hasInit
              && (plan.after == [] ==>
                    done.memory == Memory(CreatedState, true, if plan.recorded.Some? then plan.recorded.value else 0))
  {
    StartUpLooks(m.(hasInit := true), plan.before);
    if plan.recorded.Some? {
      LooksKeepInit(Memory(CreatedState, true, plan.recorded.value), plan.after);
    }
  }

  /** A failed start leaves a fifo of its own behind exactly if it could not hand it over. */
  lemma FailedStartLeavesFifoIff(m: Memory, plan: StartPlan)
    requires StartDone(m, plan).result.Failed?
    ensures StartDone(m, plan).effect.MadeFifo? <==> !plan.skipDevices && plan.fifo.LeftBehind?
  {
  }

  lemma {:induction false} LooksKeepInit(m: Memory, looks: seq<Looks>)
    ensures AllLooks(m, looks).memory == m.(state := AllLooks(m, looks).memory.state)
    decreases |looks|
  {
    if looks != [] {
      LooksKeepInit(GetStatusDone(m, looks[0].w, looks[0].again).memory, looks[1..]);
    }
  }

  // ---------------------------------------------------------------- one process, one container

  /** What is really the case with a container that this process has created. */
  datatype Reality = Reality(frozen: bool, alive: bool, fifo: bool)

  /** What looking shows; init keeps its start time and, once dead, its pid until it is reaped. */
  function Show(r: Reality, startTime: nat): World {
    World(Some(r.frozen), Some(startTime), !r.alive, r.fifo)
  }

  /** Something happens outside, or this process makes a call. */
  datatype Event = Freezes | Thaws | Dies | FifoGoes | Calls(call: Call, luck: Luck)

  predicate Harmless(e: Event) {
    e.Calls? ==> !e.call.Start? && !e.call.Destroy? && !e.call.Restore?
  }

  function Happens(m: Memory, r: Reality, e: Event): (Memory, Reality) {
    match e
    case Freezes => (m, r.(frozen := true))
    case Thaws => (m, r.(frozen := false))
    case Dies => (m, r.(alive := false))
    case FifoGoes => (m, r.(fifo := false))
    case Calls(call, luck) =>
      var w := Show(r, m.startTime);
      var done := CallDone(m, call, w, w, luck);
      (done.memory,
       match done.effect
       case Froze => r.(frozen := true)
       case Thawed => r.(frozen := false)
       case SignalledInitAndThawed => r.(frozen := false)
       case RemovedFifo => r.(fifo := false)
       case _ => r)
  }

  /** Memory and reality after the events, from a container that was just created. */
  function Lives(startTime: nat, events: seq<Event>): (Memory, Reality) {
    if events == [] then (Memory(CreatedState, true, startTime), Reality(false, true, true))
    else
      var (m, r) := Lives(startTime, events[..|events| - 1]);
      Happens(m, r, events[|events| - 1])
  }

  /** A call that looks while the container is frozen, or that freezes it. */
  predicate MeetsFreezer(m: Memory, r: Reality, e: Event) {
    && e.Calls? && !e.call.Exec?
    && (r.frozen || CallDone(m, e.call, Show(r, m.startTime), Show(r, m.startTime), e.luck).effect.Froze?)
  }

  predicate MeetsFreezerAt(startTime: nat, events: seq<Event>, k: nat)
    requires k < |events|
  {
    var (m, r) := Lives(startTime, events[..k]);
    MeetsFreezer(m, r, events[k])
  }

  /** Some call so far did. */
  predicate EverMet(startTime: nat, events: seq<Event>) {
    exists k :: 0 <= k < |events| && MeetsFreezerAt(startTime, events, k)
  }

  /** While init lives behind its fifo, memory says "created" unless a call met the freezer. */
  predicate Consistent(startTime: nat, m: Memory, r: Reality, met: bool) {
    && m.hasInit && m.startTime == startTime
    && (m.state.CreatedState? || m.state.RunningState? || m.state.PausedState? || m.state.StoppedState?)
    && (r.alive ==> !m.state.StoppedState?)
    && (r.alive && r.fifo ==> (m.state.CreatedState? <==> !met))
  }

  lemma HappensKeepsConsistent(startTime: nat, m: Memory, r: Reality, e: Event, met: bool)
    requires Consistent(startTime, m, r, met) && Harmless(e)
    ensures var (n, q) := Happens(m, r, e);
            Consistent(startTime, n, q, met || MeetsFreezer(m, r, e))
  {
    if e.Calls? {
      var w := Show(r, m.startTime);
      StatusIsTruthful(m, w, w);
    }
  }

  lemma EverMetSnoc(startTime: nat, init: seq<Event>, e: Event)
    ensures var (m, r) := Lives(startTime, init);
            EverMet(startTime, init + [e]) <==> EverMet(startTime, init) || MeetsFreezer(m, r, e)
  {
    var events := init + [e];
    forall k | 0 <= k < |init| ensures MeetsFreezerAt(startTime, init, k) <==> MeetsFreezerAt(startTime, events, k) {
      assert init[..k] == events[..k];
    }
    assert events[..|init|] == init;
    var (m, r) := Lives(startTime, init);
    assert MeetsFreezerAt(startTime, events, |init|) <==> MeetsFreezer(m, r, e);
  }

  lemma {:induction false} LivesConsistently(startTime: nat, events: seq<Event>)
    requires forall i :: 0 <= i < |events| ==> Harmless(events[i])
    ensures var (m, r) := Lives(startTime, events);
            Consistent(startTime, m, r, EverMet(startTime, events))
  {
    if events != [] {
      var init, last := events[..|events| - 1], events[|events| - 1];
      LivesConsistently(startTime, init);
      var (m, r) := Lives(startTime, init);
      HappensKeepsConsistent(startTime, m, r, last, EverMet(startTime, init));
      EverMetSnoc(startTime, init, last);
      assert events == init + [last];
    }
  }

  /**
   * In the whole life of a container within one process, whatever is called and whatever happens
   * outside: while init is alive, looking is refused exactly if some call has met the freezer
   * and the container is now unfrozen with its fifo still there; so until the fifo goes or init
   * dies. Otherwise the look returns what is the case.
   */
  lemma LiveLookRefusedIff(startTime: nat, events: seq<Event>)
    requires forall i :: 0 <= i < |events| ==> Harmless(events[i])
    requires Lives(startTime, events).1.alive
    ensures var (m, r) := Lives(startTime, events);
            var seen := GetStatusDone(m, Show(r, startTime), Show(r, startTime)).result;
            && (seen.Failed? <==> EverMet(startTime, events) && !r.frozen && r.fifo)
            && (seen.Ok? ==> seen.value == if r.frozen then Paused else if r.fifo then Created else Running)
  {
    LivesConsistently(startTime, events);
    var (m, r) := Lives(startTime, events);
    StatusIsTruthful(m, Show(r, startTime), Show(r, startTime));
  }
}
