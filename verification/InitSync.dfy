/** The handshake between `runc create` (the parent) and the container's init (the child) over
    the init pipe: bootstrap, pid, config, then procHooks/procResume, procReady/procRun,
    procSeccomp/procSeccompDone and procError.

    Both sides are program counters over two FIFO queues. A JSON decoder that is used for one
    value and dropped may swallow whatever is queued behind that value; the model lets it, and
    counts what is lost. Either side may fail at any statement that can fail in the source; the
    child may also be killed at any time. */
module InitSync {

  /** `newns`: the container has a mount namespace of its own; `seccomp`: a notify fd must be handed
      over; `envParses`: the child's environment variables are well formed. */
  datatype Config = Config(newns: bool, seccomp: bool, envParses: bool)

  datatype Msg =
    | Bootstrap | InitByte | PidJson | ConfigJson
    | ProcHooks | ProcResume | ProcReady | ProcRun | ProcSeccomp | ProcSeccompDone
    | ProcError | ErrorBody

  datatype ParentPc =
    | Boot | AwaitByte | ReadPid | AwaitStage0 | SendConfig
    | Sync
    | HooksCgroup | HooksRun | SendResume
    | ReadyRlimits | ReadyCgroup | ReadyHooks | SaveState | SendRun
    | Agent | SendSeccompDone
    | ReadBody | Verdict | AwaitExit
    | Cleanup | Terminate | Returned(ok: bool) | Panicked

  datatype ChildPc =
    | SendByte | ReadBoot | SendPid | ParseEnv | ReadConfig
    | Prepare | SendHooks | ReadResume
    | Jail | SendReady | ReadRun
    | Label | SendSeccomp | ReadSeccompDone
    | Finalize | Finished
    | SendError | SendBody | Gone

  /** The parent's local variables. */
  datatype Locals = Locals(byteRead: bool, switched: bool, ierr: bool, sentResume: bool, sentRun: bool)

  /** Effects outside the two processes. */
  datatype World = World(cgroupSet: bool, hookRuns: nat, rlimitsSet: bool, stateSaved: bool)

  datatype State = State(
    parent: ParentPc, child: ChildPc, killed: bool,
    up: seq<Msg>, down: seq<Msg>, writable: bool,     // `writable`: the parent's write side is open
    p: Locals, w: World, lost: nat)

  function Init(): State {
    State(Boot, SendByte, false, [], [], true,
          Locals(false, false, false, false, false), World(false, 0, false, false), 0)
  }

  /** The child still holds its end of the pipe. */
  predicate ChildOpen(s: State) {
    !s.killed && !s.child.Finished? && !s.child.Gone?
  }

  // ------------------------------------------------------------------------- child

  /** The child's error path: `procError`, then the message. */
  function Fail(s: State): State {
    s.(child := SendError)
  }

  function ChildSend(s: State, msg: Msg, next: ChildPc, otherwise: ChildPc): State {
    if Listening(s) then s.(up := s.up + [msg], child := next) else s.(child := otherwise)
  }

  /** The parent has not closed the pipe yet. */
  predicate Listening(s: State) {
    !s.parent.Returned? && !s.parent.Panicked?
  }

  /** Decode one value with a decoder that is then dropped: `extra` queued messages go with it. */
  predicate ChildDecodes(s: State, t: State, expected: Msg, next: ChildPc) {
    if s.down != [] then
      var extra := t.lost - s.lost;
      && 0 <= extra < |s.down|
      && t == s.(down := s.down[1 + extra..], lost := s.lost + extra,
                 child := if s.down[0] == expected then next else SendError)
    else !s.writable && t == Fail(s)
  }

  predicate ChildStep(c: Config, s: State, t: State) {
    !s.killed
    && match s.child
       case SendByte => t == ChildSend(s, InitByte, ReadBoot, Gone)
       case ReadBoot =>
         if s.down != [] then t == s.(down := s.down[1..], child := if s.down[0].Bootstrap? then SendPid else Gone)
         else !s.writable && t == s.(child := Gone)
       case SendPid => t == ChildSend(s, PidJson, ParseEnv, Gone)
       case ParseEnv => t == if c.envParses then s.(child := ReadConfig) else Fail(s)
       case ReadConfig => ChildDecodes(s, t, ConfigJson, Prepare)
       case Prepare => t == s.(child := SendHooks)
       case SendHooks => t == ChildSend(s, ProcHooks, ReadResume, SendError)
       case ReadResume => ChildDecodes(s, t, ProcResume, Jail)
       case Jail => t == s.(child := SendReady)
       case SendReady => t == ChildSend(s, ProcReady, ReadRun, SendError)
       case ReadRun => ChildDecodes(s, t, ProcRun, Label)
       case Label => t == s.(child := if c.seccomp then SendSeccomp else Finalize)
       case SendSeccomp => t == ChildSend(s, ProcSeccomp, ReadSeccompDone, SendError)
       case ReadSeccompDone => ChildDecodes(s, t, ProcSeccompDone, Finalize)
       case Finalize => t == s.(child := Finished)
       case SendError => t == ChildSend(s, ProcError, SendBody, Gone)
       case SendBody => t == ChildSend(s, ErrorBody, Gone, Gone)
       case Finished => false
       case Gone => false
  }

  /** Work between two messages that can go wrong. */
  predicate ChildFails(s: State, t: State) {
    !s.killed && (s.child.Prepare? || s.child.Jail? || s.child.Label? || s.child.Finalize?) && t == Fail(s)
  }

  predicate ChildKilled(s: State, t: State) {
    ChildOpen(s) && t == s.(killed := true)
  }

  // ------------------------------------------------------------------------ parent

  function GiveUp(s: State): State {
    s.(parent := Cleanup)
  }

  /** A callback of `parseSync` returned an error. */
  function Abort(s: State): State {
    s.(parent := Verdict, p := s.p.(ierr := true))
  }

  function ParentSend(s: State, msg: Msg, t: State): State {
    if ChildOpen(s) then t.(down := s.down + [msg]) else Abort(s)
  }

  /** What `parseSync` does with the next value. */
  function Dispatch(s: State): ParentPc
    requires s.up != []
  {
    match s.up[0]
    case ProcHooks => HooksCgroup
    case ProcReady => ReadyRlimits
    case ProcSeccomp => Agent
    case ProcError => ReadBody
    case _ => Verdict
  }

  predicate ParentStep(c: Config, s: State, t: State) {
    match s.parent
    case Boot => t == s.(down := s.down + [Bootstrap], parent := AwaitByte)
    case AwaitByte =>
      if s.up != [] then
        t == if !s.up[0].InitByte? then GiveUp(s)
             else s.(up := s.up[1..], p := s.p.(byteRead := true), parent := ReadPid)
      else !ChildOpen(s) && t == GiveUp(s)
    case ReadPid =>
      if s.up != [] then
        var extra := t.lost - s.lost;
        && 0 <= extra < |s.up|
        && t == s.(up := s.up[1 + extra..], lost := s.lost + extra,
                   parent := if s.up[0].PidJson? then AwaitStage0 else Cleanup)
      else !ChildOpen(s) && t == GiveUp(s)
    case AwaitStage0 => t == s.(parent := SendConfig, p := s.p.(switched := true))
    case SendConfig =>
      t == if ChildOpen(s) then s.(down := s.down + [ConfigJson], parent := Sync) else GiveUp(s)
    case Sync =>
      if s.up != [] then
        t == s.(up := s.up[1..], parent := Dispatch(s),
                p := if Dispatch(s).Verdict? then s.p.(ierr := true) else s.p)
      else !ChildOpen(s) && t == s.(parent := Verdict)
    case HooksCgroup => t == s.(parent := HooksRun, w := s.w.(cgroupSet := true))
    case HooksRun => t == s.(parent := SendResume, w := s.w.(hookRuns := s.w.hookRuns + 1))
    case SendResume => t == ParentSend(s, ProcResume, s.(parent := Sync, p := s.p.(sentResume := true)))
    case ReadyRlimits => t == s.(parent := if c.newns then SaveState else ReadyCgroup, w := s.w.(rlimitsSet := true))
    case ReadyCgroup => t == s.(parent := ReadyHooks, w := s.w.(cgroupSet := true))
    case ReadyHooks => t == s.(parent := SaveState, w := s.w.(hookRuns := s.w.hookRuns + 1))
    case SaveState => t == s.(parent := SendRun, w := s.w.(stateSaved := true))
    case SendRun => t == ParentSend(s, ProcRun, s.(parent := Sync, p := s.p.(sentRun := true)))
    case Agent => t == s.(parent := SendSeccompDone)
    case SendSeccompDone => t == ParentSend(s, ProcSeccompDone, s.(parent := Sync))
    case ReadBody =>
      if s.up != [] then t == s.(up := s.up[1..], parent := Verdict, p := s.p.(ierr := true))
      else !ChildOpen(s) && t == s.(parent := Panicked, writable := false)
    case Verdict =>
      t == if !s.p.sentRun || (c.newns && !s.p.sentResume) then GiveUp(s)
           else s.(writable := false, parent := if s.p.ierr then AwaitExit else Returned(true))
    case AwaitExit => (s.killed || s.child.Gone?) && t == GiveUp(s)
    case Cleanup =>
      // the deferred wait for the init byte, unless it was already consumed
      if s.p.byteRead then t == s.(parent := Terminate)
      else if s.up != [] then t == s.(up := s.up[1..], p := s.p.(byteRead := true), parent := Terminate)
      else !ChildOpen(s) && t == s.(parent := Terminate)
    case Terminate =>
      // before the switch to the final pid only the first process is killed
      || t == s.(parent := Returned(false), writable := false, killed := true)
      || (!s.p.switched && t == s.(parent := Returned(false), writable := false))
    case Returned(_) => false
    case Panicked => false
  }

  /** A system call or a hook fails in the parent. */
  predicate ParentFails(s: State, t: State) {
    match s.parent
    case Boot => t == GiveUp(s)
    case ReadPid => s.up != [] && t == GiveUp(s)
    case AwaitStage0 => t == GiveUp(s)
    case SendConfig => t == GiveUp(s)
    case HooksCgroup => t == Abort(s)
    case HooksRun => t == Abort(s)
    case ReadyRlimits => t == Abort(s)
    case ReadyCgroup => t == Abort(s)
    case ReadyHooks => t == Abort(s)
    case SaveState => t == Abort(s)
    case Agent => t == Abort(s)
    case Verdict => t == GiveUp(s)
    // a killed child may leave unread data behind, which resets the connection
    case Sync => s.killed && t == Abort(s)
    case ReadBody => s.killed && t == Abort(s)
    case _ => false
  }

  /** A statement of one side, without any failure. */
  predicate Runs(c: Config, s: State, t: State) {
    ChildStep(c, s, t) || ParentStep(c, s, t)
  }

  predicate Step(c: Config, s: State, t: State) {
    Runs(c, s, t) || ChildFails(s, t) || ChildKilled(s, t) || ParentFails(s, t)
  }
}
