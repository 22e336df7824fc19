/** The three-process handshake of nsexec: stage 0 (parent), stage 1 (child), stage 2 (grandchild).

    Each process is a program counter that runs the source's statements in order. The two
    socketpairs are four FIFO queues. Any process may die between any two statements; what a
    reader then sees (data, wait, end of file) follows from which live process still holds the
    other end. A process that dies keeps its program counter, so invariants speak of how far
    each process got, dead or alive. */
module NsExec {
  import opened Wrappers

  datatype Flag = User | Mount | PidNs | Net | Ipc | Uts | Cgroup

  /** `sources`: fds stage 0 will send; `slots`: fds stage 1 waits for. */
  datatype Config = Config(flags: set<Flag>, mountSources: bool, sources: nat, slots: nat, stage2Pid: nat)

  datatype Msg =
    | UserMapPls | UserMapAck
    | RecvPidPls | RecvPidAck | Pid(pid: nat)
    | MountSourcesPls | MountSourcesAck | Fd(index: nat)
    | Grandchild | ChildFinish

  datatype Pc0 =
    | Spawn1 | CloseC0 | Loop
    | WriteMaps | SendMapAck
    | ReadPid | SendPidAck | ForwardPid
    | SendFds(sent: nat) | SendMountAck
    | CloseG0 | SendGo | ReadFinish | Exit0

  datatype Pc1 =
    | Unborn1 | CloseC1 | Join | UnshareUser | SendMapPls | ReadMapAck | UnshareRest
    | SendMountPls | RecvFds(received: nat) | ReadMountAck
    | Spawn2 | SendPidPls | SendPid | ReadPidAck | SendFinish1 | Leave1 | Exit1

  datatype Pc2 =
    | Unborn2 | CloseG1 | CloseC0In2 | ReadGo | Setup | UnshareCgroup | SendFinish2 | CloseG0In2 | Returned

  /** What has been done to the outside world so far. */
  datatype History = History(mapsWritten: bool, installed: seq<nat>, forwarded: seq<nat>, finishSent: bool,
                             unshares: seq<set<Flag>>)

  /** A socketpair: `up` is read by stage 0, `down` is written by it. */
  datatype Link = Link(up: seq<Msg>, down: seq<Msg>)

  datatype State = State(
    pc0: Pc0, pc1: Pc1, pc2: Pc2,
    live0: bool, live1: bool, live2: bool,
    child: Link, grand: Link,
    gotPid: nat,
    h: History)

  function Init(): State {
    State(Spawn1, Unborn1, Unborn2, true, true, true, Link([], []), Link([], []), 0,
          History(false, [], [], false, []))
  }

  // ------------------------------------------------------------- who holds which end

  predicate Active0(s: State) {
    s.live0 && !s.pc0.Exit0?
  }

  predicate Active1(s: State) {
    s.live1 && !s.pc1.Unborn1? && !s.pc1.Exit1?
  }

  predicate Active2(s: State) {
    s.live2 && !s.pc2.Unborn2? && !s.pc2.Returned?
  }

  predicate HeldC0(s: State) {
    || (Active0(s) && (s.pc0.Spawn1? || s.pc0.CloseC0?))
    || Active1(s)
    || (Active2(s) && (s.pc2.CloseG1? || s.pc2.CloseC0In2?))
  }

  predicate HeldC1(s: State) {
    Active0(s) || (Active1(s) && s.pc1.CloseC1?)
  }

  predicate HeldG0(s: State) {
    (Active0(s) && !s.pc0.SendGo? && !s.pc0.ReadFinish?) || Active1(s) || Active2(s)
  }

  predicate HeldG1(s: State) {
    Active0(s) || Active1(s) || (Active2(s) && s.pc2.CloseG1?)
  }

  datatype Input = Wait | Eof | Got(msg: Msg)

  function Read(queue: seq<Msg>, peerHeld: bool): Input {
    if queue != [] then Got(queue[0]) else if peerHeld then Wait else Eof
  }

  // ------------------------------------------------------------------- the processes

  function Die0(s: State): State { s.(live0 := false) }

  function Die1(s: State): State { s.(live1 := false) }

  function Die2(s: State): State { s.(live2 := false) }

  function Send0(s: State, msg: Msg, next: Pc0): State {
    if HeldC0(s) then s.(child := s.child.(down := s.child.down + [msg]), pc0 := next) else Die0(s)
  }

  /** Stage 0's next statement; `None` when it waits or has no statement left. */
  function Step0(c: Config, s: State): Option<State> {
    if !Active0(s) then None
    else match s.pc0
      case Spawn1 => Some(s.(pc0 := CloseC0, pc1 := CloseC1))
      case CloseC0 => Some(s.(pc0 := Loop))
      case Loop =>
        match Read(s.child.up, HeldC0(s)) {
          case Wait => None
          case Eof => Some(Die0(s))
          case Got(UserMapPls) => Some(s.(child := s.child.(up := s.child.up[1..]), pc0 := WriteMaps))
          case Got(RecvPidPls) => Some(s.(child := s.child.(up := s.child.up[1..]), pc0 := ReadPid))
          case Got(MountSourcesPls) =>
            Some(s.(child := s.child.(up := s.child.up[1..]),
                    pc0 := if c.mountSources then SendFds(0) else SendMountAck))
          case Got(ChildFinish) => Some(s.(child := s.child.(up := s.child.up[1..]), pc0 := CloseG0))
          case Got(_) => Some(Die0(s))
        }
      case WriteMaps => Some(s.(pc0 := SendMapAck, h := s.h.(mapsWritten := true)))
      case SendMapAck => Some(Send0(s, UserMapAck, Loop))
      case ReadPid =>
        match Read(s.child.up, HeldC0(s)) {
          case Wait => None
          case Got(Pid(p)) => Some(s.(child := s.child.(up := s.child.up[1..]), gotPid := p, pc0 := SendPidAck))
          case _ => Some(Die0(s))
        }
      case SendPidAck => Some(Send0(s, RecvPidAck, ForwardPid))
      case ForwardPid => Some(s.(pc0 := Loop, h := s.h.(forwarded := s.h.forwarded + [s.gotPid])))
      case SendFds(j) => Some(if j < c.sources then Send0(s, Fd(j), SendFds(j + 1)) else s.(pc0 := SendMountAck))
      case SendMountAck => Some(Send0(s, MountSourcesAck, Loop))
      case CloseG0 => Some(s.(pc0 := SendGo))
      case SendGo =>
        Some(if HeldG0(s) then s.(grand := s.grand.(down := s.grand.down + [Grandchild]), pc0 := ReadFinish)
             else Die0(s))
      case ReadFinish =>
        match Read(s.grand.up, HeldG0(s)) {
          case Wait => None
          case Got(ChildFinish) => Some(s.(grand := s.grand.(up := s.grand.up[1..]), pc0 := Exit0))
          case _ => Some(Die0(s))
        }
      case Exit0 => None
  }

  function Send1(s: State, msg: Msg, next: Pc1): State {
    if HeldC1(s) then s.(child := s.child.(up := s.child.up + [msg]), pc1 := next) else Die1(s)
  }

  /** Wait for exactly `msg` from stage 0. */
  function Await1(s: State, msg: Msg, next: Pc1): Option<State> {
    match Read(s.child.down, HeldC1(s))
    case Wait => None
    case Eof => Some(Die1(s))
    case Got(m) => Some(if m == msg then s.(child := s.child.(down := s.child.down[1..]), pc1 := next) else Die1(s))
  }

  function Unshare(s: State, flags: set<Flag>): History {
    s.h.(unshares := s.h.unshares + [flags])
  }

  function Step1(c: Config, s: State): Option<State> {
    if !Active1(s) then None
    else match s.pc1
      case CloseC1 => Some(s.(pc1 := Join))
      case Join => Some(s.(pc1 := if User in c.flags then UnshareUser else UnshareRest))
      case UnshareUser => Some(s.(pc1 := SendMapPls, h := Unshare(s, {User})))
      case SendMapPls => Some(Send1(s, UserMapPls, ReadMapAck))
      case ReadMapAck => Await1(s, UserMapAck, UnshareRest)
      case UnshareRest =>
        Some(s.(pc1 := if c.mountSources then SendMountPls else Spawn2, h := Unshare(s, c.flags - {User, Cgroup})))
      case SendMountPls => Some(Send1(s, MountSourcesPls, RecvFds(0)))
      case RecvFds(k) =>
        if k >= c.slots then Some(s.(pc1 := ReadMountAck))
        else (
          match Read(s.child.down, HeldC1(s))
          case Wait => None
          case Got(Fd(i)) =>
            Some(s.(child := s.child.(down := s.child.down[1..]), pc1 := RecvFds(k + 1),
                    h := s.h.(installed := s.h.installed + [i])))
          case _ => Some(Die1(s))
        )
      case ReadMountAck => Await1(s, MountSourcesAck, Spawn2)
      case Spawn2 => Some(s.(pc1 := SendPidPls, pc2 := CloseG1))
      case SendPidPls => Some(Send1(s, RecvPidPls, SendPid))
      case SendPid => Some(Send1(s, Pid(c.stage2Pid), ReadPidAck))
      case ReadPidAck => Await1(s, RecvPidAck, SendFinish1)
      case SendFinish1 =>
        var t := Send1(s, ChildFinish, Leave1);
        Some(if t.live1 then t.(h := t.h.(finishSent := true)) else t)
      case Leave1 => Some(s.(pc1 := Exit1))
      case _ => None
  }

  function Step2(c: Config, s: State): Option<State> {
    if !Active2(s) then None
    else match s.pc2
      case CloseG1 => Some(s.(pc2 := CloseC0In2))
      case CloseC0In2 => Some(s.(pc2 := ReadGo))
      case ReadGo =>
        match Read(s.grand.down, HeldG1(s)) {
          case Wait => None
          case Got(Grandchild) => Some(s.(grand := s.grand.(down := s.grand.down[1..]), pc2 := Setup))
          case _ => Some(Die2(s))
        }
      case Setup => Some(s.(pc2 := if Cgroup in c.flags then UnshareCgroup else SendFinish2))
      case UnshareCgroup => Some(s.(pc2 := SendFinish2, h := Unshare(s, {Cgroup})))
      case SendFinish2 =>
        Some(if HeldG1(s) then s.(grand := s.grand.(up := s.grand.up + [ChildFinish]), pc2 := CloseG0In2) else Die2(s))
      case CloseG0In2 => Some(s.(pc2 := Returned))
      case _ => None
  }

  /** A statement of one of the processes. */
  predicate Runs(c: Config, s: State, t: State) {
    Step0(c, s) == Some(t) || Step1(c, s) == Some(t) || Step2(c, s) == Some(t)
  }

  /** A process dies on its own: a failing system call, or a kill. */
  predicate Crashes(s: State, t: State) {
    || (Active0(s) && t == Die0(s))
    || (Active1(s) && t == Die1(s))
    || (Active2(s) && t == Die2(s))
  }

  predicate Step(c: Config, s: State, t: State) {
    Runs(c, s, t) || Crashes(s, t)
  }
}
