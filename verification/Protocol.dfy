/**
 The lifecycle protocol as a state machine: any number of command processes, each
 a small program with a program counter, and the re-executed child, stepping one
 system call at a time over the shared files, sockets and lock.

 One incarnation of one container ID is modelled, from the exclusive Mkdir to the
 removal of the directory; its bundle, and so its socket path, is used by no other
 container.
 */
module Protocol {
  import opened Wrappers
  import opened Lifecycle

  type ProcId = nat

  datatype PC =
    // create
    | AtMkdir | AtSaveCreating | AtFork | AtRecvPrePivot | AtCreateRuntime | AtRecvReady | AtSaveCreated
    // every operation
    | AtLoad | AtOpenLock | AtFlock | AtReload | AtCheck
    // start
    | AtPrestart | AtDial | AtSendStart | AtSaveStopped | AtRecvExecReady | AtSaveRunning | AtPoststart
    // kill, pause, resume
    | AtSignal | AtCgroup | AtSaveToggled
    // state, delete
    | AtProbe | AtSaveDead | AtGuard | AtRemove | AtPoststop
    | Ended

  datatype Outcome =
    Pending | Succeeded | Failed | Refused | OperationInProgress | AlreadyExists | NoSuchContainer
    | InvalidExecutable | UnexpectedMessage

  /** One command process; mem is its c.State, section its place in the lock order. */
  datatype Process = Process(
    kind: Kind, pc: PC, inode: nat, mem: ContainerState, section: nat, conn: Option<nat>, outcome: Outcome)

  datatype Phase =
    | Unborn | Forked | Loaded | PrePivotSent | Rooted | CreateContainerRun | ReadySent
    | Accepted | StartTaken | Secured | StartContainerRun | ExecReadySent | UserProcess
    | InvalidSent

  function Rank(p: Phase): nat {
    match p
    case Unborn => 0 case Forked => 1 case Loaded => 2
    case PrePivotSent => 3 case InvalidSent => 3
    case Rooted => 4 case CreateContainerRun => 5 case ReadySent => 6
    case Accepted => 7 case StartTaken => 8 case Secured => 9
    case StartContainerRun => 10 case ExecReadySent => 11 case UserProcess => 12
  }

  /** The re-executed process. confused: it read something other than MsgStart. */
  datatype Child = Child(phase: Phase, alive: bool, pid: nat, confused: bool)

  /** One connection to the container socket: what each side has written to it, and
      whether the command still has its end open. */
  datatype Connection = Connection(owner: ProcId, up: seq<Message>, down: seq<Message>, open: bool)

  datatype HookPhase = CreateRuntime | Prestart | Poststart | Poststop

  datatype Event =
    | Saved(p: ProcId, status: Status)
    | Hooks(p: ProcId, phase: HookPhase, ok: bool)
    | CreateContainerHooks(ok: bool)
    | StartContainerHooks(ok: bool)
    | StartSent(p: ProcId)
    | StartReceived
    | ExecReady
    | UserExec
    | DirRemoved(p: ProcId)

  datatype Directory = Absent | Present | Removed

  datatype State = State(
    dir: Directory,
    disk: Option<ContainerState>,       // state.json
    lockPath: Option<nat>,              // the inode that the name c.lock leads to
    nextInode: nat,
    holder: map<nat, ProcId>,           // inode to the process that holds its flock
    procs: map<ProcId, Process>,
    creator: Option<ProcId>,            // the process whose Mkdir made the directory
    child: Child,
    initChan: seq<Message>, initRead: nat,
    conns: seq<Connection>,
    saves: seq<ContainerState>,         // every content state.json ever had
    sections: seq<Section>,             // lock winners in lock order
    trace: seq<Event>)

  function InitialState(cfg: Config): State {
    State(Absent, None, None, 0, map[], map[], None, Child(Unborn, false, 0, false), [], 0, [], [], [], [])
  }

  /** state.json existed and is gone. */
  predicate Gone(s: State) { s.saves != [] && s.disk.None? }

  predicate HoldsLock(pc: PC) {
    !(pc.AtMkdir? || pc.AtLoad? || pc.AtOpenLock? || pc.AtFlock? || pc.Ended?)
  }

  /** Past the reload, or a create past its flock: the part that may write. */
  predicate Critical(pc: PC) { HoldsLock(pc) && !pc.AtReload? }

  // ---- steps --------------------------------------------------------------

  datatype Step =
    | Spawn(p: ProcId, kind: Kind)
    | Mkdir(p: ProcId)
    | Load(p: ProcId)
    | OpenLock(p: ProcId)
    | Flock(p: ProcId)
    | Reload(p: ProcId)
    | Check(p: ProcId)
    | Save(p: ProcId, result: SaveResult)
    | Fork(p: ProcId, pid: nat)
    | Receive(p: ProcId)
    | RunHooks(p: ProcId, ok: bool)
    | Dial(p: ProcId)
    | SendStart(p: ProcId)
    | Cgroup(p: ProcId)
    | Signal(p: ProcId)
    | Probe(p: ProcId, dead: bool)
    | UnlinkState(p: ProcId)
    | UnlinkLock(p: ProcId)
    | Rmdir(p: ProcId)
    | Quit(p: ProcId)           // any error return or crash
    | ChildLoad
    | ChildPrePivot
    | ChildRoot(found: bool)
    | ChildCreateHooks(ok: bool)
    | ChildReady
    | ChildAccept
    | ChildReceive
    | ChildSecure
    | ChildStartHooks(ok: bool)
    | ChildExecReady
    | ChildExec
    | ChildDie

  predicate At(s: State, p: ProcId, pc: PC) { p in s.procs && s.procs[p].pc == pc }

  function Put(s: State, p: ProcId, x: Process): State { s.(procs := s.procs[p := x]) }

  function CloseConnection(conns: seq<Connection>, c: Option<nat>): (r: seq<Connection>)
    ensures |r| == |conns|
    ensures forall i :: 0 <= i < |r| ==> r[i] == conns[i].(open := conns[i].open && c != Some(i))
  {
    if c.Some? && c.value < |conns| then conns[c.value := conns[c.value].(open := false)] else conns
  }

  /** The process returns or dies: its connection closes and its lock is released. */
  function Finish(s: State, p: ProcId, outcome: Outcome): State
    requires p in s.procs
  {
    var x := s.procs[p];
    s.(procs := s.procs[p := x.(pc := Ended, outcome := outcome)],
       holder := if HoldsLock(x.pc) then s.holder - {x.inode} else s.holder,
       conns := CloseConnection(s.conns, x.conn))
  }

  function Emit(s: State, e: Event): State { s.(trace := s.trace + [e]) }

  function AnswersOf(s: State, p: ProcId): Answers
    requires p in s.procs
  {
    if s.procs[p].section < |s.sections| then s.sections[s.procs[p].section].answers else NoAnswers
  }

  /** Notes what the process has just learnt, in its section. */
  function Learn(s: State, p: ProcId, a: Answers): State
    requires p in s.procs
  {
    var k := s.procs[p].section;
    if k < |s.sections| then s.(sections := s.sections[k := s.sections[k].(answers := a)]) else s
  }

  function DoSpawn(cfg: Config, s: State, p: ProcId, k: Kind): State {
    Put(s, p, Process(k, if k.Create? then AtMkdir else AtLoad, 0, NewState(cfg), 0, None, Pending))
  }

  // Mkdir is exclusive. After the removal a create would begin another
  // incarnation, which this model leaves out.
  predicate CanMkdir(s: State, p: ProcId) { At(s, p, AtMkdir) && !s.dir.Removed? }

  function DoMkdir(s: State, p: ProcId): State
    requires CanMkdir(s, p)
  {
    if s.dir.Present? then Finish(s, p, AlreadyExists)
    else Put(s, p, s.procs[p].(pc := AtOpenLock)).(dir := Present, creator := Some(p))
  }

  predicate CanLoad(s: State, p: ProcId) { At(s, p, AtLoad) }

  function DoLoad(s: State, p: ProcId): State
    requires CanLoad(s, p)
  {
    if s.disk.None? then Finish(s, p, NoSuchContainer)
    else Put(s, p, s.procs[p].(pc := AtOpenLock, mem := s.disk.value))
  }

  predicate CanOpenLock(s: State, p: ProcId) { At(s, p, AtOpenLock) }

  // O_CREATE: the name is made anew when it is missing but the directory is there.
  function DoOpenLock(s: State, p: ProcId): State
    requires CanOpenLock(s, p)
  {
    if !s.dir.Present? then Finish(s, p, Failed)
    else if s.lockPath.Some? then Put(s, p, s.procs[p].(pc := AtFlock, inode := s.lockPath.value))
    else
      Put(s, p, s.procs[p].(pc := AtFlock, inode := s.nextInode))
        .(lockPath := Some(s.nextInode), nextInode := s.nextInode + 1)
  }

  predicate CanFlock(s: State, p: ProcId) { At(s, p, AtFlock) }

  function DoFlock(s: State, p: ProcId): State
    requires CanFlock(s, p)
  {
    var x := s.procs[p];
    if x.inode in s.holder then Finish(s, p, OperationInProgress)
    else
      Put(s, p, x.(pc := if x.kind.Create? then AtSaveCreating else AtReload, section := |s.sections|))
        .(holder := s.holder[x.inode := p], sections := s.sections + [Section(p, x.kind, NoAnswers)])
  }

  predicate CanReload(s: State, p: ProcId) { At(s, p, AtReload) }

  function AfterReload(kind: Kind): PC {
    match kind
    case GetState => AtProbe
    case Delete(_) => AtProbe
    case _ => AtCheck
  }

  function DoReload(s: State, p: ProcId): State
    requires CanReload(s, p)
  {
    var x := s.procs[p];
    if s.disk.None? then Finish(s, p, Failed)
    else Put(s, p, x.(pc := AfterReload(x.kind), mem := Unmarshal(Marshal(s.disk.value), x.mem)))
  }

  predicate CanCheck(s: State, p: ProcId) { At(s, p, AtCheck) || At(s, p, AtGuard) }

  function AfterCheck(kind: Kind): PC {
    match kind
    case Start => AtPrestart
    case Kill(_) => AtSignal
    case Delete(_) => AtRemove
    case _ => AtCgroup
  }

  function DoCheck(s: State, p: ProcId): State
    requires CanCheck(s, p)
  {
    var x := s.procs[p];
    if Guard(x.kind, x.mem) then Put(s, p, x.(pc := AfterCheck(x.kind))) else Finish(s, p, Refused)
  }

  predicate AtSave(pc: PC) {
    || pc.AtSaveCreating? || pc.AtSaveCreated? || pc.AtSaveStopped? || pc.AtSaveRunning? || pc.AtSaveToggled?
    || pc.AtSaveDead?
  }

  predicate CanSave(s: State, p: ProcId, r: SaveResult) {
    && p in s.procs && AtSave(s.procs[p].pc) && !r.NotReached?
    && (r.PidFileLost? ==> s.procs[p].pc.AtSaveCreated?)
    && (r.Lost? || s.dir.Present?)
  }

  /** What the save writes: the state in memory with the status just assigned. */
  function ToSave(x: Process): ContainerState {
    match x.pc
    case AtSaveCreated => x.mem.(status := Created)
    case AtSaveStopped => x.mem.(status := Stopped)
    case AtSaveRunning => x.mem.(status := Running)
    case AtSaveToggled => x.mem.(status := if x.kind.Pause? then Paused else Running)
    case _ => x.mem
  }

  function SaveAnswers(x: Process, a: Answers, r: SaveResult): Answers {
    if x.pc.AtSaveCreated? then a.(save2 := r) else a.(save1 := r)
  }

  /** Where a save leads. Delete goes on whatever the save did; every other
      operation returns when it failed. */
  function NextAfterSave(x: Process, r: SaveResult): PC {
    if x.pc.AtSaveDead? && x.kind.Delete? then AtGuard
    else if x.pc.AtSaveCreating? && r.Done? then AtFork
    else if x.pc.AtSaveRunning? && r.Done? then AtPoststart
    else Ended
  }

  function AfterSave(s: State, p: ProcId, r: SaveResult): State
    requires p in s.procs
  {
    var pc := NextAfterSave(s.procs[p], r);
    if pc.Ended? then Finish(s, p, if r.Done? then Succeeded else Failed)
    else Put(s, p, s.procs[p].(pc := pc))
  }

  function DoSave(s: State, p: ProcId, r: SaveResult): State
    requires CanSave(s, p, r)
  {
    var x := s.procs[p];
    var st := ToSave(x);
    var learnt := Learn(s, p, SaveAnswers(x, AnswersOf(s, p), r));
    var written := if r.Lost? then learnt
                   else learnt.(disk := Some(st), saves := s.saves + [st], trace := s.trace + [Saved(p, st.status)]);
    AfterSave(written, p, r)
  }

  // Everything between the first save and the fork either happens or is a Quit.
  predicate CanFork(s: State, p: ProcId, pid: nat) { At(s, p, AtFork) && pid != 0 }

  function DoFork(s: State, p: ProcId, pid: nat): State
    requires CanFork(s, p, pid)
  {
    var x := s.procs[p];
    Put(Learn(s, p, AnswersOf(s, p).(pid := pid)), p, x.(pc := AtRecvPrePivot, mem := x.mem.(pid := pid)))
      .(child := Child(Forked, true, pid, false))
  }

  /** A receive blocks until a message is there; end of file is a Quit. */
  predicate CanReceiveInit(s: State, p: ProcId) {
    (At(s, p, AtRecvPrePivot) || At(s, p, AtRecvReady)) && s.initRead < |s.initChan|
  }

  function DoReceiveInit(s: State, p: ProcId): State
    requires CanReceiveInit(s, p)
  {
    var x := s.procs[p];
    var m := s.initChan[s.initRead];
    var s1 := Learn(s, p, AnswersOf(s, p).(got := AnswersOf(s, p).got + [m])).(initRead := s.initRead + 1);
    if x.pc.AtRecvPrePivot? then
      if m == MsgPrePivot then Put(s1, p, x.(pc := AtCreateRuntime)) else Finish(s1, p, UnexpectedMessage)
    else if m == MsgReady then Put(s1, p, x.(pc := AtSaveCreated))
    else Finish(s1, p, if m == MsgInvalidExecutable then InvalidExecutable else UnexpectedMessage)
  }

  predicate CanReceiveExecReady(s: State, p: ProcId) {
    && At(s, p, AtRecvExecReady)
    && s.procs[p].conn.Some? && s.procs[p].conn.value < |s.conns|
    && s.conns[s.procs[p].conn.value].down != []
  }

  function DoReceiveExecReady(s: State, p: ProcId): State
    requires CanReceiveExecReady(s, p)
  {
    var x := s.procs[p];
    var m := s.conns[x.conn.value].down[0];
    var s1 := Learn(s, p, AnswersOf(s, p).(got := AnswersOf(s, p).got + [m]));
    if m == MsgExecReady then Put(s1, p, x.(pc := AtSaveRunning)) else Finish(s1, p, UnexpectedMessage)
  }

  predicate CanRunHooks(s: State, p: ProcId) {
    && p in s.procs
    && (s.procs[p].pc.AtCreateRuntime? || s.procs[p].pc.AtPrestart? || s.procs[p].pc.AtPoststart?
        || s.procs[p].pc.AtPoststop?)
  }

  function HookPhaseAt(pc: PC): HookPhase {
    match pc
    case AtCreateRuntime => CreateRuntime
    case AtPrestart => Prestart
    case AtPoststart => Poststart
    case _ => Poststop
  }

  // A failing hook ends the operation, except that a poststop failure is only a warning.
  function DoRunHooks(s: State, p: ProcId, ok: bool): State
    requires CanRunHooks(s, p)
  {
    var x := s.procs[p];
    var s1 := Emit(s, Hooks(p, HookPhaseAt(x.pc), ok));
    match x.pc
    case AtPoststop => Finish(s1, p, Succeeded)
    case AtPoststart => Finish(s1, p, if ok then Succeeded else Failed)
    case _ =>
      if !ok then Finish(s1, p, Failed)
      else
        Put(Learn(s1, p, AnswersOf(s, p).(hooks := true)), p,
            x.(pc := if x.pc.AtCreateRuntime? then AtRecvReady else AtDial))
  }

  // The listener accepts any number of connections into its backlog; a dial that
  // finds no listener is a Quit.
  predicate CanDial(s: State, p: ProcId) { At(s, p, AtDial) }

  function DoDial(s: State, p: ProcId): State
    requires CanDial(s, p)
  {
    Put(Learn(s, p, AnswersOf(s, p).(dialled := true)), p,
        s.procs[p].(pc := AtSendStart, conn := Some(|s.conns|)))
      .(conns := s.conns + [Connection(p, [], [], true)])
  }

  predicate CanSendStart(s: State, p: ProcId) {
    At(s, p, AtSendStart) && s.procs[p].conn.Some? && s.procs[p].conn.value < |s.conns|
  }

  function DoSendStart(cfg: Config, s: State, p: ProcId): State
    requires CanSendStart(s, p)
  {
    var x := s.procs[p];
    var c := s.conns[x.conn.value];
    Put(Learn(Emit(s, StartSent(p)), p, AnswersOf(s, p).(sent := true)), p,
        x.(pc := if cfg.processNil then AtSaveStopped else AtRecvExecReady))
      .(conns := s.conns[x.conn.value := c.(up := c.up + [MsgStart])])
  }

  predicate CanCgroup(s: State, p: ProcId) { At(s, p, AtCgroup) }

  function DoCgroup(s: State, p: ProcId): State
    requires CanCgroup(s, p)
  {
    Put(Learn(s, p, AnswersOf(s, p).(acted := true)), p, s.procs[p].(pc := AtSaveToggled))
  }

  // kill(pid, 0) answers ESRCH only for a process that is gone; for pid 0 the
  // probe is not made.
  predicate CanProbe(s: State, p: ProcId, dead: bool) {
    At(s, p, AtProbe) && (dead ==> !s.child.alive && s.procs[p].mem.pid != 0)
  }

  function DoProbe(s: State, p: ProcId, dead: bool): State
    requires CanProbe(s, p, dead)
  {
    var x := s.procs[p];
    if dead then
      Put(Learn(s, p, AnswersOf(s, p).(dead := true)), p, x.(pc := AtSaveDead, mem := x.mem.(status := Stopped)))
    else if x.kind.Delete? then Put(s, p, x.(pc := AtGuard))
    else Finish(s, p, Succeeded)
  }

  // os.RemoveAll unlinks the entries one by one, in an order and with failures of
  // the environment's choosing, then removes the empty directory; it also succeeds
  // when somebody else has removed it.
  predicate CanUnlinkState(s: State, p: ProcId) { At(s, p, AtRemove) && s.disk.Some? }

  function DoUnlinkState(s: State, p: ProcId): State
    requires CanUnlinkState(s, p)
  {
    Learn(s, p, AnswersOf(s, p).(unlinked := true)).(disk := None)
  }

  predicate CanUnlinkLock(cfg: Config, s: State, p: ProcId) {
    At(s, p, AtRemove) && s.lockPath.Some? && (s.disk.Some? ==> cfg.lockFirst)
  }

  predicate CanRmdir(s: State, p: ProcId) {
    At(s, p, AtRemove) && s.disk.None? && s.lockPath.None?
  }

  function DoRmdir(s: State, p: ProcId): State
    requires CanRmdir(s, p)
  {
    Emit(Put(s, p, s.procs[p].(pc := AtPoststop)), DirRemoved(p)).(dir := Removed)
  }

  predicate ChildAt(s: State, ph: Phase) { s.child.alive && s.child.phase == ph }

  /** One move of the child: the phase it reaches, whether it lives on, what it
      writes to the init socketpair and what the trace records. */
  datatype ChildMove = ChildMove(phase: Phase, alive: bool, tell: seq<Message>, events: seq<Event>)

  predicate ChildStep(step: Step) {
    || step.ChildLoad? || step.ChildPrePivot? || step.ChildRoot? || step.ChildCreateHooks? || step.ChildReady?
    || step.ChildAccept? || step.ChildReceive? || step.ChildSecure? || step.ChildStartHooks?
    || step.ChildExecReady? || step.ChildExec? || step.ChildDie?
  }

  predicate ChildEnabled(cfg: Config, s: State, step: Step) {
    match step
    case ChildLoad => ChildAt(s, Forked) && s.disk.Some?
    case ChildPrePivot => ChildAt(s, Loaded)
    case ChildRoot(found) => ChildAt(s, PrePivotSent)
    case ChildCreateHooks(ok) => ChildAt(s, Rooted)
    case ChildReady => ChildAt(s, CreateContainerRun)
    case ChildAccept => ChildAt(s, ReadySent) && |s.conns| > 0
    case ChildReceive => ChildAt(s, Accepted) && |s.conns| > 0 && s.conns[0].up != []
    case ChildSecure => ChildAt(s, StartTaken)
    case ChildStartHooks(ok) => ChildAt(s, Secured)
    case ChildExecReady =>
      ChildAt(s, StartContainerRun) && !cfg.processNil && |s.conns| > 0 && s.conns[0].open
    case ChildExec => ChildAt(s, ExecReadySent)
    case ChildDie => s.child.alive
    case _ => false
  }

  // ChildRoot is the set-up, pivot_root and the executable lookup. Every failure
  // that has no message of its own is a ChildDie.
  function MoveOf(cfg: Config, s: State, step: Step): ChildMove
    requires ChildEnabled(cfg, s, step)
  {
    match step
    case ChildLoad => ChildMove(Loaded, true, [], [])
    case ChildPrePivot => ChildMove(PrePivotSent, true, [MsgPrePivot], [])
    case ChildRoot(found) =>
      if cfg.mountNamespace && !cfg.processNil && !found
      then ChildMove(InvalidSent, true, [MsgInvalidExecutable], [])
      else ChildMove(Rooted, true, [], [])
    case ChildCreateHooks(ok) =>
      ChildMove(if ok then CreateContainerRun else Rooted, ok, [], [CreateContainerHooks(ok)])
    case ChildReady => ChildMove(ReadySent, true, [MsgReady], [])
    case ChildAccept => ChildMove(Accepted, true, [], [])
    case ChildReceive =>
      if s.conns[0].up[0] == MsgStart then ChildMove(StartTaken, true, [], [StartReceived])
      else ChildMove(Accepted, false, [], [])
    case ChildSecure => ChildMove(Secured, true, [], [])
    case ChildStartHooks(ok) =>
      ChildMove(if ok then StartContainerRun else Secured, ok, [], [StartContainerHooks(ok)])
    case ChildExecReady => ChildMove(ExecReadySent, true, [], [ExecReady])
    case ChildExec => ChildMove(UserProcess, true, [], [UserExec])
    case ChildDie => ChildMove(s.child.phase, false, [], [])
  }

  /** MsgExecReady goes back on the accepted connection, which is the first one. */
  function Answered(s: State, step: Step): seq<Connection> {
    if step.ChildExecReady? && |s.conns| > 0
    then s.conns[0 := s.conns[0].(down := s.conns[0].down + [MsgExecReady])]
    else s.conns
  }

  function DoChild(cfg: Config, s: State, step: Step): State
    requires ChildEnabled(cfg, s, step)
  {
    var m := MoveOf(cfg, s, step);
    s.(child := s.child.(phase := m.phase, alive := m.alive,
                         confused := s.child.confused || (step.ChildReceive? && !m.alive)),
       initChan := s.initChan + m.tell,
       trace := s.trace + m.events,
       conns := Answered(s, step))
  }

  predicate Enabled(cfg: Config, s: State, step: Step) {
    match step
    case Spawn(p, k) => p !in s.procs
    case Mkdir(p) => CanMkdir(s, p)
    case Load(p) => CanLoad(s, p)
    case OpenLock(p) => CanOpenLock(s, p)
    case Flock(p) => CanFlock(s, p)
    case Reload(p) => CanReload(s, p)
    case Check(p) => CanCheck(s, p)
    case Save(p, r) => CanSave(s, p, r)
    case Fork(p, pid) => CanFork(s, p, pid)
    case Receive(p) => CanReceiveInit(s, p) || CanReceiveExecReady(s, p)
    case RunHooks(p, ok) => CanRunHooks(s, p)
    case Dial(p) => CanDial(s, p)
    case SendStart(p) => CanSendStart(s, p)
    case Cgroup(p) => CanCgroup(s, p)
    case Signal(p) => At(s, p, AtSignal)
    case Probe(p, dead) => CanProbe(s, p, dead)
    case UnlinkState(p) => CanUnlinkState(s, p)
    case UnlinkLock(p) => CanUnlinkLock(cfg, s, p)
    case Rmdir(p) => CanRmdir(s, p)
    case Quit(p) => p in s.procs && !s.procs[p].pc.Ended?
    case _ => ChildEnabled(cfg, s, step)
  }

  function Do(cfg: Config, s: State, step: Step): State
    requires Enabled(cfg, s, step)
  {
    match step
    case Spawn(p, k) => DoSpawn(cfg, s, p, k)
    case Mkdir(p) => DoMkdir(s, p)
    case Load(p) => DoLoad(s, p)
    case OpenLock(p) => DoOpenLock(s, p)
    case Flock(p) => DoFlock(s, p)
    case Reload(p) => DoReload(s, p)
    case Check(p) => DoCheck(s, p)
    case Save(p, r) => DoSave(s, p, r)
    case Fork(p, pid) => DoFork(s, p, pid)
    case Receive(p) => if CanReceiveInit(s, p) then DoReceiveInit(s, p) else DoReceiveExecReady(s, p)
    case RunHooks(p, ok) => DoRunHooks(s, p, ok)
    case Dial(p) => DoDial(s, p)
    case SendStart(p) => DoSendStart(cfg, s, p)
    case Cgroup(p) => DoCgroup(s, p)
    case Signal(p) => Finish(s, p, Succeeded)
    case Probe(p, dead) => DoProbe(s, p, dead)
    case UnlinkState(p) => DoUnlinkState(s, p)
    case UnlinkLock(p) => s.(lockPath := None)
    case Rmdir(p) => DoRmdir(s, p)
    case Quit(p) => Finish(s, p, Failed)
    case _ => DoChild(cfg, s, step)
  }

  // ---- runs ---------------------------------------------------------------

  /** The steps can be taken one after another from s. */
  predicate Runs(cfg: Config, s: State, steps: seq<Step>)
    decreases |steps|
  {
    steps == [] || (Enabled(cfg, s, steps[0]) && Runs(cfg, Do(cfg, s, steps[0]), steps[1..]))
  }

  function Run(cfg: Config, s: State, steps: seq<Step>): State
    requires Runs(cfg, s, steps)
    decreases |steps|
  {
    if steps == [] then s else Run(cfg, Do(cfg, s, steps[0]), steps[1..])
  }
}
