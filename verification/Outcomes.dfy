/**
 Every command as the list of its own steps: one that succeeds has made exactly the
 calls of its operation in order, and every other outcome has its reason in the step
 that brought it about.
 */
module Outcomes {
  import opened Wrappers
  import opened Lifecycle
  import opened Protocol
  import opened Handshake
  import opened Frames
  import opened Guarantees
  import opened Scripts

  // ---- the programs -------------------------------------------------------

  /** A step of this command. */
  predicate Mine(step: Step, p: ProcId) { !ChildStep(step) && step.p == p }

  /** The step without the number that a fork happens to give. */
  function Plain(step: Step): Step { if step.Fork? then step.(pid := 1) else step }

  function Own(steps: seq<Step>, p: ProcId): seq<Step> {
    if steps == [] then []
    else
      var n := |steps| - 1;
      Own(steps[..n], p) + if Mine(steps[n], p) then [Plain(steps[n])] else []
  }

  /** Every operation on a container that is there. */
  function Opening(kind: Kind, p: ProcId): seq<Step> {
    [Spawn(p, kind), Load(p), OpenLock(p), Flock(p), Reload(p)]
  }

  /** The calls of an operation from its beginning to its successful end; of state and
      delete, what they begin with. */
  function Program(kind: Kind, nil: bool, p: ProcId): seq<Step> {
    match kind
    case Create =>
      [Spawn(p, kind), Mkdir(p), OpenLock(p), Flock(p), Save(p, Done), Fork(p, 1), Receive(p), RunHooks(p, true),
       Receive(p), Save(p, Done)]
    case Start =>
      Opening(kind, p) + [Check(p), RunHooks(p, true), Dial(p), SendStart(p)]
      + if nil then [Save(p, Done)] else [Receive(p), Save(p, Done), RunHooks(p, true)]
    case Kill(_) => Opening(kind, p) + [Check(p), Signal(p)]
    case Pause => Opening(kind, p) + [Check(p), Cgroup(p), Save(p, Done)]
    case Resume => Opening(kind, p) + [Check(p), Cgroup(p), Save(p, Done)]
    case _ => Opening(kind, p)
  }

  /** The probe, and the save if it found the process dead. */
  predicate ProbedBy(p: ProcId, probed: seq<Step>) {
    || probed == [Probe(p, false)]
    || (|probed| == 2 && probed[0] == Probe(p, true) && probed[1].Save? && probed[1].p == p)
  }

  predicate Unlinks(p: ProcId, u: seq<Step>) {
    forall i :: 0 <= i < |u| ==> u[i] == UnlinkState(p) || u[i] == UnlinkLock(p)
  }

  /** A delete that is removing the directory. */
  ghost predicate Removing(kind: Kind, p: ProcId, own: seq<Step>) {
    exists probed, u :: ProbedBy(p, probed) && Unlinks(p, u) && own == Opening(kind, p) + probed + [Check(p)] + u
  }

  /** The command has made all of its calls. */
  ghost predicate Finished(kind: Kind, nil: bool, p: ProcId, own: seq<Step>) {
    match kind
    case GetState =>
      own == Opening(kind, p) + [Probe(p, false)] || own == Opening(kind, p) + [Probe(p, true), Save(p, Done)]
    case Delete(_) =>
      exists front, ok :: Removing(kind, p, front) && own == front + [Rmdir(p), RunHooks(p, ok)]
    case _ => own == Program(kind, nil, p)
  }

  // ---- reasons ------------------------------------------------------------

  /** The status is none that the operation may begin from. */
  predicate WrongStatus(kind: Kind, status: Status) {
    match kind
    case Start => status != Created
    case Kill(all) => !all && status != Running && status != Created
    case Pause => status != Running
    case Resume => status != Paused
    case Delete(force) => !force && status != Stopped
    case _ => false
  }

  /** Why a step that does not succeed ends its command with this outcome. */
  predicate Reason(s: State, step: Step, p: ProcId, outcome: Outcome)
    requires p in s.procs
  {
    var x := s.procs[p];
    match outcome
    case Failed =>
      || step.Quit? || (step.Save? && !step.result.Done?)
      || (step.RunHooks? && !step.ok && !x.pc.AtPoststop?)
      || (step.OpenLock? && !s.dir.Present?) || (step.Reload? && s.disk.None?)
    case Refused => step.Check? && WrongStatus(x.kind, x.mem.status)
    case OperationInProgress => step.Flock? && x.inode in s.holder
    case AlreadyExists => step.Mkdir? && s.dir.Present?
    case NoSuchContainer => step.Load? && s.disk.None?
    case InvalidExecutable =>
      step.Receive? && s.initRead < |s.initChan| && s.initChan[s.initRead] == MsgInvalidExecutable
    case _ => false
  }

  // ---- how far ------------------------------------------------------------

  /** How many calls of its program are behind a command at this point. */
  function Count(pc: PC): nat {
    match pc
    case AtMkdir => 1 case AtLoad => 1
    case AtOpenLock => 2
    case AtFlock => 3
    case AtSaveCreating => 4 case AtReload => 4
    case AtFork => 5 case AtCheck => 5 case AtProbe => 5
    case AtRecvPrePivot => 6 case AtPrestart => 6 case AtSignal => 6 case AtCgroup => 6
    case AtCreateRuntime => 7 case AtDial => 7 case AtSaveToggled => 7
    case AtRecvReady => 8 case AtSendStart => 8
    case AtSaveCreated => 9 case AtRecvExecReady => 9 case AtSaveStopped => 9
    case AtSaveRunning => 10
    case AtPoststart => 11
    case _ => 0
  }

  predicate OnProgram(pc: PC) {
    !pc.AtSaveDead? && !pc.AtGuard? && !pc.AtRemove? && !pc.AtPoststop? && !pc.Ended?
  }

  ghost predicate Sofar(kind: Kind, nil: bool, p: ProcId, pc: PC, own: seq<Step>) {
    match pc
    case AtSaveDead => own == Opening(kind, p) + [Probe(p, true)]
    case AtGuard => exists probed :: ProbedBy(p, probed) && own == Opening(kind, p) + probed
    case AtRemove => Removing(kind, p, own)
    case AtPoststop => exists front :: Removing(kind, p, front) && own == front + [Rmdir(p)]
    case Ended => true
    case _ => Count(pc) <= |Program(kind, nil, p)| && own == Program(kind, nil, p)[..Count(pc)]
  }

  /** After a step of p: still on its way, done, or ended for a reason. */
  ghost predicate Accounted(cfg: Config, s: State, s': State, step: Step, p: ProcId, own: seq<Step>)
    requires p in s.procs
  {
    && p in s'.procs && s'.procs[p].kind == s.procs[p].kind
    && var x' := s'.procs[p];
       if !x'.pc.Ended? then Sofar(x'.kind, cfg.processNil, p, x'.pc, own)
       else if x'.outcome.Succeeded? then Finished(x'.kind, cfg.processNil, p, own)
       else Reason(s, step, p, x'.outcome)
  }

  lemma PrefixGrows<T>(program: seq<T>, n: nat)
    requires n < |program|
    ensures program[..n] + [program[n]] == program[..n + 1]
  {}

  /** A point that commands of this kind come to, on the way through their program. */
  predicate Fits(kind: Kind, nil: bool, pc: PC) {
    match pc
    case AtOpenLock => true
    case AtFlock => true
    case AtLoad => !kind.Create?
    case AtReload => !kind.Create?
    case AtCheck => kind.Start? || kind.Kill? || kind.Pause? || kind.Resume?
    case AtSignal => kind.Kill?
    case AtCgroup => kind.Pause? || kind.Resume?
    case AtSaveToggled => kind.Pause? || kind.Resume?
    case AtPrestart => kind.Start?
    case AtDial => kind.Start?
    case AtSendStart => kind.Start?
    case AtSaveStopped => kind.Start? && nil
    case AtRecvExecReady => kind.Start? && !nil
    case AtSaveRunning => kind.Start? && !nil
    case AtPoststart => kind.Start? && !nil
    case _ => kind.Create? && CreatePC(pc) && !pc.Ended?
  }

  /** The call that is due there. */
  function Due(p: ProcId, pc: PC): Step {
    match pc
    case AtMkdir => Mkdir(p)
    case AtLoad => Load(p)
    case AtOpenLock => OpenLock(p)
    case AtFlock => Flock(p)
    case AtReload => Reload(p)
    case AtFork => Fork(p, 1)
    case AtRecvPrePivot => Receive(p)
    case AtRecvReady => Receive(p)
    case AtRecvExecReady => Receive(p)
    case AtCreateRuntime => RunHooks(p, true)
    case AtPrestart => RunHooks(p, true)
    case AtPoststart => RunHooks(p, true)
    case AtDial => Dial(p)
    case AtSendStart => SendStart(p)
    case AtSignal => Signal(p)
    case AtCgroup => Cgroup(p)
    case AtCheck => Check(p)
    case _ => Save(p, Done)
  }

  lemma DueIs(kind: Kind, nil: bool, p: ProcId, pc: PC)
    requires Fits(kind, nil, pc)
    ensures Count(pc) < |Program(kind, nil, p)| && Program(kind, nil, p)[Count(pc)] == Due(p, pc)
  {}

  /** Where the program ends. */
  lemma LastCall(kind: Kind, nil: bool, p: ProcId, pc: PC)
    requires Fits(kind, nil, pc)
    requires pc.AtSaveCreated? || pc.AtSaveStopped? || pc.AtPoststart? || pc.AtSignal? || pc.AtSaveToggled?
    ensures |Program(kind, nil, p)| == Count(pc) + 1
  {}

  lemma FactsFit(cfg: Config, s: State, p: ProcId)
    requires Inv(cfg, s) && p in s.procs && OnProgram(s.procs[p].pc) && !s.procs[p].pc.AtProbe?
    ensures Fits(s.procs[p].kind, cfg.processNil, s.procs[p].pc)
  {
    FactsOf(cfg, s, p);
    hide SharedOk, SavesOk, ProcsOk, ConnOk, Known;
  }

  /** The usual step: the due call, and one further. */
  lemma NextCall(cfg: Config, s: State, s': State, step: Step, p: ProcId, own: seq<Step>)
    requires p in s.procs && p in s'.procs && s'.procs[p].kind == s.procs[p].kind
    requires var x, x' := s.procs[p], s'.procs[p];
             && OnProgram(x.pc) && Fits(x.kind, cfg.processNil, x.pc) && Due(p, x.pc) == Plain(step)
             && Sofar(x.kind, cfg.processNil, p, x.pc, own)
             && OnProgram(x'.pc) && Count(x'.pc) == Count(x.pc) + 1
    ensures Accounted(cfg, s, s', step, p, own + [Plain(step)])
  {
    var x := s.procs[p];
    hide Program, Plain, Reason, Removing, Due;
    DueIs(x.kind, cfg.processNil, p, x.pc);
    PrefixGrows(Program(x.kind, cfg.processNil, p), Count(x.pc));
  }

  /** The last call of the program. */
  lemma FinalCall(cfg: Config, s: State, s': State, step: Step, p: ProcId, own: seq<Step>)
    requires p in s.procs && p in s'.procs && s'.procs[p].kind == s.procs[p].kind
    requires var x, x' := s.procs[p], s'.procs[p];
             && (x.pc.AtSaveCreated? || x.pc.AtSaveStopped? || x.pc.AtPoststart? || x.pc.AtSignal?
                 || x.pc.AtSaveToggled?)
             && Fits(x.kind, cfg.processNil, x.pc) && Due(p, x.pc) == Plain(step)
             && Sofar(x.kind, cfg.processNil, p, x.pc, own)
             && x'.pc.Ended? && x'.outcome.Succeeded?
    ensures Accounted(cfg, s, s', step, p, own + [Plain(step)])
  {
    var x := s.procs[p];
    var program := Program(x.kind, cfg.processNil, p);
    hide Program, Plain, Reason, Removing, Due;
    DueIs(x.kind, cfg.processNil, p, x.pc);
    LastCall(x.kind, cfg.processNil, p, x.pc);
    PrefixGrows(program, Count(x.pc));
    assert program[..|program|] == program;
  }

  lemma EndsFor(cfg: Config, s: State, s': State, step: Step, p: ProcId, own: seq<Step>)
    requires p in s.procs && p in s'.procs && s'.procs[p].kind == s.procs[p].kind
    requires s'.procs[p].pc.Ended? && !s'.procs[p].outcome.Succeeded? && Reason(s, step, p, s'.procs[p].outcome)
    ensures Accounted(cfg, s, s', step, p, own)
  {
    hide Reason;
  }

  lemma MkdirAccounted(cfg: Config, s: State, p: ProcId, own: seq<Step>)
    requires Inv(cfg, s) && CanMkdir(s, p) && Sofar(s.procs[p].kind, cfg.processNil, p, s.procs[p].pc, own)
    ensures Accounted(cfg, s, DoMkdir(s, p), Mkdir(p), p, own + [Plain(Mkdir(p))])
  {
    hide Inv, Accounted, Sofar, CloseConnection;
    FactsFit(cfg, s, p);
    if !s.dir.Present? {
      NextCall(cfg, s, DoMkdir(s, p), Mkdir(p), p, own);
    } else {
      EndsFor(cfg, s, DoMkdir(s, p), Mkdir(p), p, own + [Plain(Mkdir(p))]);
    }
  }

  lemma LoadAccounted(cfg: Config, s: State, p: ProcId, own: seq<Step>)
    requires Inv(cfg, s) && CanLoad(s, p) && Sofar(s.procs[p].kind, cfg.processNil, p, s.procs[p].pc, own)
    ensures Accounted(cfg, s, DoLoad(s, p), Load(p), p, own + [Plain(Load(p))])
  {
    hide Inv, Accounted, Sofar, CloseConnection;
    FactsFit(cfg, s, p);
    if s.disk.Some? {
      NextCall(cfg, s, DoLoad(s, p), Load(p), p, own);
    } else {
      EndsFor(cfg, s, DoLoad(s, p), Load(p), p, own + [Plain(Load(p))]);
    }
  }

  lemma OpenLockAccounted(cfg: Config, s: State, p: ProcId, own: seq<Step>)
    requires Inv(cfg, s) && CanOpenLock(s, p) && Sofar(s.procs[p].kind, cfg.processNil, p, s.procs[p].pc, own)
    ensures Accounted(cfg, s, DoOpenLock(s, p), OpenLock(p), p, own + [Plain(OpenLock(p))])
  {
    hide Inv, Accounted, Sofar, CloseConnection;
    FactsFit(cfg, s, p);
    if s.dir.Present? {
      NextCall(cfg, s, DoOpenLock(s, p), OpenLock(p), p, own);
    } else {
      EndsFor(cfg, s, DoOpenLock(s, p), OpenLock(p), p, own + [Plain(OpenLock(p))]);
    }
  }

  lemma FlockAccounted(cfg: Config, s: State, p: ProcId, own: seq<Step>)
    requires Inv(cfg, s) && CanFlock(s, p) && Sofar(s.procs[p].kind, cfg.processNil, p, s.procs[p].pc, own)
    ensures Accounted(cfg, s, DoFlock(s, p), Flock(p), p, own + [Plain(Flock(p))])
  {
    hide Inv, Accounted, Sofar, CloseConnection;
    FactsFit(cfg, s, p);
    if s.procs[p].inode !in s.holder {
      NextCall(cfg, s, DoFlock(s, p), Flock(p), p, own);
    } else {
      EndsFor(cfg, s, DoFlock(s, p), Flock(p), p, own + [Plain(Flock(p))]);
    }
  }

  lemma ReloadAccounted(cfg: Config, s: State, p: ProcId, own: seq<Step>)
    requires Inv(cfg, s) && CanReload(s, p) && Sofar(s.procs[p].kind, cfg.processNil, p, s.procs[p].pc, own)
    ensures Accounted(cfg, s, DoReload(s, p), Reload(p), p, own + [Plain(Reload(p))])
  {
    hide Inv, Accounted, Sofar, CloseConnection, Marshal, Unmarshal;
    FactsFit(cfg, s, p);
    if s.disk.Some? {
      NextCall(cfg, s, DoReload(s, p), Reload(p), p, own);
    } else {
      EndsFor(cfg, s, DoReload(s, p), Reload(p), p, own + [Plain(Reload(p))]);
    }
  }

  lemma CheckAccounted(cfg: Config, s: State, p: ProcId, own: seq<Step>)
    requires Inv(cfg, s) && At(s, p, AtCheck) && Sofar(s.procs[p].kind, cfg.processNil, p, s.procs[p].pc, own)
    ensures Accounted(cfg, s, DoCheck(s, p), Check(p), p, own + [Plain(Check(p))])
  {
    hide Inv, Accounted, Sofar, CloseConnection;
    FactsFit(cfg, s, p);
    if Guard(s.procs[p].kind, s.procs[p].mem) {
      NextCall(cfg, s, DoCheck(s, p), Check(p), p, own);
    } else {
      EndsFor(cfg, s, DoCheck(s, p), Check(p), p, own + [Plain(Check(p))]);
    }
  }

  lemma ForkAccounted(cfg: Config, s: State, p: ProcId, pid: nat, own: seq<Step>)
    requires Inv(cfg, s) && CanFork(s, p, pid) && Sofar(s.procs[p].kind, cfg.processNil, p, s.procs[p].pc, own)
    ensures Accounted(cfg, s, DoFork(s, p, pid), Fork(p, pid), p, own + [Plain(Fork(p, pid))])
  {
    hide Inv, Accounted, Sofar, CloseConnection, AnswersOf;
    FactsFit(cfg, s, p);
    NextCall(cfg, s, DoFork(s, p, pid), Fork(p, pid), p, own);
  }

  lemma InitReceiveAccounted(cfg: Config, s: State, p: ProcId, own: seq<Step>)
    requires Inv(cfg, s) && CanReceiveInit(s, p) && Sofar(s.procs[p].kind, cfg.processNil, p, s.procs[p].pc, own)
    ensures Accounted(cfg, s, DoReceiveInit(s, p), Receive(p), p, own + [Plain(Receive(p))])
  {
    hide Inv, Accounted, Sofar, CloseConnection, AnswersOf;
    FactsFit(cfg, s, p);
    InitHears(cfg, s, p);
    if s.initChan[s.initRead] == MsgInvalidExecutable {
      EndsFor(cfg, s, DoReceiveInit(s, p), Receive(p), p, own + [Plain(Receive(p))]);
    } else {
      NextCall(cfg, s, DoReceiveInit(s, p), Receive(p), p, own);
    }
  }

  lemma StartReceiveAccounted(cfg: Config, s: State, p: ProcId, own: seq<Step>)
    requires Inv(cfg, s) && CanReceiveExecReady(s, p) && Sofar(s.procs[p].kind, cfg.processNil, p, s.procs[p].pc, own)
    ensures Accounted(cfg, s, DoReceiveExecReady(s, p), Receive(p), p, own + [Plain(Receive(p))])
  {
    hide Inv, Accounted, Sofar, CloseConnection, AnswersOf, ProcOk;
    FactsFit(cfg, s, p);
    StartHears(cfg, s, p);
    NextCall(cfg, s, DoReceiveExecReady(s, p), Receive(p), p, own);
  }

  lemma HooksAccounted(cfg: Config, s: State, p: ProcId, ok: bool, own: seq<Step>)
    requires Inv(cfg, s) && CanRunHooks(s, p) && !s.procs[p].pc.AtPoststop?
    requires Sofar(s.procs[p].kind, cfg.processNil, p, s.procs[p].pc, own)
    ensures Accounted(cfg, s, DoRunHooks(s, p, ok), RunHooks(p, ok), p, own + [Plain(RunHooks(p, ok))])
  {
    hide Inv, Accounted, Sofar, CloseConnection, AnswersOf;
    FactsFit(cfg, s, p);
    if !ok {
      EndsFor(cfg, s, DoRunHooks(s, p, ok), RunHooks(p, ok), p, own + [Plain(RunHooks(p, ok))]);
    } else if s.procs[p].pc.AtPoststart? {
      FinalCall(cfg, s, DoRunHooks(s, p, ok), RunHooks(p, ok), p, own);
    } else {
      NextCall(cfg, s, DoRunHooks(s, p, ok), RunHooks(p, ok), p, own);
    }
  }

  lemma DialAccounted(cfg: Config, s: State, p: ProcId, own: seq<Step>)
    requires Inv(cfg, s) && CanDial(s, p) && Sofar(s.procs[p].kind, cfg.processNil, p, s.procs[p].pc, own)
    ensures Accounted(cfg, s, DoDial(s, p), Dial(p), p, own + [Plain(Dial(p))])
  {
    hide Inv, Accounted, Sofar, CloseConnection, AnswersOf;
    FactsFit(cfg, s, p);
    NextCall(cfg, s, DoDial(s, p), Dial(p), p, own);
  }

  lemma SendStartAccounted(cfg: Config, s: State, p: ProcId, own: seq<Step>)
    requires Inv(cfg, s) && CanSendStart(s, p) && Sofar(s.procs[p].kind, cfg.processNil, p, s.procs[p].pc, own)
    ensures Accounted(cfg, s, DoSendStart(cfg, s, p), SendStart(p), p, own + [Plain(SendStart(p))])
  {
    hide Inv, Accounted, Sofar, CloseConnection, AnswersOf;
    FactsFit(cfg, s, p);
    NextCall(cfg, s, DoSendStart(cfg, s, p), SendStart(p), p, own);
  }

  lemma CgroupAccounted(cfg: Config, s: State, p: ProcId, own: seq<Step>)
    requires Inv(cfg, s) && CanCgroup(s, p) && Sofar(s.procs[p].kind, cfg.processNil, p, s.procs[p].pc, own)
    ensures Accounted(cfg, s, DoCgroup(s, p), Cgroup(p), p, own + [Plain(Cgroup(p))])
  {
    hide Inv, Accounted, Sofar, CloseConnection, AnswersOf;
    FactsFit(cfg, s, p);
    NextCall(cfg, s, DoCgroup(s, p), Cgroup(p), p, own);
  }

  lemma SignalAccounted(cfg: Config, s: State, p: ProcId, own: seq<Step>)
    requires Inv(cfg, s) && At(s, p, AtSignal) && Sofar(s.procs[p].kind, cfg.processNil, p, s.procs[p].pc, own)
    ensures Accounted(cfg, s, Finish(s, p, Succeeded), Signal(p), p, own + [Plain(Signal(p))])
  {
    hide Inv, Accounted, Sofar, CloseConnection;
    FactsFit(cfg, s, p);
    FinalCall(cfg, s, Finish(s, p, Succeeded), Signal(p), p, own);
  }

  lemma QuitAccounted(cfg: Config, s: State, p: ProcId, own: seq<Step>)
    requires Inv(cfg, s) && p in s.procs && !s.procs[p].pc.Ended?
    requires Sofar(s.procs[p].kind, cfg.processNil, p, s.procs[p].pc, own)
    ensures Accounted(cfg, s, Finish(s, p, Failed), Quit(p), p, own + [Plain(Quit(p))])
  {
    hide Inv, Accounted, Sofar, CloseConnection;
    EndsFor(cfg, s, Finish(s, p, Failed), Quit(p), p, own + [Plain(Quit(p))]);
  }

  lemma SaveLeads(s: State, p: ProcId, r: SaveResult)
    requires CanSave(s, p, r)
    ensures var s', pc := DoSave(s, p, r), s.procs[p].pc;
            && p in s'.procs && s'.procs[p].kind == s.procs[p].kind
            && var x' := s'.procs[p];
               if pc.AtSaveDead? && s.procs[p].kind.Delete? then x'.pc.AtGuard?
               else if !r.Done? then x'.pc.Ended? && x'.outcome.Failed?
               else if pc.AtSaveCreating? then x'.pc.AtFork?
               else if pc.AtSaveRunning? then x'.pc.AtPoststart?
               else x'.pc.Ended? && x'.outcome.Succeeded?
  {
    hide CloseConnection, AnswersOf, ToSave, SaveAnswers;
  }

  lemma SaveAccounted(cfg: Config, s: State, p: ProcId, r: SaveResult, own: seq<Step>)
    requires Inv(cfg, s) && CanSave(s, p, r) && !s.procs[p].pc.AtSaveDead?
    requires Sofar(s.procs[p].kind, cfg.processNil, p, s.procs[p].pc, own)
    ensures Accounted(cfg, s, DoSave(s, p, r), Save(p, r), p, own + [Plain(Save(p, r))])
  {
    hide Inv, Accounted, Sofar, DoSave;
    FactsFit(cfg, s, p);
    SaveLeads(s, p, r);
    if !r.Done? {
      EndsFor(cfg, s, DoSave(s, p, r), Save(p, r), p, own + [Plain(Save(p, r))]);
    } else if s.procs[p].pc.AtSaveCreating? || s.procs[p].pc.AtSaveRunning? {
      NextCall(cfg, s, DoSave(s, p, r), Save(p, r), p, own);
    } else {
      FinalCall(cfg, s, DoSave(s, p, r), Save(p, r), p, own);
    }
  }

  // ---- state and delete ---------------------------------------------------

  lemma ProbingFacts(cfg: Config, s: State, p: ProcId)
    requires Inv(cfg, s) && p in s.procs
    ensures var x := s.procs[p];
            && (x.pc.AtProbe? || x.pc.AtSaveDead? ==> x.kind.GetState? || x.kind.Delete?)
            && (x.pc.AtGuard? || x.pc.AtRemove? || x.pc.AtPoststop? ==> x.kind.Delete?)
  {
    FactsOf(cfg, s, p);
    hide SharedOk, SavesOk, ProcsOk, ConnOk, Known;
  }

  lemma OpenedIs(kind: Kind, nil: bool, p: ProcId, own: seq<Step>)
    requires (kind.GetState? || kind.Delete?) && Sofar(kind, nil, p, AtProbe, own)
    ensures own == Opening(kind, p)
  {}

  lemma ProbeAccounted(cfg: Config, s: State, p: ProcId, dead: bool, own: seq<Step>)
    requires Inv(cfg, s) && CanProbe(s, p, dead)
    requires Sofar(s.procs[p].kind, cfg.processNil, p, s.procs[p].pc, own)
    ensures Accounted(cfg, s, DoProbe(s, p, dead), Probe(p, dead), p, own + [Probe(p, dead)])
  {
    hide Inv, Program, Opening, CloseConnection, AnswersOf, Reason;
    ProbingFacts(cfg, s, p);
    OpenedIs(s.procs[p].kind, cfg.processNil, p, own);
    assert ProbedBy(p, [Probe(p, false)]);
  }

  lemma SaveDeadAccounted(cfg: Config, s: State, p: ProcId, r: SaveResult, own: seq<Step>)
    requires Inv(cfg, s) && CanSave(s, p, r) && s.procs[p].pc.AtSaveDead?
    requires Sofar(s.procs[p].kind, cfg.processNil, p, s.procs[p].pc, own)
    ensures Accounted(cfg, s, DoSave(s, p, r), Save(p, r), p, own + [Save(p, r)])
  {
    hide Inv, Program, Opening, DoSave;
    ProbingFacts(cfg, s, p);
    SaveLeads(s, p, r);
    var probed := [Probe(p, true), Save(p, r)];
    assert ProbedBy(p, probed);
    assert own + [Save(p, r)] == Opening(s.procs[p].kind, p) + probed;
  }

  lemma GuardAccounted(cfg: Config, s: State, p: ProcId, own: seq<Step>)
    requires Inv(cfg, s) && At(s, p, AtGuard) && Sofar(s.procs[p].kind, cfg.processNil, p, AtGuard, own)
    ensures Accounted(cfg, s, DoCheck(s, p), Check(p), p, own + [Check(p)])
  {
    hide Inv, Program, Opening, CloseConnection;
    ProbingFacts(cfg, s, p);
    var probed :| ProbedBy(p, probed) && own == Opening(s.procs[p].kind, p) + probed;
    hide ProbedBy;
    var u: seq<Step> := [];
    assert Unlinks(p, u);
    assert own + [Check(p)] == Opening(s.procs[p].kind, p) + probed + [Check(p)] + u;
  }

  lemma UnlinksGrow(kind: Kind, p: ProcId, own: seq<Step>, step: Step)
    requires Removing(kind, p, own) && (step == UnlinkState(p) || step == UnlinkLock(p))
    ensures Removing(kind, p, own + [step])
  {
    hide ProbedBy, Opening;
    var probed, u :| ProbedBy(p, probed) && Unlinks(p, u) && own == Opening(kind, p) + probed + [Check(p)] + u;
    assert Unlinks(p, u + [step]);
    assert own + [step] == Opening(kind, p) + probed + [Check(p)] + (u + [step]);
  }

  lemma UnlinkAccounted(cfg: Config, s: State, s': State, p: ProcId, step: Step, own: seq<Step>)
    requires At(s, p, AtRemove) && s'.procs == s.procs && (step == UnlinkState(p) || step == UnlinkLock(p))
    requires Sofar(s.procs[p].kind, cfg.processNil, p, AtRemove, own)
    ensures Accounted(cfg, s, s', step, p, own + [step])
  {
    UnlinksGrow(s.procs[p].kind, p, own, step);
    hide Removing, Reason;
  }

  lemma UnlinkStateAccounted(cfg: Config, s: State, p: ProcId, own: seq<Step>)
    requires CanUnlinkState(s, p) && Sofar(s.procs[p].kind, cfg.processNil, p, AtRemove, own)
    ensures Accounted(cfg, s, DoUnlinkState(s, p), UnlinkState(p), p, own + [UnlinkState(p)])
  {
    hide Sofar, Accounted;
    UnlinkAccounted(cfg, s, DoUnlinkState(s, p), p, UnlinkState(p), own);
  }

  lemma RmdirAccounted(cfg: Config, s: State, p: ProcId, own: seq<Step>)
    requires CanRmdir(s, p) && Sofar(s.procs[p].kind, cfg.processNil, p, AtRemove, own)
    ensures Accounted(cfg, s, DoRmdir(s, p), Rmdir(p), p, own + [Rmdir(p)])
  {
    hide Removing, Reason;
  }

  lemma PoststopAccounted(cfg: Config, s: State, p: ProcId, ok: bool, own: seq<Step>)
    requires Inv(cfg, s) && At(s, p, AtPoststop) && Sofar(s.procs[p].kind, cfg.processNil, p, AtPoststop, own)
    ensures Accounted(cfg, s, DoRunHooks(s, p, ok), RunHooks(p, ok), p, own + [RunHooks(p, ok)])
  {
    hide Inv, Removing, Reason, CloseConnection;
    ProbingFacts(cfg, s, p);
    var front :| Removing(s.procs[p].kind, p, front) && own == front + [Rmdir(p)];
    assert own + [RunHooks(p, ok)] == front + [Rmdir(p), RunHooks(p, ok)];
  }

  // ---- every step and every run -------------------------------------------

  lemma StepAccounted(cfg: Config, s: State, step: Step, own: seq<Step>)
    requires Inv(cfg, s) && Enabled(cfg, s, step) && !ChildStep(step) && !step.Spawn?
    requires step.p in s.procs && Sofar(s.procs[step.p].kind, cfg.processNil, step.p, s.procs[step.p].pc, own)
    ensures Accounted(cfg, s, Do(cfg, s, step), step, step.p, own + [Plain(step)])
  {
    hide Inv, Sofar, Accounted;
    hide DoSpawn, DoMkdir, DoLoad, DoOpenLock, DoFlock, DoReload, DoCheck, DoSave, DoFork, DoReceiveInit;
    hide DoReceiveExecReady, DoRunHooks, DoDial, DoSendStart, DoCgroup, DoProbe, DoUnlinkState, DoRmdir, DoChild;
    hide Finish;
    match step
    case Mkdir(p) => MkdirAccounted(cfg, s, p, own);
    case Load(p) => LoadAccounted(cfg, s, p, own);
    case OpenLock(p) => OpenLockAccounted(cfg, s, p, own);
    case Flock(p) => FlockAccounted(cfg, s, p, own);
    case Reload(p) => ReloadAccounted(cfg, s, p, own);
    case Check(p) =>
      if At(s, p, AtCheck) { CheckAccounted(cfg, s, p, own); } else { GuardAccounted(cfg, s, p, own); }
    case Save(p, r) =>
      if s.procs[p].pc.AtSaveDead? { SaveDeadAccounted(cfg, s, p, r, own); } else { SaveAccounted(cfg, s, p, r, own); }
    case Fork(p, pid) => ForkAccounted(cfg, s, p, pid, own);
    case Receive(p) =>
      if CanReceiveInit(s, p) { InitReceiveAccounted(cfg, s, p, own); } else { StartReceiveAccounted(cfg, s, p, own); }
    case RunHooks(p, ok) =>
      if At(s, p, AtPoststop) { PoststopAccounted(cfg, s, p, ok, own); } else { HooksAccounted(cfg, s, p, ok, own); }
    case Dial(p) => DialAccounted(cfg, s, p, own);
    case SendStart(p) => SendStartAccounted(cfg, s, p, own);
    case Cgroup(p) => CgroupAccounted(cfg, s, p, own);
    case Signal(p) => SignalAccounted(cfg, s, p, own);
    case Probe(p, dead) => ProbeAccounted(cfg, s, p, dead, own);
    case UnlinkState(p) => UnlinkStateAccounted(cfg, s, p, own);
    case UnlinkLock(p) => UnlinkAccounted(cfg, s, Do(cfg, s, step), p, step, own);
    case Rmdir(p) => RmdirAccounted(cfg, s, p, own);
    case Quit(p) => QuitAccounted(cfg, s, p, own);
  }

  /** Everybody but the one who steps is as before. */
  lemma NotMine(cfg: Config, s: State, step: Step, p: ProcId)
    requires Enabled(cfg, s, step) && !Mine(step, p)
    ensures p in Do(cfg, s, step).procs <==> p in s.procs
    ensures p in s.procs ==> Do(cfg, s, step).procs[p] == s.procs[p]
  {
    if ChildStep(step) {
      ChildDoes(cfg, s, step);
      hide Do, Enabled, MoveOf, Answered, ChildEnabled;
    } else if step.Spawn? {
    } else if step.Flock? {
      hide CloseConnection;
    } else {
      hide Do, Enabled;
      StepCarries(cfg, s, step);
      hide Records, SameSections, Winner;
    }
  }

  /** Where a command stands after n steps of the run. */
  ghost predicate Stands(cfg: Config, steps: seq<Step>, n: nat, p: ProcId)
    requires Runs(cfg, InitialState(cfg), steps) && n <= |steps|
  {
    var s, own := Before(cfg, steps, n), Own(steps[..n], p);
    if p !in s.procs then own == []
    else
      var x := s.procs[p];
      if !x.pc.Ended? then Sofar(x.kind, cfg.processNil, p, x.pc, own)
      else if x.outcome.Succeeded? then Finished(x.kind, cfg.processNil, p, own)
      else HasReason(cfg, steps, n, p, x.outcome)
  }

  /** One of the command's own steps among the first n ended it for a reason. */
  ghost predicate HasReason(cfg: Config, steps: seq<Step>, n: nat, p: ProcId, outcome: Outcome)
    requires Runs(cfg, InitialState(cfg), steps) && n <= |steps|
  {
    exists i :: && 0 <= i < n && Mine(steps[i], p) && p in Before(cfg, steps, i).procs
                && Reason(Before(cfg, steps, i), steps[i], p, outcome)
  }

  lemma OwnGrows(steps: seq<Step>, n: nat, p: ProcId)
    requires n < |steps|
    ensures Own(steps[..n + 1], p) == Own(steps[..n], p) + if Mine(steps[n], p) then [Plain(steps[n])] else []
  {
    assert steps[..n + 1][..n] == steps[..n];
  }

  lemma SpawnStands(cfg: Config, s: State, p: ProcId, kind: Kind)
    ensures var x := DoSpawn(cfg, s, p, kind).procs[p];
            !x.pc.Ended? && Sofar(x.kind, cfg.processNil, p, x.pc, [Spawn(p, kind)])
  {
    var program := Program(kind, cfg.processNil, p);
    assert program[..1] == [program[0]];
  }

  lemma MineStands(cfg: Config, steps: seq<Step>, n: nat, p: ProcId)
    requires Runs(cfg, InitialState(cfg), steps) && n < |steps| && Stands(cfg, steps, n, p) && Mine(steps[n], p)
    ensures Stands(cfg, steps, n + 1, p)
  {
    hide Inv, Do, Enabled, Run, Runs, Before, Sofar, Finished, Reason, Own, Plain, HasReason;
    var s := Before(cfg, steps, n);
    BeforeIsReachable(cfg, steps, n);
    LastStep(cfg, steps, n);
    OwnGrows(steps, n, p);
    StepperThere(cfg, s, steps[n]);
    if steps[n].Spawn? {
      FirstStep(cfg, s, p, steps[n].kind);
      assert [] + [Plain(steps[n])] == [Plain(steps[n])];
    } else {
      StepAccounted(cfg, s, steps[n], Own(steps[..n], p));
      if Reason(s, steps[n], p, Before(cfg, steps, n + 1).procs[p].outcome) {
        assert HasReason(cfg, steps, n + 1, p, Before(cfg, steps, n + 1).procs[p].outcome) by {
          ReasonAt(cfg, steps, n, p, Before(cfg, steps, n + 1).procs[p].outcome);
        }
      }
    }
  }

  lemma ReasonAt(cfg: Config, steps: seq<Step>, n: nat, p: ProcId, outcome: Outcome)
    requires Runs(cfg, InitialState(cfg), steps) && n < |steps| && Mine(steps[n], p)
    requires p in Before(cfg, steps, n).procs && Reason(Before(cfg, steps, n), steps[n], p, outcome)
    ensures HasReason(cfg, steps, n + 1, p, outcome)
  {
    hide Run, Runs, Before, Reason, Mine;
  }

  lemma StepperThere(cfg: Config, s: State, step: Step)
    requires Enabled(cfg, s, step) && !ChildStep(step)
    ensures if step.Spawn? then step.p !in s.procs else step.p in s.procs && !s.procs[step.p].pc.Ended?
  {}

  lemma FirstStep(cfg: Config, s: State, p: ProcId, kind: Kind)
    requires Enabled(cfg, s, Spawn(p, kind))
    ensures var s' := Do(cfg, s, Spawn(p, kind));
            && p in s'.procs && !s'.procs[p].pc.Ended?
            && Sofar(s'.procs[p].kind, cfg.processNil, p, s'.procs[p].pc, [Plain(Spawn(p, kind))])
  {
    SpawnStands(cfg, s, p, kind);
    hide Sofar;
  }

  lemma OtherStands(cfg: Config, steps: seq<Step>, n: nat, p: ProcId)
    requires Runs(cfg, InitialState(cfg), steps) && n < |steps| && Stands(cfg, steps, n, p) && !Mine(steps[n], p)
    ensures Stands(cfg, steps, n + 1, p)
  {
    hide Do, Enabled, Run, Runs, Before, Sofar, Finished, Reason, Own, Plain, Mine;
    var s := Before(cfg, steps, n);
    LastStep(cfg, steps, n);
    OwnGrows(steps, n, p);
    NotMine(cfg, s, steps[n], p);
    assert Own(steps[..n], p) + [] == Own(steps[..n], p);
  }

  lemma NobodyStands(cfg: Config, steps: seq<Step>, p: ProcId)
    requires Runs(cfg, InitialState(cfg), steps)
    ensures Stands(cfg, steps, 0, p)
  {
    hide Do, Enabled, Sofar, Finished, HasReason;
    assert steps[..0] == [];
  }

  lemma {:induction false} RunStands(cfg: Config, steps: seq<Step>, n: nat, p: ProcId)
    requires Runs(cfg, InitialState(cfg), steps) && n <= |steps|
    ensures Stands(cfg, steps, n, p)
  {
    hide Run, Runs, Stands, Mine, Do, Enabled;
    if n == 0 {
      NobodyStands(cfg, steps, p);
    } else {
      RunStands(cfg, steps, n - 1, p);
      if Mine(steps[n - 1], p) {
        MineStands(cfg, steps, n - 1, p);
      } else {
        OtherStands(cfg, steps, n - 1, p);
      }
    }
  }

  /** On every run: a command that succeeds has made exactly the calls of its operation, in
      order; one that ends otherwise was ended by a step of its own that gives the reason;
      and none has ended without an outcome or been confused by a message. */
  lemma OutcomesMean(cfg: Config, steps: seq<Step>, p: ProcId)
    requires Runs(cfg, InitialState(cfg), steps)
    requires var s := StateAfter(cfg, steps); p in s.procs && s.procs[p].pc.Ended?
    ensures var x := StateAfter(cfg, steps).procs[p];
            && (x.outcome.Succeeded? ==> Finished(x.kind, cfg.processNil, p, Own(steps, p)))
            && (!x.outcome.Succeeded? ==>
                  exists i :: && 0 <= i < |steps| && Mine(steps[i], p) && p in Before(cfg, steps, i).procs
                              && Reason(Before(cfg, steps, i), steps[i], p, x.outcome))
            && !x.outcome.Pending? && !x.outcome.UnexpectedMessage?
  {
    assert steps[..|steps|] == steps;
    RunStands(cfg, steps, |steps|, p);
    hide Run, Runs, Finished, Own, Sofar, Mine;
  }
}
