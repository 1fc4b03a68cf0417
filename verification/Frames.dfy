/**
 What a step of one command leaves alone, and who can win the lock: a process that
 was told that another operation is in progress has written nothing.
 */
module Frames {
  import opened Wrappers
  import opened Lifecycle
  import opened Protocol
  import opened Handshake
  import opened HookOrder

  /** A step of q alone: neither the child, nor its channel to init, nor anybody else. */
  predicate LeavesAlone(s: State, s': State, q: ProcId) {
    && s'.child == s.child && s'.initChan == s.initChan
    && forall p :: p in s.procs && p != q ==> p in s'.procs && s'.procs[p] == s.procs[p]
  }

  lemma FinishLeavesAlone(s: State, q: ProcId, o: Outcome)
    requires q in s.procs
    ensures LeavesAlone(s, Finish(s, q, o), q)
  {}

  lemma SaveLeavesAlone(s: State, q: ProcId, r: SaveResult)
    requires CanSave(s, q, r)
    ensures LeavesAlone(s, DoSave(s, q, r), q)
  {
    hide DoSave;
    SaveShape(s, q, r);
  }

  lemma HooksLeaveAlone(s: State, q: ProcId, ok: bool)
    requires CanRunHooks(s, q)
    ensures LeavesAlone(s, DoRunHooks(s, q, ok), q)
  {
    hide DoRunHooks;
    RunHooksShape(s, q, ok);
  }

  lemma ReceiveInitLeavesAlone(s: State, q: ProcId)
    requires CanReceiveInit(s, q)
    ensures LeavesAlone(s, DoReceiveInit(s, q), q)
  {}

  lemma ReceiveExecReadyLeavesAlone(s: State, q: ProcId)
    requires CanReceiveExecReady(s, q)
    ensures LeavesAlone(s, DoReceiveExecReady(s, q), q)
  {}

  lemma DialLeavesAlone(cfg: Config, s: State, q: ProcId)
    ensures CanDial(s, q) ==> LeavesAlone(s, DoDial(s, q), q)
    ensures CanSendStart(s, q) ==> LeavesAlone(s, DoSendStart(cfg, s, q), q)
    ensures CanCgroup(s, q) ==> LeavesAlone(s, DoCgroup(s, q), q)
  {}

  lemma ProbeLeavesAlone(s: State, q: ProcId, dead: bool)
    requires CanProbe(s, q, dead)
    ensures LeavesAlone(s, DoProbe(s, q, dead), q)
  {}

  lemma OpeningLeavesAlone(s: State, q: ProcId)
    ensures CanMkdir(s, q) ==> LeavesAlone(s, DoMkdir(s, q), q)
    ensures CanLoad(s, q) ==> LeavesAlone(s, DoLoad(s, q), q)
  {
    hide CloseConnection;
  }

  lemma FlockLeavesAlone(s: State, q: ProcId)
    ensures CanOpenLock(s, q) ==> LeavesAlone(s, DoOpenLock(s, q), q)
    ensures CanFlock(s, q) ==> LeavesAlone(s, DoFlock(s, q), q)
  {
    hide CloseConnection;
  }

  lemma LockedLeavesAlone(cfg: Config, s: State, q: ProcId)
    ensures CanReload(s, q) ==> LeavesAlone(s, DoReload(s, q), q)
    ensures CanCheck(s, q) ==> LeavesAlone(s, DoCheck(s, q), q)
    ensures CanUnlinkState(s, q) ==> LeavesAlone(s, DoUnlinkState(s, q), q)
    ensures CanRmdir(s, q) ==> LeavesAlone(s, DoRmdir(s, q), q)
  {}

  /** A command other than the one that forks the child touches nobody else. */
  lemma OthersLeaveAlone(cfg: Config, s: State, step: Step)
    requires Enabled(cfg, s, step) && !ChildStep(step) && !step.Fork?
    ensures LeavesAlone(s, Do(cfg, s, step), step.p)
  {
    hide LeavesAlone;
    hide DoSpawn, DoMkdir, DoLoad, DoOpenLock, DoFlock, DoReload, DoCheck, DoSave, DoFork, DoReceiveInit;
    hide DoReceiveExecReady, DoRunHooks, DoDial, DoSendStart, DoCgroup, DoProbe, DoUnlinkState, DoRmdir, DoChild;
    hide Finish;
    match step
    case Spawn(p, k) => SpawnLeavesAlone(cfg, s, p, k);
    case Save(p, r) => SaveLeavesAlone(s, p, r);
    case Receive(p) =>
      if CanReceiveInit(s, p) { ReceiveInitLeavesAlone(s, p); } else { ReceiveExecReadyLeavesAlone(s, p); }
    case RunHooks(p, ok) => HooksLeaveAlone(s, p, ok);
    case Dial(p) => DialLeavesAlone(cfg, s, p);
    case SendStart(p) => DialLeavesAlone(cfg, s, p);
    case Cgroup(p) => DialLeavesAlone(cfg, s, p);
    case Probe(p, dead) => ProbeLeavesAlone(s, p, dead);
    case Signal(p) => FinishLeavesAlone(s, p, Succeeded);
    case Quit(p) => FinishLeavesAlone(s, p, Failed);
    case UnlinkLock(p) => assert LeavesAlone(s, s.(lockPath := None), p) by { UnlinkLockLeavesAlone(s, p); }
    case Mkdir(p) => OpeningLeavesAlone(s, p);
    case Load(p) => OpeningLeavesAlone(s, p);
    case OpenLock(p) => FlockLeavesAlone(s, p);
    case Flock(p) => FlockLeavesAlone(s, p);
    case Reload(p) => LockedLeavesAlone(cfg, s, p);
    case Check(p) => LockedLeavesAlone(cfg, s, p);
    case UnlinkState(p) => LockedLeavesAlone(cfg, s, p);
    case Rmdir(p) => LockedLeavesAlone(cfg, s, p);
    case _ =>
  }

  lemma SpawnLeavesAlone(cfg: Config, s: State, q: ProcId, k: Kind)
    ensures LeavesAlone(s, DoSpawn(cfg, s, q, k), q)
  {}

  lemma UnlinkLockLeavesAlone(s: State, q: ProcId)
    ensures LeavesAlone(s, s.(lockPath := None), q)
  {}

  // ---- the files ----------------------------------------------------------

  predicate SameFiles(s: State, s': State) {
    s'.dir == s.dir && s'.creator == s.creator && s'.saves == s.saves && s'.disk == s.disk
  }

  predicate SameName(s: State, s': State) { s'.lockPath == s.lockPath && s'.nextInode == s.nextInode }

  /** c.lock, where it is there, stays what it is. */
  predicate KeepsName(s: State, s': State) { s.lockPath.Some? ==> SameName(s, s') }

  predicate QuietFiles(s: State, s': State) { SameFiles(s, s') && SameName(s, s') }

  lemma OpeningSameFiles(s: State, q: ProcId)
    ensures CanLoad(s, q) ==> QuietFiles(s, DoLoad(s, q))
    ensures CanOpenLock(s, q) ==> SameFiles(s, DoOpenLock(s, q)) && KeepsName(s, DoOpenLock(s, q))
    ensures CanFlock(s, q) ==> QuietFiles(s, DoFlock(s, q))
    ensures CanReload(s, q) ==> QuietFiles(s, DoReload(s, q))
    ensures CanCheck(s, q) ==> QuietFiles(s, DoCheck(s, q))
  {
    hide CloseConnection, Marshal, Unmarshal, Guard;
  }

  lemma ReceiveSameFiles(s: State, q: ProcId)
    ensures CanReceiveInit(s, q) ==> QuietFiles(s, DoReceiveInit(s, q))
    ensures CanReceiveExecReady(s, q) ==> QuietFiles(s, DoReceiveExecReady(s, q))
  {
    hide CloseConnection, AnswersOf;
  }

  lemma TalkSameFiles(cfg: Config, s: State, q: ProcId)
    ensures CanDial(s, q) ==> QuietFiles(s, DoDial(s, q))
    ensures CanSendStart(s, q) ==> QuietFiles(s, DoSendStart(cfg, s, q))
    ensures CanCgroup(s, q) ==> QuietFiles(s, DoCgroup(s, q))
  {
    hide CloseConnection, AnswersOf;
  }

  lemma HooksSameFiles(s: State, q: ProcId, ok: bool)
    requires CanRunHooks(s, q)
    ensures QuietFiles(s, DoRunHooks(s, q, ok))
  {
    hide CloseConnection, AnswersOf;
  }

  lemma WorkSameFiles(cfg: Config, s: State, q: ProcId, k: Kind, pid: nat, dead: bool, o: Outcome)
    ensures QuietFiles(s, DoSpawn(cfg, s, q, k))
    ensures CanFork(s, q, pid) ==> QuietFiles(s, DoFork(s, q, pid))
    ensures CanProbe(s, q, dead) ==> QuietFiles(s, DoProbe(s, q, dead))
    ensures q in s.procs ==> QuietFiles(s, Finish(s, q, o))
  {
    hide CloseConnection, AnswersOf;
  }

  lemma RestSameFiles(cfg: Config, s: State, step: Step)
    ensures SameFiles(s, s.(lockPath := None))
    ensures ChildEnabled(cfg, s, step) ==> QuietFiles(s, DoChild(cfg, s, step))
  {
    hide MoveOf, Answered, ChildEnabled;
  }

  /** A step that is neither a save nor one of those that make or unmake the directory. */
  lemma StepSameFiles(cfg: Config, s: State, step: Step)
    requires Enabled(cfg, s, step) && !step.Mkdir? && !step.Save? && !step.UnlinkState? && !step.Rmdir?
    ensures SameFiles(s, Do(cfg, s, step)) && (!step.UnlinkLock? ==> KeepsName(s, Do(cfg, s, step)))
    ensures !step.UnlinkLock? && !step.OpenLock? ==> SameName(s, Do(cfg, s, step))
  {
    hide CanSave, CanReceiveInit, CanReceiveExecReady, CanRunHooks, CanCheck, CanProbe, CanRmdir, CanUnlinkState;
    hide DoSpawn, DoMkdir, DoLoad, DoOpenLock, DoFlock, DoReload, DoCheck, DoSave, DoFork, DoReceiveInit;
    hide DoReceiveExecReady, DoRunHooks, DoDial, DoSendStart, DoCgroup, DoProbe, DoUnlinkState, DoRmdir;
    hide Finish, MoveOf, Answered, ChildEnabled, SameFiles, SameName;
    match step
    case Spawn(p, k) => WorkSameFiles(cfg, s, p, k, 0, false, Failed);
    case Load(p) => OpeningSameFiles(s, p);
    case OpenLock(p) => OpeningSameFiles(s, p);
    case Flock(p) => OpeningSameFiles(s, p);
    case Reload(p) => OpeningSameFiles(s, p);
    case Check(p) => OpeningSameFiles(s, p);
    case Fork(p, pid) => WorkSameFiles(cfg, s, p, Create, pid, false, Failed);
    case Receive(p) => ReceiveSameFiles(s, p);
    case RunHooks(p, ok) => HooksSameFiles(s, p, ok);
    case Dial(p) => TalkSameFiles(cfg, s, p);
    case SendStart(p) => TalkSameFiles(cfg, s, p);
    case Cgroup(p) => TalkSameFiles(cfg, s, p);
    case Signal(p) => WorkSameFiles(cfg, s, p, Create, 0, false, Succeeded);
    case Probe(p, dead) => WorkSameFiles(cfg, s, p, Create, 0, dead, Failed);
    case UnlinkLock(p) => RestSameFiles(cfg, s, step);
    case Quit(p) => WorkSameFiles(cfg, s, p, Create, 0, false, Failed);
    case _ => RestSameFiles(cfg, s, step);
  }

  lemma SaveKeepsDir(s: State, q: ProcId, r: SaveResult)
    requires CanSave(s, q, r)
    ensures var s' := DoSave(s, q, r); s'.dir == s.dir && s'.creator == s.creator && SameName(s, s')
  {
    hide CloseConnection, AnswersOf, ToSave, SaveAnswers;
  }

  // ---- winners and losers of the lock -------------------------------------

  /** The process has had the lock. */
  predicate Winner(s: State, q: ProcId) {
    && q in s.procs
    && (HoldsLock(s.procs[q].pc) || (s.procs[q].pc.Ended? && s.procs[q].outcome != OperationInProgress))
  }

  ghost predicate OnlyWinners(s: State) {
    && (forall k :: 0 <= k < |s.sections| ==> Winner(s, s.sections[k].proc))
    && (forall q, st :: Saved(q, st) in s.trace ==> Winner(s, q))
    && (forall i, j :: 0 <= i < j < |s.sections| ==> s.sections[i].proc != s.sections[j].proc)
  }

  predicate SameSections(s: State, s': State) {
    |s'.sections| == |s.sections| && forall k :: 0 <= k < |s.sections| ==> s'.sections[k].proc == s.sections[k].proc
  }

  /** At most one event; a save is the lock holder's own and is in the file's history, and
      a MsgStart is its sender's. */
  ghost predicate Records(s: State, s': State, q: ProcId) {
    || s'.trace == s.trace
    || exists e :: && s'.trace == s.trace + [e]
                   && (e.Saved? ==> e.p == q && Winner(s', q) && |s'.saves| > |s.saves|)
                   && (e.StartSent? ==> e.p == q && At(s, q, AtSendStart))
  }

  /** A step of q that is not its flock. */
  ghost predicate Carries(s: State, s': State, q: ProcId) {
    && q in s.procs && q in s'.procs && s'.procs.Keys == s.procs.Keys
    && (forall p :: p in s.procs && p != q ==> s'.procs[p] == s.procs[p])
    && (Winner(s, q) ==> Winner(s', q))
    && SameSections(s, s')
    && Records(s, s', q)
  }

  lemma FinishCarries(s: State, q: ProcId, o: Outcome)
    requires q in s.procs && !s.procs[q].pc.Ended? && (o != OperationInProgress || !HoldsLock(s.procs[q].pc))
    ensures Carries(s, Finish(s, q, o), q)
  {}

  lemma SaveCarries(s: State, q: ProcId, r: SaveResult)
    requires CanSave(s, q, r)
    ensures Carries(s, DoSave(s, q, r), q)
  {
    var s' := DoSave(s, q, r);
    SaveWins(s, q, r);
    hide DoSave, AfterSave, ToSave;
    SaveShape(s, q, r);
  }

  lemma SaveWins(s: State, q: ProcId, r: SaveResult)
    requires CanSave(s, q, r)
    ensures Winner(DoSave(s, q, r), q) && SameSections(s, DoSave(s, q, r))
  {
    hide ToSave, SaveAnswers;
  }

  lemma HooksCarry(s: State, q: ProcId, ok: bool)
    requires CanRunHooks(s, q)
    ensures Carries(s, DoRunHooks(s, q, ok), q)
  {
    HooksWin(s, q, ok);
    hide DoRunHooks;
    RunHooksShape(s, q, ok);
  }

  lemma HooksWin(s: State, q: ProcId, ok: bool)
    requires CanRunHooks(s, q)
    ensures Winner(DoRunHooks(s, q, ok), q) && SameSections(s, DoRunHooks(s, q, ok))
  {}

  lemma ReceiveInitCarries(s: State, q: ProcId)
    requires CanReceiveInit(s, q)
    ensures Carries(s, DoReceiveInit(s, q), q)
  {}

  lemma ReceiveExecReadyCarries(s: State, q: ProcId)
    requires CanReceiveExecReady(s, q)
    ensures Carries(s, DoReceiveExecReady(s, q), q)
  {}

  lemma DialCarries(s: State, q: ProcId)
    requires CanDial(s, q)
    ensures Carries(s, DoDial(s, q), q)
  {}

  lemma SendStartCarries(cfg: Config, s: State, q: ProcId)
    requires CanSendStart(s, q)
    ensures Carries(s, DoSendStart(cfg, s, q), q)
  {
    var s' := DoSendStart(cfg, s, q);
    assert s'.trace == s.trace + [StartSent(q)];
  }

  lemma CgroupCarries(s: State, q: ProcId)
    requires CanCgroup(s, q)
    ensures Carries(s, DoCgroup(s, q), q)
  {}

  lemma ForkCarries(s: State, q: ProcId, pid: nat)
    requires CanFork(s, q, pid)
    ensures Carries(s, DoFork(s, q, pid), q)
  {}

  lemma ProbeCarries(s: State, q: ProcId, dead: bool)
    requires CanProbe(s, q, dead)
    ensures Carries(s, DoProbe(s, q, dead), q)
  {}

  lemma OpeningCarries(cfg: Config, s: State, q: ProcId)
    ensures CanMkdir(s, q) ==> Carries(s, DoMkdir(s, q), q)
    ensures CanLoad(s, q) ==> Carries(s, DoLoad(s, q), q)
    ensures CanOpenLock(s, q) ==> Carries(s, DoOpenLock(s, q), q)
  {}

  lemma ReloadCarries(s: State, q: ProcId)
    ensures CanReload(s, q) ==> Carries(s, DoReload(s, q), q)
    ensures CanCheck(s, q) ==> Carries(s, DoCheck(s, q), q)
  {}

  lemma RemovalCarries(s: State, q: ProcId)
    ensures CanUnlinkState(s, q) ==> Carries(s, DoUnlinkState(s, q), q)
    ensures At(s, q, AtRemove) ==> Carries(s, s.(lockPath := None), q)
  {}

  lemma RmdirCarries(s: State, q: ProcId)
    requires CanRmdir(s, q)
    ensures Carries(s, DoRmdir(s, q), q)
  {
    assert DoRmdir(s, q).trace == s.trace + [DirRemoved(q)];
  }

  lemma CarriedWinners(s: State, s': State, q: ProcId)
    requires OnlyWinners(s) && Carries(s, s', q)
    ensures OnlyWinners(s')
  {
    forall p | Winner(s, p) ensures Winner(s', p) {}
  }

  lemma FlockWinners(s: State, q: ProcId)
    requires OnlyWinners(s) && CanFlock(s, q)
    ensures OnlyWinners(DoFlock(s, q))
  {
    if s.procs[q].inode in s.holder {
      FinishCarries(s, q, OperationInProgress);
      CarriedWinners(s, DoFlock(s, q), q);
    } else {
      assert !Winner(s, q);
      forall p | Winner(s, p) ensures Winner(DoFlock(s, q), p) {}
    }
  }

  lemma SpawnWinners(cfg: Config, s: State, q: ProcId, k: Kind)
    requires OnlyWinners(s) && q !in s.procs
    ensures OnlyWinners(DoSpawn(cfg, s, q, k))
  {
    forall p | Winner(s, p) ensures Winner(DoSpawn(cfg, s, q, k), p) {}
  }

  lemma ChildEvents(cfg: Config, s: State, step: Step, e: Event)
    requires ChildEnabled(cfg, s, step) && e in MoveOf(cfg, s, step).events
    ensures !e.Saved? && !e.StartSent?
  {}

  lemma ChildWinners(cfg: Config, s: State, step: Step)
    requires OnlyWinners(s) && ChildEnabled(cfg, s, step)
    ensures OnlyWinners(DoChild(cfg, s, step))
  {
    var s' := DoChild(cfg, s, step);
    hide MoveOf, Answered, ChildEnabled;
    forall p | Winner(s, p) ensures Winner(s', p) {}
    forall q, st | Saved(q, st) in s'.trace
      ensures Winner(s', q)
    {
      if Saved(q, st) !in s.trace {
        ChildEvents(cfg, s, step, Saved(q, st));
      }
    }
  }

  /** A step of one command other than its first two. */
  lemma StepCarries(cfg: Config, s: State, step: Step)
    requires Enabled(cfg, s, step) && !ChildStep(step) && !step.Spawn? && !step.Flock?
    ensures Carries(s, Do(cfg, s, step), step.p)
  {
    hide Carries;
    hide DoSpawn, DoMkdir, DoLoad, DoOpenLock, DoFlock, DoReload, DoCheck, DoSave, DoFork, DoReceiveInit;
    hide DoReceiveExecReady, DoRunHooks, DoDial, DoSendStart, DoCgroup, DoProbe, DoUnlinkState, DoRmdir, DoChild;
    hide Finish;
    match step
    case Mkdir(p) => OpeningCarries(cfg, s, p);
    case Load(p) => OpeningCarries(cfg, s, p);
    case OpenLock(p) => OpeningCarries(cfg, s, p);
    case Reload(p) => ReloadCarries(s, p);
    case Check(p) => ReloadCarries(s, p);
    case Save(p, r) => SaveCarries(s, p, r);
    case Fork(p, pid) => ForkCarries(s, p, pid);
    case Receive(p) =>
      if CanReceiveInit(s, p) { ReceiveInitCarries(s, p); } else { ReceiveExecReadyCarries(s, p); }
    case RunHooks(p, ok) => HooksCarry(s, p, ok);
    case Dial(p) => DialCarries(s, p);
    case SendStart(p) => SendStartCarries(cfg, s, p);
    case Cgroup(p) => CgroupCarries(s, p);
    case Signal(p) => FinishCarries(s, p, Succeeded);
    case Probe(p, dead) => ProbeCarries(s, p, dead);
    case UnlinkState(p) => RemovalCarries(s, p);
    case UnlinkLock(p) => RemovalCarries(s, p);
    case Rmdir(p) => RmdirCarries(s, p);
    case Quit(p) => FinishCarries(s, p, Failed);
    case _ =>
  }

  lemma StepWinners(cfg: Config, s: State, step: Step)
    requires OnlyWinners(s) && Enabled(cfg, s, step)
    ensures OnlyWinners(Do(cfg, s, step))
  {
    hide OnlyWinners;
    hide CanSave, CanReceiveInit, CanReceiveExecReady, CanRunHooks, CanCheck, CanProbe, CanRmdir, CanUnlinkState;
    hide DoSpawn, DoMkdir, DoLoad, DoOpenLock, DoFlock, DoReload, DoCheck, DoSave, DoFork, DoReceiveInit;
    hide DoReceiveExecReady, DoRunHooks, DoDial, DoSendStart, DoCgroup, DoProbe, DoUnlinkState, DoRmdir, DoChild;
    hide Finish;
    if ChildStep(step) {
      assert ChildEnabled(cfg, s, step) && Do(cfg, s, step) == DoChild(cfg, s, step);
      ChildWinners(cfg, s, step);
    } else if step.Spawn? {
      SpawnWinners(cfg, s, step.p, step.kind);
    } else if step.Flock? {
      FlockWinners(s, step.p);
    } else {
      hide Do, Enabled;
      StepCarries(cfg, s, step);
      CarriedWinners(s, Do(cfg, s, step), step.p);
    }
  }

  lemma {:induction false} RunWinners(cfg: Config, s: State, steps: seq<Step>)
    requires OnlyWinners(s) && Runs(cfg, s, steps)
    ensures OnlyWinners(Run(cfg, s, steps))
    decreases |steps|
  {
    hide OnlyWinners;
    if steps != [] {
      StepWinners(cfg, s, steps[0]);
      RunWinners(cfg, Do(cfg, s, steps[0]), steps[1..]);
    }
  }

  /** On every run, a process that was told ErrOperationInProgress has no place in the
      lock order and has written nothing, and nobody wins the lock twice. */
  lemma LosersWriteNothing(cfg: Config, steps: seq<Step>, p: ProcId)
    requires Runs(cfg, InitialState(cfg), steps)
    ensures var s := Run(cfg, InitialState(cfg), steps);
            && (p in s.procs && s.procs[p].outcome == OperationInProgress && s.procs[p].pc.Ended? ==>
                  && (forall k :: 0 <= k < |s.sections| ==> s.sections[k].proc != p)
                  && (forall st :: Saved(p, st) !in s.trace))
            && (forall i, j :: 0 <= i < j < |s.sections| ==> s.sections[i].proc != s.sections[j].proc)
  {
    RunWinners(cfg, InitialState(cfg), steps);
    var s := Run(cfg, InitialState(cfg), steps);
    hide Run;
    if p in s.procs && s.procs[p].outcome == OperationInProgress && s.procs[p].pc.Ended? {
      assert !Winner(s, p);
    }
  }

  // ---- each holder has its own lock ---------------------------------------

  /** Whoever is between its flock and its end holds the flock of the inode it opened. */
  predicate HoldsOwn(s: State) {
    forall p :: p in s.procs && HoldsLock(s.procs[p].pc) ==>
      s.procs[p].inode in s.holder && s.holder[s.procs[p].inode] == p
  }

  predicate Live(status: Status) { status == Running || status == Paused }

  /** What a step of q other than its flock does to its lock, its memory and its outcome:
      the lock goes when q ends, running or paused is only ever read from the disk, and
      a missing executable is only ever heard of from the child. */
  predicate OwnMove(s: State, s': State, q: ProcId) {
    && q in s.procs && q in s'.procs
    && (var x, x' := s.procs[q], s'.procs[q];
        && x'.kind == x.kind
        && (HoldsLock(x'.pc) ==> HoldsLock(x.pc) && x'.inode == x.inode)
        && (x'.pc.AtFlock? ==> x.pc.AtOpenLock? && s'.lockPath == Some(x'.inode))
        && (x'.pc.AtOpenLock? ==> x.pc.AtMkdir? || x.pc.AtLoad?)
        && !x'.pc.AtMkdir? && !x'.pc.AtLoad?
        && (x'.outcome.InvalidExecutable? ==> x.outcome.InvalidExecutable? || MsgInvalidExecutable in s.initChan)
        && s'.holder == (if HoldsLock(x.pc) && !HoldsLock(x'.pc) then s.holder - {x.inode} else s.holder)
        && (Live(x'.mem.status) ==>
              Live(x.mem.status) || (s.disk.Some? && x'.mem.status == s.disk.value.status)))
  }

  lemma FinishOwn(s: State, q: ProcId, o: Outcome)
    requires q in s.procs && !o.InvalidExecutable?
    ensures OwnMove(s, Finish(s, q, o), q)
  {}

  lemma OpeningOwn(s: State, q: ProcId)
    ensures CanMkdir(s, q) ==> OwnMove(s, DoMkdir(s, q), q)
    ensures CanLoad(s, q) ==> OwnMove(s, DoLoad(s, q), q)
    ensures CanOpenLock(s, q) ==> OwnMove(s, DoOpenLock(s, q), q)
  {
    hide CloseConnection;
  }

  lemma ReloadOwn(s: State, q: ProcId)
    ensures CanReload(s, q) ==> OwnMove(s, DoReload(s, q), q)
    ensures CanCheck(s, q) ==> OwnMove(s, DoCheck(s, q), q)
  {
    hide CloseConnection, Guard;
  }

  lemma SaveOwn(s: State, q: ProcId, r: SaveResult)
    requires CanSave(s, q, r)
    ensures OwnMove(s, DoSave(s, q, r), q)
  {
    hide CloseConnection, AnswersOf, ToSave, SaveAnswers;
  }

  lemma HooksOwn(s: State, q: ProcId, ok: bool)
    requires CanRunHooks(s, q)
    ensures OwnMove(s, DoRunHooks(s, q, ok), q)
  {
    hide CloseConnection, AnswersOf;
  }

  lemma ReceiveInitOwn(s: State, q: ProcId)
    requires CanReceiveInit(s, q)
    ensures OwnMove(s, DoReceiveInit(s, q), q)
  {
    hide CloseConnection, AnswersOf;
  }

  lemma ReceiveExecReadyOwn(s: State, q: ProcId)
    ensures CanReceiveExecReady(s, q) ==> OwnMove(s, DoReceiveExecReady(s, q), q)
  {
    hide CloseConnection, AnswersOf;
  }

  lemma DialOwn(s: State, q: ProcId)
    requires CanDial(s, q)
    ensures OwnMove(s, DoDial(s, q), q)
  {
    hide AnswersOf;
  }

  lemma SendStartOwn(cfg: Config, s: State, q: ProcId)
    requires CanSendStart(s, q)
    ensures OwnMove(s, DoSendStart(cfg, s, q), q)
  {
    hide AnswersOf;
  }

  lemma CgroupOwn(s: State, q: ProcId)
    requires CanCgroup(s, q)
    ensures OwnMove(s, DoCgroup(s, q), q)
  {
    hide AnswersOf;
  }

  lemma ForkOwn(s: State, q: ProcId, pid: nat)
    requires CanFork(s, q, pid)
    ensures OwnMove(s, DoFork(s, q, pid), q)
  {
    hide AnswersOf;
  }

  lemma ProbeOwn(s: State, q: ProcId, dead: bool)
    requires CanProbe(s, q, dead)
    ensures OwnMove(s, DoProbe(s, q, dead), q)
  {
    hide CloseConnection, AnswersOf;
  }

  lemma RemovalOwn(s: State, q: ProcId)
    ensures CanUnlinkState(s, q) ==> OwnMove(s, DoUnlinkState(s, q), q)
    ensures At(s, q, AtRemove) ==> OwnMove(s, s.(lockPath := None), q)
    ensures CanRmdir(s, q) ==> OwnMove(s, DoRmdir(s, q), q)
  {
    hide AnswersOf;
  }

  lemma StepOwn(cfg: Config, s: State, step: Step)
    requires Enabled(cfg, s, step) && !ChildStep(step) && !step.Spawn? && !step.Flock?
    ensures OwnMove(s, Do(cfg, s, step), step.p)
  {
    hide OwnMove;
    hide DoSpawn, DoMkdir, DoLoad, DoOpenLock, DoFlock, DoReload, DoCheck, DoSave, DoFork, DoReceiveInit;
    hide DoReceiveExecReady, DoRunHooks, DoDial, DoSendStart, DoCgroup, DoProbe, DoUnlinkState, DoRmdir, DoChild;
    hide Finish;
    match step
    case Mkdir(p) => OpeningOwn(s, p);
    case Load(p) => OpeningOwn(s, p);
    case OpenLock(p) => OpeningOwn(s, p);
    case Reload(p) => ReloadOwn(s, p);
    case Check(p) => ReloadOwn(s, p);
    case Save(p, r) => SaveOwn(s, p, r);
    case Fork(p, pid) => ForkOwn(s, p, pid);
    case Receive(p) => if CanReceiveInit(s, p) { ReceiveInitOwn(s, p); } else { ReceiveExecReadyOwn(s, p); }
    case RunHooks(p, ok) => HooksOwn(s, p, ok);
    case Dial(p) => DialOwn(s, p);
    case SendStart(p) => SendStartOwn(cfg, s, p);
    case Cgroup(p) => CgroupOwn(s, p);
    case Signal(p) => FinishOwn(s, p, Succeeded);
    case Probe(p, dead) => ProbeOwn(s, p, dead);
    case UnlinkState(p) => RemovalOwn(s, p);
    case UnlinkLock(p) => RemovalOwn(s, p);
    case Rmdir(p) => RemovalOwn(s, p);
    case Quit(p) => FinishOwn(s, p, Failed);
    case _ =>
  }

  /** A process that ends takes away nobody else's lock. */
  lemma MoveHoldsOwn(s: State, s': State, q: ProcId)
    requires HoldsOwn(s) && OwnMove(s, s', q) && Carries(s, s', q)
    ensures HoldsOwn(s')
  {
    hide Records, SameSections, Winner;
  }

  lemma FlockHoldsOwn(s: State, q: ProcId)
    requires HoldsOwn(s) && CanFlock(s, q)
    ensures HoldsOwn(DoFlock(s, q))
  {}

  lemma ChildHoldsOwn(cfg: Config, s: State, step: Step)
    requires HoldsOwn(s) && ChildEnabled(cfg, s, step)
    ensures HoldsOwn(DoChild(cfg, s, step))
  {
    hide MoveOf, Answered, ChildEnabled;
  }

  lemma SpawnHoldsOwn(cfg: Config, s: State, q: ProcId, k: Kind)
    requires HoldsOwn(s)
    ensures HoldsOwn(DoSpawn(cfg, s, q, k))
  {}

  lemma StepHoldsOwn(cfg: Config, s: State, step: Step)
    requires HoldsOwn(s) && Enabled(cfg, s, step)
    ensures HoldsOwn(Do(cfg, s, step))
  {
    hide CanSave, CanReceiveInit, CanReceiveExecReady, CanRunHooks, CanCheck, CanProbe, CanRmdir, CanUnlinkState;
    hide DoMkdir, DoLoad, DoOpenLock, DoReload, DoCheck, DoSave, DoFork, DoReceiveInit;
    hide DoReceiveExecReady, DoRunHooks, DoDial, DoSendStart, DoCgroup, DoProbe, DoUnlinkState, DoRmdir;
    hide DoSpawn, DoFlock, DoChild, Finish, Carries, OwnMove;
    if ChildStep(step) {
      assert ChildEnabled(cfg, s, step) && Do(cfg, s, step) == DoChild(cfg, s, step);
      hide Do, Enabled, HoldsOwn;
      ChildHoldsOwn(cfg, s, step);
    } else if step.Spawn? {
      hide HoldsOwn;
      SpawnHoldsOwn(cfg, s, step.p, step.kind);
    } else if step.Flock? {
      hide HoldsOwn;
      FlockHoldsOwn(s, step.p);
    } else {
      hide Do, Enabled, HoldsOwn;
      StepCarries(cfg, s, step);
      StepOwn(cfg, s, step);
      MoveHoldsOwn(s, Do(cfg, s, step), step.p);
    }
  }

  lemma {:induction false} RunHoldsOwn(cfg: Config, s: State, steps: seq<Step>)
    requires HoldsOwn(s) && Runs(cfg, s, steps)
    ensures HoldsOwn(Run(cfg, s, steps))
    decreases |steps|
  {
    hide HoldsOwn;
    if steps != [] {
      StepHoldsOwn(cfg, s, steps[0]);
      RunHoldsOwn(cfg, Do(cfg, s, steps[0]), steps[1..]);
    }
  }

  // ---- and each lock has its holder ---------------------------------------

  /** Every lock that is held is held by a command between its flock and its end. */
  predicate HeldByLive(s: State) {
    forall i :: i in s.holder ==>
      && s.holder[i] in s.procs && HoldsLock(s.procs[s.holder[i]].pc)
      && s.procs[s.holder[i]].inode == i
  }

  lemma MoveHeldByLive(s: State, s': State, q: ProcId)
    requires HeldByLive(s) && OwnMove(s, s', q) && Carries(s, s', q)
    ensures HeldByLive(s')
  {
    hide Records, SameSections, Winner;
  }

  lemma FlockHeldByLive(s: State, q: ProcId)
    requires HeldByLive(s) && CanFlock(s, q)
    ensures HeldByLive(DoFlock(s, q))
  {}

  lemma RestHeldByLive(cfg: Config, s: State, step: Step, q: ProcId, k: Kind)
    requires HeldByLive(s)
    ensures ChildEnabled(cfg, s, step) ==> HeldByLive(DoChild(cfg, s, step))
    ensures q !in s.procs ==> HeldByLive(DoSpawn(cfg, s, q, k))
  {
    hide MoveOf, Answered, ChildEnabled;
  }

  lemma StepHeldByLive(cfg: Config, s: State, step: Step)
    requires HeldByLive(s) && Enabled(cfg, s, step)
    ensures HeldByLive(Do(cfg, s, step))
  {
    hide HeldByLive, Carries, OwnMove;
    hide DoSpawn, DoMkdir, DoLoad, DoOpenLock, DoFlock, DoReload, DoCheck, DoSave, DoFork, DoReceiveInit;
    hide DoReceiveExecReady, DoRunHooks, DoDial, DoSendStart, DoCgroup, DoProbe, DoUnlinkState, DoRmdir, DoChild;
    hide Finish;
    if ChildStep(step) {
      assert ChildEnabled(cfg, s, step) && Do(cfg, s, step) == DoChild(cfg, s, step);
      RestHeldByLive(cfg, s, step, 0, Create);
    } else if step.Spawn? {
      RestHeldByLive(cfg, s, step, step.p, step.kind);
    } else if step.Flock? {
      FlockHeldByLive(s, step.p);
    } else {
      hide Do, Enabled;
      StepCarries(cfg, s, step);
      StepOwn(cfg, s, step);
      MoveHeldByLive(s, Do(cfg, s, step), step.p);
    }
  }

  lemma {:induction false} RunHeldByLive(cfg: Config, s: State, steps: seq<Step>)
    requires HeldByLive(s) && Runs(cfg, s, steps)
    ensures HeldByLive(Run(cfg, s, steps))
    decreases |steps|
  {
    hide HeldByLive;
    if steps != [] {
      StepHeldByLive(cfg, s, steps[0]);
      RunHeldByLive(cfg, Do(cfg, s, steps[0]), steps[1..]);
    }
  }

  /** On every run the flock of an inode is taken exactly while some command is between its
      flock of that inode and its end: nobody is refused for a command that has ended. */
  lemma TakenExactlyWhileHeld(cfg: Config, steps: seq<Step>, i: nat)
    requires Runs(cfg, InitialState(cfg), steps)
    ensures var s := Run(cfg, InitialState(cfg), steps);
            i in s.holder <==> exists q :: q in s.procs && HoldsLock(s.procs[q].pc) && s.procs[q].inode == i
  {
    var s := Run(cfg, InitialState(cfg), steps);
    RunHoldsOwn(cfg, InitialState(cfg), steps);
    RunHeldByLive(cfg, InitialState(cfg), steps);
    hide Run, HoldsLock;
    if i in s.holder {
      var q := s.holder[i];
      assert q in s.procs && HoldsLock(s.procs[q].pc) && s.procs[q].inode == i;
    }
  }
}
