/**
 os.RemoveAll is not atomic: it unlinks the entries of the container directory one
 by one. A run is safe as long as nobody makes c.lock anew while state.json is there;
 an environment is safe exactly when c.lock cannot go before state.json.
 */
module RemovalOrder {
  import opened Wrappers
  import opened Lifecycle
  import opened Protocol
  import opened Handshake
  import opened Frames
  import opened Locking

  // ---- runs, one step longer ----------------------------------------------

  lemma {:induction false} RunAppend(cfg: Config, s: State, before: seq<Step>, after: seq<Step>)
    requires Runs(cfg, s, before) && Runs(cfg, Run(cfg, s, before), after)
    ensures Runs(cfg, s, before + after)
    ensures Run(cfg, s, before + after) == Run(cfg, Run(cfg, s, before), after)
    decreases |before|
  {
    if before == [] {
      assert before + after == after;
    } else {
      assert (before + after)[1..] == before[1..] + after;
      RunAppend(cfg, Do(cfg, s, before[0]), before[1..], after);
    }
  }

  predicate Reaches(cfg: Config, steps: seq<Step>, s: State) {
    Runs(cfg, InitialState(cfg), steps) && Run(cfg, InitialState(cfg), steps) == s
  }

  lemma OneStep(cfg: Config, s: State, step: Step)
    requires Enabled(cfg, s, step)
    ensures Runs(cfg, s, [step]) && Run(cfg, s, [step]) == Do(cfg, s, step)
  {
    var t := Do(cfg, s, step);
    hide Do, Enabled;
    assert [step][1..] == [];
    assert Runs(cfg, t, []) && Run(cfg, t, []) == t;
  }

  lemma Take(cfg: Config, steps: seq<Step>, s: State, step: Step) returns (more: seq<Step>, s': State)
    requires Reaches(cfg, steps, s) && Enabled(cfg, s, step)
    ensures s' == Do(cfg, s, step) && Reaches(cfg, more, s')
  {
    more, s' := steps + [step], Do(cfg, s, step);
    OneStep(cfg, s, step);
    RunAppend(cfg, InitialState(cfg), steps, [step]);
  }

  // ---- one effective writer -----------------------------------------------

  predicate SingleWriter(s: State) {
    forall p, q :: p in s.procs && q in s.procs && Critical(s.procs[p].pc) && Critical(s.procs[q].pc) ==> p == q
  }

  /** state.json's history is that of the lock winners run whole, in lock order. */
  predicate Serial(cfg: Config, s: State) {
    s.saves == SerialSaves(cfg, s.sections) && s.disk == SerialDisk(cfg, s.sections)
  }

  ghost predicate AlwaysSingleWriter(cfg: Config) {
    forall steps :: Runs(cfg, InitialState(cfg), steps) ==> SingleWriter(Run(cfg, InitialState(cfg), steps))
  }

  ghost predicate AlwaysSerial(cfg: Config) {
    forall steps :: Runs(cfg, InitialState(cfg), steps) ==> Serial(cfg, Run(cfg, InitialState(cfg), steps))
  }

  /** Once removed, state.json never comes back. */
  ghost predicate AlwaysStaysGone(cfg: Config) {
    forall steps, more ::
      Runs(cfg, InitialState(cfg), steps) && Runs(cfg, Run(cfg, InitialState(cfg), steps), more)
      && Gone(Run(cfg, InitialState(cfg), steps))
      ==> Gone(Run(cfg, Run(cfg, InitialState(cfg), steps), more))
  }

  /** On every run of every environment that never makes c.lock anew beside state.json,
      there is one writer at a time and the history is serial. */
  lemma LockKeptIsEnough(cfg: Config, steps: seq<Step>)
    requires Runs(cfg, InitialState(cfg), steps) && LockKept(cfg, InitialState(cfg), steps)
    ensures var s := Run(cfg, InitialState(cfg), steps); SingleWriter(s) && Serial(cfg, s)
  {
    ReachableLocked(cfg, steps);
    var s := Run(cfg, InitialState(cfg), steps);
    hide Run, LockKept, Runs, Inv;
    assert Serial(cfg, s);
    hide SerialOk, FilesOk, Serial;
    forall p, q | p in s.procs && q in s.procs && Critical(s.procs[p].pc) && Critical(s.procs[q].pc)
      ensures p == q
    {
      Alone(cfg, LockViewOf(s), p, s.procs[p], q, s.procs[q]);
    }
  }

  // ---- removals that take state.json first --------------------------------

  /** state.json is not there without c.lock. */
  predicate Named(s: State) { s.disk.Some? ==> s.lockPath.Some? }

  /** Whoever saves for the first time has made c.lock before. */
  lemma SaverIsNamed(cfg: Config, s: State, p: ProcId, r: SaveResult)
    requires LockInv(cfg, s) && Named(s) && CanSave(s, p, r)
    ensures s.lockPath.Some?
  {
    NoSaveWhenGone(cfg, s, p, r);
    LockedOf(cfg, s, p);
    hide AllLocked, SerialOk, Progress;
  }

  lemma StepNamed(cfg: Config, s: State, step: Step)
    requires LockInv(cfg, s) && Named(s) && Enabled(cfg, s, step) && !cfg.lockFirst
    ensures Named(Do(cfg, s, step)) && !Remakes(s, step)
  {
    hide LockInv;
    if step.Save? {
      SaverIsNamed(cfg, s, step.p, step.result);
      SaveKeepsDir(s, step.p, step.result);
      hide DoSave;
    } else if step.Mkdir? || step.UnlinkState? || step.UnlinkLock? || step.Rmdir? {
      hide CloseConnection, AnswersOf;
    } else {
      hide Do, Enabled;
      StepSameFiles(cfg, s, step);
    }
  }

  lemma {:induction false} RunNamed(cfg: Config, s: State, steps: seq<Step>)
    requires LockInv(cfg, s) && Inv(cfg, s) && Named(s) && Runs(cfg, s, steps) && !cfg.lockFirst
    ensures LockKept(cfg, s, steps)
    decreases |steps|
  {
    hide Inv, LockInv, Named, Remakes;
    if steps != [] {
      StepNamed(cfg, s, steps[0]);
      StepKeeps(cfg, s, steps[0]);
      StepLocked(cfg, s, steps[0]);
      RunNamed(cfg, Do(cfg, s, steps[0]), steps[1..]);
    }
  }

  /** An environment whose removals take state.json before c.lock never makes c.lock
      anew beside state.json. */
  lemma StateFirstKeepsLock(cfg: Config, steps: seq<Step>)
    requires Runs(cfg, InitialState(cfg), steps) && !cfg.lockFirst
    ensures LockKept(cfg, InitialState(cfg), steps)
  {
    RunNamed(cfg, InitialState(cfg), steps);
  }

  /** The lock gives one writer at a time exactly when the removal of a container
      directory never takes c.lock away before state.json. */
  lemma SingleWriterIff(cfg: Config)
    ensures AlwaysSingleWriter(cfg) <==> !cfg.lockFirst
  {
    if cfg.lockFirst {
      var steps, s := TwoWriters(cfg);
      assert !SingleWriter(Run(cfg, InitialState(cfg), steps));
    } else {
      forall steps | Runs(cfg, InitialState(cfg), steps)
        ensures SingleWriter(Run(cfg, InitialState(cfg), steps))
      {
        StateFirstKeepsLock(cfg, steps);
        LockKeptIsEnough(cfg, steps);
      }
    }
  }

  /** Every interleaving of every command is serialisable in exactly the same
      environments. */
  lemma SerialIff(cfg: Config)
    ensures AlwaysSerial(cfg) <==> !cfg.lockFirst
  {
    if cfg.lockFirst {
      var steps, s, more, t := Resurrection(cfg);
      assert !Serial(cfg, Run(cfg, InitialState(cfg), steps + more));
    } else {
      forall steps | Runs(cfg, InitialState(cfg), steps)
        ensures Serial(cfg, Run(cfg, InitialState(cfg), steps))
      {
        StateFirstKeepsLock(cfg, steps);
        LockKeptIsEnough(cfg, steps);
      }
    }
  }

  /** Only saves write state.json. */
  lemma OnlySavesWrite(cfg: Config, s: State, step: Step)
    requires Enabled(cfg, s, step) && !step.Save?
    ensures var s' := Do(cfg, s, step); s'.saves == s.saves && (s'.disk == s.disk || s'.disk.None?)
  {
    if step.Mkdir? || step.UnlinkState? || step.Rmdir? {
      hide CloseConnection, AnswersOf;
    } else {
      hide Do, Enabled;
      StepSameFiles(cfg, s, step);
    }
  }

  lemma NoSaveWhenGone(cfg: Config, s: State, p: ProcId, r: SaveResult)
    requires LockInv(cfg, s) && CanSave(s, p, r)
    ensures !Gone(s)
  {
    LockedOf(cfg, s, p);
    hide AllLocked, Progress;
  }

  lemma StepStaysGone(cfg: Config, s: State, step: Step)
    requires LockInv(cfg, s) && Gone(s) && Enabled(cfg, s, step)
    ensures Gone(Do(cfg, s, step)) && Do(cfg, s, step).saves == s.saves
  {
    hide LockInv, Do;
    if step.Save? {
      NoSaveWhenGone(cfg, s, step.p, step.result);
    } else {
      OnlySavesWrite(cfg, s, step);
    }
  }

  lemma {:induction false} RunStaysGone(cfg: Config, s: State, more: seq<Step>)
    requires LockInv(cfg, s) && Inv(cfg, s) && Gone(s) && Runs(cfg, s, more)
    ensures Gone(Run(cfg, s, more)) && Run(cfg, s, more).saves == s.saves
    decreases |more|
  {
    hide Inv, LockInv;
    if more != [] {
      assert !Remakes(s, more[0]);
      hide Gone;
      StepStaysGone(cfg, s, more[0]);
      StepKeeps(cfg, s, more[0]);
      StepLocked(cfg, s, more[0]);
      RunStaysGone(cfg, Do(cfg, s, more[0]), more[1..]);
    }
  }

  lemma StaysGoneIff(cfg: Config)
    ensures AlwaysStaysGone(cfg) <==> !cfg.lockFirst
  {
    if cfg.lockFirst {
      var steps, s, more, t := Resurrection(cfg);
      assert Run(cfg, InitialState(cfg), steps) == s;
    } else {
      forall steps, more |
        Runs(cfg, InitialState(cfg), steps) && Runs(cfg, Run(cfg, InitialState(cfg), steps), more)
        && Gone(Run(cfg, InitialState(cfg), steps))
        ensures Gone(Run(cfg, Run(cfg, InitialState(cfg), steps), more))
      {
        StateFirstKeepsLock(cfg, steps);
        ReachableLocked(cfg, steps);
        RunStaysGone(cfg, Run(cfg, InitialState(cfg), steps), more);
      }
    }
  }

  // Take, for one kind of step each.

  lemma TakeSpawn(cfg: Config, steps: seq<Step>, s: State, p: ProcId, k: Kind) returns (more: seq<Step>, s': State)
    requires Reaches(cfg, steps, s) && p !in s.procs
    ensures s' == DoSpawn(cfg, s, p, k) && Reaches(cfg, more, s')
  {
    more, s' := Take(cfg, steps, s, Spawn(p, k));
  }

  lemma TakeMkdir(cfg: Config, steps: seq<Step>, s: State, p: ProcId) returns (more: seq<Step>, s': State)
    requires Reaches(cfg, steps, s) && CanMkdir(s, p)
    ensures s' == DoMkdir(s, p) && Reaches(cfg, more, s')
  {
    more, s' := Take(cfg, steps, s, Mkdir(p));
  }

  lemma TakeLoad(cfg: Config, steps: seq<Step>, s: State, p: ProcId) returns (more: seq<Step>, s': State)
    requires Reaches(cfg, steps, s) && CanLoad(s, p)
    ensures s' == DoLoad(s, p) && Reaches(cfg, more, s')
  {
    more, s' := Take(cfg, steps, s, Load(p));
  }

  lemma TakeOpenLock(cfg: Config, steps: seq<Step>, s: State, p: ProcId) returns (more: seq<Step>, s': State)
    requires Reaches(cfg, steps, s) && CanOpenLock(s, p)
    ensures s' == DoOpenLock(s, p) && Reaches(cfg, more, s')
  {
    more, s' := Take(cfg, steps, s, OpenLock(p));
  }

  lemma TakeFlock(cfg: Config, steps: seq<Step>, s: State, p: ProcId) returns (more: seq<Step>, s': State)
    requires Reaches(cfg, steps, s) && CanFlock(s, p)
    ensures s' == DoFlock(s, p) && Reaches(cfg, more, s')
  {
    more, s' := Take(cfg, steps, s, Flock(p));
  }

  lemma TakeReload(cfg: Config, steps: seq<Step>, s: State, p: ProcId) returns (more: seq<Step>, s': State)
    requires Reaches(cfg, steps, s) && CanReload(s, p)
    ensures s' == DoReload(s, p) && Reaches(cfg, more, s')
  {
    more, s' := Take(cfg, steps, s, Reload(p));
  }

  lemma TakeSave(cfg: Config, steps: seq<Step>, s: State, p: ProcId, r: SaveResult) returns (more: seq<Step>, s': State)
    requires Reaches(cfg, steps, s) && CanSave(s, p, r)
    ensures s' == DoSave(s, p, r) && Reaches(cfg, more, s')
  {
    more, s' := Take(cfg, steps, s, Save(p, r));
  }

  lemma TakeProbe(cfg: Config, steps: seq<Step>, s: State, p: ProcId, dead: bool) returns (more: seq<Step>, s': State)
    requires Reaches(cfg, steps, s) && CanProbe(s, p, dead)
    ensures s' == DoProbe(s, p, dead) && Reaches(cfg, more, s')
  {
    more, s' := Take(cfg, steps, s, Probe(p, dead));
  }

  lemma TakeCheck(cfg: Config, steps: seq<Step>, s: State, p: ProcId) returns (more: seq<Step>, s': State)
    requires Reaches(cfg, steps, s) && CanCheck(s, p)
    ensures s' == DoCheck(s, p) && Reaches(cfg, more, s')
  {
    more, s' := Take(cfg, steps, s, Check(p));
  }

  lemma TakeUnlinkLock(cfg: Config, steps: seq<Step>, s: State, p: ProcId) returns (more: seq<Step>, s': State)
    requires Reaches(cfg, steps, s) && CanUnlinkLock(cfg, s, p)
    ensures s' == s.(lockPath := None) && Reaches(cfg, more, s')
  {
    more, s' := Take(cfg, steps, s, UnlinkLock(p));
  }

  lemma TakeDial(cfg: Config, steps: seq<Step>, s: State, p: ProcId) returns (more: seq<Step>, s': State)
    requires Reaches(cfg, steps, s) && CanDial(s, p)
    ensures s' == DoDial(s, p) && Reaches(cfg, more, s')
  {
    more, s' := Take(cfg, steps, s, Dial(p));
  }

  lemma TakeQuit(cfg: Config, steps: seq<Step>, s: State, p: ProcId) returns (more: seq<Step>, s': State)
    requires Reaches(cfg, steps, s) && p in s.procs && !s.procs[p].pc.Ended?
    ensures s' == Finish(s, p, Failed) && Reaches(cfg, more, s')
  {
    more, s' := Take(cfg, steps, s, Quit(p));
  }

  lemma TakeFork(cfg: Config, steps: seq<Step>, s: State, p: ProcId, pid: nat) returns (more: seq<Step>, s': State)
    requires Reaches(cfg, steps, s) && CanFork(s, p, pid)
    ensures s' == DoFork(s, p, pid) && Reaches(cfg, more, s')
  {
    more, s' := Take(cfg, steps, s, Fork(p, pid));
  }

  lemma TakeReceive(cfg: Config, steps: seq<Step>, s: State, p: ProcId) returns (more: seq<Step>, s': State)
    requires Reaches(cfg, steps, s) && CanReceiveInit(s, p)
    ensures s' == DoReceiveInit(s, p) && Reaches(cfg, more, s')
  {
    more, s' := Take(cfg, steps, s, Receive(p));
  }

  lemma TakeReceiveExecReady(cfg: Config, steps: seq<Step>, s: State, p: ProcId) returns (more: seq<Step>, s': State)
    requires Reaches(cfg, steps, s) && CanReceiveExecReady(s, p)
    ensures s' == DoReceiveExecReady(s, p) && Reaches(cfg, more, s')
  {
    more, s' := Take(cfg, steps, s, Receive(p));
  }

  lemma TakeSendStart(cfg: Config, steps: seq<Step>, s: State, p: ProcId) returns (more: seq<Step>, s': State)
    requires Reaches(cfg, steps, s) && CanSendStart(s, p)
    ensures s' == DoSendStart(cfg, s, p) && Reaches(cfg, more, s')
  {
    more, s' := Take(cfg, steps, s, SendStart(p));
  }

  lemma TakeRunHooks(cfg: Config, steps: seq<Step>, s: State, p: ProcId, ok: bool) returns (more: seq<Step>, s': State)
    requires Reaches(cfg, steps, s) && CanRunHooks(s, p)
    ensures s' == DoRunHooks(s, p, ok) && Reaches(cfg, more, s')
  {
    more, s' := Take(cfg, steps, s, RunHooks(p, ok));
  }

  lemma TakeUnlinkState(cfg: Config, steps: seq<Step>, s: State, p: ProcId) returns (more: seq<Step>, s': State)
    requires Reaches(cfg, steps, s) && CanUnlinkState(s, p)
    ensures s' == DoUnlinkState(s, p) && Reaches(cfg, more, s')
  {
    more, s' := Take(cfg, steps, s, UnlinkState(p));
  }

  lemma TakeRmdir(cfg: Config, steps: seq<Step>, s: State, p: ProcId) returns (more: seq<Step>, s': State)
    requires Reaches(cfg, steps, s) && CanRmdir(s, p)
    ensures s' == DoRmdir(s, p) && Reaches(cfg, more, s')
  {
    more, s' := Take(cfg, steps, s, Rmdir(p));
  }

  lemma TakeChild(cfg: Config, steps: seq<Step>, s: State, step: Step) returns (more: seq<Step>, s': State)
    requires Reaches(cfg, steps, s) && ChildEnabled(cfg, s, step)
    ensures s' == DoChild(cfg, s, step) && Reaches(cfg, more, s')
  {
    more, s' := Take(cfg, steps, s, step);
  }

  /** The shared state while process 0 is the only one and holds the lock. */
  predicate OnlyCreator(cfg: Config, s: State, pc: PC) {
    && At(s, 0, pc) && s.procs.Keys == {0} && s.procs[0].kind.Create?
    && s.procs[0].inode == 0 && s.procs[0].section == 0 && s.procs[0].conn.None?
    && s.creator == Some(0)
    && s.dir.Present? && s.lockPath == Some(0) && s.nextInode == 1 && s.holder == map[0 := 0]
    && |s.sections| == 1 && s.sections[0].kind.Create?
  }

  lemma CreateLocks(cfg: Config) returns (steps: seq<Step>, s: State)
    ensures Reaches(cfg, steps, s) && OnlyCreator(cfg, s, AtSaveCreating)
    ensures s.procs[0].mem == NewState(cfg) && s.initRead == 0 && s.initChan == [] && s.saves == [] && s.conns == []
  {
    steps, s := [], InitialState(cfg);
    assert Reaches(cfg, steps, s);
    hide Reaches;
    steps, s := TakeSpawn(cfg, steps, s, 0, Create);
    steps, s := TakeMkdir(cfg, steps, s, 0);
    steps, s := TakeOpenLock(cfg, steps, s, 0);
    steps, s := TakeFlock(cfg, steps, s, 0);
  }

  lemma CreateSaves(cfg: Config) returns (steps: seq<Step>, s: State)
    ensures Reaches(cfg, steps, s) && OnlyCreator(cfg, s, AtFork)
    ensures s.procs[0].mem == NewState(cfg) && s.initRead == 0 && s.initChan == []
    ensures s.saves == [NewState(cfg)] && s.conns == [] && s.disk.Some? && s.sections[0].answers.save1 == Done
  {
    hide Reaches;
    steps, s := CreateLocks(cfg);
    steps, s := TakeSave(cfg, steps, s, 0, Done);
  }

  lemma CreateForks(cfg: Config) returns (steps: seq<Step>, s: State)
    ensures Reaches(cfg, steps, s) && OnlyCreator(cfg, s, AtRecvPrePivot)
    ensures ChildAt(s, Forked) && s.initRead == 0 && s.initChan == []
    ensures s.saves == [NewState(cfg)] && s.conns == [] && s.disk.Some?
    ensures s.sections[0].answers.save1 == Done && s.procs[0].mem.pid == 1
  {
    hide Reaches;
    steps, s := CreateSaves(cfg);
    steps, s := TakeFork(cfg, steps, s, 0, 1);
  }

  lemma ChildSpeaks(cfg: Config) returns (steps: seq<Step>, s: State)
    ensures Reaches(cfg, steps, s) && OnlyCreator(cfg, s, AtRecvPrePivot)
    ensures ChildAt(s, PrePivotSent) && s.initRead == 0 && s.initChan == [MsgPrePivot]
    ensures s.saves == [NewState(cfg)] && s.conns == []
    ensures s.sections[0].answers.save1 == Done && s.procs[0].mem.pid == 1
  {
    hide Reaches;
    steps, s := CreateForks(cfg);
    steps, s := TakeChild(cfg, steps, s, ChildLoad);
    steps, s := TakeChild(cfg, steps, s, ChildPrePivot);
  }

  lemma CreateHears(cfg: Config) returns (steps: seq<Step>, s: State)
    ensures Reaches(cfg, steps, s) && OnlyCreator(cfg, s, AtRecvReady)
    ensures ChildAt(s, PrePivotSent) && s.initRead == 1 && s.initChan == [MsgPrePivot]
    ensures s.saves == [NewState(cfg)] && s.conns == []
    ensures s.sections[0].answers.save1 == Done && s.procs[0].mem.pid == 1
  {
    hide Reaches;
    steps, s := ChildSpeaks(cfg);
    steps, s := TakeReceive(cfg, steps, s, 0);
    assert OnlyCreator(cfg, s, AtCreateRuntime);
    steps, s := TakeRunHooks(cfg, steps, s, 0, true);
  }

  lemma ChildGetsReady(cfg: Config) returns (steps: seq<Step>, s: State)
    ensures Reaches(cfg, steps, s) && OnlyCreator(cfg, s, AtRecvReady)
    ensures ChildAt(s, ReadySent) && s.initRead == 1 && s.initChan == [MsgPrePivot, MsgReady]
    ensures s.saves == [NewState(cfg)] && s.conns == []
    ensures s.sections[0].answers.save1 == Done && s.procs[0].mem.pid == 1
  {
    hide Reaches;
    steps, s := CreateHears(cfg);
    steps, s := TakeChild(cfg, steps, s, ChildRoot(true));
    steps, s := TakeChild(cfg, steps, s, ChildCreateHooks(true));
    steps, s := TakeChild(cfg, steps, s, ChildReady);
  }

  lemma CreateReady(cfg: Config) returns (steps: seq<Step>, s: State)
    ensures Reaches(cfg, steps, s) && OnlyCreator(cfg, s, AtSaveCreated)
    ensures ChildAt(s, ReadySent) && s.saves == [NewState(cfg)] && s.conns == []
    ensures s.sections[0].answers.save1 == Done && s.procs[0].mem.pid == 1
  {
    hide Reaches;
    steps, s := ChildGetsReady(cfg);
    steps, s := TakeReceive(cfg, steps, s, 0);
  }

  /** A container whose create has returned, with nobody else there. */
  predicate AtRest(s: State) {
    && s.dir.Present? && s.disk.Some? && s.disk.value.pid != 0 && s.saves != []
    && s.lockPath == Some(0) && s.nextInode == 1 && s.holder == map[]
    && s.procs.Keys == {0} && s.procs[0].pc.Ended?
    && |s.sections| == 1 && s.sections[0].kind.Create? && s.sections[0].answers.save1 == Done
  }

  lemma CreatedContainer(cfg: Config) returns (steps: seq<Step>, s: State)
    ensures Reaches(cfg, steps, s) && AtRest(s) && ChildAt(s, ReadySent) && s.conns == []
    ensures |s.saves| == 2 && s.disk == Some(s.saves[1])
    ensures s.saves[0].status == Creating && s.saves[1].status == Created
  {
    hide Reaches;
    steps, s := CreateReady(cfg);
    steps, s := TakeSave(cfg, steps, s, 0, Done);
  }

  /** A container that was created and whose child has then died. */
  lemma CreatedThenDead(cfg: Config) returns (steps: seq<Step>, s: State)
    ensures Reaches(cfg, steps, s) && AtRest(s) && !s.child.alive
  {
    hide Reaches;
    steps, s := CreatedContainer(cfg);
    steps, s := TakeChild(cfg, steps, s, ChildDie);
  }

  /** Any new operation gets past its reload when nobody holds the lock file that the
      name c.lock leads to. */
  lemma GetIn(cfg: Config, steps: seq<Step>, s: State, p: ProcId, k: Kind) returns (more: seq<Step>, t: State)
    requires Reaches(cfg, steps, s)
    requires && p !in s.procs && !k.Create? && s.disk.Some? && s.disk.value.pid != 0 && s.dir.Present?
             && (if s.lockPath.Some? then s.lockPath.value !in s.holder else s.nextInode !in s.holder)
    ensures Reaches(cfg, more, t)
    ensures && At(t, p, AfterReload(k)) && t.procs[p].kind == k && t.procs == s.procs[p := t.procs[p]]
            && t.procs[p].section == |s.sections| && t.procs[p].mem == s.disk.value
            && t.conns == s.conns && t.disk == s.disk && t.dir == s.dir && t.saves == s.saves && t.child == s.child
            && t.lockPath == Some(if s.lockPath.Some? then s.lockPath.value else s.nextInode)
            && t.nextInode == (if s.lockPath.Some? then s.nextInode else s.nextInode + 1)
            && t.holder == s.holder[t.lockPath.value := p]
            && t.sections == s.sections + [Section(p, k, NoAnswers)]
  {
    hide Reaches;
    more, t := TakeSpawn(cfg, steps, s, p, k);
    more, t := TakeLoad(cfg, more, t, p);
    more, t := TakeOpenLock(cfg, more, t, p);
    more, t := TakeFlock(cfg, more, t, p);
    more, t := TakeReload(cfg, more, t, p);
    ReloadExact(s.disk.value, s.disk.value);
  }

  /** A delete that may remove takes c.lock away first. */
  lemma UnlockFirst(cfg: Config, steps: seq<Step>, s: State, p: ProcId) returns (more: seq<Step>, t: State)
    requires Reaches(cfg, steps, s) && cfg.lockFirst
    requires At(s, p, AtProbe) && s.procs[p].kind == Delete(true) && s.lockPath.Some?
    ensures Reaches(cfg, more, t)
    ensures At(t, p, AtRemove) && t.procs == s.procs[p := t.procs[p]]
    ensures t.procs[p].section == s.procs[p].section
    ensures t == s.(lockPath := None, procs := t.procs)
  {
    hide Reaches;
    more, t := TakeProbe(cfg, steps, s, p, false);
    more, t := TakeCheck(cfg, more, t, p);
    more, t := TakeUnlinkLock(cfg, more, t, p);
  }

  /** A forced delete stopped between its two unlinks, c.lock first, and a state
      command that makes a new c.lock meanwhile and finds the process dead. */
  lemma TwoWriters(cfg: Config) returns (steps: seq<Step>, s: State)
    requires cfg.lockFirst
    ensures Reaches(cfg, steps, s) && !SingleWriter(s)
    ensures At(s, 1, AtRemove) && s.procs[1].section == 1 && s.disk.Some? && s.saves != [] && s.dir.Present?
    ensures At(s, 2, AtProbe) && s.procs[2].section == 2 && s.procs[2].mem.pid != 0 && !s.child.alive
    ensures s.procs[2].kind == GetState
    ensures |s.sections| == 3 && s.sections[0].kind.Create? && s.sections[0].answers.save1 == Done
    ensures s.sections[1].kind == Delete(true) && s.sections[2].kind == GetState
  {
    hide Reaches;
    steps, s := CreatedThenDead(cfg);
    steps, s := GetIn(cfg, steps, s, 1, Delete(true));
    steps, s := UnlockFirst(cfg, steps, s, 1);
    steps, s := GetIn(cfg, steps, s, 2, GetState);
    assert Critical(s.procs[1].pc) && Critical(s.procs[2].pc);
  }

  /** The state command has found the process dead, and the delete goes on. */
  lemma RemovedUnderneath(cfg: Config) returns (steps: seq<Step>, s: State)
    requires cfg.lockFirst
    ensures Reaches(cfg, steps, s) && Gone(s) && s.dir.Present?
    ensures At(s, 2, AtSaveDead) && s.procs[2].section == 2
    ensures |s.sections| == 3 && s.sections[0].kind.Create? && s.sections[0].answers.save1 == Done
    ensures s.sections[1].kind == Delete(true) && s.sections[1].answers.unlinked && s.sections[2].kind == GetState
  {
    hide Reaches;
    steps, s := TwoWriters(cfg);
    steps, s := TakeProbe(cfg, steps, s, 2, true);
    assert s.sections[1].kind == Delete(true) && s.sections[0].answers.save1 == Done;
    steps, s := TakeUnlinkState(cfg, steps, s, 1);
  }

  /** The same two, carried on: the state command writes state.json anew. */
  lemma Resurrection(cfg: Config) returns (steps: seq<Step>, s: State, more: seq<Step>, t: State)
    requires cfg.lockFirst
    ensures Reaches(cfg, steps, s) && Gone(s)
    ensures Runs(cfg, s, more) && Run(cfg, s, more) == t && Reaches(cfg, steps + more, t)
    ensures !Gone(t) && t.disk != SerialDisk(cfg, t.sections)
  {
    hide Reaches;
    steps, s := RemovedUnderneath(cfg);
    more, t := [Save(2, Done)], DoSave(s, 2, Done);
    assert more[1..] == [];
    assert Runs(cfg, s, more) && Run(cfg, s, more) == t;
    JoinRuns(cfg, steps, s, more, t);
    SerialOfThree(cfg, t.sections);
  }

  lemma JoinRuns(cfg: Config, steps: seq<Step>, s: State, more: seq<Step>, t: State)
    requires Reaches(cfg, steps, s) && Runs(cfg, s, more) && Run(cfg, s, more) == t
    ensures Reaches(cfg, steps + more, t)
  {
    RunAppend(cfg, InitialState(cfg), steps, more);
  }

  lemma SerialOfThree(cfg: Config, c: seq<Section>)
    requires |c| == 3 && c[0].kind.Create? && c[0].answers.save1 == Done
    requires c[1].kind == Delete(true) && c[1].answers.unlinked && c[2].kind == GetState
    ensures SerialDisk(cfg, c) == None
  {
    assert c[..2][..1] == c[..1] && c[..1][..0] == [];
    assert SerialDisk(cfg, c[..1]).Some?;
    assert SerialDisk(cfg, c[..2]).None?;
  }
}
