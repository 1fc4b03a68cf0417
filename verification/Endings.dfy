/**
 Situations that no later command can leave: a create that died, a start that died
 on the child's one connection, and a lock file whose directory is gone.
 */
module Endings {
  import opened Wrappers
  import opened Lifecycle
  import opened Protocol
  import opened Handshake
  import opened HookOrder
  import opened Frames
  import opened Locking
  import opened RemovalOrder
  import opened Guarantees

  lemma EndedStays(cfg: Config, s: State, step: Step, c: ProcId)
    requires Enabled(cfg, s, step) && c in s.procs && s.procs[c].pc.Ended?
    ensures var s' := Do(cfg, s, step); c in s'.procs && s'.procs[c] == s.procs[c]
  {
    if ChildStep(step) {
      assert ChildEnabled(cfg, s, step) && Do(cfg, s, step) == DoChild(cfg, s, step);
      hide ChildEnabled, MoveOf, Answered;
    } else if step.Spawn? || step.Flock? {
      EndedCannotStep(cfg, s, step, c);
    } else {
      EndedCannotStep(cfg, s, step, c);
      hide Do, Enabled;
      StepCarries(cfg, s, step);
    }
  }

  lemma EndedCannotStep(cfg: Config, s: State, step: Step, c: ProcId)
    requires Enabled(cfg, s, step) && c in s.procs && s.procs[c].pc.Ended?
    requires !ChildStep(step)
    ensures step.p != c
  {}

  // ---- a failed create ----------------------------------------------------

  /** The create that made the container is over and left it creating. */
  predicate LeftCreating(s: State) {
    && |s.saves| == 1
    && s.creator.Some? && s.creator.value in s.procs && s.procs[s.creator.value].pc.Ended?
  }

  lemma NobodySaves(cfg: Config, s: State, p: ProcId, r: SaveResult)
    requires Inv(cfg, s) && LeftCreating(s)
    ensures !CanSave(s, p, r)
  {
    hide SharedOk, ConnsOk, SavesOk, ProcsOk;
    if CanSave(s, p, r) {
      if AtSaveCreatePC(s.procs[p].pc) {
        FactsOf(cfg, s, p);
      } else {
        OnlyOneSaveWhileCreating(cfg, s, p);
      }
    }
  }

  lemma CreatorStays(cfg: Config, s: State, step: Step)
    requires Enabled(cfg, s, step) && s.creator.Some? && !s.dir.Absent?
    ensures Do(cfg, s, step).creator == s.creator
  {
    if step.Mkdir? || step.UnlinkState? || step.Rmdir? {
      hide CloseConnection, AnswersOf;
    } else if step.Save? {
      SaveKeepsDir(s, step.p, step.result);
    } else {
      hide Do, Enabled;
      StepSameFiles(cfg, s, step);
    }
  }

  lemma StepLeftCreating(cfg: Config, s: State, step: Step)
    requires Inv(cfg, s) && LeftCreating(s) && Enabled(cfg, s, step)
    ensures LeftCreating(Do(cfg, s, step)) && Do(cfg, s, step).saves == s.saves
    ensures Do(cfg, s, step).disk == s.disk || Do(cfg, s, step).disk.None?
  {
    assert !s.dir.Absent? by { hide SavesOk, ConnsOk, ProcsOk; }
    hide Inv, Do;
    assert !step.Save? by { if step.Save? { NobodySaves(cfg, s, step.p, step.result); } }
    OnlySavesWrite(cfg, s, step);
    EndedStays(cfg, s, step, s.creator.value);
    CreatorStays(cfg, s, step);
    hide Enabled;
  }

  /** On a run: state.json is untouched until some forced delete unlinks it. */
  ghost predicate OnlyForcedDelete(cfg: Config, s: State, steps: seq<Step>)
    requires Runs(cfg, s, steps)
    decreases |steps|
  {
    steps != [] ==>
      && (Do(cfg, s, steps[0]).disk != s.disk ==>
            && steps[0].UnlinkState? && Do(cfg, s, steps[0]).disk.None?
            && steps[0].p in s.procs && s.procs[steps[0].p].kind == Delete(true))
      && OnlyForcedDelete(cfg, Do(cfg, s, steps[0]), steps[1..])
  }

  lemma OnlyUnlinkRemoves(cfg: Config, s: State, step: Step)
    requires Enabled(cfg, s, step) && !step.Save? && !step.UnlinkState?
    ensures Do(cfg, s, step).disk == s.disk
  {
    if step.Mkdir? || step.Rmdir? {
      hide CloseConnection, AnswersOf;
    } else {
      hide Do, Enabled;
      StepSameFiles(cfg, s, step);
    }
  }

  /** A delete that may remove a creating container was forced. */
  lemma RemoverOfCreating(cfg: Config, s: State, p: ProcId)
    requires Inv(cfg, s) && CanUnlinkState(s, p) && |s.saves| == 1
    ensures s.procs[p].kind == Delete(true)
  {
    FactsOf(cfg, s, p);
    hide SharedOk, ConnsOk, SavesOk, ProcsOk;
  }

  lemma {:induction false} RunLeftCreating(cfg: Config, s: State, steps: seq<Step>)
    requires Inv(cfg, s) && LeftCreating(s) && Runs(cfg, s, steps)
    ensures OnlyForcedDelete(cfg, s, steps) && Run(cfg, s, steps).saves == s.saves
    decreases |steps|
  {
    hide Inv, LeftCreating;
    if steps != [] {
      var step := steps[0];
      StepLeftCreating(cfg, s, step);
      StepKeeps(cfg, s, step);
      RunLeftCreating(cfg, Do(cfg, s, step), steps[1..]);
      if Do(cfg, s, step).disk != s.disk {
        assert !step.Save? by { if step.Save? { NobodySaves(cfg, s, step.p, step.result); } }
        assert step.UnlinkState? by { if !step.UnlinkState? { OnlyUnlinkRemoves(cfg, s, step); } }
        hide Do;
        assert |s.saves| == 1 by { SavesOfLeftCreating(s); }
        RemoverOfCreating(cfg, s, step.p);
      }
    }
  }

  lemma SavesOfLeftCreating(s: State)
    requires LeftCreating(s)
    ensures |s.saves| == 1
  {}

  /** A container that a dead create left creating keeps that status for ever, on
      every run of every environment: nothing saves again, and only a forced delete
      ends it. */
  lemma CreatingIsStuck(cfg: Config, steps: seq<Step>, more: seq<Step>)
    requires Runs(cfg, InitialState(cfg), steps)
    requires LeftCreating(StateAfter(cfg, steps)) && Runs(cfg, StateAfter(cfg, steps), more)
    ensures var s := StateAfter(cfg, steps);
            && s.saves == [NewState(cfg)] && Run(cfg, s, more).saves == s.saves
            && OnlyForcedDelete(cfg, s, more)
  {
    var s := StateAfter(cfg, steps);
    Reachable(cfg, steps);
    assert s.saves == [NewState(cfg)] by { hide Run, SharedOk, ConnsOk, ProcsOk; }
    hide Run, Inv;
    RunLeftCreating(cfg, s, more);
  }

  /** Such a container is reached: a create that ends after its first save. */
  lemma CreateDies(cfg: Config) returns (steps: seq<Step>, s: State)
    ensures Reaches(cfg, steps, s) && LeftCreating(s) && s.disk == Some(NewState(cfg))
  {
    hide Reaches;
    steps, s := CreateLocks(cfg);
    assert s.saves == [];
    steps, s := TakeSave(cfg, steps, s, 0, Done);
    steps, s := TakeQuit(cfg, steps, s, 0);
  }

  /** A create can fail and leave a created container behind: the pid file is written
      after state.json. */
  lemma CreatedButFailed(cfg: Config) returns (steps: seq<Step>, s: State)
    ensures Reaches(cfg, steps, s) && At(s, 0, Ended) && s.procs[0].kind.Create? && s.procs[0].outcome.Failed?
    ensures s.disk.Some? && s.disk.value.status == Created && s.child.alive
  {
    hide Reaches;
    steps, s := CreateReady(cfg);
    steps, s := TakeSave(cfg, steps, s, 0, PidFileLost);
  }

  // ---- a start that died on the first connection --------------------------

  predicate NeverRan(s: State) {
    forall i :: 0 <= i < |s.saves| ==> s.saves[i].status != Running && s.saves[i].status != Paused
  }

  /** The child accepts one connection only, and its owner is gone. */
  predicate DeadLine(s: State) {
    && s.conns != [] && s.conns[0].owner in s.procs && s.procs[s.conns[0].owner].pc.Ended?
    && NeverRan(s)
  }

  /** Running and paused are nowhere before they have been saved. */
  predicate RanFirst(s: State) {
    NeverRan(s) ==> forall p :: p in s.procs ==> !Live(s.procs[p].mem.status)
  }

  lemma SavesGrow(cfg: Config, s: State, step: Step)
    requires Enabled(cfg, s, step)
    ensures s.saves <= Do(cfg, s, step).saves
  {
    if step.Save? {
      assert CanSave(s, step.p, step.result) && Do(cfg, s, step) == DoSave(s, step.p, step.result);
      hide Do, DoSave, Enabled, CanSave, ToSave;
      SaveAppends(s, step.p, step.result);
    } else {
      hide Do;
      OnlySavesWrite(cfg, s, step);
    }
  }

  lemma NeverRanBefore(s: State, s': State)
    requires s.saves <= s'.saves && NeverRan(s')
    ensures NeverRan(s)
  {
    forall i | 0 <= i < |s.saves| ensures s.saves[i] == s'.saves[i] {}
  }

  lemma DiskNotLive(cfg: Config, s: State)
    requires Inv(cfg, s) && NeverRan(s)
    ensures s.disk.Some? ==> !Live(s.disk.value.status)
  {
    hide ConnsOk, SavesOk, ProcsOk;
  }

  lemma MemoryMoves(s: State, s': State, q: ProcId)
    requires RanFirst(s) && NeverRan(s) && (s.disk.Some? ==> !Live(s.disk.value.status))
    requires Carries(s, s', q) && OwnMove(s, s', q)
    ensures RanFirst(s')
  {
    hide NeverRan, Records, SameSections, Winner;
  }

  lemma ChildMemories(cfg: Config, s: State, step: Step)
    requires RanFirst(s) && NeverRan(s) && ChildEnabled(cfg, s, step)
    ensures RanFirst(DoChild(cfg, s, step))
  {
    hide NeverRan, ChildEnabled, MoveOf, Answered;
  }

  lemma EarlyMemories(cfg: Config, s: State, p: ProcId, k: Kind)
    requires RanFirst(s) && NeverRan(s)
    ensures RanFirst(DoSpawn(cfg, s, p, k))
    ensures CanFlock(s, p) ==> RanFirst(DoFlock(s, p))
  {
    hide NeverRan, CloseConnection;
  }

  lemma OtherMemories(cfg: Config, s: State, step: Step)
    requires RanFirst(s) && NeverRan(s) && Enabled(cfg, s, step) && (ChildStep(step) || step.Spawn? || step.Flock?)
    ensures RanFirst(Do(cfg, s, step))
  {
    hide RanFirst, DoChild, DoSpawn, DoFlock;
    if ChildStep(step) {
      assert ChildEnabled(cfg, s, step) && Do(cfg, s, step) == DoChild(cfg, s, step);
      hide Do, Enabled;
      ChildMemories(cfg, s, step);
    } else {
      EarlyMemories(cfg, s, step.p, if step.Spawn? then step.kind else Create);
    }
  }

  lemma StepRanFirst(cfg: Config, s: State, step: Step)
    requires Inv(cfg, s) && RanFirst(s) && Enabled(cfg, s, step)
    ensures RanFirst(Do(cfg, s, step))
  {
    hide Inv, Do, Enabled, NeverRan, Live, Carries, OwnMove;
    var s' := Do(cfg, s, step);
    SavesGrow(cfg, s, step);
    if NeverRan(s') {
      NeverRanBefore(s, s');
      DiskNotLive(cfg, s);
      hide RanFirst;
      if ChildStep(step) || step.Spawn? || step.Flock? {
        OtherMemories(cfg, s, step);
      } else {
        StepCarries(cfg, s, step);
        StepOwn(cfg, s, step);
        MemoryMoves(s, s', step.p);
      }
    }
  }

  lemma {:induction false} RunRanFirst(cfg: Config, s: State, steps: seq<Step>)
    requires Inv(cfg, s) && RanFirst(s) && Runs(cfg, s, steps)
    ensures RanFirst(Run(cfg, s, steps))
    decreases |steps|
  {
    hide Inv, RanFirst;
    if steps != [] {
      StepKeeps(cfg, s, steps[0]);
      StepRanFirst(cfg, s, steps[0]);
      RunRanFirst(cfg, Do(cfg, s, steps[0]), steps[1..]);
    }
  }

  lemma DeadLineSave(cfg: Config, s: State, p: ProcId, r: SaveResult)
    requires Inv(cfg, s) && RanFirst(s) && DeadLine(s) && CanSave(s, p, r)
    ensures ToSave(s.procs[p]).status != Running && ToSave(s.procs[p]).status != Paused
  {
    FactsOf(cfg, s, p);
    hide SharedOk, ConnsOk, SavesOk, ProcsOk;
  }

  predicate SameOwner(s: State, s': State) {
    s.conns != [] ==> s'.conns != [] && s'.conns[0].owner == s.conns[0].owner
  }

  lemma ChildSameOwner(cfg: Config, s: State, step: Step)
    requires ChildEnabled(cfg, s, step)
    ensures SameOwner(s, DoChild(cfg, s, step))
  {
    hide MoveOf, ChildEnabled;
  }

  lemma ReceiveSameOwner(s: State, p: ProcId)
    ensures CanReceiveInit(s, p) ==> SameOwner(s, DoReceiveInit(s, p))
    ensures CanReceiveExecReady(s, p) ==> SameOwner(s, DoReceiveExecReady(s, p))
  {
    hide AnswersOf;
  }

  lemma TalkSameOwner(cfg: Config, s: State, p: ProcId)
    ensures CanDial(s, p) ==> SameOwner(s, DoDial(s, p))
    ensures CanSendStart(s, p) ==> SameOwner(s, DoSendStart(cfg, s, p))
  {
    hide AnswersOf;
  }

  lemma QuietSameOwner(cfg: Config, s: State, step: Step)
    requires Enabled(cfg, s, step) && !ChildStep(step)
    requires !step.Save? && !step.RunHooks? && !step.Receive? && !step.Dial? && !step.SendStart?
    ensures SameOwner(s, Do(cfg, s, step))
  {
    hide DoSave, DoRunHooks, DoReceiveInit, DoReceiveExecReady, DoDial, DoSendStart, DoChild;
    hide Enabled, AnswersOf, Marshal, Unmarshal, Guard, NewState;
  }

  lemma OwnerStays(cfg: Config, s: State, step: Step)
    requires Enabled(cfg, s, step)
    ensures SameOwner(s, Do(cfg, s, step))
  {
    hide DoSpawn, DoMkdir, DoLoad, DoOpenLock, DoFlock, DoReload, DoCheck, DoSave, DoFork, DoReceiveInit;
    hide DoReceiveExecReady, DoRunHooks, DoDial, DoSendStart, DoCgroup, DoProbe, DoUnlinkState, DoRmdir, DoChild;
    hide Finish;
    if ChildStep(step) {
      assert ChildEnabled(cfg, s, step) && Do(cfg, s, step) == DoChild(cfg, s, step);
      ChildSameOwner(cfg, s, step);
    } else if step.Save? {
      SaveShape(s, step.p, step.result);
    } else if step.RunHooks? {
      RunHooksShape(s, step.p, step.ok);
    } else if step.Receive? {
      hide SameOwner;
      ReceiveSameOwner(s, step.p);
    } else if step.Dial? || step.SendStart? {
      hide SameOwner;
      TalkSameOwner(cfg, s, step.p);
    } else {
      hide Do, Enabled;
      QuietSameOwner(cfg, s, step);
    }
  }

  lemma SaveAppends(s: State, p: ProcId, r: SaveResult)
    requires CanSave(s, p, r)
    ensures DoSave(s, p, r).saves == s.saves || DoSave(s, p, r).saves == s.saves + [ToSave(s.procs[p])]
  {
    hide ToSave, SaveAnswers;
  }

  lemma StepDeadLine(cfg: Config, s: State, step: Step)
    requires Inv(cfg, s) && RanFirst(s) && DeadLine(s) && Enabled(cfg, s, step)
    ensures DeadLine(Do(cfg, s, step))
  {
    hide Inv, RanFirst;
    OwnerStays(cfg, s, step);
    EndedStays(cfg, s, step, s.conns[0].owner);
    if step.Save? {
      assert CanSave(s, step.p, step.result) && Do(cfg, s, step) == DoSave(s, step.p, step.result);
      hide Do, DoSave, Enabled, CanSave, ToSave;
      DeadLineSave(cfg, s, step.p, step.result);
      SaveAppends(s, step.p, step.result);
    } else {
      hide Do;
      OnlySavesWrite(cfg, s, step);
    }
  }

  lemma {:induction false} RunDeadLine(cfg: Config, s: State, more: seq<Step>)
    requires Inv(cfg, s) && RanFirst(s) && DeadLine(s) && Runs(cfg, s, more)
    ensures DeadLine(Run(cfg, s, more))
    decreases |more|
  {
    hide Inv, RanFirst, DeadLine;
    if more != [] {
      StepDeadLine(cfg, s, more[0]);
      StepKeeps(cfg, s, more[0]);
      StepRanFirst(cfg, s, more[0]);
      RunDeadLine(cfg, Do(cfg, s, more[0]), more[1..]);
    }
  }

  /** Once the start that owns the child's connection has ended without the container
      having run, no later start can ever get it to running, in no environment. */
  lemma DeadLineStaysDead(cfg: Config, steps: seq<Step>, more: seq<Step>)
    requires Runs(cfg, InitialState(cfg), steps)
    requires DeadLine(StateAfter(cfg, steps)) && Runs(cfg, StateAfter(cfg, steps), more)
    ensures NeverRan(Run(cfg, StateAfter(cfg, steps), more))
  {
    var s := StateAfter(cfg, steps);
    Reachable(cfg, steps);
    RunRanFirst(cfg, InitialState(cfg), steps);
    hide Run, Inv, RanFirst, NeverRan;
    RunDeadLine(cfg, s, more);
    assert DeadLine(Run(cfg, s, more));
  }

  lemma StartGetsIn(cfg: Config) returns (steps: seq<Step>, s: State)
    ensures Reaches(cfg, steps, s) && At(s, 1, AtCheck) && s.procs[1].kind.Start?
    ensures s.procs[1].mem.status == Created && s.disk == Some(s.procs[1].mem)
    ensures NeverRan(s) && s.child.alive && s.conns == []
  {
    hide Reaches;
    steps, s := CreatedContainer(cfg);
    assert NeverRan(s);
    steps, s := GetIn(cfg, steps, s, 1, Start);
  }

  lemma StartRunsHooks(cfg: Config) returns (steps: seq<Step>, s: State)
    ensures Reaches(cfg, steps, s) && At(s, 1, AtDial)
    ensures s.disk.Some? && s.disk.value.status == Created && NeverRan(s) && s.child.alive && s.conns == []
  {
    hide Reaches;
    steps, s := StartGetsIn(cfg);
    steps, s := TakeCheck(cfg, steps, s, 1);
    steps, s := TakeRunHooks(cfg, steps, s, 1, true);
  }

  /** Such a state is reached: prestart hooks, dial, and the start is killed. */
  lemma StartDiesOnTheLine(cfg: Config) returns (steps: seq<Step>, s: State)
    ensures Reaches(cfg, steps, s) && DeadLine(s)
    ensures s.disk.Some? && s.disk.value.status == Created && s.child.alive
  {
    hide Reaches;
    steps, s := StartRunsHooks(cfg);
    steps, s := TakeDial(cfg, steps, s, 1);
    steps, s := TakeQuit(cfg, steps, s, 1);
  }

  // ---- an orphaned lock ---------------------------------------------------

  /** Nobody is past the reload who was not there in s. */
  predicate NoNewWriter(s: State, t: State) {
    forall p :: p in t.procs && Critical(t.procs[p].pc) ==> p in s.procs && Critical(s.procs[p].pc)
  }

  lemma GoneHasSections(cfg: Config, s: State)
    requires LockInv(cfg, s) && Gone(s)
    ensures s.sections != []
  {
    hide SerialOk, AllLocked;
  }

  /** A create on its way to the lock finds no section before it. */
  lemma FlockAfterRemoval(cfg: Config, s: State, p: ProcId)
    requires Inv(cfg, s) && LockInv(cfg, s) && Gone(s) && CanFlock(s, p)
    ensures !s.procs[p].kind.Create?
  {
    GoneHasSections(cfg, s);
    LockedOf(cfg, s, p);
    hide FilesOk, SerialOk, AllLocked, Inv, Progress;
  }

  lemma OpeningNoWriter(cfg: Config, s: State, p: ProcId, k: Kind)
    ensures CanMkdir(s, p) ==> NoNewWriter(s, DoMkdir(s, p))
    ensures CanLoad(s, p) ==> NoNewWriter(s, DoLoad(s, p))
    ensures NoNewWriter(s, DoSpawn(cfg, s, p, k))
  {
    hide CloseConnection, NewState;
  }

  lemma LockingNoWriter(s: State, p: ProcId)
    ensures CanOpenLock(s, p) ==> NoNewWriter(s, DoOpenLock(s, p))
    ensures CanReload(s, p) && s.disk.None? ==> NoNewWriter(s, DoReload(s, p))
    ensures CanFlock(s, p) && !s.procs[p].kind.Create? ==> NoNewWriter(s, DoFlock(s, p))
  {
    hide CloseConnection, Marshal, Unmarshal;
  }

  lemma QuietSteps(cfg: Config, s: State, step: Step)
    requires Enabled(cfg, s, step) && !ChildStep(step) && s.disk.None?
    requires step.Mkdir? || step.Load? || step.OpenLock? || step.Reload? || step.Spawn?
          || (step.Flock? && !s.procs[step.p].kind.Create?)
    ensures NoNewWriter(s, Do(cfg, s, step))
  {
    hide NoNewWriter, DoMkdir, DoLoad, DoSpawn, DoOpenLock, DoReload, DoFlock;
    OpeningNoWriter(cfg, s, step.p, if step.Spawn? then step.kind else Create);
    LockingNoWriter(s, step.p);
  }

  lemma OtherStepsAreCritical(cfg: Config, s: State, step: Step)
    requires Enabled(cfg, s, step) && !ChildStep(step)
    requires !(step.Mkdir? || step.Load? || step.OpenLock? || step.Reload? || step.Spawn? || step.Flock? || step.Quit?)
    ensures step.p in s.procs && Critical(s.procs[step.p].pc)
  {}

  lemma QuitNoWriter(s: State, p: ProcId)
    requires p in s.procs
    ensures NoNewWriter(s, Finish(s, p, Failed))
  {}

  lemma StepNoNewWriter(cfg: Config, s: State, step: Step)
    requires Inv(cfg, s) && LockInv(cfg, s) && Gone(s) && Enabled(cfg, s, step)
    ensures NoNewWriter(s, Do(cfg, s, step))
  {
    hide Inv, LockInv;
    if ChildStep(step) {
      assert ChildEnabled(cfg, s, step) && Do(cfg, s, step) == DoChild(cfg, s, step);
      hide ChildEnabled, MoveOf, Answered;
    } else if step.Quit? {
      QuitNoWriter(s, step.p);
    } else if step.Mkdir? || step.Load? || step.OpenLock? || step.Reload? || step.Spawn? || step.Flock? {
      if step.Flock? { FlockAfterRemoval(cfg, s, step.p); }
      QuietSteps(cfg, s, step);
    } else {
      OtherStepsAreCritical(cfg, s, step);
      StepCarries(cfg, s, step);
      hide Do, Enabled;
    }
  }

  lemma {:induction false} RunNoNewWriter(cfg: Config, s: State, more: seq<Step>)
    requires Inv(cfg, s) && LockInv(cfg, s) && Gone(s) && Runs(cfg, s, more)
    ensures NoNewWriter(s, Run(cfg, s, more))
    decreases |more|
  {
    hide Inv, LockInv;
    if more != [] {
      assert !Remakes(s, more[0]);
      hide Gone;
      var t := Do(cfg, s, more[0]);
      StepNoNewWriter(cfg, s, more[0]);
      StepStaysGone(cfg, s, more[0]);
      StepKeeps(cfg, s, more[0]);
      StepLocked(cfg, s, more[0]);
      hide Do;
      RunNoNewWriter(cfg, t, more[1..]);
    }
  }

  /** After state.json is gone on a run that kept its lock, whoever opened the lock file before, or makes it anew,
      and gets the flock still never gets past its reload, and nothing is written. */
  lemma OrphanedLockIsHarmless(cfg: Config, steps: seq<Step>, more: seq<Step>)
    requires Runs(cfg, InitialState(cfg), steps) && LockKept(cfg, InitialState(cfg), steps)
    requires Gone(StateAfter(cfg, steps)) && Runs(cfg, StateAfter(cfg, steps), more)
    ensures var s := StateAfter(cfg, steps);
            var t := Run(cfg, s, more);
            NoNewWriter(s, t) && t.disk.None? && t.saves == s.saves
  {
    ReachableLocked(cfg, steps);
    hide Inv, LockInv;
    RunNoNewWriter(cfg, StateAfter(cfg, steps), more);
    RunStaysGone(cfg, StateAfter(cfg, steps), more);
  }
}
