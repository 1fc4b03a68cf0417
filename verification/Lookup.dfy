/**
 The child's search for the user's executable, over whole runs: when it decides how a
 create ends, and which way.
 */
module Lookup {
  import opened Wrappers
  import opened Lifecycle
  import opened Protocol
  import opened Handshake
  import opened Frames
  import opened Creation
  import opened Completion
  import opened RemovalOrder
  import opened Guarantees

  /** The child has a root file system of its own, looks for the executable and does
      not find it. */
  predicate NotFound(cfg: Config, step: Step) {
    step == ChildRoot(false) && cfg.mountNamespace && !cfg.processNil
  }

  lemma CommandsAreSilent(cfg: Config, s: State, step: Step)
    requires Enabled(cfg, s, step) && !ChildStep(step)
    ensures Do(cfg, s, step).initChan == s.initChan
    ensures !step.Fork? ==> Do(cfg, s, step).child == s.child
  {
    if step.Fork? {
      ForkIsSilent(s, step.p, step.pid);
    } else {
      OthersLeaveAlone(cfg, s, step);
      hide Do, Enabled;
    }
  }

  lemma ForkIsSilent(s: State, p: ProcId, pid: nat)
    requires CanFork(s, p, pid)
    ensures DoFork(s, p, pid).initChan == s.initChan
  {
    hide AnswersOf;
  }

  lemma ChildLooks(cfg: Config, s: State, step: Step)
    requires ChildEnabled(cfg, s, step)
    ensures MsgInvalidExecutable in DoChild(cfg, s, step).initChan <==>
            MsgInvalidExecutable in s.initChan || NotFound(cfg, step)
  {
    hide Answered;
  }

  /** The child's report goes out at this very step. */
  lemma StepLooks(cfg: Config, s: State, step: Step)
    requires Enabled(cfg, s, step)
    ensures MsgInvalidExecutable in Do(cfg, s, step).initChan <==>
            MsgInvalidExecutable in s.initChan || NotFound(cfg, step)
  {
    hide DoSpawn, DoMkdir, DoLoad, DoOpenLock, DoFlock, DoReload, DoCheck, DoSave, DoFork, DoReceiveInit;
    hide DoReceiveExecReady, DoRunHooks, DoDial, DoSendStart, DoCgroup, DoProbe, DoUnlinkState, DoRmdir, DoChild;
    hide Finish;
    if ChildStep(step) {
      assert ChildEnabled(cfg, s, step) && Do(cfg, s, step) == DoChild(cfg, s, step);
      ChildLooks(cfg, s, step);
    } else {
      CommandsAreSilent(cfg, s, step);
    }
  }

  ghost predicate SomeNotFound(cfg: Config, steps: seq<Step>) {
    exists i :: 0 <= i < |steps| && NotFound(cfg, steps[i])
  }

  lemma {:induction false} RunLooks(cfg: Config, s: State, steps: seq<Step>)
    requires Runs(cfg, s, steps)
    ensures MsgInvalidExecutable in Run(cfg, s, steps).initChan <==>
            MsgInvalidExecutable in s.initChan || SomeNotFound(cfg, steps)
    decreases |steps|
  {
    if steps != [] {
      StepLooks(cfg, s, steps[0]);
      hide Do, Enabled, NotFound;
      RunLooks(cfg, Do(cfg, s, steps[0]), steps[1..]);
      if SomeNotFound(cfg, steps[1..]) {
        var i :| 0 <= i < |steps[1..]| && NotFound(cfg, steps[1..][i]);
        assert NotFound(cfg, steps[i + 1]);
      }
      if SomeNotFound(cfg, steps) {
        var i :| 0 <= i < |steps| && NotFound(cfg, steps[i]);
        assert i > 0 ==> NotFound(cfg, steps[1..][i - 1]);
      }
    }
  }

  // ---- the create's side --------------------------------------------------

  /** Nobody has been told InvalidExecutable before the child reported it. */
  predicate ToldByChild(s: State) {
    forall p :: p in s.procs && s.procs[p].outcome.InvalidExecutable? ==> MsgInvalidExecutable in s.initChan
  }

  lemma MoveTold(s: State, s': State, q: ProcId)
    requires ToldByChild(s) && Carries(s, s', q) && OwnMove(s, s', q)
    requires MsgInvalidExecutable in s.initChan ==> MsgInvalidExecutable in s'.initChan
    ensures ToldByChild(s')
  {
    hide Records, SameSections, Winner;
  }

  lemma FlockTold(s: State, q: ProcId)
    requires ToldByChild(s) && CanFlock(s, q)
    ensures ToldByChild(DoFlock(s, q))
  {
    hide CloseConnection;
  }

  lemma ChildTold(cfg: Config, s: State, step: Step)
    requires ToldByChild(s) && ChildEnabled(cfg, s, step)
    ensures ToldByChild(DoChild(cfg, s, step))
  {
    hide MoveOf, Answered, ChildEnabled;
  }

  lemma SpawnTold(cfg: Config, s: State, q: ProcId, k: Kind)
    requires ToldByChild(s)
    ensures ToldByChild(DoSpawn(cfg, s, q, k))
  {}

  lemma StepTold(cfg: Config, s: State, step: Step)
    requires ToldByChild(s) && Enabled(cfg, s, step)
    ensures ToldByChild(Do(cfg, s, step))
  {
    hide ToldByChild, Carries, OwnMove;
    hide DoSpawn, DoMkdir, DoLoad, DoOpenLock, DoFlock, DoReload, DoCheck, DoSave, DoFork, DoReceiveInit;
    hide DoReceiveExecReady, DoRunHooks, DoDial, DoSendStart, DoCgroup, DoProbe, DoUnlinkState, DoRmdir, DoChild;
    hide Finish;
    if ChildStep(step) {
      assert ChildEnabled(cfg, s, step) && Do(cfg, s, step) == DoChild(cfg, s, step);
      ChildTold(cfg, s, step);
    } else if step.Spawn? {
      SpawnTold(cfg, s, step.p, step.kind);
    } else if step.Flock? {
      FlockTold(s, step.p);
    } else {
      hide Do, Enabled;
      StepCarries(cfg, s, step);
      StepOwn(cfg, s, step);
      StepLooks(cfg, s, step);
      MoveTold(s, Do(cfg, s, step), step.p);
    }
  }

  lemma {:induction false} RunTold(cfg: Config, s: State, steps: seq<Step>)
    requires ToldByChild(s) && Runs(cfg, s, steps)
    ensures ToldByChild(Run(cfg, s, steps))
    decreases |steps|
  {
    hide ToldByChild;
    if steps != [] {
      StepTold(cfg, s, steps[0]);
      RunTold(cfg, Do(cfg, s, steps[0]), steps[1..]);
    }
  }

  // ---- the trace and the file ---------------------------------------------

  ghost predicate WasSaved(saves: seq<ContainerState>, status: Status) {
    exists i :: 0 <= i < |saves| && saves[i].status == status
  }

  /** What the trace calls saved has been in state.json. */
  ghost predicate Traced(s: State) { forall p, status :: Saved(p, status) in s.trace ==> WasSaved(s.saves, status) }

  lemma WasSavedStays(saves: seq<ContainerState>, st: ContainerState, status: Status)
    ensures WasSaved(saves + [st], status) <==> WasSaved(saves, status) || status == st.status
  {
    var all := saves + [st];
    assert all[|saves|] == st && forall i :: 0 <= i < |saves| ==> all[i] == saves[i];
  }

  lemma CommandRecordsNoSave(cfg: Config, s: State, step: Step, p: ProcId, status: Status)
    requires Enabled(cfg, s, step) && !ChildStep(step) && !step.Save? && Saved(p, status) !in s.trace
    ensures Saved(p, status) !in Do(cfg, s, step).trace
  {
    if step.Spawn? || step.Flock? {
      hide CloseConnection;
    } else {
      hide Do, Enabled, Carries;
      StepCarries(cfg, s, step);
      OnlySavesWrite(cfg, s, step);
      CarriesRecords(s, Do(cfg, s, step), step.p);
      hide Winner;
    }
  }

  lemma ChildRecordsNoSave(cfg: Config, s: State, step: Step, p: ProcId, status: Status)
    requires ChildEnabled(cfg, s, step) && Saved(p, status) !in s.trace
    ensures Saved(p, status) !in DoChild(cfg, s, step).trace
  {
    hide MoveOf, ChildEnabled, Answered;
    if Saved(p, status) in MoveOf(cfg, s, step).events {
      ChildEvents(cfg, s, step, Saved(p, status));
    }
  }

  lemma SaveRecords(s: State, q: ProcId, r: SaveResult)
    requires CanSave(s, q, r)
    ensures var s', st := DoSave(s, q, r), ToSave(s.procs[q]);
            if r.Lost? then s'.saves == s.saves && s'.trace == s.trace
            else s'.saves == s.saves + [st] && s'.trace == s.trace + [Saved(q, st.status)]
  {
    hide CloseConnection, AnswersOf, ToSave, SaveAnswers;
  }

  lemma SaveTraced(s: State, q: ProcId, r: SaveResult)
    requires Traced(s) && CanSave(s, q, r)
    ensures Traced(DoSave(s, q, r))
  {
    var s', st := DoSave(s, q, r), ToSave(s.procs[q]);
    SaveRecords(s, q, r);
    hide DoSave, ToSave, WasSaved;
    forall p, status | Saved(p, status) in s'.trace
      ensures WasSaved(s'.saves, status)
    {
      WasSavedStays(s.saves, st, status);
    }
  }

  lemma OtherTraced(cfg: Config, s: State, step: Step)
    requires Traced(s) && Enabled(cfg, s, step) && !step.Save?
    ensures Traced(Do(cfg, s, step))
  {
    var s' := Do(cfg, s, step);
    hide Do, Enabled, WasSaved;
    OnlySavesWrite(cfg, s, step);
    forall p, status | Saved(p, status) in s'.trace
      ensures WasSaved(s'.saves, status)
    {
      if Saved(p, status) !in s.trace {
        StepRecordsNoSave(cfg, s, step, p, status);
      }
    }
  }

  lemma StepRecordsNoSave(cfg: Config, s: State, step: Step, p: ProcId, status: Status)
    requires Enabled(cfg, s, step) && !step.Save? && Saved(p, status) !in s.trace
    ensures Saved(p, status) !in Do(cfg, s, step).trace
  {
    if ChildStep(step) {
      assert ChildEnabled(cfg, s, step) && Do(cfg, s, step) == DoChild(cfg, s, step);
      hide Do, DoChild, Enabled, ChildEnabled;
      ChildRecordsNoSave(cfg, s, step, p, status);
    } else {
      hide Do, Enabled;
      CommandRecordsNoSave(cfg, s, step, p, status);
    }
  }

  lemma StepTraced(cfg: Config, s: State, step: Step)
    requires Traced(s) && Enabled(cfg, s, step)
    ensures Traced(Do(cfg, s, step))
  {
    hide Traced;
    if step.Save? {
      assert CanSave(s, step.p, step.result) && Do(cfg, s, step) == DoSave(s, step.p, step.result);
      hide Do, DoSave, Enabled;
      SaveTraced(s, step.p, step.result);
    } else {
      hide Do, Enabled;
      OtherTraced(cfg, s, step);
    }
  }

  lemma {:induction false} RunTraced(cfg: Config, s: State, steps: seq<Step>)
    requires Traced(s) && Runs(cfg, s, steps)
    ensures Traced(Run(cfg, s, steps))
    decreases |steps|
  {
    hide Traced;
    if steps != [] {
      StepTraced(cfg, s, steps[0]);
      RunTraced(cfg, Do(cfg, s, steps[0]), steps[1..]);
    }
  }

  // ---- every run ----------------------------------------------------------

  /** On every run: the child reports a missing executable exactly when it has a mount
      namespace, has a process to run and has not found it; only then does a create end
      with that error; and then created is never saved. */
  lemma LookupDecides(cfg: Config, steps: seq<Step>)
    requires Runs(cfg, InitialState(cfg), steps)
    ensures var s := StateAfter(cfg, steps);
            && (MsgInvalidExecutable in s.initChan <==> SomeNotFound(cfg, steps))
            && (forall p :: p in s.procs && s.procs[p].outcome.InvalidExecutable? ==> SomeNotFound(cfg, steps))
            && (SomeNotFound(cfg, steps) ==> MsgReady !in s.initChan && |s.saves| <= 1)
            && (SomeNotFound(cfg, steps) ==> forall p :: Saved(p, Created) !in s.trace)
  {
    var s := StateAfter(cfg, steps);
    Reachable(cfg, steps);
    RunLooks(cfg, InitialState(cfg), steps);
    RunTold(cfg, InitialState(cfg), steps);
    RunTraced(cfg, InitialState(cfg), steps);
    hide Run, Runs, SomeNotFound;
    if SomeNotFound(cfg, steps) {
      NothingCreated(cfg, s);
    }
  }

  lemma NothingCreated(cfg: Config, s: State)
    requires Inv(cfg, s) && Traced(s) && MsgInvalidExecutable in s.initChan
    ensures MsgReady !in s.initChan && |s.saves| <= 1
    ensures forall p :: Saved(p, Created) !in s.trace
  {
    hide ProcsOk, ConnsOk;
    assert s.child.phase == InvalidSent;
    if |s.saves| > 1 {
      SecondSave(cfg, s);
    }
  }

  /** How a create ends that nobody fails: with the created save if the executable was
      found or not looked for, and with the error if it was not found. */
  predicate EndsAs(found: bool, s: State, p: ProcId) {
    if found then Saved(p, Created) in s.trace else p in s.procs && s.procs[p].outcome.InvalidExecutable?
  }

  ghost predicate Ended(cfg: Config, before: seq<Step>, s: State, p: ProcId, steps: seq<Step>)
    requires Runs(cfg, s, steps)
  {
    exists n :: && 0 <= n <= |steps| && Runs(cfg, s, steps[..n])
                && EndsAs(!SomeNotFound(cfg, before + steps[..n]), Run(cfg, s, steps[..n]), p)
  }

  lemma CompletedEndsAs(cfg: Config, before: seq<Step>, more: seq<Step>, p: ProcId)
    requires Runs(cfg, InitialState(cfg), before) && Runs(cfg, StateAfter(cfg, before), more)
    requires Completed(ToCreated, Run(cfg, StateAfter(cfg, before), more), p)
    ensures EndsAs(!SomeNotFound(cfg, before + more), Run(cfg, StateAfter(cfg, before), more), p)
  {
    hide Run, Runs, SomeNotFound;
    RunAppend(cfg, InitialState(cfg), before, more);
    LookupDecides(cfg, before + more);
  }

  /** A create from its fork on, on every run on which neither party fails: at most Left
      of its own steps are taken before it ends, until then one can be taken, and it ends
      as the search for the executable did. */
  lemma EveryCreateCompletes(cfg: Config, before: seq<Step>, p: ProcId, steps: seq<Step>)
    requires Runs(cfg, InitialState(cfg), before) && Underway(ToCreated, StateAfter(cfg, before), p)
    requires Runs(cfg, StateAfter(cfg, before), steps)
    requires Unspoiled(ToCreated, cfg, StateAfter(cfg, before), p, steps)
    ensures var s := StateAfter(cfg, before);
            && HelpTaken(ToCreated, cfg, s, p, steps) <= Left(ToCreated, s, p)
            && (Ended(cfg, before, s, p, steps) || CanGoOn(ToCreated, cfg, Run(cfg, s, steps), p))
  {
    var s := StateAfter(cfg, before);
    EveryHandshakeCompletes(ToCreated, cfg, before, p, steps);
    hide Run, Runs, Unspoiled, HelpTaken, CanGoOn, Left, Underway, Completed, EndsAs, SomeNotFound;
    if WasCompleted(ToCreated, cfg, s, p, steps) {
      var n :| && 0 <= n <= |steps| && Runs(cfg, s, steps[..n])
               && Completed(ToCreated, Run(cfg, s, steps[..n]), p);
      CompletedEndsAs(cfg, before, steps[..n], p);
    }
  }
}
