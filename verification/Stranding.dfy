/**
 When a start can be left stranded, with the user process running and nobody able to
 save it: exactly when c.lock can be unlinked before state.json and there is a
 process to run.
 */
module Stranding {
  import opened Wrappers
  import opened Lifecycle
  import opened Protocol
  import opened Handshake
  import opened Frames
  import opened Locking
  import opened RemovalOrder
  import opened Guarantees
  import opened Endings
  import opened Histories
  import opened Completion

  /** Under way, and none of the steps that are left to the two parties can be taken. */
  ghost predicate Stranded(cfg: Config, s: State, p: ProcId) {
    Underway(ToRunning, s, p) && !CanGoOn(ToRunning, cfg, s, p)
  }

  ghost predicate NeverStranded(cfg: Config) {
    forall steps, p :: Runs(cfg, InitialState(cfg), steps) ==> !Stranded(cfg, StateAfter(cfg, steps), p)
  }

  // ---- a start that is stranded -------------------------------------------

  /** A delete that had taken c.lock first finishes its removal while a start, let in
      by a new c.lock, is about to save running. */
  lemma RemovedUnderStart(cfg: Config) returns (steps: seq<Step>, s: State)
    requires cfg.lockFirst && !cfg.processNil
    ensures Reaches(cfg, steps, s) && Underway(ToRunning, s, 2) && DirectoryGone(s, 2) && s.child.alive
    ensures At(s, 1, AtPoststop) && Rank(s.child.phase) >= 11
  {
    hide Reaches;
    steps, s := StartHearsIt(cfg);
    HearingRank(cfg, steps, s);
    steps, s := TakeUnlinkState(cfg, steps, s, 1);
    steps, s := TakeUnlinkLock(cfg, steps, s, 1);
    steps, s := TakeRmdir(cfg, steps, s, 1);
  }

  lemma HearingRank(cfg: Config, steps: seq<Step>, s: State)
    requires Reaches(cfg, steps, s) && At(s, 2, AtSaveRunning)
    ensures Rank(s.child.phase) >= 11
  {
    Reachable(cfg, steps);
    OperationFacts(cfg, s, 2);
  }

  lemma StrandedStart(cfg: Config) returns (steps: seq<Step>, s: State)
    requires cfg.lockFirst && !cfg.processNil
    ensures Reaches(cfg, steps, s) && Stranded(cfg, s, 2)
    ensures s.child.alive && Rank(s.child.phase) >= 11 && s.dir.Removed?
  {
    hide CanGoOn, Underway;
    steps, s := RemovedUnderStart(cfg);
    Reachable(cfg, steps);
    hide Inv, Runs, Run;
    StartCanGoOnIff(cfg, s, 2);
  }

  /** In a removed directory nothing is ever saved again, in any environment. */
  lemma {:induction false} RemovedIsFinal(cfg: Config, s: State, more: seq<Step>)
    requires s.dir.Removed? && Runs(cfg, s, more)
    ensures Run(cfg, s, more).dir.Removed? && Run(cfg, s, more).saves == s.saves
    decreases |more|
  {
    if more != [] {
      StepStaysRemoved(cfg, s, more[0]);
      hide Do, Enabled;
      RemovedIsFinal(cfg, Do(cfg, s, more[0]), more[1..]);
    }
  }

  lemma StepStaysRemoved(cfg: Config, s: State, step: Step)
    requires s.dir.Removed? && Enabled(cfg, s, step)
    ensures Do(cfg, s, step).dir.Removed? && Do(cfg, s, step).saves == s.saves
  {
    if step.Save? {
      assert Do(cfg, s, step) == DoSave(s, step.p, step.result);
      LostSave(s, step.p);
    } else if step.UnlinkState? || step.Rmdir? {
      hide AnswersOf;
    } else {
      assert !step.Mkdir?;
      hide Do, Enabled;
      StepSameFiles(cfg, s, step);
    }
  }

  lemma LostSave(s: State, p: ProcId)
    requires CanSave(s, p, Lost)
    ensures var s' := DoSave(s, p, Lost); s'.dir == s.dir && s'.saves == s.saves && s'.disk == s.disk
  {
    hide CloseConnection, AnswersOf;
  }

  /** A removed directory is an empty one. */
  predicate EmptyIfRemoved(s: State) { s.dir.Removed? ==> s.disk.None? && s.lockPath.None? }

  lemma OpenLockEmpty(s: State, p: ProcId)
    requires EmptyIfRemoved(s) && CanOpenLock(s, p)
    ensures EmptyIfRemoved(DoOpenLock(s, p))
  {}

  lemma StepEmpty(cfg: Config, s: State, step: Step)
    requires EmptyIfRemoved(s) && Enabled(cfg, s, step)
    ensures EmptyIfRemoved(Do(cfg, s, step))
  {
    if step.OpenLock? {
      OpenLockEmpty(s, step.p);
    } else if step.Save? {
      assert Do(cfg, s, step) == DoSave(s, step.p, step.result) && CanSave(s, step.p, step.result);
      SaveKeepsDir(s, step.p, step.result);
      if s.dir.Removed? {
        LostSave(s, step.p);
      }
    } else if step.UnlinkLock? {
    } else if step.Mkdir? || step.UnlinkState? || step.Rmdir? {
      hide CloseConnection, AnswersOf;
    } else {
      hide Do, Enabled;
      StepSameFiles(cfg, s, step);
    }
  }

  lemma {:induction false} RemovedIsEmpty(cfg: Config, s: State, steps: seq<Step>)
    requires EmptyIfRemoved(s) && Runs(cfg, s, steps)
    ensures EmptyIfRemoved(Run(cfg, s, steps))
    decreases |steps|
  {
    hide EmptyIfRemoved;
    if steps != [] {
      StepEmpty(cfg, s, steps[0]);
      RemovedIsEmpty(cfg, Do(cfg, s, steps[0]), steps[1..]);
    }
  }

  /** A stranded start stays so: whatever anybody does, state.json is not written. */
  lemma StrandedForGood(cfg: Config, steps: seq<Step>, p: ProcId, more: seq<Step>)
    requires Runs(cfg, InitialState(cfg), steps) && Stranded(cfg, StateAfter(cfg, steps), p)
    requires Runs(cfg, StateAfter(cfg, steps), more)
    ensures var s := StateAfter(cfg, steps); Run(cfg, s, more).saves == s.saves
  {
    var s := StateAfter(cfg, steps);
    Reachable(cfg, steps);
    hide Inv, Run, Runs, Underway, CanGoOn;
    StartCanGoOnIff(cfg, s, p);
    RemovedIsFinal(cfg, s, more);
  }

  // ---- exactly when -------------------------------------------------------

  /** Before a start saves running, a run that has kept its lock has its directory. */
  lemma KeptIsNotStranded(cfg: Config, steps: seq<Step>, p: ProcId)
    requires Runs(cfg, InitialState(cfg), steps) && LockKept(cfg, InitialState(cfg), steps)
    ensures !Stranded(cfg, StateAfter(cfg, steps), p)
  {
    var s := StateAfter(cfg, steps);
    ReachableLocked(cfg, steps);
    hide Run, Runs, LockKept;
    if Stranded(cfg, s, p) {
      StartCanGoOnIff(cfg, s, p);
      HeldDisk(cfg, s, p);
    }
  }

  /** Whoever is about to save has a directory to save in. */
  lemma HeldDisk(cfg: Config, s: State, p: ProcId)
    requires LockInv(cfg, s) && Inv(cfg, s) && At(s, p, AtSaveRunning)
    ensures s.disk.Some? && s.dir.Present?
  {
    OperationFacts(cfg, s, p);
    hide ProcsOk, SavesOk, ConnsOk, LockInv;
    assert !Gone(s) by { HolderFacts(cfg, s, p); }
  }

  lemma NilIsNotStranded(cfg: Config, steps: seq<Step>, p: ProcId)
    requires Runs(cfg, InitialState(cfg), steps) && cfg.processNil
    ensures !Stranded(cfg, StateAfter(cfg, steps), p)
  {
    var s := StateAfter(cfg, steps);
    Reachable(cfg, steps);
    hide Run, Runs;
    if Stranded(cfg, s, p) {
      StartCanGoOnIff(cfg, s, p);
      OperationFacts(cfg, s, p);
    }
  }

  lemma StrandedIff(cfg: Config)
    ensures NeverStranded(cfg) <==> !cfg.lockFirst || cfg.processNil
  {
    hide Stranded;
    if cfg.lockFirst && !cfg.processNil {
      var steps, s := StrandedStart(cfg);
      assert Stranded(cfg, StateAfter(cfg, steps), 2);
    } else {
      forall steps, p | Runs(cfg, InitialState(cfg), steps)
        ensures !Stranded(cfg, StateAfter(cfg, steps), p)
      {
        if cfg.processNil {
          NilIsNotStranded(cfg, steps, p);
        } else {
          StateFirstKeepsLock(cfg, steps);
          KeptIsNotStranded(cfg, steps, p);
        }
      }
    }
  }
}
