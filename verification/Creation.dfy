/**
 While a create is at work nobody else gets the lock: every other command that
 comes in opens the same c.lock, finds it taken and is refused. This holds in every
 environment, because nothing can be removed before somebody else holds the lock.
 */
module Creation {
  import opened Wrappers
  import opened Lifecycle
  import opened Protocol
  import opened Handshake
  import opened Frames

  /** The process that made the directory has not returned. */
  predicate CreatorAtWork(s: State, c: ProcId) {
    s.creator == Some(c) && c in s.procs && !s.procs[c].pc.Ended?
  }

  /** The others are before the lock, and whoever is about to ask for it opened the
      creator's. */
  predicate OthersWait(s: State, c: ProcId) {
    forall q :: q in s.procs && q != c ==>
      !HoldsLock(s.procs[q].pc) && (s.procs[q].pc.AtFlock? ==> s.procs[q].inode == 0)
  }

  predicate Reigns(s: State, c: ProcId)
    requires c in s.procs
  {
    var x := s.procs[c];
    && x.kind.Create? && !x.pc.AtMkdir?
    && s.dir.Present? && (s.saves != [] ==> s.disk.Some?)
    && (if x.pc.AtOpenLock? then s.lockPath.None? && s.nextInode == 0
        else s.lockPath == Some(0) && s.nextInode == 1 && x.inode == 0)
    && OthersWait(s, c)
  }

  predicate Unmade(s: State) { s.dir.Absent? ==> s.lockPath.None? && s.nextInode == 0 }

  ghost predicate Reigned(s: State) { forall c :: CreatorAtWork(s, c) ==> Reigns(s, c) }

  ghost predicate Undisturbed(s: State) { Unmade(s) && Reigned(s) }

  // ---- who can be where ---------------------------------------------------

  lemma StepperIsThere(cfg: Config, s: State, step: Step)
    requires Enabled(cfg, s, step) && !ChildStep(step) && !step.Spawn?
    ensures step.p in s.procs && !s.procs[step.p].pc.Ended?
  {}

  /** Before the first save nobody else has got as far as c.lock. */
  lemma NobodyAtTheLock(cfg: Config, s: State, q: ProcId)
    requires Inv(cfg, s) && s.saves == [] && q in s.procs && s.creator != Some(q)
    ensures s.procs[q].pc.AtMkdir? || s.procs[q].pc.AtLoad? || s.procs[q].pc.Ended?
  {
    FactsOf(cfg, s, q);
    hide ProcsOk, SavesOk, ConnsOk, SharedOk;
  }

  lemma CreatorFacts(cfg: Config, s: State, c: ProcId)
    requires Inv(cfg, s) && CreatorAtWork(s, c)
    ensures s.procs[c].kind.Create? && CreatePC(s.procs[c].pc)
    ensures !HoldsLock(s.procs[c].pc) ==> s.procs[c].pc.AtMkdir? || s.saves == []
  {
    FactsOf(cfg, s, c);
    hide ProcsOk, SavesOk, ConnsOk;
  }

  // ---- one step -----------------------------------------------------------

  /** The directory stays, and so does state.json unless it is written. */
  predicate KeepsDirectory(s: State, s': State) {
    && s'.dir == s.dir && s'.creator == s.creator
    && ((s'.saves == s.saves && s'.disk == s.disk) || s'.disk.Some?)
  }

  /** A step that keeps the directory and the name c.lock. */
  lemma MoveReigns(cfg: Config, s: State, s': State, q: ProcId, c: ProcId)
    requires Inv(cfg, s) && CreatorAtWork(s, c) && Reigns(s, c) && CreatorAtWork(s', c)
    requires KeepsDirectory(s, s') && SameName(s, s')
    requires Carries(s, s', q) && OwnMove(s, s', q)
    ensures Reigns(s', c)
  {
    hide Inv, Records, SameSections, Winner;
    CreatorFacts(cfg, s, c);
  }

  lemma SaveKeepsDirectory(s: State, q: ProcId, r: SaveResult)
    requires CanSave(s, q, r)
    ensures KeepsDirectory(s, DoSave(s, q, r)) && SameName(s, DoSave(s, q, r))
  {
    hide CloseConnection, AnswersOf, ToSave, SaveAnswers;
  }

  lemma SaveReigns(cfg: Config, s: State, q: ProcId, r: SaveResult, c: ProcId)
    requires Inv(cfg, s) && CanSave(s, q, r)
    requires CreatorAtWork(s, c) && Reigns(s, c) && CreatorAtWork(DoSave(s, q, r), c)
    ensures Reigns(DoSave(s, q, r), c)
  {
    hide DoSave, CanSave, Inv, CreatorAtWork, Reigns, KeepsDirectory, SameName, Carries, OwnMove;
    SaveKeepsDirectory(s, q, r);
    SaveCarries(s, q, r);
    SaveOwn(s, q, r);
    MoveReigns(cfg, s, DoSave(s, q, r), q, c);
  }

  lemma OpenLockReigns(cfg: Config, s: State, q: ProcId, c: ProcId)
    requires Inv(cfg, s) && CanOpenLock(s, q)
    requires CreatorAtWork(s, c) && Reigns(s, c) && CreatorAtWork(DoOpenLock(s, q), c)
    ensures Reigns(DoOpenLock(s, q), c)
  {
    hide Inv;
    if q == c {
    } else {
      if s.procs[c].pc.AtOpenLock? {
        CreatorFacts(cfg, s, c);
        NobodyAtTheLock(cfg, s, q);
        assert false;
      } else {
        OpeningSameFiles(s, q);
        OpeningCarries(cfg, s, q);
        OpeningOwn(s, q);
        hide DoOpenLock, Carries, OwnMove, Reigns;
        MoveReigns(cfg, s, DoOpenLock(s, q), q, c);
      }
    }
  }

  /** Whoever asks for the lock while the creator is at work is refused. */
  lemma FlockIsRefused(cfg: Config, s: State, q: ProcId, c: ProcId)
    requires Inv(cfg, s) && HoldsOwn(s) && CreatorAtWork(s, c) && Reigns(s, c) && CanFlock(s, q) && q != c
    ensures DoFlock(s, q) == Finish(s, q, OperationInProgress)
  {
    hide Inv;
    CreatorFacts(cfg, s, c);
    if s.saves == [] && !HoldsLock(s.procs[c].pc) {
      NobodyAtTheLock(cfg, s, q);
      assert false;
    }
  }

  lemma FlockReigns(cfg: Config, s: State, q: ProcId, c: ProcId)
    requires Inv(cfg, s) && HoldsOwn(s) && CanFlock(s, q)
    requires CreatorAtWork(s, c) && Reigns(s, c) && CreatorAtWork(DoFlock(s, q), c)
    ensures Reigns(DoFlock(s, q), c)
  {
    hide Inv, HoldsOwn, CloseConnection;
    if q == c {
      hide OthersWait;
      assert OthersWait(DoFlock(s, c), c) by { OwnFlockWaits(s, c); }
    } else {
      hide Reigns, Finish, Carries, OwnMove, SameName;
      OpeningSameFiles(s, q);
      FlockIsRefused(cfg, s, q, c);
      FinishOwn(s, q, OperationInProgress);
      FinishCarries(s, q, OperationInProgress);
      hide DoFlock;
      MoveReigns(cfg, s, DoFlock(s, q), q, c);
    }
  }

  lemma OwnFlockWaits(s: State, c: ProcId)
    requires OthersWait(s, c) && CanFlock(s, c)
    ensures OthersWait(DoFlock(s, c), c)
  {}

  /** Nothing is removed while the creator is at work. */
  lemma NoRemovalYet(cfg: Config, s: State, q: ProcId, c: ProcId)
    requires Inv(cfg, s) && CreatorAtWork(s, c) && Reigns(s, c)
    ensures !At(s, q, AtRemove)
  {
    CreatorFacts(cfg, s, c);
    hide Inv;
  }

  /** A second create ends at once. */
  lemma LateMkdir(cfg: Config, s: State, q: ProcId)
    requires Inv(cfg, s) && Undisturbed(s) && CanMkdir(s, q) && s.dir.Present?
    ensures Undisturbed(DoMkdir(s, q))
  {
    var s' := DoMkdir(s, q);
    hide Inv, Reigns, CloseConnection;
    FinishOwn(s, q, AlreadyExists);
    OpeningCarries(cfg, s, q);
    forall c | CreatorAtWork(s', c)
      ensures Reigns(s', c)
    {
      assert CreatorAtWork(s, c) && Reigns(s, c);
      hide CreatorAtWork, DoMkdir, Carries, OwnMove, Reigned, Unmade;
      MoveReigns(cfg, s, s', q, c);
    }
  }

  lemma FirstMkdir(cfg: Config, s: State, q: ProcId)
    requires Inv(cfg, s) && Undisturbed(s) && CanMkdir(s, q) && s.dir.Absent?
    ensures Undisturbed(DoMkdir(s, q))
  {
    FactsOf(cfg, s, q);
    hide ProcsOk, SavesOk, ConnsOk;
    forall p | p in s.procs && p != q
      ensures s.procs[p].pc.AtMkdir? || s.procs[p].pc.AtLoad? || s.procs[p].pc.Ended?
    {
      NobodyAtTheLock(cfg, s, p);
    }
    hide SharedOk, Unmade;
    assert s.lockPath.None? && s.nextInode == 0;
    assert Reigns(DoMkdir(s, q), q);
  }

  lemma SpawnUndisturbed(cfg: Config, s: State, q: ProcId, k: Kind)
    requires Inv(cfg, s) && Undisturbed(s) && q !in s.procs
    ensures Undisturbed(DoSpawn(cfg, s, q, k))
  {
    hide ProcsOk, SavesOk, ConnsOk;
    var s' := DoSpawn(cfg, s, q, k);
    forall c | CreatorAtWork(s', c)
      ensures Reigns(s', c)
    {
      assert CreatorAtWork(s, c);
    }
  }

  lemma ChildUndisturbed(cfg: Config, s: State, step: Step)
    requires Undisturbed(s) && ChildEnabled(cfg, s, step)
    ensures Undisturbed(DoChild(cfg, s, step))
  {
    hide MoveOf, Answered, ChildEnabled;
    forall c | CreatorAtWork(DoChild(cfg, s, step), c)
      ensures Reigns(DoChild(cfg, s, step), c)
    {
      assert CreatorAtWork(s, c);
    }
  }

  lemma StillUnmade(cfg: Config, s: State, step: Step)
    requires Inv(cfg, s) && Unmade(s) && Enabled(cfg, s, step)
    requires !ChildStep(step) && !step.Spawn? && !step.Mkdir?
    ensures Unmade(Do(cfg, s, step))
  {
    StepperIsThere(cfg, s, step);
    if s.dir.Absent? && !At(s, step.p, AtLoad) {
      NobodyAtTheLock(cfg, s, step.p);
    }
    hide Inv;
    hide DoLoad, DoOpenLock, DoFlock, DoReload, DoCheck, DoSave, DoFork, DoReceiveInit;
    hide DoReceiveExecReady, DoRunHooks, DoDial, DoSendStart, DoCgroup, DoProbe;
    if step.Save? {
      SaveKeepsDir(s, step.p, step.result);
    } else if !step.UnlinkState? && !step.Rmdir? {
      StepSameFiles(cfg, s, step);
    }
  }

  lemma WasAtWork(cfg: Config, s: State, step: Step, c: ProcId)
    requires Enabled(cfg, s, step) && !ChildStep(step) && !step.Spawn? && !step.Mkdir?
    requires CreatorAtWork(Do(cfg, s, step), c)
    ensures CreatorAtWork(s, c)
  {
    StepperIsThere(cfg, s, step);
    hide DoLoad, DoOpenLock, DoReload, DoCheck, DoSave, DoFork, DoReceiveInit;
    hide DoReceiveExecReady, DoRunHooks, DoDial, DoSendStart, DoCgroup, DoProbe, Records, SameSections, Winner;
    if step.Save? {
      SaveKeepsDir(s, step.p, step.result);
    } else if !step.UnlinkState? && !step.Rmdir? {
      StepSameFiles(cfg, s, step);
    }
    if !step.Flock? {
      StepCarries(cfg, s, step);
    }
  }

  /** A step that is none of the above. */
  lemma QuietReigns(cfg: Config, s: State, step: Step, c: ProcId)
    requires Inv(cfg, s) && Enabled(cfg, s, step) && !ChildStep(step)
    requires !step.Spawn? && !step.Mkdir? && !step.Save? && !step.OpenLock? && !step.Flock?
    requires CreatorAtWork(s, c) && Reigns(s, c) && CreatorAtWork(Do(cfg, s, step), c)
    ensures Reigns(Do(cfg, s, step), c)
  {
    hide Inv, CreatorAtWork, Reigns, Do;
    NoRemovalYet(cfg, s, step.p, c);
    assert !step.UnlinkState? && !step.UnlinkLock? && !step.Rmdir?;
    StepSameFiles(cfg, s, step);
    StepCarries(cfg, s, step);
    StepOwn(cfg, s, step);
    hide Enabled, Carries, OwnMove, SameName;
    MoveReigns(cfg, s, Do(cfg, s, step), step.p, c);
  }

  lemma OtherReigns(cfg: Config, s: State, step: Step, c: ProcId)
    requires Inv(cfg, s) && HoldsOwn(s) && Enabled(cfg, s, step)
    requires !ChildStep(step) && !step.Spawn? && !step.Mkdir?
    requires CreatorAtWork(s, c) && Reigns(s, c) && CreatorAtWork(Do(cfg, s, step), c)
    ensures Reigns(Do(cfg, s, step), c)
  {
    hide Inv, HoldsOwn, CreatorAtWork, Reigns;
    hide DoSpawn, DoMkdir, DoLoad, DoOpenLock, DoFlock, DoReload, DoCheck, DoSave, DoFork, DoReceiveInit;
    hide DoReceiveExecReady, DoRunHooks, DoDial, DoSendStart, DoCgroup, DoProbe, DoUnlinkState, DoRmdir, DoChild;
    hide Finish;
    match step
    case Save(q, r) => SaveReigns(cfg, s, q, r, c);
    case OpenLock(q) => OpenLockReigns(cfg, s, q, c);
    case Flock(q) => FlockReigns(cfg, s, q, c);
    case _ => hide Do, Enabled; QuietReigns(cfg, s, step, c);
  }

  lemma OtherUndisturbed(cfg: Config, s: State, step: Step)
    requires Inv(cfg, s) && HoldsOwn(s) && Reigned(s) && Enabled(cfg, s, step)
    requires !ChildStep(step) && !step.Spawn? && !step.Mkdir?
    ensures Reigned(Do(cfg, s, step))
  {
    hide Inv, HoldsOwn, Reigns, Do, Enabled;
    forall c | CreatorAtWork(Do(cfg, s, step), c)
      ensures Reigns(Do(cfg, s, step), c)
    {
      WasAtWork(cfg, s, step, c);
      OtherReigns(cfg, s, step, c);
    }
  }

  lemma StepUndisturbed(cfg: Config, s: State, step: Step)
    requires Inv(cfg, s) && HoldsOwn(s) && Undisturbed(s) && Enabled(cfg, s, step)
    ensures Undisturbed(Do(cfg, s, step))
  {
    hide Inv, HoldsOwn, Unmade, Reigned;
    hide DoSpawn, DoMkdir, DoLoad, DoOpenLock, DoFlock, DoReload, DoCheck, DoSave, DoFork, DoReceiveInit;
    hide DoReceiveExecReady, DoRunHooks, DoDial, DoSendStart, DoCgroup, DoProbe, DoUnlinkState, DoRmdir, DoChild;
    if ChildStep(step) {
      assert ChildEnabled(cfg, s, step) && Do(cfg, s, step) == DoChild(cfg, s, step);
      ChildUndisturbed(cfg, s, step);
    } else if step.Spawn? {
      SpawnUndisturbed(cfg, s, step.p, step.kind);
    } else if step.Mkdir? {
      if s.dir.Present? { LateMkdir(cfg, s, step.p); } else { FirstMkdir(cfg, s, step.p); }
    } else {
      OtherUndisturbed(cfg, s, step);
      StillUnmade(cfg, s, step);
    }
  }

  // ---- every run ----------------------------------------------------------

  lemma ReachableUndisturbed(cfg: Config, steps: seq<Step>)
    requires Runs(cfg, InitialState(cfg), steps)
    ensures var s := Run(cfg, InitialState(cfg), steps); Inv(cfg, s) && HoldsOwn(s) && Undisturbed(s)
  {
    Reachable(cfg, steps);
    assert Inv(cfg, InitialState(cfg)) && HoldsOwn(InitialState(cfg)) && Undisturbed(InitialState(cfg));
    hide Inv, HoldsOwn, Undisturbed, Runs, Run;
    RunHoldsOwn(cfg, InitialState(cfg), steps);
    RunUndisturbed(cfg, InitialState(cfg), steps);
  }

  lemma {:induction false} RunUndisturbed(cfg: Config, s: State, steps: seq<Step>)
    requires Inv(cfg, s) && HoldsOwn(s) && Undisturbed(s) && Runs(cfg, s, steps)
    ensures Undisturbed(Run(cfg, s, steps))
    decreases |steps|
  {
    hide Inv, HoldsOwn, Undisturbed;
    if steps != [] {
      StepKeeps(cfg, s, steps[0]);
      StepHoldsOwn(cfg, s, steps[0]);
      StepUndisturbed(cfg, s, steps[0]);
      RunUndisturbed(cfg, Do(cfg, s, steps[0]), steps[1..]);
    }
  }

  /** On every run of every environment: between its Mkdir and its end a create has
      the directory, nobody else is past the lock, and from its first save up to its
      second the disk says creating. */
  lemma CreateIsUndisturbed(cfg: Config, steps: seq<Step>, p: ProcId)
    requires Runs(cfg, InitialState(cfg), steps)
    requires var s := Run(cfg, InitialState(cfg), steps);
             && p in s.procs && s.procs[p].kind.Create? && !s.procs[p].pc.AtMkdir? && !s.procs[p].pc.Ended?
    ensures var s := Run(cfg, InitialState(cfg), steps);
            && s.dir.Present?
            && (forall q :: q in s.procs && q != p ==> !HoldsLock(s.procs[q].pc))
            && s.disk == (if s.procs[p].pc.AtOpenLock? || s.procs[p].pc.AtFlock? || s.procs[p].pc.AtSaveCreating?
                          then None else Some(NewState(cfg)))
  {
    ReachableUndisturbed(cfg, steps);
    var s := Run(cfg, InitialState(cfg), steps);
    hide Run, Runs;
    FactsOf(cfg, s, p);
    assert CreatorAtWork(s, p) && Reigns(s, p);
    hide ProcsOk, ConnsOk;
  }
}
