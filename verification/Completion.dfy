/**
 The two handshakes cannot go on for ever, and cannot get stuck unless the directory
 is removed under a start: create with the child up to the created save, and start
 with the child up to the running save. Any other commands may step in between.
 */
module Completion {
  import opened Wrappers
  import opened Lifecycle
  import opened Protocol
  import opened Handshake
  import opened Frames
  import opened Creation

  datatype Goal = ToCreated | ToRunning

  /** What the command itself still has to do. */
  function CommandLeft(goal: Goal, pc: PC): nat {
    match goal
    case ToCreated =>
      if pc.AtRecvPrePivot? then 4 else if pc.AtCreateRuntime? then 3
      else if pc.AtRecvReady? then 2 else if pc.AtSaveCreated? then 1 else 0
    case ToRunning =>
      if pc.AtSendStart? then 3 else if pc.AtRecvExecReady? then 2 else if pc.AtSaveRunning? then 1 else 0
  }

  /** What the child still has to do for this handshake; nothing once it has sent
      its last message of it. */
  function ChildLeft(goal: Goal, ph: Phase): nat {
    match goal
    case ToCreated => if ph == InvalidSent || Rank(ph) >= 6 then 0 else 6 - Rank(ph)
    case ToRunning => if Rank(ph) >= 11 then 0 else 11 - Rank(ph)
  }

  function Left(goal: Goal, s: State, p: ProcId): nat
    requires p in s.procs
  {
    CommandLeft(goal, s.procs[p].pc) + ChildLeft(goal, s.child.phase)
  }

  /** The handshake has begun, and the child is there as long as it is needed. For a
      start, the dial must have been the first one that the child's listener saw. */
  predicate Underway(goal: Goal, s: State, p: ProcId) {
    && p in s.procs
    && CommandLeft(goal, s.procs[p].pc) > 0
    && (goal.ToCreated? ==> s.procs[p].kind.Create?)
    && (goal.ToRunning? ==> s.procs[p].kind.Start? && s.procs[p].conn == Some(0))
    && (ChildLeft(goal, s.child.phase) > 0 ==> s.child.alive)
  }

  predicate Completed(goal: Goal, s: State, p: ProcId) {
    || (goal.ToCreated? && Saved(p, Created) in s.trace)
    || (goal.ToRunning? && Saved(p, Running) in s.trace)
    || (goal.ToCreated? && p in s.procs && s.procs[p].outcome == InvalidExecutable)
  }

  /** The steps that the two parties take when nothing fails them. */
  predicate Helps(goal: Goal, p: ProcId, step: Step) {
    match step
    case Receive(q) => q == p
    case Save(q, r) => q == p && r.Done?
    case RunHooks(q, ok) => goal.ToCreated? && q == p && ok
    case SendStart(q) => goal.ToRunning? && q == p
    case ChildLoad => goal.ToCreated?
    case ChildPrePivot => goal.ToCreated?
    case ChildRoot(_) => goal.ToCreated?
    case ChildCreateHooks(ok) => goal.ToCreated? && ok
    case ChildReady => goal.ToCreated?
    case ChildAccept => goal.ToRunning?
    case ChildReceive => goal.ToRunning?
    case ChildSecure => goal.ToRunning?
    case ChildStartHooks(ok) => goal.ToRunning? && ok
    case ChildExecReady => goal.ToRunning?
    case _ => false
  }

  /** A failure or a death of one of the two while it is needed. */
  predicate Spoils(goal: Goal, s: State, p: ProcId, step: Step) {
    match step
    case Quit(q) => q == p
    case Save(q, r) => q == p && !r.Done?
    case RunHooks(q, ok) => q == p && !ok
    case ChildCreateHooks(ok) => !ok
    case ChildStartHooks(ok) => !ok
    case ChildDie => ChildLeft(goal, s.child.phase) > 0
    case _ => false
  }

  // ---- never stuck --------------------------------------------------------

  /** Where create and child stand with each other. */
  lemma CreateStands(cfg: Config, s: State, p: ProcId)
    requires Inv(cfg, s) && Undisturbed(s) && Underway(ToCreated, s, p)
    ensures s.disk.Some? && s.dir.Present?
    ensures s.child.phase != Unborn && s.initChan == InitSent(s.child.phase)
    ensures s.procs[p].pc.AtRecvPrePivot? ==> s.initRead == 0
    ensures s.procs[p].pc.AtRecvReady? ==> s.initRead == 1
  {
    FactsOf(cfg, s, p);
    hide ProcsOk, SavesOk, ConnsOk, OperationOk, OthersWait;
    assert CreatorAtWork(s, p) && Reigns(s, p);
  }

  /** The step that is due, whichever of the two has to take it. */
  function CreateDue(s: State, p: ProcId): Step
    requires p in s.procs
  {
    if s.procs[p].pc.AtCreateRuntime? then RunHooks(p, true)
    else if s.procs[p].pc.AtSaveCreated? then Save(p, Done)
    else if s.initRead < |s.initChan| then Receive(p)
    else
      match s.child.phase
      case Forked => ChildLoad
      case Loaded => ChildPrePivot
      case PrePivotSent => ChildRoot(true)
      case Rooted => ChildCreateHooks(true)
      case _ => ChildReady
  }

  /** Whoever is at the table, one of the two can move. */
  lemma CreateCanMove(cfg: Config, s: State, p: ProcId)
    requires Underway(ToCreated, s, p)
    requires s.disk.Some? && s.dir.Present?
    requires s.child.phase != Unborn && s.initChan == InitSent(s.child.phase)
    requires s.procs[p].pc.AtRecvPrePivot? ==> s.initRead == 0
    requires s.procs[p].pc.AtRecvReady? ==> s.initRead == 1
    ensures Helps(ToCreated, p, CreateDue(s, p)) && Enabled(cfg, s, CreateDue(s, p))
  {
    if !s.procs[p].pc.AtCreateRuntime? && !s.procs[p].pc.AtSaveCreated? && s.initRead >= |s.initChan| {
      assert ChildEnabled(cfg, s, CreateDue(s, p));
    }
  }

  lemma CreateNotStuck(cfg: Config, s: State, p: ProcId)
    requires Inv(cfg, s) && Undisturbed(s) && Underway(ToCreated, s, p)
    ensures Helps(ToCreated, p, CreateDue(s, p)) && Enabled(cfg, s, CreateDue(s, p))
  {
    hide Inv, Undisturbed, Underway, Helps, Enabled, InitSent, CreateDue;
    CreateStands(cfg, s, p);
    CreateCanMove(cfg, s, p);
  }

  /** Where start and child stand with each other. */
  lemma StartStands(cfg: Config, s: State, p: ProcId)
    requires Inv(cfg, s) && Underway(ToRunning, s, p)
    ensures !s.dir.Absent?
    ensures !s.procs[p].pc.AtSendStart? ==> !cfg.processNil
    ensures Rank(s.child.phase) >= 6 && s.conns != [] && s.conns[0].open
    ensures s.conns[0].up == if s.procs[p].pc.AtSendStart? then [] else [MsgStart]
    ensures Rank(s.child.phase) >= 11 ==> s.conns[0].down != []
  {
    OperationFacts(cfg, s, p);
    hide ProcsOk, SavesOk;
  }

  function StartDue(s: State, p: ProcId): Step
    requires p in s.procs
  {
    if s.procs[p].pc.AtSendStart? then SendStart(p)
    else if s.procs[p].pc.AtSaveRunning? then Save(p, Done)
    else if Rank(s.child.phase) >= 11 then Receive(p)
    else
      match s.child.phase
      case ReadySent => ChildAccept
      case Accepted => ChildReceive
      case StartTaken => ChildSecure
      case Secured => ChildStartHooks(true)
      case _ => ChildExecReady
  }

  lemma StartCanMove(cfg: Config, s: State, p: ProcId)
    requires Underway(ToRunning, s, p)
    requires s.procs[p].pc.AtSaveRunning? ==> s.dir.Present?
    requires !s.procs[p].pc.AtSendStart? ==> !cfg.processNil
    requires Rank(s.child.phase) >= 6 && s.conns != [] && s.conns[0].open
    requires s.conns[0].up == if s.procs[p].pc.AtSendStart? then [] else [MsgStart]
    requires Rank(s.child.phase) >= 11 ==> s.conns[0].down != []
    ensures Helps(ToRunning, p, StartDue(s, p)) && Enabled(cfg, s, StartDue(s, p))
  {
    if s.procs[p].pc.AtRecvExecReady? && Rank(s.child.phase) < 11 {
      assert ChildEnabled(cfg, s, StartDue(s, p));
    }
  }

  /** The start has everything but a directory to save running in. */
  predicate DirectoryGone(s: State, p: ProcId) { At(s, p, AtSaveRunning) && s.dir.Removed? }

  lemma StartNotStuck(cfg: Config, s: State, p: ProcId)
    requires Inv(cfg, s) && Underway(ToRunning, s, p) && !DirectoryGone(s, p)
    ensures Helps(ToRunning, p, StartDue(s, p)) && Enabled(cfg, s, StartDue(s, p))
  {
    hide Inv, Helps, Enabled, StartDue;
    StartStands(cfg, s, p);
    StartCanMove(cfg, s, p);
  }

  ghost predicate CanGoOn(goal: Goal, cfg: Config, s: State, p: ProcId) {
    exists step :: Helps(goal, p, step) && Enabled(cfg, s, step)
  }

  lemma NothingHelps(cfg: Config, s: State, p: ProcId, step: Step)
    requires Inv(cfg, s) && Underway(ToRunning, s, p) && DirectoryGone(s, p)
    ensures !(Helps(ToRunning, p, step) && Enabled(cfg, s, step))
  {
    OperationFacts(cfg, s, p);
    hide Inv;
  }

  /** The one way in which a start under way gets stuck. */
  lemma StartCanGoOnIff(cfg: Config, s: State, p: ProcId)
    requires Inv(cfg, s) && Underway(ToRunning, s, p)
    ensures CanGoOn(ToRunning, cfg, s, p) <==> !DirectoryGone(s, p)
  {
    hide Inv, Underway, Helps, Enabled, DirectoryGone;
    if DirectoryGone(s, p) {
      forall step ensures !(Helps(ToRunning, p, step) && Enabled(cfg, s, step)) {
        NothingHelps(cfg, s, p, step);
      }
    } else {
      StartNotStuck(cfg, s, p);
    }
  }

  // ---- never for ever -----------------------------------------------------

  /** Done, or still under way and strictly closer. */
  predicate Nearer(goal: Goal, s: State, s': State, p: ProcId)
    requires p in s.procs
  {
    Completed(goal, s', p) || (Underway(goal, s', p) && Left(goal, s', p) < Left(goal, s, p))
  }

  /** Done, or still under way and no further. */
  predicate NoFurther(goal: Goal, s: State, s': State, p: ProcId)
    requires p in s.procs
  {
    Completed(goal, s', p) || (Underway(goal, s', p) && Left(goal, s', p) <= Left(goal, s, p))
  }

  lemma InitReceiveNears(cfg: Config, s: State, p: ProcId)
    requires Inv(cfg, s) && Underway(ToCreated, s, p) && CanReceiveInit(s, p)
    ensures Nearer(ToCreated, s, DoReceiveInit(s, p), p)
  {
    hide Inv;
    InitHears(cfg, s, p);
  }

  lemma StartReceiveNears(cfg: Config, s: State, p: ProcId)
    requires Inv(cfg, s) && Underway(ToRunning, s, p) && CanReceiveExecReady(s, p)
    ensures Nearer(ToRunning, s, DoReceiveExecReady(s, p), p)
  {
    hide Inv, ProcOk;
    StartHears(cfg, s, p);
  }

  lemma SaveNears(goal: Goal, s: State, p: ProcId)
    requires Underway(goal, s, p) && CanSave(s, p, Done)
    ensures Nearer(goal, s, DoSave(s, p, Done), p)
  {
    var x := s.procs[p];
    assert goal.ToCreated? ==> x.pc.AtSaveCreated?;
    assert goal.ToRunning? ==> x.pc.AtSaveRunning?;
    var e := Saved(p, ToSave(x).status);
    assert e in s.trace + [e];
  }

  lemma HooksNear(s: State, p: ProcId)
    requires Underway(ToCreated, s, p) && CanRunHooks(s, p)
    ensures Nearer(ToCreated, s, DoRunHooks(s, p, true), p)
  {}

  lemma SendNears(cfg: Config, s: State, p: ProcId)
    requires Inv(cfg, s) && Underway(ToRunning, s, p) && CanSendStart(s, p) && !cfg.processNil
    ensures Nearer(ToRunning, s, DoSendStart(cfg, s, p), p)
  {
    hide Inv;
  }

  /** A child step of the handshake brings it nearer; any other that is not the
      child's death leaves it where it is. */
  lemma ChildNears(cfg: Config, goal: Goal, s: State, p: ProcId, step: Step)
    requires Underway(goal, s, p) && ChildEnabled(cfg, s, step) && !Spoils(goal, s, p, step)
    requires s.child.phase != Unborn && (goal.ToRunning? ==> Rank(s.child.phase) >= 6)
    requires step.ChildReceive? ==> s.conns[0].up[0] == MsgStart
    ensures var s' := DoChild(cfg, s, step);
            && NoFurther(goal, s, s', p)
            && (Helps(goal, p, step) ==> Nearer(goal, s, s', p))
  {
    hide Completed, Answered;
  }

  /** While it is under way, the command itself can only go on or be spoiled. */
  lemma OwnStepsHelp(cfg: Config, goal: Goal, s: State, p: ProcId, step: Step)
    requires Underway(goal, s, p) && Enabled(cfg, s, step) && !ChildStep(step) && step.p == p
    requires !Spoils(goal, s, p, step)
    ensures Helps(goal, p, step)
    ensures step.Receive? || step.Save? || (step.RunHooks? && goal.ToCreated?) || (step.SendStart? && goal.ToRunning?)
    ensures step.Receive? && goal.ToCreated? ==> CanReceiveInit(s, p)
    ensures step.Receive? && goal.ToRunning? ==> CanReceiveExecReady(s, p) && !CanReceiveInit(s, p)
  {}

  lemma OwnStepNears(cfg: Config, goal: Goal, s: State, p: ProcId, step: Step)
    requires Inv(cfg, s) && Underway(goal, s, p) && Enabled(cfg, s, step) && !ChildStep(step) && step.p == p
    requires !Spoils(goal, s, p, step) && (goal.ToRunning? ==> !cfg.processNil)
    ensures Nearer(goal, s, Do(cfg, s, step), p)
  {
    OwnStepsHelp(cfg, goal, s, p, step);
    hide Inv, Nearer, Underway, Spoils;
    match step
    case Receive(_) =>
      if goal.ToCreated? { InitReceiveNears(cfg, s, p); } else { StartReceiveNears(cfg, s, p); }
    case Save(_, r) => assert r.Done? by { assert Helps(goal, p, step); } SaveNears(goal, s, p);
    case RunHooks(_, ok) => assert ok by { assert Helps(goal, p, step); } HooksNear(s, p);
    case SendStart(_) => SendNears(cfg, s, p);
  }

  lemma NoForkUnderway(cfg: Config, goal: Goal, s: State, p: ProcId)
    requires Inv(cfg, s) && Underway(goal, s, p)
    ensures s.child.phase != Unborn && (goal.ToRunning? ==> Rank(s.child.phase) >= 6)
    ensures forall q, pid :: !CanFork(s, q, pid)
    ensures ChildAt(s, Accepted) && |s.conns| > 0 && s.conns[0].up != [] ==> s.conns[0].up[0] == MsgStart
  {
    if goal.ToCreated? { FactsOf(cfg, s, p); } else { StartStands(cfg, s, p); }
    hide SharedOk, SavesOk;
    forall q, pid | CanFork(s, q, pid)
      ensures false
    {
      FactsOf(cfg, s, q);
    }
  }

  lemma ChildStepNears(cfg: Config, goal: Goal, s: State, p: ProcId, step: Step)
    requires Inv(cfg, s) && Underway(goal, s, p) && ChildEnabled(cfg, s, step)
    requires !Spoils(goal, s, p, step)
    ensures NoFurther(goal, s, DoChild(cfg, s, step), p)
    ensures Helps(goal, p, step) ==> Nearer(goal, s, DoChild(cfg, s, step), p)
  {
    hide Inv, Underway, Helps, Spoils, DoChild, NoFurther, Nearer;
    NoForkUnderway(cfg, goal, s, p);
    ChildNears(cfg, goal, s, p, step);
  }

  lemma OtherStepNears(cfg: Config, goal: Goal, s: State, p: ProcId, step: Step)
    requires Inv(cfg, s) && Underway(goal, s, p)
    requires Enabled(cfg, s, step) && !ChildStep(step) && step.p != p
    ensures NoFurther(goal, s, Do(cfg, s, step), p) && !Helps(goal, p, step)
  {
    hide Inv, Do;
    NoForkUnderway(cfg, goal, s, p);
    OthersLeaveAlone(cfg, s, step);
    hide Enabled;
  }

  /** One step of anybody: closer if it is one of the handshake's own, and in no
      case further away. */
  lemma StepNears(cfg: Config, goal: Goal, s: State, p: ProcId, step: Step)
    requires Inv(cfg, s) && Underway(goal, s, p) && Enabled(cfg, s, step)
    requires !Spoils(goal, s, p, step) && (goal.ToRunning? ==> !cfg.processNil)
    ensures NoFurther(goal, s, Do(cfg, s, step), p)
    ensures Helps(goal, p, step) ==> Nearer(goal, s, Do(cfg, s, step), p)
  {
    hide Inv, Underway, Helps, Spoils, DoChild;
    if ChildStep(step) {
      assert ChildEnabled(cfg, s, step) && Do(cfg, s, step) == DoChild(cfg, s, step);
      ChildStepNears(cfg, goal, s, p, step);
    } else {
      hide Do, Enabled;
      if step.p == p {
        OwnStepNears(cfg, goal, s, p, step);
      } else {
        OtherStepNears(cfg, goal, s, p, step);
      }
    }
  }

  // ---- every run ----------------------------------------------------------

  /** Nobody fails the handshake on this run. */
  predicate Unspoiled(goal: Goal, cfg: Config, s: State, p: ProcId, steps: seq<Step>)
    requires Runs(cfg, s, steps)
    decreases |steps|
  {
    steps == [] || (!Spoils(goal, s, p, steps[0]) && Unspoiled(goal, cfg, Do(cfg, s, steps[0]), p, steps[1..]))
  }

  /** How many of the handshake's own steps the run takes before it is completed. */
  function HelpTaken(goal: Goal, cfg: Config, s: State, p: ProcId, steps: seq<Step>): nat
    requires Runs(cfg, s, steps)
    decreases |steps|
  {
    if steps == [] || Completed(goal, s, p) then 0
    else (if Helps(goal, p, steps[0]) then 1 else 0) + HelpTaken(goal, cfg, Do(cfg, s, steps[0]), p, steps[1..])
  }

  /** The completed handshake is reached or was: it is never taken back. */
  ghost predicate WasCompleted(goal: Goal, cfg: Config, s: State, p: ProcId, steps: seq<Step>)
    requires Runs(cfg, s, steps)
  {
    exists n :: 0 <= n <= |steps| && Runs(cfg, s, steps[..n]) && Completed(goal, Run(cfg, s, steps[..n]), p)
  }

  lemma SomethingLeft(goal: Goal, s: State, p: ProcId)
    requires Underway(goal, s, p)
    ensures Left(goal, s, p) > 0
  {}

  /** It completed, or one of the two can go on, or the directory has been removed
      under a start that is about to save running. */
  ghost predicate NotStuck(goal: Goal, cfg: Config, s: State, p: ProcId, steps: seq<Step>)
    requires Runs(cfg, s, steps)
  {
    var t := Run(cfg, s, steps);
    WasCompleted(goal, cfg, s, p, steps) || CanGoOn(goal, cfg, t, p) || (goal.ToRunning? && DirectoryGone(t, p))
  }

  lemma NotStuckNow(goal: Goal, cfg: Config, s: State, p: ProcId)
    requires Inv(cfg, s) && Undisturbed(s) && Underway(goal, s, p)
    ensures NotStuck(goal, cfg, s, p, [])
  {
    hide Inv, Undisturbed, Underway, Helps, Enabled, DirectoryGone;
    if goal.ToCreated? {
      CreateNotStuck(cfg, s, p);
    } else {
      StartCanGoOnIff(cfg, s, p);
    }
  }

  lemma CompletedAtOnce(goal: Goal, cfg: Config, s: State, p: ProcId, steps: seq<Step>)
    requires Runs(cfg, s, steps) && Completed(goal, s, p)
    ensures WasCompleted(goal, cfg, s, p, steps)
  {
    hide Completed, Enabled, Do;
    assert steps[..0] == [];
    assert Run(cfg, s, steps[..0]) == s;
  }

  lemma CompletedLater(goal: Goal, cfg: Config, s: State, p: ProcId, steps: seq<Step>)
    requires steps != [] && Runs(cfg, s, steps)
    requires WasCompleted(goal, cfg, Do(cfg, s, steps[0]), p, steps[1..])
    ensures WasCompleted(goal, cfg, s, p, steps)
  {
    hide Completed, Enabled, Do;
    var t := Do(cfg, s, steps[0]);
    var n :| && 0 <= n <= |steps[1..]| && Runs(cfg, t, steps[1..][..n])
             && Completed(goal, Run(cfg, t, steps[1..][..n]), p);
    assert steps[..n + 1][1..] == steps[1..][..n];
    assert Runs(cfg, s, steps[..n + 1]);
  }

  /** On every run from here on which neither party fails or dies, whatever the other
      commands do in between: at most Left of the handshake's own steps are taken
      before it completes, and until it completes one of them can be taken, unless
      it is a start that is about to save and whose directory has been removed. */
  lemma {:induction false} HandshakeCompletes(goal: Goal, cfg: Config, s: State, p: ProcId, steps: seq<Step>)
    requires Inv(cfg, s) && HoldsOwn(s) && Undisturbed(s) && Underway(goal, s, p)
    requires goal.ToRunning? ==> !cfg.processNil
    requires Runs(cfg, s, steps) && Unspoiled(goal, cfg, s, p, steps)
    ensures HelpTaken(goal, cfg, s, p, steps) <= Left(goal, s, p)
    ensures NotStuck(goal, cfg, s, p, steps)
    decreases |steps|
  {
    hide Inv, HoldsOwn, Undisturbed, Underway, Helps, Spoils, Completed, Enabled, Do, WasCompleted, CanGoOn;
    if steps == [] {
      NotStuckNow(goal, cfg, s, p);
    } else if Completed(goal, s, p) {
      CompletedAtOnce(goal, cfg, s, p, steps);
    } else {
      var t := Do(cfg, s, steps[0]);
      StepNears(cfg, goal, s, p, steps[0]);
      if Completed(goal, t, p) {
        SomethingLeft(goal, s, p);
        CompletedAtOnce(goal, cfg, t, p, steps[1..]);
        CompletedLater(goal, cfg, s, p, steps);
      } else {
        StepKeeps(cfg, s, steps[0]);
        StepHoldsOwn(cfg, s, steps[0]);
        StepUndisturbed(cfg, s, steps[0]);
        HandshakeCompletes(goal, cfg, t, p, steps[1..]);
        if WasCompleted(goal, cfg, t, p, steps[1..]) {
          CompletedLater(goal, cfg, s, p, steps);
        }
      }
    }
  }

  /** The same from any state that the commands can have brought about. */
  lemma EveryHandshakeCompletes(goal: Goal, cfg: Config, before: seq<Step>, p: ProcId, steps: seq<Step>)
    requires Runs(cfg, InitialState(cfg), before)
    requires Underway(goal, Run(cfg, InitialState(cfg), before), p)
    requires goal.ToRunning? ==> !cfg.processNil
    requires Runs(cfg, Run(cfg, InitialState(cfg), before), steps)
    requires Unspoiled(goal, cfg, Run(cfg, InitialState(cfg), before), p, steps)
    ensures var s := Run(cfg, InitialState(cfg), before);
            && HelpTaken(goal, cfg, s, p, steps) <= Left(goal, s, p)
            && (|| WasCompleted(goal, cfg, s, p, steps)
                || CanGoOn(goal, cfg, Run(cfg, s, steps), p)
                || (goal.ToRunning? && DirectoryGone(Run(cfg, s, steps), p)))
  {
    hide Inv, HoldsOwn, Undisturbed, Run, Runs, Underway, Unspoiled, HelpTaken, WasCompleted, CanGoOn, Left;
    ReachableUndisturbed(cfg, before);
    HandshakeCompletes(goal, cfg, Run(cfg, InitialState(cfg), before), p, steps);
  }
}
