/**
 When the contents of state.json follow the status path on all runs: exactly when
 removals take state.json before c.lock, or there is no process to run. And when
 state.json always says created as MsgStart is sent.
 */
module Histories {
  import opened Wrappers
  import opened Lifecycle
  import opened Protocol
  import opened Handshake
  import opened Locking
  import opened RemovalOrder
  import opened Guarantees
  import opened Endings

  ghost predicate AlwaysLegal(cfg: Config) {
    forall steps :: Runs(cfg, InitialState(cfg), steps) ==> LegalHistory(cfg, StateAfter(cfg, steps).saves)
  }

  // ---- without a process --------------------------------------------------

  /** creating, created, and then nothing but stopped. */
  predicate Straight(saves: seq<ContainerState>) {
    && (|saves| > 1 ==> saves[1].status == Created)
    && forall i :: 1 < i < |saves| ==> saves[i].status == Stopped
  }

  /** What can be saved when the container has no process. */
  lemma NilSave(cfg: Config, s: State, p: ProcId)
    requires Inv(cfg, s) && cfg.processNil && p in s.procs && AtSave(s.procs[p].pc)
    ensures var st := ToSave(s.procs[p]);
            if s.saves == [] then true else if |s.saves| == 1 then st.status == Created else st.status == Stopped
  {
    FactsOf(cfg, s, p);
    SavedIsKnown(cfg, s, p);
    if !AtSaveCreatePC(s.procs[p].pc) {
      OnlyOneSaveWhileCreating(cfg, s, p);
    }
    hide ProcsOk, SavesOk, SharedOk;
  }

  lemma StepStraight(cfg: Config, s: State, step: Step)
    requires Inv(cfg, s) && cfg.processNil && Straight(s.saves) && Enabled(cfg, s, step)
    ensures Straight(Do(cfg, s, step).saves)
  {
    hide Inv;
    if step.Save? {
      assert CanSave(s, step.p, step.result) && Do(cfg, s, step) == DoSave(s, step.p, step.result);
      NilSave(cfg, s, step.p);
      hide Do, DoSave, Enabled, ToSave;
      SaveAppends(s, step.p, step.result);
    } else {
      hide Do;
      OnlySavesWrite(cfg, s, step);
    }
  }

  lemma {:induction false} RunStraight(cfg: Config, s: State, steps: seq<Step>)
    requires Inv(cfg, s) && cfg.processNil && Straight(s.saves) && Runs(cfg, s, steps)
    ensures Straight(Run(cfg, s, steps).saves)
    decreases |steps|
  {
    hide Inv, Straight;
    if steps != [] {
      StepKeeps(cfg, s, steps[0]);
      StepStraight(cfg, s, steps[0]);
      RunStraight(cfg, Do(cfg, s, steps[0]), steps[1..]);
    }
  }

  lemma StraightIsLegal(cfg: Config, s: State)
    requires Inv(cfg, s) && Straight(s.saves)
    ensures LegalHistory(cfg, s.saves)
  {
    hide ProcsOk, SharedOk, ConnsOk;
    forall i | 0 < i < |s.saves|
      ensures LegalMove(s.saves[i - 1], s.saves[i])
    {
      assert Later(cfg, ViewOf(s), s.saves[i]);
      if i > 1 {
        assert Later(cfg, ViewOf(s), s.saves[i - 1]);
      }
    }
  }

  // ---- stopped, then running ----------------------------------------------

  /** A delete stalls in its removal with c.lock gone and state.json still there. */
  predicate Stalled(s: State) {
    && At(s, 1, AtRemove) && s.dir.Present?
    && |s.saves| >= 2 && s.disk == Some(s.saves[|s.saves| - 1]) && s.disk.value.pid != 0
  }

  lemma DeleteStalls(cfg: Config) returns (steps: seq<Step>, s: State)
    requires cfg.lockFirst
    ensures Reaches(cfg, steps, s) && Stalled(s) && s.disk.value.status == Created
    ensures s.procs.Keys == {0, 1} && s.lockPath.None? && s.nextInode == 1 && s.holder == map[0 := 1]
    ensures ChildAt(s, ReadySent) && s.conns == []
  {
    hide Reaches;
    steps, s := CreatedContainer(cfg);
    steps, s := GetIn(cfg, steps, s, 1, Delete(true));
    steps, s := UnlockFirst(cfg, steps, s, 1);
  }

  /** The start that came in under a new c.lock, and the connection it made. */
  predicate Starting(s: State, pc: PC) {
    && Stalled(s) && s.procs.Keys == {0, 1, 2} && At(s, 2, pc) && s.procs[2].kind.Start?
    && s.lockPath == Some(1) && s.nextInode == 2 && s.holder == map[0 := 1, 1 := 2]
    && s.disk.value.status == Created
  }

  lemma StartComesIn(cfg: Config) returns (steps: seq<Step>, s: State)
    requires cfg.lockFirst
    ensures Reaches(cfg, steps, s) && Starting(s, AtCheck) && s.procs[2].mem == s.disk.value
    ensures ChildAt(s, ReadySent) && s.conns == []
  {
    hide Reaches;
    steps, s := DeleteStalls(cfg);
    steps, s := GetIn(cfg, steps, s, 2, Start);
  }

  lemma StartDials(cfg: Config) returns (steps: seq<Step>, s: State)
    requires cfg.lockFirst
    ensures Reaches(cfg, steps, s) && Starting(s, AtDial)
    ensures ChildAt(s, ReadySent) && s.conns == []
  {
    hide Reaches;
    steps, s := StartComesIn(cfg);
    steps, s := TakeCheck(cfg, steps, s, 2);
    steps, s := TakeRunHooks(cfg, steps, s, 2, true);
  }

  lemma StartConnects(cfg: Config) returns (steps: seq<Step>, s: State)
    requires cfg.lockFirst
    ensures Reaches(cfg, steps, s) && Starting(s, AtSendStart) && s.procs[2].conn == Some(0)
    ensures ChildAt(s, ReadySent) && s.conns == [Connection(2, [], [], true)]
  {
    hide Reaches;
    steps, s := StartDials(cfg);
    steps, s := TakeDial(cfg, steps, s, 2);
  }

  lemma SentOnFirst(cfg: Config, s: State)
    requires CanSendStart(s, 2) && s.procs[2].conn == Some(0) && s.conns == [Connection(2, [], [], true)]
    ensures DoSendStart(cfg, s, 2).conns == [Connection(2, [MsgStart], [], true)]
  {
    hide AnswersOf;
    var c := s.conns[0];
    assert c.up + [MsgStart] == [MsgStart];
    assert DoSendStart(cfg, s, 2).conns[0] == Connection(2, [MsgStart], [], true);
  }

  lemma StartSends(cfg: Config) returns (steps: seq<Step>, s: State)
    requires cfg.lockFirst && !cfg.processNil
    ensures Reaches(cfg, steps, s) && Starting(s, AtRecvExecReady) && s.procs[2].conn == Some(0)
    ensures ChildAt(s, ReadySent) && s.conns == [Connection(2, [MsgStart], [], true)]
  {
    hide Reaches;
    steps, s := StartConnects(cfg);
    SentOnFirst(cfg, s);
    steps, s := TakeSendStart(cfg, steps, s, 2);
  }

  lemma ChildSecures(cfg: Config) returns (steps: seq<Step>, s: State)
    requires cfg.lockFirst && !cfg.processNil
    ensures Reaches(cfg, steps, s) && Starting(s, AtRecvExecReady) && s.procs[2].conn == Some(0)
    ensures ChildAt(s, Secured) && s.conns == [Connection(2, [MsgStart], [], true)]
  {
    hide Reaches;
    steps, s := StartSends(cfg);
    steps, s := TakeChild(cfg, steps, s, ChildAccept);
    steps, s := TakeChild(cfg, steps, s, ChildReceive);
    steps, s := TakeChild(cfg, steps, s, ChildSecure);
  }

  lemma ChildAnswers(cfg: Config) returns (steps: seq<Step>, s: State)
    requires cfg.lockFirst && !cfg.processNil
    ensures Reaches(cfg, steps, s) && Starting(s, AtRecvExecReady) && s.procs[2].conn == Some(0)
    ensures s.child.alive && |s.conns| == 1 && s.conns[0].down == [MsgExecReady]
  {
    hide Reaches;
    steps, s := ChildSecures(cfg);
    steps, s := TakeChild(cfg, steps, s, ChildStartHooks(true));
    assert ChildAt(s, StartContainerRun) && s.conns == [Connection(2, [MsgStart], [], true)];
    steps, s := TakeChild(cfg, steps, s, ChildExecReady);
  }

  lemma StartHearsIt(cfg: Config) returns (steps: seq<Step>, s: State)
    requires cfg.lockFirst && !cfg.processNil
    ensures Reaches(cfg, steps, s) && Starting(s, AtSaveRunning) && s.procs[2].conn == Some(0) && s.child.alive
  {
    hide Reaches;
    steps, s := ChildAnswers(cfg);
    steps, s := TakeReceiveExecReady(cfg, steps, s, 2);
  }

  /** c.lock goes a second time, the child dies, and a state command comes in. */
  lemma StateComesIn(cfg: Config) returns (steps: seq<Step>, s: State)
    requires cfg.lockFirst && !cfg.processNil
    ensures Reaches(cfg, steps, s) && Stalled(s)
    ensures At(s, 2, AtSaveRunning) && At(s, 3, AtProbe) && s.procs[3].kind == GetState
    ensures !s.child.alive && s.procs[3].mem == s.disk.value
  {
    hide Reaches;
    steps, s := StartHearsIt(cfg);
    steps, s := TakeUnlinkLock(cfg, steps, s, 1);
    steps, s := TakeChild(cfg, steps, s, ChildDie);
    steps, s := GetIn(cfg, steps, s, 3, GetState);
  }

  lemma StateSavesStopped(cfg: Config) returns (steps: seq<Step>, s: State)
    requires cfg.lockFirst && !cfg.processNil
    ensures Reaches(cfg, steps, s) && Stalled(s) && At(s, 2, AtSaveRunning) && s.disk.value.status == Stopped
  {
    hide Reaches;
    steps, s := StateComesIn(cfg);
    steps, s := TakeProbe(cfg, steps, s, 3, true);
    steps, s := TakeSave(cfg, steps, s, 3, Done);
  }

  lemma StoppedIsFinal(a: ContainerState, b: ContainerState)
    requires a.status == Stopped && b.status == Running
    ensures !LegalMove(a, b)
  {}

  /** The start then saves running over stopped. */
  lemma StoppedThenRunning(cfg: Config) returns (steps: seq<Step>, s: State)
    requires cfg.lockFirst && !cfg.processNil
    ensures Reaches(cfg, steps, s) && !LegalHistory(cfg, s.saves)
    ensures var n := |s.saves|; n >= 2 && s.saves[n - 2].status == Stopped && s.saves[n - 1].status == Running
  {
    hide Reaches;
    steps, s := StateSavesStopped(cfg);
    steps, s := TakeSave(cfg, steps, s, 2, Done);
    var n := |s.saves|;
    hide LegalMove;
    assert s.saves[n - 2].status == Stopped && s.saves[n - 1].status == Running;
    StoppedIsFinal(s.saves[n - 2], s.saves[n - 1]);
    assert !LegalMove(s.saves[n - 2], s.saves[n - 1]);
  }

  /** The status path is kept on all runs exactly in those environments. */
  lemma StatusPathIff(cfg: Config)
    ensures AlwaysLegal(cfg) <==> !cfg.lockFirst || cfg.processNil
  {
    hide LegalHistory;
    if cfg.lockFirst && !cfg.processNil {
      var steps, s := StoppedThenRunning(cfg);
      assert !LegalHistory(cfg, StateAfter(cfg, steps).saves);
    } else {
      forall steps | Runs(cfg, InitialState(cfg), steps)
        ensures LegalHistory(cfg, StateAfter(cfg, steps).saves)
      {
        if cfg.processNil {
          Reachable(cfg, steps);
          RunStraight(cfg, InitialState(cfg), steps);
          StraightIsLegal(cfg, StateAfter(cfg, steps));
        } else {
          StateFirstKeepsLock(cfg, steps);
          StatusPath(cfg, steps);
        }
      }
    }
  }

  // ---- what the disk says when MsgStart is sent ---------------------------

  /** Whenever MsgStart is about to be sent, state.json holds what the start reloaded. */
  ghost predicate AlwaysSentFromDisk(cfg: Config) {
    forall steps, p :: Runs(cfg, InitialState(cfg), steps) && CanSendStart(StateAfter(cfg, steps), p) ==>
      var s := StateAfter(cfg, steps); s.disk == Some(s.procs[p].mem)
  }

  /** The delete goes on and takes state.json while the start is about to send. */
  lemma SentWithoutDisk(cfg: Config) returns (steps: seq<Step>, s: State)
    requires cfg.lockFirst
    ensures Reaches(cfg, steps, s) && CanSendStart(s, 2) && s.disk.None?
  {
    hide Reaches;
    steps, s := StartConnects(cfg);
    steps, s := TakeUnlinkState(cfg, steps, s, 1);
  }

  /** Exactly the environments that never take c.lock first. */
  lemma SentFromDiskIff(cfg: Config)
    ensures AlwaysSentFromDisk(cfg) <==> !cfg.lockFirst
  {
    hide CanSendStart;
    if cfg.lockFirst {
      var steps, s := SentWithoutDisk(cfg);
      assert StateAfter(cfg, steps) == s && CanSendStart(StateAfter(cfg, steps), 2);
    } else {
      forall steps, p | Runs(cfg, InitialState(cfg), steps) && CanSendStart(StateAfter(cfg, steps), p)
        ensures var s := StateAfter(cfg, steps); p in s.procs && s.disk == Some(s.procs[p].mem)
      {
        StateFirstKeepsLock(cfg, steps);
        StartIsSentFromCreated(cfg, steps, p);
      }
    }
  }
}
