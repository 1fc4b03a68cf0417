/**
 What the protocol promises over whole runs, from the first create to the removal.
 Theorems without LockKept hold on every run of every environment; the others on every
 run that never makes c.lock anew while state.json is there.
 */
module Guarantees {
  import opened Wrappers
  import opened Lifecycle
  import opened Protocol
  import opened Handshake
  import opened HookOrder
  import opened Frames
  import opened Locking
  import opened RemovalOrder

  function StateAfter(cfg: Config, steps: seq<Step>): State
    requires Runs(cfg, InitialState(cfg), steps)
  {
    Run(cfg, InitialState(cfg), steps)
  }

  // ---- disk and child -----------------------------------------------------

  /** What the status in state.json says about the child and about what the two
      sides have told each other. */
  predicate Joint(cfg: Config, s: State, st: ContainerState) {
    && (st.status == Creating <==> st.pid == 0)
    && (st.status != Creating ==>
          st.pid == s.child.pid && MsgReady in s.initChan && CreateContainerHooks(true) in s.trace)
    && (st.status == Running || st.status == Paused ==>
          && !cfg.processNil && s.conns != [] && s.conns[0].up == [MsgStart] && s.conns[0].down == [MsgExecReady]
          && StartReceived in s.trace && StartContainerHooks(true) in s.trace && ExecReady in s.trace)
    && (st.status == Stopped ==> cfg.processNil || !s.child.alive)
  }

  lemma ChildHasDone(s: State, ph: Phase)
    requires Past(s) && s.child.phase == ph
    ensures ChildPast(s.trace, ph)
  {}

  lemma KnownIsJoint(cfg: Config, s: State, st: ContainerState)
    requires Known(cfg, ViewOf(s), st) && ChildPast(s.trace, s.child.phase)
    requires ConnsOk(cfg, s.child, s.conns) && s.initChan == InitSent(s.child.phase)
    ensures Joint(cfg, s, st)
  {}

  lemma JointState(cfg: Config, steps: seq<Step>)
    requires Runs(cfg, InitialState(cfg), steps)
    ensures var s := StateAfter(cfg, steps); s.disk.Some? ==> Joint(cfg, s, s.disk.value)
  {
    var s := StateAfter(cfg, steps);
    RunPast(cfg, InitialState(cfg), steps);
    RunKeeps(cfg, InitialState(cfg), steps);
    hide Run, Past, ProcsOk, SavesOk, ConnsOk, Known, Joint;
    if s.disk.Some? {
      DiskIsKnown(cfg, s);
      ChildHasDone(s, s.child.phase);
      KnownIsJoint(cfg, s, s.disk.value);
    }
  }

  /** Whoever sends MsgStart is a start that holds the lock file it opened, has reloaded
      created under it and has run its prestart hooks since. */
  predicate SeesCreated(s: State, p: ProcId) {
    && At(s, p, AtSendStart) && s.procs[p].kind.Start?
    && s.procs[p].inode in s.holder && s.holder[s.procs[p].inode] == p
    && s.procs[p].mem.status == Created
    && Hooks(p, Prestart, true) in s.trace
  }

  /** So it is on every run of every environment. */
  lemma SenderSeesCreated(cfg: Config, steps: seq<Step>, p: ProcId)
    requires Runs(cfg, InitialState(cfg), steps) && CanSendStart(StateAfter(cfg, steps), p)
    ensures SeesCreated(StateAfter(cfg, steps), p)
  {
    var s := StateAfter(cfg, steps);
    RunPast(cfg, InitialState(cfg), steps);
    RunKeeps(cfg, InitialState(cfg), steps);
    RunHoldsOwn(cfg, InitialState(cfg), steps);
    hide Run;
    OperationFacts(cfg, s, p);
    ProcPastOf(s, p);
    hide Inv, Past, ConnOk;
  }

  /** If nobody has made c.lock anew, state.json still says created at that moment. */
  lemma StartIsSentFromCreated(cfg: Config, steps: seq<Step>, p: ProcId)
    requires Runs(cfg, InitialState(cfg), steps) && LockKept(cfg, InitialState(cfg), steps)
    requires CanSendStart(StateAfter(cfg, steps), p)
    ensures var s := StateAfter(cfg, steps);
            && SeesCreated(s, p)
            && s.disk == Some(s.procs[p].mem)
  {
    var s := StateAfter(cfg, steps);
    SenderSeesCreated(cfg, steps, p);
    ReachableLocked(cfg, steps);
    hide Run, SeesCreated;
    OperationFacts(cfg, s, p);
    MemIsDisk(cfg, s, p);
    hide Inv, LockInv;
  }

  lemma SentByItsStep(cfg: Config, s: State, step: Step, p: ProcId)
    requires Enabled(cfg, s, step) && StartSent(p) !in s.trace && StartSent(p) in Do(cfg, s, step).trace
    ensures step == SendStart(p)
  {
    hide DoMkdir, DoLoad, DoOpenLock, DoReload, DoCheck, DoSave, DoFork, DoReceiveInit, DoReceiveExecReady, DoRunHooks;
    hide DoDial, DoSendStart, DoCgroup, DoProbe, DoUnlinkState, DoRmdir, DoChild, Finish;
    if ChildStep(step) {
      assert ChildEnabled(cfg, s, step) && Do(cfg, s, step) == DoChild(cfg, s, step);
      hide Do, Enabled;
      ChildSendsNoStart(cfg, s, step, p);
    } else if step.Spawn? || step.Flock? {
      FlockSendsNoStart(s, step.p);
    } else {
      hide Do, Enabled;
      SentByItsSender(cfg, s, step, p);
    }
  }

  lemma SentByItsSender(cfg: Config, s: State, step: Step, p: ProcId)
    requires Enabled(cfg, s, step) && !ChildStep(step) && !step.Spawn? && !step.Flock?
    requires StartSent(p) !in s.trace && StartSent(p) in Do(cfg, s, step).trace
    ensures step == SendStart(p)
  {
    hide Do, Enabled, Carries;
    StepCarries(cfg, s, step);
    CarriesRecords(s, Do(cfg, s, step), step.p);
    assert At(s, step.p, AtSendStart) && step.p == p;
    hide Records;
    SendStartOrQuit(cfg, s, step);
  }

  lemma ChildSendsNoStart(cfg: Config, s: State, step: Step, p: ProcId)
    requires ChildEnabled(cfg, s, step) && StartSent(p) !in s.trace
    ensures StartSent(p) !in DoChild(cfg, s, step).trace
  {
    hide MoveOf, ChildEnabled, Answered;
    if StartSent(p) in MoveOf(cfg, s, step).events {
      ChildEvents(cfg, s, step, StartSent(p));
    }
  }

  lemma FlockSendsNoStart(s: State, q: ProcId)
    ensures CanFlock(s, q) ==> DoFlock(s, q).trace == s.trace
  {
    hide CloseConnection;
  }

  lemma CarriesRecords(s: State, s': State, q: ProcId)
    requires Carries(s, s', q)
    ensures Records(s, s', q)
  {}

  lemma SendStartOrQuit(cfg: Config, s: State, step: Step)
    requires Enabled(cfg, s, step) && !ChildStep(step) && At(s, step.p, AtSendStart)
    ensures step.SendStart? || (step.Quit? && Do(cfg, s, step).trace == s.trace)
  {
    hide CloseConnection;
  }

  /** A MsgStart in the trace was sent at some step of the run. */
  lemma {:induction false} SentOnRun(cfg: Config, s: State, steps: seq<Step>, p: ProcId) returns (i: nat)
    requires Runs(cfg, s, steps) && StartSent(p) !in s.trace && StartSent(p) in Run(cfg, s, steps).trace
    ensures i < |steps| && steps[i] == SendStart(p)
    decreases |steps|
  {
    var t := Do(cfg, s, steps[0]);
    if StartSent(p) in t.trace {
      SentByItsStep(cfg, s, steps[0], p);
      i := 0;
    } else {
      hide Do, Enabled;
      i := SentOnRun(cfg, t, steps[1..], p);
      i := i + 1;
    }
  }

  /** The user's program runs only after MsgStart was sent on the accepted connection by
      a start that, at that very step, held its lock and had reloaded created. */
  lemma UserProcessWasStarted(cfg: Config, steps: seq<Step>)
    requires Runs(cfg, InitialState(cfg), steps) && StateAfter(cfg, steps).child.phase == UserProcess
    ensures var s := StateAfter(cfg, steps);
            && s.conns != []
            && (exists i :: && 0 <= i < |steps| && steps[i] == SendStart(s.conns[0].owner)
                            && SeesCreated(Before(cfg, steps, i), s.conns[0].owner))
            && StartReceived in s.trace && StartContainerHooks(true) in s.trace && ExecReady in s.trace
            && Ordered(s.trace)
  {
    var s0 := InitialState(cfg);
    var s := StateAfter(cfg, steps);
    RunPast(cfg, s0, steps);
    RunKeeps(cfg, s0, steps);
    assert s.conns != [] && StartSent(s.conns[0].owner) in s.trace by {
      hide Run, ProcsOk, SavesOk, SharedOk, Ordered, SavesPast, ProcPast;
      assert s.conns[0].up != [];
    }
    assert ChildPast(s.trace, UserProcess) && Ordered(s.trace) by { hide Run, Inv, Ordered; }
    hide Inv, Past, Ordered;
    var p := s.conns[0].owner;
    var i := SentOnRun(cfg, s0, steps, p);
    RunPrefix(cfg, s0, steps, i);
    SendStartWasDue(cfg, steps, i, p);
  }

  lemma SendStartWasDue(cfg: Config, steps: seq<Step>, i: nat, p: ProcId)
    requires Runs(cfg, InitialState(cfg), steps) && i < |steps| && steps[i] == SendStart(p)
    ensures SeesCreated(Before(cfg, steps, i), p)
  {
    RunPrefix(cfg, InitialState(cfg), steps, i);
    assert steps[i..][0] == SendStart(p);
    hide SeesCreated;
    SenderSeesCreated(cfg, steps[..i], p);
  }

  /** From its reload to its save an operation's memory is what is on disk. */
  lemma MemIsDisk(cfg: Config, s: State, p: ProcId)
    requires LockInv(cfg, s) && Inv(cfg, s) && p in s.procs && !s.procs[p].kind.Create?
    requires s.procs[p].pc.AtSendStart? || s.procs[p].pc.AtSaveRunning? || s.procs[p].pc.AtSaveToggled?
    ensures s.disk.Some? && s.disk.value == s.procs[p].mem && s.saves != [] && s.disk.value == s.saves[|s.saves| - 1]
  {
    hide Inv, LockInv, SerialDisk, SerialSaves, OperationEffect;
    HolderFacts(cfg, s, p);
    OperationHasLoaded(cfg, s, p);
    DiskWhileHeld(cfg, s);
    BaseUntouched(cfg, s, p);
  }

  lemma BaseUntouched(cfg: Config, s: State, p: ProcId)
    requires LockInv(cfg, s) && p in s.procs && !s.procs[p].kind.Create?
    requires s.procs[p].pc.AtSendStart? || s.procs[p].pc.AtSaveRunning? || s.procs[p].pc.AtSaveToggled?
    ensures s.procs[p].section < |s.sections| && BaseOf(cfg, s, p) == s.disk
  {
    HolderFacts(cfg, s, p);
    var n := |s.sections| - 1;
    LockSerial(cfg, s);
    hide LockInv;
    ReplaceLast(cfg, s.sections, s.sections[n].answers);
    assert s.sections[n := s.sections[n].(answers := s.sections[n].answers)] == s.sections;
    EffectAt(cfg, BaseOf(cfg, s, p), s.procs[p], s.sections[n].answers);
  }

  // ---- the child's own load -----------------------------------------------

  /** Nothing is saved a second time before the child has sent MsgReady. */
  lemma SecondSave(cfg: Config, s: State)
    requires Inv(cfg, s) && |s.saves| > 1
    ensures Rank(s.child.phase) >= 6
  {
    hide ProcsOk, ConnsOk, SharedOk;
    assert Later(cfg, ViewOf(s), s.saves[1]);
  }

  /** What the child loads, without a lock, is the state that its create saved first. */
  lemma ChildLoadsCreating(cfg: Config, steps: seq<Step>)
    requires Runs(cfg, InitialState(cfg), steps) && Enabled(cfg, StateAfter(cfg, steps), ChildLoad)
    ensures StateAfter(cfg, steps).disk == Some(NewState(cfg))
  {
    var s := StateAfter(cfg, steps);
    Reachable(cfg, steps);
    hide Run, ProcsOk, ConnsOk;
    if |s.saves| > 1 {
      SecondSave(cfg, s);
    }
  }

  // ---- messages -----------------------------------------------------------

  /** The four "expected X but got Y" branches are dead code, and the three channels
      carry nothing else than what their readers wait for. */
  lemma NoMessageConfusion(cfg: Config, steps: seq<Step>)
    requires Runs(cfg, InitialState(cfg), steps)
    ensures var s := StateAfter(cfg, steps);
            && (forall p :: p in s.procs ==> s.procs[p].outcome != UnexpectedMessage)
            && !s.child.confused
            && (s.initChan <= [MsgPrePivot, MsgReady] || s.initChan <= [MsgPrePivot, MsgInvalidExecutable])
            && (forall i :: 0 <= i < |s.conns| ==>
                  s.conns[i].up <= [MsgStart] && s.conns[i].down <= [MsgExecReady])
  {
    var s := StateAfter(cfg, steps);
    Reachable(cfg, steps);
    hide Run, SavesOk;
    forall p | p in s.procs
      ensures s.procs[p].outcome != UnexpectedMessage
    {
      FactsOf(cfg, s, p);
    }
    hide ProcsOk;
  }

  // ---- reload -------------------------------------------------------------

  /** Although json.Unmarshal merges into the struct that the unlocked load filled,
      the memory after every locked reload is the state that was saved last. */
  lemma ReloadGivesLastSave(cfg: Config, steps: seq<Step>, p: ProcId)
    requires Runs(cfg, InitialState(cfg), steps) && CanReload(StateAfter(cfg, steps), p)
    ensures var s := StateAfter(cfg, steps);
            s.disk.Some? ==> s.saves != [] && DoReload(s, p).procs[p].mem == s.saves[|s.saves| - 1]
  {
    Reachable(cfg, steps);
    var s := StateAfter(cfg, steps);
    hide Run, Inv;
    if s.disk.Some? {
      DiskIsKnown(cfg, s);
      ReloadIsExact(cfg, s, p);
    }
  }

  // ---- the status path ----------------------------------------------------

  /** On every run of every environment pid 0 is exactly creating and exactly the first
      content, and a pid once set never changes. */
  lemma PidsOnEveryRun(cfg: Config, steps: seq<Step>)
    requires Runs(cfg, InitialState(cfg), steps)
    ensures var saves := StateAfter(cfg, steps).saves;
            && (saves != [] ==> saves[0] == NewState(cfg))
            && forall i, j :: 0 <= i <= j < |saves| ==>
                 && (saves[j].status == Creating <==> saves[j].pid == 0)
                 && (saves[j].pid == 0 <==> j == 0)
                 && (saves[i].pid != 0 ==> saves[j].pid == saves[i].pid)
  {
    Reachable(cfg, steps);
    var s := StateAfter(cfg, steps);
    hide Run, SharedOk, ConnsOk, ProcsOk;
    forall j | 0 < j < |s.saves|
      ensures s.saves[j].status != Creating && s.saves[j].pid == s.child.pid != 0
    {
      assert Later(cfg, ViewOf(s), s.saves[j]);
    }
  }

  /** On every run that keeps its lock the contents of state.json follow creating,
      created, then running and paused in alternation, then stopped, which is never
      left. */
  lemma StatusPath(cfg: Config, steps: seq<Step>)
    requires Runs(cfg, InitialState(cfg), steps) && LockKept(cfg, InitialState(cfg), steps)
    ensures var saves := StateAfter(cfg, steps).saves;
            && LegalHistory(cfg, saves)
            && (forall i, j :: 0 <= i <= j < |saves| && saves[i].status == Stopped ==> saves[j].status == Stopped)
            && (forall i :: 0 <= i < |saves| - 1 ==>
                  var a, b := saves[i].status, saves[i + 1].status;
                  && (b == Created <==> a == Creating)
                  && (b == Running ==> a == Created || a == Paused)
                  && (b == Paused ==> a == Running))
  {
    ReachableLocked(cfg, steps);
    var saves := StateAfter(cfg, steps).saves;
    hide Run, Inv, AllLocked;
    assert LegalHistory(cfg, saves);
    forall i, j | 0 <= i <= j < |saves| && saves[i].status == Stopped
      ensures saves[j].status == Stopped
    {
      HistoryPids(cfg, saves, i, j);
    }
    assert forall i :: 0 <= i < |saves| - 1 ==> LegalMove(saves[i], saves[i + 1]);
  }

  // ---- one create ---------------------------------------------------------

  /** The state in which step i of the run is taken. */
  function Before(cfg: Config, steps: seq<Step>, i: nat): State
    requires Runs(cfg, InitialState(cfg), steps) && i <= |steps|
  {
    RunPrefix(cfg, InitialState(cfg), steps, i);
    Run(cfg, InitialState(cfg), steps[..i])
  }

  lemma {:induction false} RunPrefix(cfg: Config, s: State, steps: seq<Step>, i: nat)
    requires Runs(cfg, s, steps) && i <= |steps|
    ensures Runs(cfg, s, steps[..i]) && Runs(cfg, Run(cfg, s, steps[..i]), steps[i..])
    decreases i
  {
    hide Do, Enabled;
    CutOnce(steps, i);
    if i > 0 {
      var t := Do(cfg, s, steps[0]);
      RunPrefix(cfg, t, steps[1..], i - 1);
      assert Runs(cfg, s, steps[..i]) && Run(cfg, s, steps[..i]) == Run(cfg, t, steps[..i][1..]);
    } else {
      assert Runs(cfg, s, []) && Run(cfg, s, []) == s;
    }
  }

  /** The front and the back of a list, one element further in. */
  lemma CutOnce(steps: seq<Step>, i: nat)
    requires i <= |steps|
    ensures i == 0 ==> steps[..i] == [] && steps[i..] == steps
    ensures i > 0 ==> && steps[..i] != [] && steps[..i][0] == steps[0]
                      && steps[..i][1..] == steps[1..][..i - 1] && steps[1..][i - 1..] == steps[i..]
  {}

  predicate PassesMkdir(cfg: Config, steps: seq<Step>, i: nat)
    requires Runs(cfg, InitialState(cfg), steps)
  {
    i < |steps| && steps[i].Mkdir? && Before(cfg, steps, i).dir.Absent?
  }

  lemma DirComesOnce(cfg: Config, s: State, step: Step)
    requires Enabled(cfg, s, step)
    ensures !s.dir.Absent? ==> !Do(cfg, s, step).dir.Absent?
    ensures step.Mkdir? ==> !Do(cfg, s, step).dir.Absent?
  {
    if step.Mkdir? || step.UnlinkState? || step.Rmdir? {
      hide CloseConnection, AnswersOf;
    } else if step.Save? {
      SaveKeepsDir(s, step.p, step.result);
    } else {
      hide Do, Enabled;
      StepSameFiles(cfg, s, step);
    }
  }

  lemma {:induction false} DirStays(cfg: Config, s: State, steps: seq<Step>)
    requires Runs(cfg, s, steps) && !s.dir.Absent?
    ensures !Run(cfg, s, steps).dir.Absent?
    decreases |steps|
  {
    if steps != [] {
      DirComesOnce(cfg, s, steps[0]);
      hide Do;
      DirStays(cfg, Do(cfg, s, steps[0]), steps[1..]);
    }
  }

  /** Of all the creates of a run, one at most gets past the exclusive Mkdir. */
  lemma OneCreatePasses(cfg: Config, steps: seq<Step>, i: nat, j: nat)
    requires Runs(cfg, InitialState(cfg), steps) && i < j
    ensures !(PassesMkdir(cfg, steps, i) && PassesMkdir(cfg, steps, j))
  {
    if PassesMkdir(cfg, steps, i) && j < |steps| {
      BetweenSteps(cfg, steps, i, j);
      hide Do, Enabled, Runs, Run, Before;
      var s := Before(cfg, steps, i);
      DirComesOnce(cfg, s, steps[i]);
      DirStays(cfg, Do(cfg, s, steps[i]), steps[i + 1..j]);
    }
  }

  /** What happens between two steps of a run. */
  lemma BetweenSteps(cfg: Config, steps: seq<Step>, i: nat, j: nat)
    requires Runs(cfg, InitialState(cfg), steps) && i < j < |steps|
    ensures Enabled(cfg, Before(cfg, steps, i), steps[i])
    ensures var t := Do(cfg, Before(cfg, steps, i), steps[i]);
            Runs(cfg, t, steps[i + 1..j]) && Run(cfg, t, steps[i + 1..j]) == Before(cfg, steps, j)
  {
    var s0, s := InitialState(cfg), Before(cfg, steps, i);
    hide Do, Enabled;
    RunPrefix(cfg, s0, steps, i);
    RunPrefix(cfg, s, steps[i..], j - i);
    FirstOf(steps, i, j);
    RunAppend(cfg, s0, steps[..i], steps[i..][..j - i]);
  }

  lemma FirstOf(steps: seq<Step>, i: nat, j: nat)
    requires i < j < |steps|
    ensures var m := steps[i..][..j - i];
            m != [] && m[0] == steps[i] && m[1..] == steps[i + 1..j] && steps[..j] == steps[..i] + m
    ensures steps[i..][0] == steps[i]
  {}

  /** And past it, no create but the one that made the directory is ever at work. */
  lemma OnlyTheCreatorCreates(cfg: Config, steps: seq<Step>, p: ProcId)
    requires Runs(cfg, InitialState(cfg), steps)
    ensures var s := StateAfter(cfg, steps);
            p in s.procs && s.procs[p].kind.Create? && !s.procs[p].pc.AtMkdir? && !s.procs[p].pc.Ended? ==>
              s.creator == Some(p)
  {
    Reachable(cfg, steps);
    var s := StateAfter(cfg, steps);
    hide Run;
    if p in s.procs {
      FactsOf(cfg, s, p);
    }
  }
}
