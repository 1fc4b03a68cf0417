/**
 The order of hooks, saves and messages over whole runs. Each event of the trace is
 justified by earlier ones, so the orders chain: createRuntime and createContainer,
 then the created save, then prestart, MsgStart, startContainer, MsgExecReady, the
 running save, poststart.

 createRuntime and createContainer themselves run at the same time in two processes:
 the child does not wait for an answer to MsgPrePivot.
 */
module HookOrder {
  import opened Wrappers
  import opened Lifecycle
  import opened Protocol
  import opened Handshake

  ghost predicate SomeSaved(trace: seq<Event>, status: Status) { exists c: ProcId :: Saved(c, status) in trace }

  ghost predicate SomeStartSent(trace: seq<Event>) { exists p: ProcId :: StartSent(p) in trace }

  ghost predicate Justified(before: seq<Event>, e: Event) {
    match e
    case Saved(p, status) =>
      && (status == Created ==>
            && SomeSaved(before, Creating)
            && Hooks(p, CreateRuntime, true) in before && CreateContainerHooks(true) in before)
      && (status == Running || status == Paused ==> ExecReady in before)
      && (status != Creating && status != Created ==> SomeSaved(before, Created))
    case Hooks(p, phase, ok) =>
      (match phase
       case CreateRuntime => SomeSaved(before, Creating)
       case Prestart => SomeSaved(before, Created)
       case Poststart => Saved(p, Running) in before
       case Poststop => DirRemoved(p) in before)
    case StartSent(p) => Hooks(p, Prestart, true) in before
    case StartReceived => SomeStartSent(before)
    case StartContainerHooks(ok) => StartReceived in before
    case ExecReady => StartContainerHooks(true) in before
    case UserExec => ExecReady in before
    case _ => true
  }

  ghost predicate Ordered(trace: seq<Event>) {
    forall i :: 0 <= i < |trace| ==> Justified(trace[..i], trace[i])
  }

  lemma AppendOrdered(trace: seq<Event>, e: Event)
    requires Ordered(trace) && Justified(trace, e)
    ensures Ordered(trace + [e])
  {
    var t := trace + [e];
    forall i | 0 <= i < |t|
      ensures Justified(t[..i], t[i])
    {
      if i < |trace| {
        assert t[..i] == trace[..i];
      } else {
        assert t[..i] == trace;
      }
    }
  }

  // ---- what has happened by each program point ----------------------------

  predicate ChildPast(trace: seq<Event>, ph: Phase) {
    && (Rank(ph) >= 5 ==> CreateContainerHooks(true) in trace)
    && (Rank(ph) >= 8 ==> StartReceived in trace)
    && (Rank(ph) >= 10 ==> StartContainerHooks(true) in trace)
    && (Rank(ph) >= 11 ==> ExecReady in trace)
    && (Rank(ph) >= 12 ==> UserExec in trace)
  }

  predicate SavesPast(trace: seq<Event>, creator: Option<ProcId>, saves: nat) {
    && (saves > 0 ==> creator.Some? && Saved(creator.value, Creating) in trace)
    && (saves > 1 ==> creator.Some? && Saved(creator.value, Created) in trace)
  }

  predicate ConnsPast(trace: seq<Event>, conns: seq<Connection>) {
    forall i :: 0 <= i < |conns| && conns[i].up != [] ==> StartSent(conns[i].owner) in trace
  }

  predicate ProcPast(trace: seq<Event>, p: ProcId, pc: PC) {
    && (pc.AtRecvReady? || pc.AtSaveCreated? ==> Hooks(p, CreateRuntime, true) in trace)
    && (pc.AtDial? || pc.AtSendStart? ==> Hooks(p, Prestart, true) in trace)
    && (pc.AtPoststart? ==> Saved(p, Running) in trace)
    && (pc.AtPoststop? ==> DirRemoved(p) in trace)
  }

  ghost predicate Past(s: State) {
    && ChildPast(s.trace, s.child.phase)
    && SavesPast(s.trace, s.creator, |s.saves|)
    && ConnsPast(s.trace, s.conns)
    && (forall p :: p in s.procs ==> ProcPast(s.trace, p, s.procs[p].pc))
    && Ordered(s.trace)
  }

  /** A longer trace justifies at least as much. */
  predicate Extends(trace: seq<Event>, trace': seq<Event>) {
    |trace| <= |trace'| && trace'[..|trace|] == trace
  }

  lemma ExtendsIn(trace: seq<Event>, trace': seq<Event>, e: Event)
    requires Extends(trace, trace') && e in trace
    ensures e in trace'
  {
    var i :| 0 <= i < |trace| && trace[i] == e;
    assert trace'[..|trace|][i] == trace'[i];
  }

  /** One process moves on, the trace may have grown, everybody else is as before. */
  lemma MovePast(s: State, s': State, p: ProcId)
    requires Past(s) && p in s.procs && p in s'.procs
    requires s'.procs == s.procs[p := s'.procs[p]]
    requires Extends(s.trace, s'.trace) && Ordered(s'.trace)
    requires ProcPast(s'.trace, p, s'.procs[p].pc)
    requires s'.child.phase == s.child.phase || ChildPast(s'.trace, s'.child.phase)
    requires (s'.creator == s.creator && |s'.saves| == |s.saves|) || SavesPast(s'.trace, s'.creator, |s'.saves|)
    requires ConnsPast(s'.trace, s'.conns)
    ensures Past(s')
  {
    hide Ordered;
    forall e | e in s.trace ensures e in s'.trace { ExtendsIn(s.trace, s'.trace, e); }
  }

  lemma ConnsStayPast(s: State, s': State)
    requires Past(s) && Extends(s.trace, s'.trace)
    requires |s.conns| <= |s'.conns|
    requires forall i :: 0 <= i < |s.conns| ==>
      s'.conns[i].owner == s.conns[i].owner && (s'.conns[i].up == [] || s'.conns[i].up == s.conns[i].up)
    requires forall i :: |s.conns| <= i < |s'.conns| ==> s'.conns[i].up == []
    ensures ConnsPast(s'.trace, s'.conns)
  {
    hide Ordered;
    forall e | e in s.trace ensures e in s'.trace { ExtendsIn(s.trace, s'.trace, e); }
  }

  // ---- steps --------------------------------------------------------------

  /** Steps that only move a process to a program point with no past of its own. */
  lemma QuietPast(s: State, s': State, p: ProcId)
    requires Past(s) && p in s.procs && p in s'.procs
    requires s'.procs == s.procs[p := s'.procs[p]]
    requires ProcPast(s.trace, p, s'.procs[p].pc)
    requires s'.trace == s.trace && s'.child.phase == s.child.phase && s'.saves == s.saves
    requires s'.creator == s.creator || (s.creator.None? && s.saves == [])
    requires |s'.conns| == |s.conns| || (|s'.conns| == |s.conns| + 1 && s'.conns[|s.conns|].up == [])
    requires forall i :: 0 <= i < |s.conns| ==>
      s'.conns[i].owner == s.conns[i].owner && s'.conns[i].up == s.conns[i].up
    ensures Past(s')
  {
    hide Ordered;
    ConnsStayPast(s, s');
    MovePast(s, s', p);
  }

  lemma FinishPast(s: State, p: ProcId, o: Outcome)
    requires Past(s) && p in s.procs
    ensures Past(Finish(s, p, o))
  {
    hide Past, Ordered;
    QuietPast(s, Finish(s, p, o), p);
  }

  /** Every save is justified: by the hooks both sides have run, by MsgExecReady, or
      by the created save before it. */
  lemma SaveJustified(cfg: Config, s: State, p: ProcId)
    requires Inv(cfg, s) && Past(s) && p in s.procs && AtSave(s.procs[p].pc)
    ensures Justified(s.trace, Saved(p, ToSave(s.procs[p]).status))
    ensures var n := |s.saves| + 1;
            SavesPast(s.trace + [Saved(p, ToSave(s.procs[p]).status)], s.creator, n)
  {
    hide ProcsOk, SavesOk, Ordered;
    FactsOf(cfg, s, p);
    SavedIsKnown(cfg, s, p);
    var x := s.procs[p];
    if !AtSaveCreatePC(x.pc) {
      OnlyOneSaveWhileCreating(cfg, s, p);
    }
    if s.creator.Some? {
      assert Saved(s.creator.value, Creating) in s.trace ==> SomeSaved(s.trace, Creating);
      assert Saved(s.creator.value, Created) in s.trace ==> SomeSaved(s.trace, Created);
    }
  }

  /** What a step of p leaves alone: the other processes and what was sent. */
  predicate Shape(s: State, s': State, p: ProcId) {
    && p in s.procs && p in s'.procs && s'.procs == s.procs[p := s'.procs[p]]
    && s'.creator == s.creator && s'.child == s.child && s'.initChan == s.initChan
    && |s'.conns| == |s.conns|
    && forall i :: 0 <= i < |s.conns| ==>
         s'.conns[i].owner == s.conns[i].owner && s'.conns[i].up == s.conns[i].up
  }

  lemma SaveShape(s: State, p: ProcId, r: SaveResult)
    requires CanSave(s, p, r)
    ensures var s' := DoSave(s, p, r);
            && Shape(s, s', p)
            && (if r.Lost? then s'.trace == s.trace && s'.saves == s.saves
                else s'.trace == s.trace + [Saved(p, ToSave(s.procs[p]).status)] && |s'.saves| == |s.saves| + 1)
            && (s'.procs[p].pc.AtFork? || s'.procs[p].pc.AtPoststart? || s'.procs[p].pc.AtGuard?
                || s'.procs[p].pc.Ended?)
            && (s'.procs[p].pc.AtPoststart? ==> s.procs[p].pc.AtSaveRunning? && r.Done?)
  {}

  lemma RunHooksShape(s: State, p: ProcId, ok: bool)
    requires CanRunHooks(s, p)
    ensures var s' := DoRunHooks(s, p, ok);
            && Shape(s, s', p)
            && s'.trace == s.trace + [Hooks(p, HookPhaseAt(s.procs[p].pc), ok)] && s'.saves == s.saves
            && (s'.procs[p].pc.AtRecvReady? || s'.procs[p].pc.AtDial? || s'.procs[p].pc.Ended?)
            && (s'.procs[p].pc.AtRecvReady? ==> s.procs[p].pc.AtCreateRuntime? && ok)
            && (s'.procs[p].pc.AtDial? ==> s.procs[p].pc.AtPrestart? && ok)
  {}

  lemma ReceiveInitShape(s: State, p: ProcId)
    requires CanReceiveInit(s, p)
    ensures var s', pc := DoReceiveInit(s, p), s.procs[p].pc;
            && Shape(s, s', p) && s'.trace == s.trace && s'.saves == s.saves
            && (s'.procs[p].pc.AtCreateRuntime? ==> pc.AtRecvPrePivot?)
            && (s'.procs[p].pc.AtSaveCreated? ==> pc.AtRecvReady?)
            && (s'.procs[p].pc.AtCreateRuntime? || s'.procs[p].pc.AtSaveCreated? || s'.procs[p].pc.Ended?)
  {
    hide AnswersOf;
  }

  lemma ReceiveInitPast(s: State, p: ProcId)
    requires Past(s) && CanReceiveInit(s, p)
    ensures Past(DoReceiveInit(s, p))
  {
    ProcPastOf(s, p);
    ReceiveInitShape(s, p);
    hide Past, Ordered, DoReceiveInit;
    QuietPast(s, DoReceiveInit(s, p), p);
  }

  lemma ReceiveExecReadyPast(s: State, p: ProcId)
    requires Past(s) && CanReceiveExecReady(s, p)
    ensures Past(DoReceiveExecReady(s, p))
  {
    hide Past, Ordered;
    QuietPast(s, DoReceiveExecReady(s, p), p);
  }

  /** A step of p that appends one justified event, or none. */
  lemma ShapePast(s: State, s': State, p: ProcId)
    requires Past(s) && Shape(s, s', p) && Extends(s.trace, s'.trace) && Ordered(s'.trace)
    requires |s'.saves| == |s.saves| || SavesPast(s'.trace, s'.creator, |s'.saves|)
    requires ProcPast(s'.trace, p, s'.procs[p].pc)
    ensures Past(s')
  {
    hide Ordered;
    ConnsStayPast(s, s');
    MovePast(s, s', p);
  }

  lemma ProcPastOf(s: State, p: ProcId)
    requires Past(s) && p in s.procs
    ensures ProcPast(s.trace, p, s.procs[p].pc) && Ordered(s.trace)
  {}

  lemma SavePast(cfg: Config, s: State, p: ProcId, r: SaveResult)
    requires Inv(cfg, s) && Past(s) && CanSave(s, p, r)
    ensures Past(DoSave(s, p, r))
  {
    hide Inv, Past, Ordered, Justified, DoSave, Shape;
    SaveJustified(cfg, s, p);
    SaveShape(s, p, r);
    ProcPastOf(s, p);
    assert s.procs[p].pc.AtSaveRunning? ==> ToSave(s.procs[p]).status == Running;
    hide ToSave, SavesPast;
    AppendOrdered(s.trace, Saved(p, ToSave(s.procs[p]).status));
    if !r.Lost? {
      ShapePast(s, DoSave(s, p, r), p);
    } else {
      ShapePast(s, DoSave(s, p, r), p);
    }
  }

  lemma HookJustified(cfg: Config, s: State, p: ProcId, ok: bool)
    requires Inv(cfg, s) && Past(s) && CanRunHooks(s, p)
    ensures Justified(s.trace, Hooks(p, HookPhaseAt(s.procs[p].pc), ok))
  {
    hide ProcsOk, SavesOk, ConnsOk, Ordered;
    FactsOf(cfg, s, p);
    if s.creator.Some? {
      assert Saved(s.creator.value, Creating) in s.trace ==> SomeSaved(s.trace, Creating);
      assert Saved(s.creator.value, Created) in s.trace ==> SomeSaved(s.trace, Created);
    }
  }

  lemma RunHooksPast(cfg: Config, s: State, p: ProcId, ok: bool)
    requires Inv(cfg, s) && Past(s) && CanRunHooks(s, p)
    ensures Past(DoRunHooks(s, p, ok))
  {
    hide Inv, Past, Ordered, Justified, DoRunHooks, Shape;
    HookJustified(cfg, s, p, ok);
    RunHooksShape(s, p, ok);
    ProcPastOf(s, p);
    AppendOrdered(s.trace, Hooks(p, HookPhaseAt(s.procs[p].pc), ok));
    ShapePast(s, DoRunHooks(s, p, ok), p);
  }

  lemma SentPast(trace: seq<Event>, trace': seq<Event>, conns: seq<Connection>, conns': seq<Connection>, i: nat)
    requires ConnsPast(trace, conns) && Extends(trace, trace') && i < |conns|
    requires |conns'| == |conns| && conns' == conns[i := conns'[i]] && StartSent(conns'[i].owner) in trace'
    ensures ConnsPast(trace', conns')
  {
    forall e | e in trace ensures e in trace' { ExtendsIn(trace, trace', e); }
  }

  lemma SendStartShape(cfg: Config, s: State, p: ProcId)
    requires Inv(cfg, s) && Past(s) && CanSendStart(s, p)
    ensures var s' := DoSendStart(cfg, s, p);
            && Hooks(p, Prestart, true) in s.trace
            && s'.trace == s.trace + [StartSent(p)]
            && ConnsPast(s'.trace, s'.conns)
  {
    hide ProcsOk, SavesOk, SharedOk, ConnsOk, Ordered;
    FactsOf(cfg, s, p);
    ProcPastOf(s, p);
    var s' := DoSendStart(cfg, s, p);
    hide ConnsPast;
    SentPast(s.trace, s'.trace, s.conns, s'.conns, s.procs[p].conn.value);
  }

  lemma SendStartPast(cfg: Config, s: State, p: ProcId)
    requires Inv(cfg, s) && Past(s) && CanSendStart(s, p)
    ensures Past(DoSendStart(cfg, s, p))
  {
    hide Inv, Ordered, Past, ConnsPast;
    var s' := DoSendStart(cfg, s, p);
    SendStartShape(cfg, s, p);
    ProcPastOf(s, p);
    AppendOrdered(s.trace, StartSent(p));
    MovePast(s, s', p);
  }

  lemma RmdirPast(cfg: Config, s: State, p: ProcId)
    requires Past(s) && CanRmdir(s, p)
    ensures Past(DoRmdir(s, p))
  {
    hide Ordered;
    var s' := DoRmdir(s, p);
    AppendOrdered(s.trace, DirRemoved(p));
    ConnsStayPast(s, s');
    MovePast(s, s', p);
  }

  /** The child's event, if it emits one, is justified by where it stands. */
  lemma MoveJustified(cfg: Config, s: State, step: Step)
    requires ChildPast(s.trace, s.child.phase) && ConnsPast(s.trace, s.conns) && ChildEnabled(cfg, s, step)
    ensures var m := MoveOf(cfg, s, step);
            m.events == [] || (|m.events| == 1 && Justified(s.trace, m.events[0]))
  {
    if step.ChildReceive? {
      assert StartSent(s.conns[0].owner) in s.trace;
    }
    hide ConnsPast, SomeSaved;
  }

  lemma MovePhasePast(cfg: Config, s: State, step: Step)
    requires ChildPast(s.trace, s.child.phase) && ChildEnabled(cfg, s, step)
    ensures var m := MoveOf(cfg, s, step);
            ChildPast(s.trace + m.events, m.phase)
  {}

  lemma ChildKeepsPast(cfg: Config, s: State, step: Step)
    requires Inv(cfg, s) && Past(s) && ChildEnabled(cfg, s, step)
    ensures Past(DoChild(cfg, s, step))
  {
    var s', m := DoChild(cfg, s, step), MoveOf(cfg, s, step);
    MoveJustified(cfg, s, step);
    MovePhasePast(cfg, s, step);
    hide Inv, MoveOf, Justified, Ordered, ChildPast;
    if m.events == [] {
      assert s'.trace == s.trace;
    } else {
      AppendOrdered(s.trace, m.events[0]);
      assert m.events == [m.events[0]];
    }
    ConnsStayPast(s, s');
    forall e | e in s.trace ensures e in s'.trace { ExtendsIn(s.trace, s'.trace, e); }
  }

  lemma MkdirPast(cfg: Config, s: State, p: ProcId)
    requires Inv(cfg, s) && Past(s) && CanMkdir(s, p)
    ensures Past(DoMkdir(s, p))
  {
    assert !s.dir.Present? ==> s.creator.None? && s.saves == [];
    hide Inv, Ordered, Past;
    QuietPast(s, DoMkdir(s, p), p);
  }

  lemma ForkPast(cfg: Config, s: State, p: ProcId, pid: nat)
    requires Past(s) && CanFork(s, p, pid)
    ensures Past(DoFork(s, p, pid))
  {
    hide Ordered;
    var s' := DoFork(s, p, pid);
    ConnsStayPast(s, s');
    MovePast(s, s', p);
  }

  lemma DialPast(cfg: Config, s: State, p: ProcId)
    requires Past(s) && CanDial(s, p)
    ensures Past(DoDial(s, p))
  {
    hide Ordered;
    QuietPast(s, DoDial(s, p), p);
  }

  lemma LoadPast(s: State, p: ProcId)
    requires Past(s) && CanLoad(s, p)
    ensures Past(DoLoad(s, p))
  {
    hide Past, Ordered;
    QuietPast(s, DoLoad(s, p), p);
  }

  lemma OpenLockPast(s: State, p: ProcId)
    requires Past(s) && CanOpenLock(s, p)
    ensures Past(DoOpenLock(s, p))
  {
    hide Past, Ordered;
    QuietPast(s, DoOpenLock(s, p), p);
  }

  lemma FlockPast(s: State, p: ProcId)
    requires Past(s) && CanFlock(s, p)
    ensures Past(DoFlock(s, p))
  {
    hide Past, Ordered;
    QuietPast(s, DoFlock(s, p), p);
  }

  lemma ReloadPast(s: State, p: ProcId)
    requires Past(s) && CanReload(s, p)
    ensures Past(DoReload(s, p))
  {
    hide Past, Ordered;
    QuietPast(s, DoReload(s, p), p);
  }

  lemma CheckPast(s: State, p: ProcId)
    requires Past(s) && CanCheck(s, p)
    ensures Past(DoCheck(s, p))
  {
    hide Past, Ordered;
    QuietPast(s, DoCheck(s, p), p);
  }

  lemma CgroupPast(s: State, p: ProcId)
    requires Past(s) && CanCgroup(s, p)
    ensures Past(DoCgroup(s, p))
  {
    hide Past, Ordered;
    QuietPast(s, DoCgroup(s, p), p);
  }

  lemma UnlinkStatePast(s: State, p: ProcId)
    requires Past(s) && CanUnlinkState(s, p)
    ensures Past(DoUnlinkState(s, p))
  {
    hide Past, Ordered;
    QuietPast(s, DoUnlinkState(s, p), p);
  }

  lemma ProbePast(s: State, p: ProcId, dead: bool)
    requires Past(s) && CanProbe(s, p, dead)
    ensures Past(DoProbe(s, p, dead))
  {
    hide Past, Ordered;
    QuietPast(s, DoProbe(s, p, dead), p);
  }

  lemma UnlinkLockPast(s: State, p: ProcId)
    requires Past(s) && At(s, p, AtRemove)
    ensures Past(s.(lockPath := None))
  {
    hide Past, Ordered;
    QuietPast(s, s.(lockPath := None), p);
  }

  lemma SpawnPast(cfg: Config, s: State, p: ProcId, k: Kind)
    requires Past(s) && p !in s.procs
    ensures Past(DoSpawn(cfg, s, p, k))
  {
    hide Ordered, ChildPast, SavesPast, ConnsPast;
  }

  lemma StepPast(cfg: Config, s: State, step: Step)
    requires Inv(cfg, s) && Past(s) && Enabled(cfg, s, step)
    ensures Past(Do(cfg, s, step))
  {
    hide Inv, Past;
    hide CanSave, CanReceiveInit, CanReceiveExecReady, CanRunHooks, CanCheck, CanProbe, CanRmdir, CanUnlinkState;
    hide DoSpawn, DoMkdir, DoLoad, DoOpenLock, DoFlock, DoReload, DoCheck, DoSave, DoFork, DoReceiveInit;
    hide DoReceiveExecReady, DoRunHooks, DoDial, DoSendStart, DoCgroup, DoProbe, DoUnlinkState, DoRmdir, DoChild;
    hide Finish;
    match step
    case Spawn(p, k) => SpawnPast(cfg, s, p, k);
    case Mkdir(p) => MkdirPast(cfg, s, p);
    case Save(p, r) => SavePast(cfg, s, p, r);
    case Fork(p, pid) => ForkPast(cfg, s, p, pid);
    case Receive(p) => if CanReceiveInit(s, p) { ReceiveInitPast(s, p); } else { ReceiveExecReadyPast(s, p); }
    case RunHooks(p, ok) => RunHooksPast(cfg, s, p, ok);
    case Dial(p) => DialPast(cfg, s, p);
    case SendStart(p) => SendStartPast(cfg, s, p);
    case Rmdir(p) => RmdirPast(cfg, s, p);
    case Load(p) => LoadPast(s, p);
    case OpenLock(p) => OpenLockPast(s, p);
    case Flock(p) => FlockPast(s, p);
    case Reload(p) => ReloadPast(s, p);
    case UnlinkState(p) => UnlinkStatePast(s, p);
    case UnlinkLock(p) => UnlinkLockPast(s, p);
    case Check(p) => CheckPast(s, p);
    case Cgroup(p) => CgroupPast(s, p);
    case Signal(p) => FinishPast(s, p, Succeeded);
    case Probe(p, dead) => ProbePast(s, p, dead);
    case Quit(p) => FinishPast(s, p, Failed);
    case _ => ChildKeepsPast(cfg, s, step);
  }

  // ---- every run ----------------------------------------------------------

  lemma {:induction false} RunPast(cfg: Config, s: State, steps: seq<Step>)
    requires Inv(cfg, s) && Past(s) && Runs(cfg, s, steps)
    ensures Past(Run(cfg, s, steps))
    decreases |steps|
  {
    hide Inv, Past;
    if steps != [] {
      StepKeeps(cfg, s, steps[0]);
      StepPast(cfg, s, steps[0]);
      RunPast(cfg, Do(cfg, s, steps[0]), steps[1..]);
    }
  }

  /** The trace of every run is in order. */
  lemma HooksInOrder(cfg: Config, steps: seq<Step>)
    requires Runs(cfg, InitialState(cfg), steps)
    ensures Ordered(Run(cfg, InitialState(cfg), steps).trace)
  {
    RunPast(cfg, InitialState(cfg), steps);
  }
}
