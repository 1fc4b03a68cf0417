/**
 The container socket: a connection is open exactly as long as the start that made it
 has not ended, so the child announces itself only to a start that waits for it.
 */
module Connections {
  import opened Wrappers
  import opened Lifecycle
  import opened Protocol
  import opened Handshake
  import opened Frames
  import opened Guarantees

  /** What a step of q does to the connections: q's own is closed when q ends, and a new
      one is q's. */
  predicate ConnsMove(s: State, s': State, q: ProcId) {
    && q in s.procs && q in s'.procs && |s.conns| <= |s'.conns|
    && (forall i :: 0 <= i < |s.conns| ==>
          s'.conns[i].owner == s.conns[i].owner && (s'.conns[i].open ==> s.conns[i].open))
    && var x, x' := s.procs[q], s'.procs[q];
       && (x.conn.Some? ==> x'.conn == x.conn)
       && (x'.pc.Ended? && x'.conn.Some? && x'.conn.value < |s'.conns| ==> !s'.conns[x'.conn.value].open)
       && forall i :: |s.conns| <= i < |s'.conns| ==>
            s'.conns[i].owner == q && x'.conn == Some(i) && !x'.pc.Ended?
  }

  /** An open connection belongs to a start that is still there. */
  predicate OpenIsOwned(s: State) {
    forall i :: 0 <= i < |s.conns| && s.conns[i].open ==>
      var p := s.conns[i].owner; p in s.procs && !s.procs[p].pc.Ended? && s.procs[p].conn == Some(i)
  }

  lemma FinishConns(s: State, q: ProcId, o: Outcome)
    requires q in s.procs
    ensures ConnsMove(s, Finish(s, q, o), q)
  {}

  lemma OpeningConns(s: State, q: ProcId)
    ensures CanMkdir(s, q) ==> ConnsMove(s, DoMkdir(s, q), q)
    ensures CanLoad(s, q) ==> ConnsMove(s, DoLoad(s, q), q)
    ensures CanOpenLock(s, q) ==> ConnsMove(s, DoOpenLock(s, q), q)
  {}

  lemma ReloadConns(s: State, q: ProcId)
    ensures CanFlock(s, q) ==> ConnsMove(s, DoFlock(s, q), q)
    ensures CanReload(s, q) ==> ConnsMove(s, DoReload(s, q), q)
    ensures CanCheck(s, q) ==> ConnsMove(s, DoCheck(s, q), q)
  {
    hide Marshal, Unmarshal, Guard;
  }

  lemma SaveConns(s: State, q: ProcId, r: SaveResult)
    requires CanSave(s, q, r)
    ensures ConnsMove(s, DoSave(s, q, r), q)
  {
    hide AnswersOf, ToSave, SaveAnswers;
  }

  lemma HooksConns(s: State, q: ProcId, ok: bool)
    requires CanRunHooks(s, q)
    ensures ConnsMove(s, DoRunHooks(s, q, ok), q)
  {
    hide AnswersOf;
  }

  lemma InitReceiveConns(s: State, q: ProcId)
    requires CanReceiveInit(s, q)
    ensures ConnsMove(s, DoReceiveInit(s, q), q)
  {
    hide AnswersOf;
  }

  lemma StartReceiveConns(s: State, q: ProcId)
    requires CanReceiveExecReady(s, q)
    ensures ConnsMove(s, DoReceiveExecReady(s, q), q)
  {
    hide AnswersOf;
  }

  lemma DialConns(s: State, q: ProcId)
    requires CanDial(s, q) && s.procs[q].conn.None?
    ensures ConnsMove(s, DoDial(s, q), q)
  {
    hide AnswersOf;
  }

  lemma SendConns(cfg: Config, s: State, q: ProcId)
    requires CanSendStart(s, q)
    ensures ConnsMove(s, DoSendStart(cfg, s, q), q)
  {
    hide AnswersOf;
  }

  lemma WorkConns(s: State, q: ProcId, pid: nat, dead: bool)
    ensures CanFork(s, q, pid) ==> ConnsMove(s, DoFork(s, q, pid), q)
    ensures CanCgroup(s, q) ==> ConnsMove(s, DoCgroup(s, q), q)
    ensures CanProbe(s, q, dead) ==> ConnsMove(s, DoProbe(s, q, dead), q)
  {
    hide AnswersOf;
  }

  lemma RemovalConns(s: State, q: ProcId)
    requires q in s.procs && !s.procs[q].pc.Ended?
    ensures CanUnlinkState(s, q) ==> ConnsMove(s, DoUnlinkState(s, q), q)
    ensures ConnsMove(s, s.(lockPath := None), q)
    ensures CanRmdir(s, q) ==> ConnsMove(s, DoRmdir(s, q), q)
  {
    hide AnswersOf;
  }

  /** A dial is a start's first. */
  lemma NotYetConnected(cfg: Config, s: State, q: ProcId)
    requires Inv(cfg, s) && CanDial(s, q)
    ensures s.procs[q].conn.None?
  {
    FactsOf(cfg, s, q);
    hide SharedOk, SavesOk, ConnsOk, ProcsOk, Known;
  }

  lemma StepConns(cfg: Config, s: State, step: Step)
    requires Inv(cfg, s) && Enabled(cfg, s, step) && !ChildStep(step) && !step.Spawn?
    ensures ConnsMove(s, Do(cfg, s, step), step.p)
  {
    hide Inv, ConnsMove;
    hide DoSpawn, DoMkdir, DoLoad, DoOpenLock, DoFlock, DoReload, DoCheck, DoSave, DoFork, DoReceiveInit;
    hide DoReceiveExecReady, DoRunHooks, DoDial, DoSendStart, DoCgroup, DoProbe, DoUnlinkState, DoRmdir, DoChild;
    hide Finish;
    match step
    case Mkdir(p) => OpeningConns(s, p);
    case Load(p) => OpeningConns(s, p);
    case OpenLock(p) => OpeningConns(s, p);
    case Flock(p) => ReloadConns(s, p);
    case Reload(p) => ReloadConns(s, p);
    case Check(p) => ReloadConns(s, p);
    case Save(p, r) => SaveConns(s, p, r);
    case Fork(p, pid) => WorkConns(s, p, pid, false);
    case Receive(p) => if CanReceiveInit(s, p) { InitReceiveConns(s, p); } else { StartReceiveConns(s, p); }
    case RunHooks(p, ok) => HooksConns(s, p, ok);
    case Dial(p) => NotYetConnected(cfg, s, p); DialConns(s, p);
    case SendStart(p) => SendConns(cfg, s, p);
    case Cgroup(p) => WorkConns(s, p, 0, false);
    case Signal(p) => FinishConns(s, p, Succeeded);
    case Probe(p, dead) => WorkConns(s, p, 0, dead);
    case UnlinkState(p) => RemovalConns(s, p);
    case UnlinkLock(p) => RemovalConns(s, p);
    case Rmdir(p) => RemovalConns(s, p);
    case Quit(p) => FinishConns(s, p, Failed);
  }

  lemma MoveOwned(cfg: Config, s: State, s': State, q: ProcId)
    requires OpenIsOwned(s) && ConnsMove(s, s', q)
    requires forall p :: p in s.procs && p != q ==> p in s'.procs && s'.procs[p] == s.procs[p]
    ensures OpenIsOwned(s')
  {}

  lemma ChildOwned(cfg: Config, s: State, step: Step)
    requires OpenIsOwned(s) && ChildEnabled(cfg, s, step)
    ensures OpenIsOwned(DoChild(cfg, s, step))
  {
    hide MoveOf, ChildEnabled;
  }

  lemma StepOwned(cfg: Config, s: State, step: Step)
    requires Inv(cfg, s) && OpenIsOwned(s) && Enabled(cfg, s, step)
    ensures OpenIsOwned(Do(cfg, s, step))
  {
    hide Inv;
    if ChildStep(step) {
      assert ChildEnabled(cfg, s, step) && Do(cfg, s, step) == DoChild(cfg, s, step);
      hide Do, Enabled, DoChild, ChildEnabled, OpenIsOwned;
      ChildOwned(cfg, s, step);
    } else if step.Spawn? {
      hide CloseConnection;
    } else {
      hide Do, Enabled, OpenIsOwned, ConnsMove;
      StepConns(cfg, s, step);
      OthersStay(cfg, s, step);
      MoveOwned(cfg, s, Do(cfg, s, step), step.p);
    }
  }

  lemma OthersStay(cfg: Config, s: State, step: Step)
    requires Enabled(cfg, s, step) && !ChildStep(step) && !step.Spawn?
    ensures var s' := Do(cfg, s, step);
            forall p :: p in s.procs && p != step.p ==> p in s'.procs && s'.procs[p] == s.procs[p]
  {
    if step.Fork? {
      hide AnswersOf;
    } else {
      OthersLeaveAlone(cfg, s, step);
      hide Do, Enabled;
    }
  }

  lemma {:induction false} RunOwned(cfg: Config, s: State, steps: seq<Step>)
    requires Inv(cfg, s) && OpenIsOwned(s) && Runs(cfg, s, steps)
    ensures OpenIsOwned(Run(cfg, s, steps))
    decreases |steps|
  {
    hide Inv, OpenIsOwned;
    if steps != [] {
      StepKeeps(cfg, s, steps[0]);
      StepOwned(cfg, s, steps[0]);
      RunOwned(cfg, Do(cfg, s, steps[0]), steps[1..]);
    }
  }

  /** On every run a connection is open exactly as long as the start that made it has not
      ended, and MsgExecReady only goes to a start that waits for it. */
  lemma OpenWhileStarting(cfg: Config, steps: seq<Step>)
    requires Runs(cfg, InitialState(cfg), steps)
    ensures var s := StateAfter(cfg, steps);
            && (forall i :: 0 <= i < |s.conns| ==>
                  var p := s.conns[i].owner;
                  s.conns[i].open <==> p in s.procs && !s.procs[p].pc.Ended? && s.procs[p].conn == Some(i))
            && (ChildEnabled(cfg, s, ChildExecReady) ==> At(s, s.conns[0].owner, AtRecvExecReady))
  {
    var s0, s := InitialState(cfg), StateAfter(cfg, steps);
    Reachable(cfg, steps);
    RunOwned(cfg, s0, steps);
    hide Run, Runs;
    forall i | 0 <= i < |s.conns|
      ensures var p := s.conns[i].owner;
              s.conns[i].open <==> p in s.procs && !s.procs[p].pc.Ended? && s.procs[p].conn == Some(i)
    {
      OwnerKeepsOpen(cfg, s, i);
    }
    hide OpenIsOwned;
    if ChildEnabled(cfg, s, ChildExecReady) {
      WaitsForReady(cfg, s);
    }
  }

  lemma OwnerKeepsOpen(cfg: Config, s: State, i: nat)
    requires Inv(cfg, s) && i < |s.conns|
    ensures var p := s.conns[i].owner;
            p in s.procs && !s.procs[p].pc.Ended? && s.procs[p].conn == Some(i) ==> s.conns[i].open
  {
    var p := s.conns[i].owner;
    if p in s.procs {
      FactsOf(cfg, s, p);
    }
    hide SharedOk, SavesOk, ConnsOk, ProcsOk, Known;
  }

  lemma WaitsForReady(cfg: Config, s: State)
    requires Inv(cfg, s) && ChildEnabled(cfg, s, ChildExecReady)
    requires var p := s.conns[0].owner; p in s.procs && !s.procs[p].pc.Ended? && s.procs[p].conn == Some(0)
    ensures At(s, s.conns[0].owner, AtRecvExecReady)
  {
    FactsOf(cfg, s, s.conns[0].owner);
    hide SharedOk, SavesOk, ProcsOk, Known;
  }
}
