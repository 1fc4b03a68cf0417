/**
 What every step keeps, whatever the environment does to the lock file: the three
 message channels, the joint state of disk and child, and the exactness of reload.
 */
module Handshake {
  import opened Wrappers
  import opened Lifecycle
  import opened Protocol

  /** The part of the state that the facts about one process depend on. */
  datatype View = View(
    creator: Option<ProcId>, child: Child, saves: seq<ContainerState>, conns: seq<Connection>, initRead: nat)

  function ViewOf(s: State): View { View(s.creator, s.child, s.saves, s.conns, s.initRead) }

  /** Everything a child in this phase has written to the init socketpair. */
  function InitSent(ph: Phase): seq<Message> {
    if ph == InvalidSent then [MsgPrePivot, MsgInvalidExecutable]
    else if Rank(ph) < 3 then []
    else if Rank(ph) < 6 then [MsgPrePivot]
    else [MsgPrePivot, MsgReady]
  }

  predicate Identity(cfg: Config, st: ContainerState) {
    st.version == cfg.version && st.id == cfg.id && st.bundle == cfg.bundle && st.annotations == cfg.annotations
  }

  /** A content that state.json may have after the created save: it belongs to this
      child, which is past MsgReady; a running or paused one has had MsgExecReady, and
      a stopped one has a dead child unless there was no process to run. */
  predicate Later(cfg: Config, v: View, st: ContainerState) {
    && Identity(cfg, st)
    && st.pid == v.child.pid && st.pid != 0
    && |v.saves| > 1 && Rank(v.child.phase) >= 6
    && st.status != Creating
    && (st.status == Running || st.status == Paused ==> Rank(v.child.phase) >= 11)
    && (st.status == Stopped ==> cfg.processNil || !v.child.alive)
  }

  predicate Known(cfg: Config, v: View, st: ContainerState) {
    st == NewState(cfg) || Later(cfg, v, st)
  }

  predicate CreatePC(pc: PC) {
    || pc.AtMkdir? || pc.AtOpenLock? || pc.AtFlock? || pc.AtSaveCreating? || pc.AtFork? || pc.AtRecvPrePivot?
    || pc.AtCreateRuntime? || pc.AtRecvReady? || pc.AtSaveCreated? || pc.Ended?
  }

  predicate CreateOk(cfg: Config, v: View, p: ProcId, x: Process) {
    && CreatePC(x.pc)
    && x.conn.None?
    && (!x.pc.AtMkdir? && !x.pc.Ended? ==> v.creator == Some(p))
    && (x.pc.AtOpenLock? || x.pc.AtFlock? || x.pc.AtSaveCreating? ==> v.saves == [] && x.mem == NewState(cfg))
    && (x.pc.AtMkdir? ==> x.mem == NewState(cfg))
    && (x.pc.AtFork? ==> x.mem == NewState(cfg))
    && (x.pc.AtOpenLock? || x.pc.AtFlock? || x.pc.AtSaveCreating? || x.pc.AtFork? ==>
          v.child.phase == Unborn && v.initRead == 0)
    && (x.pc.AtRecvPrePivot? || x.pc.AtCreateRuntime? || x.pc.AtRecvReady? || x.pc.AtSaveCreated? ==>
          v.child.pid != 0 && v.child.phase != Unborn && x.mem == NewState(cfg).(pid := v.child.pid))
    && (x.pc.AtFork? || x.pc.AtRecvPrePivot? || x.pc.AtCreateRuntime? || x.pc.AtRecvReady? || x.pc.AtSaveCreated? ==>
          |v.saves| == 1)
    && (x.pc.AtRecvPrePivot? ==> v.initRead == 0)
    && (x.pc.AtCreateRuntime? || x.pc.AtRecvReady? ==> v.initRead == 1)
    && (x.pc.AtSaveCreated? ==> Rank(v.child.phase) >= 6)
  }

  predicate StartPC(pc: PC) {
    || pc.AtPrestart? || pc.AtDial? || pc.AtSendStart? || pc.AtSaveStopped? || pc.AtRecvExecReady?
    || pc.AtSaveRunning? || pc.AtPoststart?
  }

  predicate Connected(pc: PC) {
    pc.AtSendStart? || pc.AtSaveStopped? || pc.AtRecvExecReady? || pc.AtSaveRunning? || pc.AtPoststart?
  }

  predicate ConnOk(v: View, p: ProcId, x: Process) {
    && (Connected(x.pc) ==> x.conn.Some?)
    && (x.conn.Some? ==> x.conn.value < |v.conns| && v.conns[x.conn.value].owner == p)
    && (x.conn.Some? && !x.pc.Ended? ==> Connected(x.pc))
    && (x.conn.Some? && Connected(x.pc) ==>
          && v.conns[x.conn.value].open
          && v.conns[x.conn.value].up == if x.pc.AtSendStart? then [] else [MsgStart])
  }

  predicate OperationOk(cfg: Config, v: View, p: ProcId, x: Process) {
    && !(x.pc.AtMkdir? || x.pc.AtSaveCreating? || x.pc.AtFork? || x.pc.AtRecvPrePivot? || x.pc.AtCreateRuntime?
         || x.pc.AtRecvReady? || x.pc.AtSaveCreated?)
    && (!(x.pc.AtLoad? || x.pc.Ended?) ==> v.saves != [] && Known(cfg, v, x.mem))
    && (x.pc.AtCheck? ==> !x.kind.Delete? && !x.kind.GetState?)
    && (StartPC(x.pc) ==> x.kind.Start?)
    && (StartPC(x.pc) && !x.pc.AtPoststart? ==> x.mem.status == Created)
    && (x.pc.AtSaveStopped? ==> cfg.processNil)
    && (x.pc.AtRecvExecReady? || x.pc.AtSaveRunning? ==> !cfg.processNil)
    && (x.pc.AtSaveRunning? || x.pc.AtPoststart? ==> x.conn == Some(0) && Rank(v.child.phase) >= 11)
    && (x.pc.AtCgroup? || x.pc.AtSaveToggled? ==> (x.kind.Pause? || x.kind.Resume?) && Guard(x.kind, x.mem))
    && (x.pc.AtSignal? ==> x.kind.Kill?)
    && (x.pc.AtProbe? || x.pc.AtSaveDead? ==> x.kind.GetState? || x.kind.Delete?)
    && (x.pc.AtSaveDead? ==> x.mem.pid != 0 && x.mem.status == Stopped)
    && (x.pc.AtGuard? || x.pc.AtRemove? || x.pc.AtPoststop? ==> x.kind.Delete?)
    && (x.pc.AtRemove? ==> Guard(x.kind, x.mem))
    && ConnOk(v, p, x)
  }

  predicate ProcOk(cfg: Config, v: View, p: ProcId, x: Process) {
    && x.outcome != UnexpectedMessage
    && if x.kind.Create? then CreateOk(cfg, v, p, x) else OperationOk(cfg, v, p, x)
  }

  predicate ProcsOk(cfg: Config, v: View, procs: map<ProcId, Process>) {
    forall p :: p in procs ==> ProcOk(cfg, v, p, procs[p])
  }

  /** The container socket: only the first connection is ever answered, and only
      after MsgStart was read from it. */
  predicate ConnsOk(cfg: Config, child: Child, conns: seq<Connection>) {
    && (conns != [] ==> Rank(child.phase) >= 6)
    && (forall i :: 0 <= i < |conns| ==>
          && (conns[i].up == [] || conns[i].up == [MsgStart])
          && (conns[i].down != [] ==> i == 0 && Rank(child.phase) >= 11)
          && (conns[i].down == [] || conns[i].down == [MsgExecReady]))
    && (Rank(child.phase) >= 7 ==> conns != [])
    && (Rank(child.phase) >= 8 ==> conns[0].up == [MsgStart])
    && (Rank(child.phase) >= 11 ==> !cfg.processNil && conns[0].down == [MsgExecReady])
  }

  predicate SavesOk(cfg: Config, v: View) {
    && (v.saves != [] ==> v.saves[0] == NewState(cfg))
    && (forall i :: 0 < i < |v.saves| ==> Later(cfg, v, v.saves[i]))
  }

  predicate SharedOk(cfg: Config, s: State) {
    && (s.dir.Absent? <==> s.creator.None?)
    && (s.creator.Some? ==> s.creator.value in s.procs && s.procs[s.creator.value].kind.Create?)
    && (s.creator.None? ==> s.saves == [])
    && (s.disk.Some? ==> s.saves != [] && s.disk.value == s.saves[|s.saves| - 1] && s.dir.Present?)
    && (s.saves == [] ==> s.child.phase == Unborn)
    && s.initChan == InitSent(s.child.phase) && s.initRead <= |s.initChan|
    && (s.child.phase != Unborn ==> s.child.pid != 0)
    && (s.child.phase == Unborn ==> !s.child.alive)
    && !s.child.confused
  }

  predicate Inv(cfg: Config, s: State) {
    && SharedOk(cfg, s)
    && SavesOk(cfg, ViewOf(s))
    && ConnsOk(cfg, s.child, s.conns)
    && ProcsOk(cfg, ViewOf(s), s.procs)
  }

  // ---- one lemma a step ---------------------------------------------------

  /** A process at a program point that only operations have. */
  lemma OperationFacts(cfg: Config, s: State, p: ProcId)
    requires Inv(cfg, s) && p in s.procs && !CreatePC(s.procs[p].pc)
    ensures !s.procs[p].kind.Create? && OperationOk(cfg, ViewOf(s), p, s.procs[p])
    ensures s.procs[p].outcome != UnexpectedMessage
  {
    assert ProcOk(cfg, ViewOf(s), p, s.procs[p]);
  }

  /** The lock, the sections and the trace are no part of these facts. */
  lemma FrameKeeps(cfg: Config, s: State, s': State)
    requires Inv(cfg, s)
    requires s' == s.(lockPath := s'.lockPath, nextInode := s'.nextInode, holder := s'.holder,
                      sections := s'.sections, trace := s'.trace)
    ensures Inv(cfg, s')
  {
    assert ViewOf(s') == ViewOf(s);
  }

  lemma FactsOf(cfg: Config, s: State, p: ProcId)
    requires Inv(cfg, s) && p in s.procs
    ensures ProcOk(cfg, ViewOf(s), p, s.procs[p])
  {}

  /** A process may change by itself as long as its own facts hold. */
  lemma PutKeeps(cfg: Config, s: State, p: ProcId, x: Process)
    requires Inv(cfg, s)
    requires p in s.procs && x.kind == s.procs[p].kind && ProcOk(cfg, ViewOf(s), p, x)
    ensures Inv(cfg, Put(s, p, x))
  {
    assert ViewOf(Put(s, p, x)) == ViewOf(s);
  }

  /** Closing a connection and ending a process disturb nobody else. */
  lemma FinishKeeps(cfg: Config, s: State, p: ProcId, o: Outcome)
    requires Inv(cfg, s) && p in s.procs && o != UnexpectedMessage
    ensures Inv(cfg, Finish(s, p, o))
  {
    var s' := Finish(s, p, o);
    var v, v' := ViewOf(s), ViewOf(s');
    forall q | q in s'.procs
      ensures ProcOk(cfg, v', q, s'.procs[q])
    {
      assert ProcOk(cfg, v, q, s.procs[q]);
      if q != p && s.procs[q].conn.Some? && s.procs[p].conn.Some? {
        assert s.procs[q].conn.value != s.procs[p].conn.value;
      }
    }
  }

  lemma NewProcessKeeps(cfg: Config, s: State, p: ProcId, k: Kind)
    requires Inv(cfg, s) && p !in s.procs
    ensures Inv(cfg, DoSpawn(cfg, s, p, k))
  {
    hide SavesOk, ConnsOk;
    var s' := DoSpawn(cfg, s, p, k);
    assert ViewOf(s') == ViewOf(s);
    assert ProcOk(cfg, ViewOf(s), p, s'.procs[p]);
    hide ProcOk;
    assert ProcsOk(cfg, ViewOf(s), s'.procs);
  }

  lemma MkdirKeeps(cfg: Config, s: State, p: ProcId)
    requires Inv(cfg, s) && CanMkdir(s, p)
    ensures Inv(cfg, DoMkdir(s, p))
  {
    if s.dir.Present? {
      FinishKeeps(cfg, s, p, AlreadyExists);
    } else {
      var s' := DoMkdir(s, p);
      forall q | q in s'.procs
        ensures ProcOk(cfg, ViewOf(s'), q, s'.procs[q])
      {
        assert ProcOk(cfg, ViewOf(s), q, s.procs[q]);
      }
    }
  }

  /** state.json holds a legitimate content whenever it is there. */
  lemma DiskIsKnown(cfg: Config, s: State)
    requires Inv(cfg, s) && s.disk.Some?
    ensures s.saves != [] && Known(cfg, ViewOf(s), s.disk.value)
  {
    hide ProcsOk, ConnsOk;
    if |s.saves| > 1 {
      assert Later(cfg, ViewOf(s), s.saves[|s.saves| - 1]);
    }
  }

  lemma LoadKeeps(cfg: Config, s: State, p: ProcId)
    requires Inv(cfg, s) && CanLoad(s, p)
    ensures Inv(cfg, DoLoad(s, p))
  {
    hide Inv;
    if s.disk.None? {
      FinishKeeps(cfg, s, p, NoSuchContainer);
    } else {
      DiskIsKnown(cfg, s);
      FactsOf(cfg, s, p);
      PutKeeps(cfg, s, p, s.procs[p].(pc := AtOpenLock, mem := s.disk.value));
    }
  }

  lemma OpenLockKeeps(cfg: Config, s: State, p: ProcId)
    requires Inv(cfg, s) && CanOpenLock(s, p)
    ensures Inv(cfg, DoOpenLock(s, p))
  {
    if !s.dir.Present? {
      FinishKeeps(cfg, s, p, Failed);
    } else {
      var k := if s.lockPath.Some? then s.lockPath.value else s.nextInode;
      PutKeeps(cfg, s, p, s.procs[p].(pc := AtFlock, inode := k));
      FrameKeeps(cfg, Put(s, p, s.procs[p].(pc := AtFlock, inode := k)), DoOpenLock(s, p));
    }
  }

  lemma FlockKeeps(cfg: Config, s: State, p: ProcId)
    requires Inv(cfg, s) && CanFlock(s, p)
    ensures Inv(cfg, DoFlock(s, p))
  {
    hide Inv;
    if s.procs[p].inode in s.holder {
      FinishKeeps(cfg, s, p, OperationInProgress);
    } else {
      var x := s.procs[p];
      var x' := x.(pc := if x.kind.Create? then AtSaveCreating else AtReload, section := |s.sections|);
      FactsOf(cfg, s, p);
      PutKeeps(cfg, s, p, x');
      FrameKeeps(cfg, Put(s, p, x'), DoFlock(s, p));
    }
  }

  /** The merge of json.Unmarshal loses nothing here: a locked reload leaves in
      memory exactly the state last saved, whatever the unlocked load saw before. */
  lemma ReloadIsExact(cfg: Config, s: State, p: ProcId)
    requires Inv(cfg, s) && CanReload(s, p) && s.disk.Some?
    ensures DoReload(s, p).procs[p].mem == s.saves[|s.saves| - 1] == s.disk.value
    ensures Known(cfg, ViewOf(s), s.disk.value)
  {
    var v, mem, disk := ViewOf(s), s.procs[p].mem, s.disk.value;
    assert ProcOk(cfg, v, p, s.procs[p]);
    if |s.saves| > 1 {
      assert Later(cfg, v, s.saves[|s.saves| - 1]);
    }
    ReloadExact(disk, mem);
  }

  lemma ReloadKeeps(cfg: Config, s: State, p: ProcId)
    requires Inv(cfg, s) && CanReload(s, p)
    ensures Inv(cfg, DoReload(s, p))
  {
    hide Inv;
    if s.disk.None? {
      FinishKeeps(cfg, s, p, Failed);
    } else {
      ReloadIsExact(cfg, s, p);
      var x := s.procs[p];
      FactsOf(cfg, s, p);
      PutKeeps(cfg, s, p, x.(pc := AfterReload(x.kind), mem := Unmarshal(Marshal(s.disk.value), x.mem)));
    }
  }

  lemma CheckKeeps(cfg: Config, s: State, p: ProcId)
    requires Inv(cfg, s) && CanCheck(s, p)
    ensures Inv(cfg, DoCheck(s, p))
  {
    hide Inv;
    var x := s.procs[p];
    FactsOf(cfg, s, p);
    if Guard(x.kind, x.mem) {
      PutKeeps(cfg, s, p, x.(pc := AfterCheck(x.kind)));
    } else {
      FinishKeeps(cfg, s, p, Refused);
    }
  }

  lemma LearnKeeps(cfg: Config, s: State, p: ProcId, a: Answers)
    requires Inv(cfg, s) && p in s.procs
    ensures Inv(cfg, Learn(s, p, a))
  {
    assert ViewOf(Learn(s, p, a)) == ViewOf(s);
  }

  lemma EmitKeeps(cfg: Config, s: State, e: Event)
    requires Inv(cfg, s)
    ensures Inv(cfg, Emit(s, e))
  {
    assert ViewOf(Emit(s, e)) == ViewOf(s);
  }

  /** What a process saves is legitimate at that moment. */
  lemma SavedIsKnown(cfg: Config, s: State, p: ProcId)
    requires Inv(cfg, s) && p in s.procs && AtSave(s.procs[p].pc)
    ensures var st := ToSave(s.procs[p]);
            if s.procs[p].pc.AtSaveCreating? then st == NewState(cfg) && s.saves == []
            else
              && s.saves != []
              && Later(cfg, ViewOf(s).(saves := s.saves + [st]), st)
  {
    assert ProcOk(cfg, ViewOf(s), p, s.procs[p]);
  }

  /** Appending a legitimate content to the history keeps everybody's facts. */
  lemma WriteKeeps(cfg: Config, s: State, p: ProcId, e: Event)
    requires Inv(cfg, s) && p in s.procs && AtSave(s.procs[p].pc) && s.dir.Present?
    requires var x := s.procs[p]; !AtSaveCreatePC(x.pc)
    ensures var st := ToSave(s.procs[p]);
            Inv(cfg, s.(disk := Some(st), saves := s.saves + [st], trace := s.trace + [e]))
  {
    var st := ToSave(s.procs[p]);
    var s' := s.(disk := Some(st), saves := s.saves + [st], trace := s.trace + [e]);
    var v, v' := ViewOf(s), ViewOf(s');
    SavedIsKnown(cfg, s, p);
    OnlyOneSaveWhileCreating(cfg, s, p);
    forall q | q in s'.procs
      ensures ProcOk(cfg, v', q, s'.procs[q])
    {
      assert ProcOk(cfg, v, q, s.procs[q]);
    }
    forall i | 0 < i < |s'.saves|
      ensures Later(cfg, v', s'.saves[i])
    {
      if i < |s.saves| {
        assert Later(cfg, v, s.saves[i]);
      }
    }
  }

  predicate AtSaveCreatePC(pc: PC) { pc.AtSaveCreating? || pc.AtSaveCreated? }

  /** While the creator is between its two saves nobody else is about to save:
      every guard refuses a creating container, and the probe skips pid 0. */
  lemma OnlyOneSaveWhileCreating(cfg: Config, s: State, p: ProcId)
    requires Inv(cfg, s) && p in s.procs && AtSave(s.procs[p].pc) && !AtSaveCreatePC(s.procs[p].pc)
    ensures |s.saves| > 1
  {
    assert ProcOk(cfg, ViewOf(s), p, s.procs[p]);
  }

  /** The two saves of the creator, followed by what it does next. */
  lemma CreatorSaveKeeps(cfg: Config, s: State, p: ProcId, e: Event, x': Process)
    requires Inv(cfg, s) && p in s.procs && AtSaveCreatePC(s.procs[p].pc) && s.dir.Present?
    requires x' == s.procs[p].(pc := x'.pc, outcome := x'.outcome) && x'.outcome != UnexpectedMessage
    requires x'.pc.Ended? || (x'.pc.AtFork? && s.procs[p].pc.AtSaveCreating?)
    ensures var st := ToSave(s.procs[p]);
            Inv(cfg, Put(s.(disk := Some(st), saves := s.saves + [st], trace := s.trace + [e]), p, x'))
  {
    var x, st := s.procs[p], ToSave(s.procs[p]);
    var s' := Put(s.(disk := Some(st), saves := s.saves + [st], trace := s.trace + [e]), p, x');
    var v, v' := ViewOf(s), ViewOf(s');
    assert ProcOk(cfg, v, p, x);
    SavedIsKnown(cfg, s, p);
    assert ProcOk(cfg, v', p, x');
    forall q | q in s.procs && q != p
      ensures ProcOk(cfg, v', q, s.procs[q])
    {
      assert ProcOk(cfg, v, q, s.procs[q]);
    }
    assert ProcsOk(cfg, v', s'.procs);
    assert SavesOk(cfg, v');
  }

  lemma AfterSaveKeeps(cfg: Config, s: State, p: ProcId, r: SaveResult)
    requires Inv(cfg, s) && p in s.procs && AtSave(s.procs[p].pc) && !AtSaveCreatePC(s.procs[p].pc)
    ensures Inv(cfg, AfterSave(s, p, r))
  {
    hide Inv;
    var x := s.procs[p];
    FactsOf(cfg, s, p);
    if x.pc.AtSaveDead? && x.kind.Delete? {
      PutKeeps(cfg, s, p, x.(pc := AtGuard));
    } else if x.pc.AtSaveRunning? && r.Done? {
      PutKeeps(cfg, s, p, x.(pc := AtPoststart));
    } else {
      FinishKeeps(cfg, s, p, Succeeded);
      FinishKeeps(cfg, s, p, Failed);
    }
  }

  lemma OperationSaveKeeps(cfg: Config, s: State, p: ProcId, r: SaveResult)
    requires Inv(cfg, s) && CanSave(s, p, r) && !AtSaveCreatePC(s.procs[p].pc)
    ensures Inv(cfg, DoSave(s, p, r))
  {
    hide Inv, AfterSave;
    var x, st := s.procs[p], ToSave(s.procs[p]);
    var learnt := Learn(s, p, SaveAnswers(x, AnswersOf(s, p), r));
    LearnKeeps(cfg, s, p, SaveAnswers(x, AnswersOf(s, p), r));
    if r.Lost? {
      AfterSaveKeeps(cfg, learnt, p, r);
    } else {
      var e := Saved(p, st.status);
      WriteKeeps(cfg, learnt, p, e);
      AfterSaveKeeps(cfg, learnt.(disk := Some(st), saves := s.saves + [st], trace := s.trace + [e]), p, r);
    }
  }

  lemma CreatorDoSaveKeeps(cfg: Config, s: State, p: ProcId, r: SaveResult)
    requires Inv(cfg, s) && CanSave(s, p, r) && AtSaveCreatePC(s.procs[p].pc)
    ensures Inv(cfg, DoSave(s, p, r))
  {
    hide Inv;
    var x, st := s.procs[p], ToSave(s.procs[p]);
    var learnt := Learn(s, p, SaveAnswers(x, AnswersOf(s, p), r));
    LearnKeeps(cfg, s, p, SaveAnswers(x, AnswersOf(s, p), r));
    if r.Lost? {
      FinishKeeps(cfg, learnt, p, Failed);
    } else {
      var e := Saved(p, st.status);
      var x' := if x.pc.AtSaveCreating? && r.Done? then x.(pc := AtFork)
                else x.(pc := Ended, outcome := if r.Done? then Succeeded else Failed);
      FactsOf(cfg, s, p);
      CreatorSaveKeeps(cfg, learnt, p, e, x');
      var written := learnt.(disk := Some(st), saves := s.saves + [st], trace := s.trace + [e]);
      FrameKeeps(cfg, Put(written, p, x'), DoSave(s, p, r));
    }
  }

  lemma OthersIgnoreFork(cfg: Config, v: View, v': View, q: ProcId, x: Process)
    requires ProcOk(cfg, v, q, x) && v' == v.(child := v'.child)
    requires v.creator != Some(q) && |v.saves| == 1 && v.child.phase == Unborn
    ensures ProcOk(cfg, v', q, x)
  {}

  lemma ForkKeeps(cfg: Config, s: State, p: ProcId, pid: nat)
    requires Inv(cfg, s) && CanFork(s, p, pid)
    ensures Inv(cfg, DoFork(s, p, pid))
  {
    var s' := DoFork(s, p, pid);
    var v, v' := ViewOf(s), ViewOf(s');
    FactsOf(cfg, s, p);
    assert ProcOk(cfg, v', p, s'.procs[p]);
    hide ProcOk;
    forall q | q in s.procs && q != p
      ensures ProcOk(cfg, v', q, s.procs[q])
    {
      OthersIgnoreFork(cfg, v, v', q, s.procs[q]);
    }
    assert ProcsOk(cfg, v', s'.procs);
  }

  lemma OthersIgnoreInitRead(cfg: Config, v: View, v': View, q: ProcId, x: Process)
    requires ProcOk(cfg, v, q, x) && v' == v.(initRead := v'.initRead)
    requires v.creator != Some(q)
    ensures ProcOk(cfg, v', q, x)
  {}

  /** The creator hears MsgPrePivot first, then MsgReady or MsgInvalidExecutable. */
  lemma InitHears(cfg: Config, s: State, p: ProcId)
    requires Inv(cfg, s) && CanReceiveInit(s, p)
    ensures s.creator == Some(p) && s.procs[p].kind.Create?
    ensures var m := s.initChan[s.initRead];
            if s.procs[p].pc.AtRecvPrePivot? then m == MsgPrePivot
            else m == MsgReady || m == MsgInvalidExecutable
    ensures s.procs[p].pc.AtRecvReady? && s.initChan[s.initRead] == MsgReady ==> Rank(s.child.phase) >= 6
    ensures s.procs[p].pc.AtRecvPrePivot? ==> s.initRead == 0
  {
    hide ProcsOk, SavesOk, ConnsOk;
    FactsOf(cfg, s, p);
  }

  /** Counting one more message read, and moving the creator on. */
  lemma InitReadKeeps(cfg: Config, s: State, p: ProcId, x': Process)
    requires Inv(cfg, s) && p in s.procs && s.creator == Some(p) && s.initRead < |s.initChan|
    requires x'.kind.Create? && ProcOk(cfg, ViewOf(s).(initRead := s.initRead + 1), p, x')
    ensures Inv(cfg, Put(s, p, x').(initRead := s.initRead + 1))
  {
    var s' := Put(s, p, x').(initRead := s.initRead + 1);
    var v, v' := ViewOf(s), ViewOf(s');
    hide ProcOk;
    forall q | q in s.procs && q != p
      ensures ProcOk(cfg, v', q, s.procs[q])
    {
      OthersIgnoreInitRead(cfg, v, v', q, s.procs[q]);
    }
    assert ProcsOk(cfg, v', s'.procs);
    hide ProcsOk, SharedOk, ConnsOk;
    forall i | 0 < i < |v'.saves| ensures Later(cfg, v', v'.saves[i]) { assert Later(cfg, v, v.saves[i]); }
  }

  lemma InitReceiveKeeps(cfg: Config, s: State, p: ProcId)
    requires Inv(cfg, s) && CanReceiveInit(s, p)
    ensures Inv(cfg, DoReceiveInit(s, p))
  {
    hide Inv;
    var x, m := s.procs[p], s.initChan[s.initRead];
    var x' := if x.pc.AtRecvPrePivot? then x.(pc := AtCreateRuntime)
              else if m == MsgReady then x.(pc := AtSaveCreated) else x.(pc := Ended, outcome := InvalidExecutable);
    FactsOf(cfg, s, p);
    InitHears(cfg, s, p);
    InitReadKeeps(cfg, s, p, x');
    FrameKeeps(cfg, Put(s, p, x').(initRead := s.initRead + 1), DoReceiveInit(s, p));
  }

  /** Start hears nothing but MsgExecReady, and only on the first connection. */
  lemma StartHears(cfg: Config, s: State, p: ProcId)
    requires Inv(cfg, s) && CanReceiveExecReady(s, p)
    ensures s.procs[p].conn == Some(0) && s.conns[0].down == [MsgExecReady] && Rank(s.child.phase) >= 11
    ensures ProcOk(cfg, ViewOf(s), p, s.procs[p].(pc := AtSaveRunning))
  {
    hide ProcsOk, SavesOk, SharedOk;
    OperationFacts(cfg, s, p);
    hide CreateOk;
  }

  lemma StartReceiveKeeps(cfg: Config, s: State, p: ProcId)
    requires Inv(cfg, s) && CanReceiveExecReady(s, p)
    ensures Inv(cfg, DoReceiveExecReady(s, p))
  {
    hide Inv, ProcOk;
    StartHears(cfg, s, p);
    var a := AnswersOf(s, p).(got := AnswersOf(s, p).got + [MsgExecReady]);
    LearnKeeps(cfg, s, p, a);
    PutKeeps(cfg, Learn(s, p, a), p, s.procs[p].(pc := AtSaveRunning));
  }

  lemma RunHooksKeeps(cfg: Config, s: State, p: ProcId, ok: bool)
    requires Inv(cfg, s) && CanRunHooks(s, p)
    ensures Inv(cfg, DoRunHooks(s, p, ok))
  {
    hide Inv, ProcOk, Finish;
    var x := s.procs[p];
    var s1 := Emit(s, Hooks(p, HookPhaseAt(x.pc), ok));
    EmitKeeps(cfg, s, Hooks(p, HookPhaseAt(x.pc), ok));
    if x.pc.AtPoststop? || x.pc.AtPoststart? || !ok {
      FinishKeeps(cfg, s1, p, Succeeded);
      FinishKeeps(cfg, s1, p, Failed);
    } else {
      var x' := x.(pc := if x.pc.AtCreateRuntime? then AtRecvReady else AtDial);
      HooksLeadOn(cfg, s, p);
      LearnKeeps(cfg, s1, p, AnswersOf(s, p).(hooks := true));
      PutKeeps(cfg, Learn(s1, p, AnswersOf(s, p).(hooks := true)), p, x');
    }
  }

  lemma HooksLeadOn(cfg: Config, s: State, p: ProcId)
    requires Inv(cfg, s) && p in s.procs && (s.procs[p].pc.AtCreateRuntime? || s.procs[p].pc.AtPrestart?)
    ensures var x := s.procs[p];
            ProcOk(cfg, ViewOf(s), p, x.(pc := if x.pc.AtCreateRuntime? then AtRecvReady else AtDial))
  {
    hide SharedOk, SavesOk, ConnsOk;
    FactsOf(cfg, s, p);
  }

  /** What one process relies on survives any growth of the sockets and any forward
      move of the child that leaves its own connection as it was. */
  predicate Grows(v: View, v': View, q: ProcId) {
    && v'.creator == v.creator && v'.saves == v.saves && v'.initRead == v.initRead
    && v'.child.pid == v.child.pid && Rank(v.child.phase) <= Rank(v'.child.phase)
    && (v.child.phase == Unborn ==> v'.child.phase == Unborn)
    && (!v.child.alive ==> !v'.child.alive)
    && |v.conns| <= |v'.conns|
    && forall i :: 0 <= i < |v.conns| ==>
         && v'.conns[i].owner == v.conns[i].owner
         && (v.conns[i].owner == q ==> v'.conns[i].open == v.conns[i].open && v'.conns[i].up == v.conns[i].up)
  }

  lemma GrowthKeepsProcess(cfg: Config, v: View, v': View, q: ProcId, x: Process)
    requires ProcOk(cfg, v, q, x) && Grows(v, v', q)
    ensures ProcOk(cfg, v', q, x)
  {}

  lemma GrowthKeepsSaves(cfg: Config, v: View, v': View, q: ProcId)
    requires SavesOk(cfg, v) && Grows(v, v', q)
    ensures SavesOk(cfg, v')
  {
    forall i | 0 < i < |v'.saves|
      ensures Later(cfg, v', v'.saves[i])
    {
      assert Later(cfg, v, v.saves[i]);
    }
  }

  /** The view grows for every process but p, which answers for itself. */
  lemma GrowthKeeps(cfg: Config, v: View, v': View, procs: map<ProcId, Process>, p: ProcId, x: Process)
    requires ProcsOk(cfg, v, procs) && SavesOk(cfg, v)
    requires forall q :: q in procs && q != p ==> Grows(v, v', q)
    requires Grows(v, v'.(conns := v.conns), p)
    requires ProcOk(cfg, v', p, x)
    ensures ProcsOk(cfg, v', procs[p := x]) && SavesOk(cfg, v')
  {
    hide ProcOk, SavesOk;
    forall q | q in procs && q != p
      ensures ProcOk(cfg, v', q, procs[q])
    {
      GrowthKeepsProcess(cfg, v, v', q, procs[q]);
    }
    GrowthKeepsSaves(cfg, v, v'.(conns := v.conns), p);
    SavesDoNotSeeConnections(cfg, v'.(conns := v.conns), v');
  }

  lemma SavesDoNotSeeConnections(cfg: Config, v: View, v': View)
    requires SavesOk(cfg, v) && v' == v.(conns := v'.conns)
    ensures SavesOk(cfg, v')
  {
    forall i | 0 < i < |v'.saves|
      ensures Later(cfg, v', v'.saves[i])
    {
      assert Later(cfg, v, v.saves[i]);
    }
  }

  lemma DiallerOk(cfg: Config, s: State, p: ProcId)
    requires Inv(cfg, s) && CanDial(s, p)
    ensures var s' := DoDial(s, p);
            && ProcOk(cfg, ViewOf(s'), p, s'.procs[p])
            && ConnsOk(cfg, s'.child, s'.conns)
            && (forall q :: q in s.procs && q != p ==> Grows(ViewOf(s), ViewOf(s'), q))
  {
    hide ProcsOk, SavesOk, SharedOk;
    OperationFacts(cfg, s, p);
    hide CreateOk;
  }

  lemma DialKeeps(cfg: Config, s: State, p: ProcId)
    requires Inv(cfg, s) && CanDial(s, p)
    ensures Inv(cfg, DoDial(s, p))
  {
    hide ProcsOk, SavesOk, ProcOk, ConnsOk;
    var s' := DoDial(s, p);
    DiallerOk(cfg, s, p);
    GrowthKeeps(cfg, ViewOf(s), ViewOf(s'), s.procs, p, s'.procs[p]);
  }

  lemma SenderOk(cfg: Config, s: State, p: ProcId)
    requires Inv(cfg, s) && CanSendStart(s, p)
    ensures var s' := DoSendStart(cfg, s, p);
            && ProcOk(cfg, ViewOf(s'), p, s'.procs[p])
            && ConnsOk(cfg, s'.child, s'.conns)
            && (forall q :: q in s.procs && q != p ==> Grows(ViewOf(s), ViewOf(s'), q))
  {
    hide ProcsOk, SavesOk, SharedOk;
    OperationFacts(cfg, s, p);
    hide CreateOk;
  }

  lemma SendStartKeeps(cfg: Config, s: State, p: ProcId)
    requires Inv(cfg, s) && CanSendStart(s, p)
    ensures Inv(cfg, DoSendStart(cfg, s, p))
  {
    hide ProcsOk, SavesOk, ProcOk, ConnsOk;
    var s' := DoSendStart(cfg, s, p);
    SenderOk(cfg, s, p);
    GrowthKeeps(cfg, ViewOf(s), ViewOf(s'), s.procs, p, s'.procs[p]);
  }

  lemma CgroupKeeps(cfg: Config, s: State, p: ProcId)
    requires Inv(cfg, s) && CanCgroup(s, p)
    ensures Inv(cfg, DoCgroup(s, p))
  {
    hide Inv;
    OperationFacts(cfg, s, p);
    hide CreateOk;
    LearnKeeps(cfg, s, p, AnswersOf(s, p).(acted := true));
    PutKeeps(cfg, Learn(s, p, AnswersOf(s, p).(acted := true)), p, s.procs[p].(pc := AtSaveToggled));
  }

  lemma ProbeKeeps(cfg: Config, s: State, p: ProcId, dead: bool)
    requires Inv(cfg, s) && CanProbe(s, p, dead)
    ensures Inv(cfg, DoProbe(s, p, dead))
  {
    hide Inv;
    var x := s.procs[p];
    OperationFacts(cfg, s, p);
    hide CreateOk;
    if dead {
      LearnKeeps(cfg, s, p, AnswersOf(s, p).(dead := true));
      PutKeeps(cfg, Learn(s, p, AnswersOf(s, p).(dead := true)), p,
               x.(pc := AtSaveDead, mem := x.mem.(status := Stopped)));
    } else if x.kind.Delete? {
      PutKeeps(cfg, s, p, x.(pc := AtGuard));
    } else {
      FinishKeeps(cfg, s, p, Succeeded);
    }
  }

  lemma UnlinkStateKeeps(cfg: Config, s: State, p: ProcId)
    requires Inv(cfg, s) && CanUnlinkState(s, p)
    ensures Inv(cfg, DoUnlinkState(s, p))
  {
    hide ProcsOk, SavesOk, ConnsOk;
    assert ViewOf(DoUnlinkState(s, p)) == ViewOf(s);
  }

  lemma RmdirKeeps(cfg: Config, s: State, p: ProcId)
    requires Inv(cfg, s) && CanRmdir(s, p)
    ensures Inv(cfg, DoRmdir(s, p))
  {
    OperationFacts(cfg, s, p);
    hide CreateOk;
    PutKeeps(cfg, s, p, s.procs[p].(pc := AtPoststop));
    hide ProcsOk, SavesOk, ConnsOk;
    assert ViewOf(DoRmdir(s, p)) == ViewOf(Put(s, p, s.procs[p].(pc := AtPoststop)));
  }

  // ---- the child ----------------------------------------------------------

  /** Moving the child forward, stopping it where it is, and answering on the first
      connection take no fact away. */
  lemma ChildMoves(cfg: Config, s: State, s': State)
    requires Inv(cfg, s)
    requires s' == s.(child := s'.child, initChan := s'.initChan, trace := s'.trace, conns := s'.conns)
    requires SharedOk(cfg, s') && ConnsOk(cfg, s'.child, s'.conns)
    requires forall q :: Grows(ViewOf(s), ViewOf(s'), q)
    ensures Inv(cfg, s')
  {
    hide SharedOk, ConnsOk, ProcOk, SavesOk, Grows;
    forall q | q in s'.procs
      ensures ProcOk(cfg, ViewOf(s'), q, s'.procs[q])
    {
      GrowthKeepsProcess(cfg, ViewOf(s), ViewOf(s'), q, s.procs[q]);
    }
    GrowthKeepsSaves(cfg, ViewOf(s), ViewOf(s'), 0);
  }

  /** Where the child goes and what it says agree. */
  lemma MoveFits(cfg: Config, s: State, step: Step)
    requires Inv(cfg, s) && ChildEnabled(cfg, s, step)
    ensures var m := MoveOf(cfg, s, step);
            && InitSent(s.child.phase) + m.tell == InitSent(m.phase)
            && Rank(s.child.phase) <= Rank(m.phase)
            && s.child.phase != Unborn && m.phase != Unborn
            && (step.ChildReceive? ==> m.alive)
            && (Rank(m.phase) >= 7 ==> s.conns != [])
            && (Rank(m.phase) >= 8 ==> s.conns[0].up == [MsgStart])
            && (Rank(m.phase) >= 11 ==> !cfg.processNil)
            && (step.ChildExecReady? ==> Rank(m.phase) >= 11 && s.conns[0].down == [])
            && (Rank(m.phase) >= 11 && !step.ChildExecReady? ==> s.conns[0].down == [MsgExecReady])
  {
    hide ProcsOk, SavesOk;
    assert s.child.alive ==> s.child.phase != Unborn;
    hide SharedOk;
  }

  lemma ChildKeeps(cfg: Config, s: State, step: Step)
    requires Inv(cfg, s) && ChildEnabled(cfg, s, step)
    ensures Inv(cfg, DoChild(cfg, s, step))
  {
    hide ProcsOk, SavesOk, MoveOf, InitSent, Rank;
    MoveFits(cfg, s, step);
    ChildMoves(cfg, s, DoChild(cfg, s, step));
  }

  // ---- every run ----------------------------------------------------------

  lemma StepKeeps(cfg: Config, s: State, step: Step)
    requires Inv(cfg, s) && Enabled(cfg, s, step)
    ensures Inv(cfg, Do(cfg, s, step))
  {
    hide Inv;
    hide DoSpawn, DoMkdir, DoLoad, DoOpenLock, DoFlock, DoReload, DoCheck, DoSave, DoFork, DoReceiveInit;
    hide DoReceiveExecReady, DoRunHooks, DoDial, DoSendStart, DoCgroup, DoProbe, DoUnlinkState, DoRmdir, DoChild;
    hide Finish;
    match step
    case Spawn(p, k) => NewProcessKeeps(cfg, s, p, k);
    case Mkdir(p) => MkdirKeeps(cfg, s, p);
    case Load(p) => LoadKeeps(cfg, s, p);
    case OpenLock(p) => OpenLockKeeps(cfg, s, p);
    case Flock(p) => FlockKeeps(cfg, s, p);
    case Reload(p) => ReloadKeeps(cfg, s, p);
    case Check(p) => CheckKeeps(cfg, s, p);
    case Save(p, r) =>
      if AtSaveCreatePC(s.procs[p].pc) { CreatorDoSaveKeeps(cfg, s, p, r); } else { OperationSaveKeeps(cfg, s, p, r); }
    case Fork(p, pid) => ForkKeeps(cfg, s, p, pid);
    case Receive(p) =>
      if CanReceiveInit(s, p) { InitReceiveKeeps(cfg, s, p); } else { StartReceiveKeeps(cfg, s, p); }
    case RunHooks(p, ok) => RunHooksKeeps(cfg, s, p, ok);
    case Dial(p) => DialKeeps(cfg, s, p);
    case SendStart(p) => SendStartKeeps(cfg, s, p);
    case Cgroup(p) => CgroupKeeps(cfg, s, p);
    case Signal(p) => FinishKeeps(cfg, s, p, Succeeded);
    case Probe(p, dead) => ProbeKeeps(cfg, s, p, dead);
    case UnlinkState(p) => UnlinkStateKeeps(cfg, s, p);
    case UnlinkLock(p) => FrameKeeps(cfg, s, Do(cfg, s, step));
    case Rmdir(p) => RmdirKeeps(cfg, s, p);
    case Quit(p) => FinishKeeps(cfg, s, p, Failed);
    case _ => ChildKeeps(cfg, s, step);
  }

  lemma {:induction false} RunKeeps(cfg: Config, s: State, steps: seq<Step>)
    requires Inv(cfg, s) && Runs(cfg, s, steps)
    ensures Inv(cfg, Run(cfg, s, steps))
    decreases |steps|
  {
    hide Inv;
    if steps != [] {
      StepKeeps(cfg, s, steps[0]);
      RunKeeps(cfg, Do(cfg, s, steps[0]), steps[1..]);
    }
  }

  lemma Reachable(cfg: Config, steps: seq<Step>)
    requires Runs(cfg, InitialState(cfg), steps)
    ensures Inv(cfg, Run(cfg, InitialState(cfg), steps))
  {
    RunKeeps(cfg, InitialState(cfg), steps);
  }
}
