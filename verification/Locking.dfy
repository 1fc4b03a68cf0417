/**
 What every step keeps as long as nobody makes c.lock anew beside state.json: one
 holder past the reload at a time, and a history of state.json that is the one of
 the lock winners run whole, one after another, in lock order.
 */
module Locking {
  import opened Wrappers
  import opened Lifecycle
  import opened Protocol
  import opened Handshake

  /** What a lock holder has learnt, and so what it has written, at each program
      point; base is the content of state.json when it took the lock. */
  predicate Progress(cfg: Config, base: Option<ContainerState>, x: Process, a: Answers) {
    if x.kind.Create? then
      var saved := NoAnswers.(save1 := Done);
      var forked := saved.(pid := x.mem.pid);
      base.None? &&
      match x.pc
      case AtSaveCreating => a == NoAnswers
      case AtFork => a == saved
      case AtRecvPrePivot => a == forked
      case AtCreateRuntime => a == forked.(got := [MsgPrePivot])
      case AtRecvReady => a == forked.(got := [MsgPrePivot], hooks := true)
      case AtSaveCreated => a == forked.(got := [MsgPrePivot, MsgReady], hooks := true)
      case _ => false
    else if x.pc.AtReload? then a == NoAnswers
    else base.Some? && OperationProgress(cfg, base.value, x, a)
  }

  predicate OperationProgress(cfg: Config, st: ContainerState, x: Process, a: Answers) {
    var hooked := NoAnswers.(hooks := true);
    var sent := hooked.(dialled := true, sent := true);
    match x.pc
    case AtCheck => a == NoAnswers && x.mem == st
    case AtSignal => a == NoAnswers
    case AtProbe => a == NoAnswers && x.mem == st
    case AtPrestart => a == NoAnswers && x.mem == st
    case AtDial => a == hooked && x.mem == st
    case AtSendStart => a == hooked.(dialled := true) && x.mem == st
    case AtSaveStopped => a == sent && x.mem == st
    case AtRecvExecReady => a == sent && x.mem == st
    case AtSaveRunning => a == sent.(got := [MsgExecReady]) && x.mem == st
    case AtPoststart => a == sent.(got := [MsgExecReady], save1 := Done)
    case AtCgroup => a == NoAnswers && x.mem == st
    case AtSaveToggled => a == NoAnswers.(acted := true) && x.mem == st
    case AtSaveDead => a == NoAnswers.(dead := true) && st.pid != 0 && x.mem == st.(status := Stopped)
    case AtGuard => ProbeProgress(st, x, a)
    case AtRemove => ProbeProgress(st, x, a) && Guard(x.kind, x.mem)
    case _ => false
  }

  predicate ProbeProgress(st: ContainerState, x: Process, a: Answers) {
    || (a == NoAnswers && x.mem == st)
    || (a == NoAnswers.(dead := true, save1 := a.save1) && !a.save1.NotReached? && st.pid != 0
        && x.mem == st.(status := Stopped))
  }

  /** The part of the state that the facts about one lock user depend on. */
  datatype LockView = LockView(gone: bool, holder: map<nat, ProcId>, nextInode: nat, sections: seq<Section>)

  function LockViewOf(s: State): LockView { LockView(Gone(s), s.holder, s.nextInode, s.sections) }

  predicate Locked(cfg: Config, v: LockView, p: ProcId, x: Process) {
    && (HoldsLock(x.pc) ==> x.inode in v.holder && v.holder[x.inode] == p)
    && (x.pc.AtFlock? || HoldsLock(x.pc) ==> x.inode < v.nextInode && (x.inode != 0 ==> v.gone))
    && (Critical(x.pc) ==> x.inode == 0)
    && (Critical(x.pc) && v.gone ==> x.pc.AtRemove? || x.pc.AtPoststop?)
    && (x.pc.AtPoststop? ==> v.gone)
    && (x.kind.Create? && x.pc.AtOpenLock? ==> v.nextInode == 0)
    && (x.kind.Create? && (x.pc.AtOpenLock? || x.pc.AtFlock?) ==> v.sections == [])
    && (HoldsLock(x.pc) && !v.gone ==>
          && |v.sections| > 0 && x.section == |v.sections| - 1
          && v.sections[x.section].kind == x.kind && v.sections[x.section].proc == p
          && Progress(cfg, SerialDisk(cfg, v.sections[..x.section]), x, v.sections[x.section].answers))
  }

  predicate AllLocked(cfg: Config, v: LockView, procs: map<ProcId, Process>) {
    forall p :: p in procs ==> Locked(cfg, v, p, procs[p])
  }

  predicate FilesOk(cfg: Config, s: State) {
    && (s.lockPath.Some? ==> s.lockPath.value < s.nextInode && (s.lockPath.value != 0 ==> Gone(s)))
    && (s.saves != [] ==> s.nextInode > 0 && s.sections != [])
    && (s.dir.Absent? ==> s.nextInode == 0 && s.sections == [])
    && (s.saves == [] && s.nextInode > 0 ==> s.lockPath == Some(0))
  }

  predicate SerialOk(cfg: Config, s: State) {
    && s.saves == SerialSaves(cfg, s.sections)
    && s.disk == SerialDisk(cfg, s.sections)
    && LegalHistory(cfg, s.saves)
  }

  predicate LockInv(cfg: Config, s: State) {
    && FilesOk(cfg, s)
    && SerialOk(cfg, s)
    && AllLocked(cfg, LockViewOf(s), s.procs)
  }

  // ---- the lock holds -----------------------------------------------------

  /** Before the removal, the holder of a lock is the only one. */
  lemma Alone(cfg: Config, v: LockView, p: ProcId, x: Process, q: ProcId, y: Process)
    requires Locked(cfg, v, p, x) && Locked(cfg, v, q, y)
    requires HoldsLock(x.pc) && HoldsLock(y.pc)
    requires !v.gone || (Critical(x.pc) && Critical(y.pc))
    ensures p == q
  {}

  /** While the creator has not yet taken the lock nobody else has got past Load. */
  lemma EarlyCreatorAlone(cfg: Config, s: State, q: ProcId, p: ProcId)
    requires Inv(cfg, s) && p in s.procs && q in s.procs && p != q
    requires s.procs[q].kind.Create? && (s.procs[q].pc.AtOpenLock? || s.procs[q].pc.AtFlock?)
    ensures var pc := s.procs[p].pc; pc.AtLoad? || pc.AtMkdir? || pc.Ended?
  {
    hide SharedOk, ConnsOk, SavesOk, ProcsOk;
    FactsOf(cfg, s, p);
    FactsOf(cfg, s, q);
  }

  /** How the shared lock state may change under everybody but p. */
  predicate KeepsOthers(v: LockView, v': LockView, p: ProcId) {
    && v.nextInode <= v'.nextInode
    && (v.gone ==> v'.gone)
    && (forall i :: i in v.holder && v.holder[i] != p ==> i in v'.holder && v'.holder[i] == v.holder[i])
  }

  lemma OtherStaysLocked(cfg: Config, v: LockView, v': LockView, p: ProcId, q: ProcId, y: Process)
    requires Locked(cfg, v, q, y) && q != p && KeepsOthers(v, v', p)
    requires y.kind.Create? && (y.pc.AtOpenLock? || y.pc.AtFlock?) ==>
               v'.sections == v.sections && v'.nextInode == v.nextInode
    requires HoldsLock(y.pc) && !v.gone ==> v'.sections == v.sections && !v'.gone
    ensures Locked(cfg, v', q, y)
  {}

  /** One process moves; the others keep what they know. */
  lemma MoveLocked(cfg: Config, s: State, s': State, p: ProcId)
    requires LockInv(cfg, s) && Inv(cfg, s)
    requires p in s.procs && p in s'.procs && s'.procs == s.procs[p := s'.procs[p]]
    requires KeepsOthers(LockViewOf(s), LockViewOf(s'), p)
    requires (s'.sections == s.sections && s'.nextInode == s.nextInode)
          || !(s.procs[p].pc.AtLoad? || s.procs[p].pc.AtMkdir? || s.procs[p].pc.Ended?)
    requires (s'.sections == s.sections && Gone(s') == Gone(s))
          || (HoldsLock(s.procs[p].pc) && !Gone(s))
          || (s.procs[p].pc.AtFlock? && s.procs[p].inode !in s.holder && Gone(s') == Gone(s))
    requires Locked(cfg, LockViewOf(s'), p, s'.procs[p])
    ensures AllLocked(cfg, LockViewOf(s'), s'.procs)
  {
    var v, v' := LockViewOf(s), LockViewOf(s');
    hide Inv, FilesOk, SerialOk;
    forall q | q in s'.procs && q != p
      ensures Locked(cfg, v', q, s'.procs[q])
    {
      var y := s.procs[q];
      if y.kind.Create? && (y.pc.AtOpenLock? || y.pc.AtFlock?) {
        EarlyCreatorAlone(cfg, s, q, p);
      }
      assert Locked(cfg, v, p, s.procs[p]) && Locked(cfg, v, q, y);
      OtherStaysLocked(cfg, v, v', p, q, y);
    }
  }

  // ---- steps that leave files and sections alone --------------------------

  lemma LockedOf(cfg: Config, s: State, p: ProcId)
    requires LockInv(cfg, s) && p in s.procs
    ensures Locked(cfg, LockViewOf(s), p, s.procs[p])
  {}

  lemma FinishLocked(cfg: Config, s: State, p: ProcId, o: Outcome)
    requires LockInv(cfg, s) && Inv(cfg, s) && p in s.procs
    ensures LockInv(cfg, Finish(s, p, o))
  {
    LockedOf(cfg, s, p);
    hide Inv, SerialOk, AllLocked;
    MoveLocked(cfg, s, Finish(s, p, o), p);
    assert SerialOk(cfg, s) ==> SerialOk(cfg, Finish(s, p, o)) by { SerialSame(cfg, s, Finish(s, p, o)); }
  }

  lemma SerialSame(cfg: Config, s: State, s': State)
    requires s'.saves == s.saves && s'.disk == s.disk && s'.sections == s.sections
    ensures SerialOk(cfg, s) ==> SerialOk(cfg, s')
  {}

  /** A process moves to a program point whose facts hold, and nothing else happens
      to the files, the lock or the sections. */
  lemma QuietLocked(cfg: Config, s: State, s': State, p: ProcId)
    requires LockInv(cfg, s) && Inv(cfg, s) && p in s.procs && p in s'.procs
    requires s'.procs == s.procs[p := s'.procs[p]]
    requires s'.saves == s.saves && s'.disk == s.disk && s'.sections == s.sections
    requires s'.holder == s.holder && s'.nextInode == s.nextInode && s'.lockPath == s.lockPath
    requires s'.dir == s.dir || !s'.dir.Absent?
    requires Locked(cfg, LockViewOf(s), p, s'.procs[p])
    ensures LockInv(cfg, s')
  {
    hide Inv, SerialOk, AllLocked, Locked;
    assert LockViewOf(s') == LockViewOf(s);
    MoveLocked(cfg, s, s', p);
    SerialSame(cfg, s, s');
  }

  lemma MkdirLocked(cfg: Config, s: State, p: ProcId)
    requires LockInv(cfg, s) && Inv(cfg, s) && CanMkdir(s, p)
    ensures LockInv(cfg, DoMkdir(s, p))
  {
    if s.dir.Present? {
      FinishLocked(cfg, s, p, AlreadyExists);
    } else {
      FactsOf(cfg, s, p);
      hide Inv, LockInv;
      QuietLocked(cfg, s, DoMkdir(s, p), p);
    }
  }

  lemma LoadLocked(cfg: Config, s: State, p: ProcId)
    requires LockInv(cfg, s) && Inv(cfg, s) && CanLoad(s, p)
    ensures LockInv(cfg, DoLoad(s, p))
  {
    if s.disk.None? {
      FinishLocked(cfg, s, p, NoSuchContainer);
    } else {
      FactsOf(cfg, s, p);
      hide Inv, LockInv;
      QuietLocked(cfg, s, DoLoad(s, p), p);
    }
  }

  lemma CheckerLocked(cfg: Config, hv: View, v: LockView, p: ProcId, x: Process)
    requires Locked(cfg, v, p, x) && OperationOk(cfg, hv, p, x) && !x.kind.Create?
    requires (x.pc.AtCheck? || x.pc.AtGuard?) && Guard(x.kind, x.mem)
    ensures Locked(cfg, v, p, x.(pc := AfterCheck(x.kind)))
  {
    hide SerialDisk, Guard;
  }

  lemma CheckLocked(cfg: Config, s: State, p: ProcId)
    requires LockInv(cfg, s) && Inv(cfg, s) && CanCheck(s, p)
    ensures LockInv(cfg, DoCheck(s, p))
  {
    var x := s.procs[p];
    LockedOf(cfg, s, p);
    OperationFacts(cfg, s, p);
    hide Inv, LockInv, Locked, OperationOk;
    if Guard(x.kind, x.mem) {
      CheckerLocked(cfg, ViewOf(s), LockViewOf(s), p, x);
      QuietLocked(cfg, s, DoCheck(s, p), p);
    } else {
      FinishLocked(cfg, s, p, Refused);
    }
  }

  /** The step makes a second lock file while state.json is there. Nothing else can
      break the lock. */
  predicate Remakes(s: State, step: Step) {
    step.OpenLock? && s.dir.Present? && s.lockPath.None? && s.disk.Some?
  }

  /** The name c.lock is made anew only when state.json is already gone for good. */
  lemma OpenLockLocked(cfg: Config, s: State, p: ProcId)
    requires LockInv(cfg, s) && Inv(cfg, s) && CanOpenLock(s, p) && !Remakes(s, OpenLock(p))
    ensures LockInv(cfg, DoOpenLock(s, p))
  {
    if !s.dir.Present? {
      FinishLocked(cfg, s, p, Failed);
    } else {
      var s' := DoOpenLock(s, p);
      LockedOf(cfg, s, p);
      FactsOf(cfg, s, p);
      hide Inv, SerialOk, AllLocked;
      MoveLocked(cfg, s, s', p);
      SerialSame(cfg, s, s');
    }
  }

  // ---- taking the lock ----------------------------------------------------

  /** A section that has learnt nothing yet has done nothing yet. */
  lemma NothingYet(cfg: Config, sections: seq<Section>, c: Section)
    requires c.answers == NoAnswers
    requires c.kind.Create? ==> sections == []
    ensures SerialDisk(cfg, sections + [c]) == SerialDisk(cfg, sections)
    ensures SerialSaves(cfg, sections + [c]) == SerialSaves(cfg, sections)
  {
    assert (sections + [c])[..|sections|] == sections;
  }

  lemma WinnerLocked(cfg: Config, s: State, p: ProcId)
    requires LockInv(cfg, s) && Inv(cfg, s) && CanFlock(s, p) && s.procs[p].inode !in s.holder
    ensures var s' := DoFlock(s, p); Locked(cfg, LockViewOf(s'), p, s'.procs[p])
    ensures s.procs[p].kind.Create? ==> s.sections == []
    ensures !s.dir.Absent?
  {
    LockedOf(cfg, s, p);
    FactsOf(cfg, s, p);
    hide Inv, AllLocked, SerialSaves, LegalHistory;
    var s' := DoFlock(s, p);
    assert s'.sections[..|s.sections|] == s.sections;
  }

  lemma WinnerSerial(cfg: Config, s: State, p: ProcId)
    requires FilesOk(cfg, s) && SerialOk(cfg, s) && CanFlock(s, p) && s.procs[p].inode !in s.holder
    requires s.procs[p].kind.Create? ==> s.sections == []
    requires !s.dir.Absent?
    ensures FilesOk(cfg, DoFlock(s, p)) && SerialOk(cfg, DoFlock(s, p))
  {
    NothingYet(cfg, s.sections, Section(p, s.procs[p].kind, NoAnswers));
    hide SerialDisk, SerialSaves, LegalHistory;
  }

  lemma FlockLocked(cfg: Config, s: State, p: ProcId)
    requires LockInv(cfg, s) && Inv(cfg, s) && CanFlock(s, p)
    ensures LockInv(cfg, DoFlock(s, p))
  {
    if s.procs[p].inode in s.holder {
      FinishLocked(cfg, s, p, OperationInProgress);
    } else {
      hide Inv, AllLocked, Locked, FilesOk, SerialOk;
      WinnerLocked(cfg, s, p);
      WinnerSerial(cfg, s, p);
      MoveLocked(cfg, s, DoFlock(s, p), p);
    }
  }

  /** A section that has just begun starts from what is on disk. */
  lemma BaseIsDisk(cfg: Config, sections: seq<Section>)
    requires sections != [] && sections[|sections| - 1].answers == NoAnswers && !sections[|sections| - 1].kind.Create?
    ensures SerialDisk(cfg, sections[..|sections| - 1]) == SerialDisk(cfg, sections)
  {
    var n := |sections| - 1;
    assert sections == sections[..n] + [sections[n]];
    NothingYet(cfg, sections[..n], sections[n]);
  }

  /** A reload that finds the file runs under the original lock file. */
  lemma ReloaderLocked(cfg: Config, s: State, p: ProcId)
    requires LockInv(cfg, s) && Inv(cfg, s) && CanReload(s, p) && s.disk.Some?
    ensures Locked(cfg, LockViewOf(s), p, s.procs[p].(pc := AfterReload(s.procs[p].kind), mem := s.disk.value))
  {
    LockedOf(cfg, s, p);
    assert !s.procs[p].kind.Create? by { FactsOf(cfg, s, p); }
    LockSerial(cfg, s);
    hide Inv, LockInv, SerialDisk, SerialSaves, LegalHistory;
    ReloadedLocked(cfg, LockViewOf(s), p, s.procs[p], s.disk.value);
  }

  /** The same for one process and the state of the lock. */
  lemma ReloadedLocked(cfg: Config, v: LockView, p: ProcId, x: Process, st: ContainerState)
    requires Locked(cfg, v, p, x) && x.pc.AtReload? && !x.kind.Create? && !v.gone
    requires SerialDisk(cfg, v.sections) == Some(st)
    ensures Locked(cfg, v, p, x.(pc := AfterReload(x.kind), mem := st))
  {
    hide SerialDisk;
    BaseIsDisk(cfg, v.sections);
  }

  lemma ReloadLocked(cfg: Config, s: State, p: ProcId)
    requires LockInv(cfg, s) && Inv(cfg, s) && CanReload(s, p)
    ensures LockInv(cfg, DoReload(s, p))
  {
    if s.disk.None? {
      FinishLocked(cfg, s, p, Failed);
    } else {
      ReloadIsExact(cfg, s, p);
      ReloaderLocked(cfg, s, p);
      hide Inv, LockInv, Locked;
      QuietLocked(cfg, s, DoReload(s, p), p);
    }
  }

  // ---- learning and writing -----------------------------------------------

  lemma ReplaceLast(cfg: Config, sections: seq<Section>, a: Answers)
    requires sections != []
    ensures var n := |sections| - 1;
            var r := sections[n := sections[n].(answers := a)];
            var before := SerialDisk(cfg, sections[..n]);
            var e := OperationEffect(cfg, sections[n].kind, before, a);
            && SerialDisk(cfg, r) == After(before, e)
            && SerialSaves(cfg, r) == SerialSaves(cfg, sections[..n]) + e.writes
  {
    var n := |sections| - 1;
    assert sections[n := sections[n].(answers := a)][..n] == sections[..n];
  }

  /** The history and the disk after the last section learns a, and writes what that adds. */
  lemma LearnSerial(cfg: Config, sections: seq<Section>, a: Answers, added: seq<ContainerState>)
    requires sections != [] && |added| <= 1
    requires var n := |sections| - 1;
             var before := SerialDisk(cfg, sections[..n]);
             var e := OperationEffect(cfg, sections[n].kind, before, sections[n].answers);
             !e.removes && OperationEffect(cfg, sections[n].kind, before, a) == Effect(e.writes + added, false)
    ensures var n := |sections| - 1;
            var r := sections[n := sections[n].(answers := a)];
            && SerialSaves(cfg, r) == SerialSaves(cfg, sections) + added
            && SerialDisk(cfg, r) == if added == [] then SerialDisk(cfg, sections) else Some(added[0])
  {
    var n := |sections| - 1;
    ReplaceLast(cfg, sections, a);
    ReplaceLast(cfg, sections, sections[n].answers);
    assert sections[n := sections[n].(answers := sections[n].answers)] == sections;
    var before := SerialDisk(cfg, sections[..n]);
    var e := OperationEffect(cfg, sections[n].kind, before, sections[n].answers);
    var saved := SerialSaves(cfg, sections[..n]);
    hide SerialDisk, SerialSaves, OperationEffect;
    AddedLast(saved, e.writes, added);
    AfterAdded(before, e.writes, added);
  }

  lemma AddedLast<T>(a: seq<T>, b: seq<T>, c: seq<T>)
    ensures a + (b + c) == a + b + c
  {}

  lemma AfterAdded(before: Option<ContainerState>, writes: seq<ContainerState>, added: seq<ContainerState>)
    requires |added| <= 1
    ensures After(before, Effect(writes + added, false)) ==
            if added == [] then After(before, Effect(writes, false)) else Some(added[0])
  {
    if added == [] {
      assert writes + added == writes;
    }
  }

  lemma AppendLegal(cfg: Config, saves: seq<ContainerState>, st: ContainerState)
    requires LegalHistory(cfg, saves)
    requires if saves == [] then st == NewState(cfg) else LegalMove(saves[|saves| - 1], st)
    ensures LegalHistory(cfg, saves + [st])
  {}

  /** The effect at each program point, read off what has been learnt there. */
  lemma EffectAt(cfg: Config, base: Option<ContainerState>, x: Process, a: Answers)
    requires Progress(cfg, base, x, a)
    ensures var e := OperationEffect(cfg, x.kind, base, a);
            && !e.removes
            && (x.kind.Create? ==> e.writes == if x.pc.AtSaveCreating? then [] else [NewState(cfg)])
            && (!x.kind.Create? && !x.pc.AtPoststart? && !x.pc.AtGuard? && !x.pc.AtRemove? ==> e.writes == [])
            && ((x.pc.AtGuard? || x.pc.AtRemove?) && base.Some? && (x.kind.Delete? || x.kind.GetState?) ==>
                  e.writes == ProbeWrites(base.value, a))
  {}

  function BaseOf(cfg: Config, s: State, p: ProcId): Option<ContainerState>
    requires p in s.procs && s.procs[p].section <= |s.sections|
  {
    SerialDisk(cfg, s.sections[..s.procs[p].section])
  }

  /** The lock holder's own record, before the removal. */
  lemma HolderFacts(cfg: Config, s: State, p: ProcId)
    requires LockInv(cfg, s) && p in s.procs && HoldsLock(s.procs[p].pc)
    requires !s.procs[p].pc.AtReload? && !s.procs[p].pc.AtRemove? && !s.procs[p].pc.AtPoststop?
    ensures !Gone(s) && s.sections != [] && s.procs[p].section == |s.sections| - 1
    ensures var k := s.procs[p].section;
            && s.sections[k].kind == s.procs[p].kind && s.sections[k].proc == p
            && AnswersOf(s, p) == s.sections[k].answers
            && Progress(cfg, BaseOf(cfg, s, p), s.procs[p], AnswersOf(s, p))
  {
    LockedOf(cfg, s, p);
    hide SerialDisk, Progress;
  }

  /** How far p's next step takes the section and the files. */
  predicate Learns(cfg: Config, s: State, s': State, p: ProcId, a: Answers, added: seq<ContainerState>) {
    && p in s.procs && p in s'.procs && s'.procs == s.procs[p := s'.procs[p]]
    && s.procs[p].section < |s.sections|
    && (var k := s.procs[p].section; s'.sections == s.sections[k := s.sections[k].(answers := a)])
    && |added| <= 1 && s'.saves == s.saves + added
    && s'.disk == (if added == [] then s.disk else Some(added[0]))
    && s'.nextInode == s.nextInode && s'.lockPath == s.lockPath && s'.dir == s.dir
    && (var x, x' := s.procs[p], s'.procs[p];
        if HoldsLock(x'.pc)
        then s'.holder == s.holder && x' == x.(pc := x'.pc, mem := x'.mem, conn := x'.conn)
        else x'.pc.Ended? && s'.holder == s.holder - {x.inode})
  }

  lemma LearnedSerial(cfg: Config, s: State, s': State, p: ProcId, a: Answers, added: seq<ContainerState>)
    requires SerialOk(cfg, s) && Learns(cfg, s, s', p, a, added)
    requires s.procs[p].section == |s.sections| - 1
    requires var k := s.procs[p].section;
             var e := OperationEffect(cfg, s.sections[k].kind, BaseOf(cfg, s, p), s.sections[k].answers);
             !e.removes
             && OperationEffect(cfg, s.sections[k].kind, BaseOf(cfg, s, p), a) == Effect(e.writes + added, false)
    requires added != [] ==>
               if s.saves == [] then added[0] == NewState(cfg) else LegalMove(s.saves[|s.saves| - 1], added[0])
    ensures SerialOk(cfg, s')
  {
    LearnSerial(cfg, s.sections, a, added);
    hide SerialDisk, SerialSaves, OperationEffect, LegalHistory, LegalMove;
    if added == [] {
      assert s.saves + added == s.saves;
    } else {
      AppendLegal(cfg, s.saves, added[0]);
      assert added == [added[0]];
    }
  }

  lemma LearnedLocked(cfg: Config, s: State, s': State, p: ProcId, a: Answers, added: seq<ContainerState>)
    requires LockInv(cfg, s) && Inv(cfg, s) && Learns(cfg, s, s', p, a, added)
    requires HoldsLock(s.procs[p].pc)
    requires !s.procs[p].pc.AtReload? && !s.procs[p].pc.AtRemove? && !s.procs[p].pc.AtPoststop?
    requires SerialOk(cfg, s')
    requires var x' := s'.procs[p];
             HoldsLock(x'.pc) ==>
               && Critical(x'.pc) && !x'.pc.AtPoststop?
               && Progress(cfg, BaseOf(cfg, s, p), x', a)
    ensures LockInv(cfg, s')
  {
    HolderFacts(cfg, s, p);
    LockedOf(cfg, s, p);
    hide Inv, SerialOk, AllLocked, SerialDisk, Progress;
    var k := s.procs[p].section;
    assert s'.sections[..k] == s.sections[..k];
    MoveLocked(cfg, s, s', p);
  }

  predicate NothingWritten(pc: PC) {
    !pc.AtSaveCreating? && !pc.AtPoststart? && !pc.AtGuard? && !pc.AtRemove? && !pc.AtPoststop? && !pc.AtReload?
  }

  /** Learning something without writing. */
  lemma SilentLearn(cfg: Config, s: State, s': State, p: ProcId, a: Answers)
    requires LockInv(cfg, s) && Inv(cfg, s) && Learns(cfg, s, s', p, a, [])
    requires HoldsLock(s.procs[p].pc) && NothingWritten(s.procs[p].pc)
    requires Critical(s'.procs[p].pc) && NothingWritten(s'.procs[p].pc)
    requires Progress(cfg, BaseOf(cfg, s, p), s'.procs[p], a)
    ensures LockInv(cfg, s')
  {
    HolderFacts(cfg, s, p);
    EffectAt(cfg, BaseOf(cfg, s, p), s.procs[p], AnswersOf(s, p));
    EffectAt(cfg, BaseOf(cfg, s, p), s'.procs[p], a);
    hide Inv, Progress, OperationEffect, SerialOk, AllLocked;
    assert OperationEffect(cfg, s.procs[p].kind, BaseOf(cfg, s, p), AnswersOf(s, p)).writes + []
        == OperationEffect(cfg, s.procs[p].kind, BaseOf(cfg, s, p), AnswersOf(s, p)).writes;
    LearnedSerial(cfg, s, s', p, a, []);
    LearnedLocked(cfg, s, s', p, a, []);
  }

  lemma EmitLocked(cfg: Config, s: State, e: Event)
    requires LockInv(cfg, s)
    ensures LockInv(cfg, Emit(s, e))
  {
    assert LockViewOf(Emit(s, e)) == LockViewOf(s);
  }

  // Progress from one program point to the next, for a process alone.

  lemma StartProgress(cfg: Config, base: Option<ContainerState>, x: Process, a: Answers, c: nat)
    requires Progress(cfg, base, x, a)
    ensures x.pc.AtPrestart? ==> Progress(cfg, base, x.(pc := AtDial), a.(hooks := true))
    ensures x.pc.AtDial? ==> Progress(cfg, base, x.(pc := AtSendStart, conn := Some(c)), a.(dialled := true))
    ensures x.pc.AtSendStart? ==>
              && Progress(cfg, base, x.(pc := AtSaveStopped), a.(sent := true))
              && Progress(cfg, base, x.(pc := AtRecvExecReady), a.(sent := true))
    ensures x.pc.AtRecvExecReady? ==>
              Progress(cfg, base, x.(pc := AtSaveRunning), a.(got := a.got + [MsgExecReady]))
  {
    assert [] + [MsgExecReady] == [MsgExecReady];
  }

  lemma CreateProgress(cfg: Config, base: Option<ContainerState>, x: Process, a: Answers, pid: nat)
    requires Progress(cfg, base, x, a)
    ensures x.pc.AtFork? ==> Progress(cfg, base, x.(pc := AtRecvPrePivot, mem := x.mem.(pid := pid)), a.(pid := pid))
    ensures x.pc.AtRecvPrePivot? ==> Progress(cfg, base, x.(pc := AtCreateRuntime), a.(got := a.got + [MsgPrePivot]))
    ensures x.pc.AtCreateRuntime? ==> Progress(cfg, base, x.(pc := AtRecvReady), a.(hooks := true))
    ensures x.pc.AtRecvReady? ==>
              && a.got == [MsgPrePivot]
              && Progress(cfg, base, x.(pc := AtSaveCreated), a.(got := a.got + [MsgReady]))
  {
    assert [] + [MsgPrePivot] == [MsgPrePivot];
    assert [MsgPrePivot] + [MsgReady] == [MsgPrePivot, MsgReady];
  }

  lemma OtherProgress(cfg: Config, base: Option<ContainerState>, x: Process, a: Answers)
    requires Progress(cfg, base, x, a)
    ensures x.pc.AtCgroup? ==> Progress(cfg, base, x.(pc := AtSaveToggled), a.(acted := true))
    ensures x.pc.AtProbe? && x.mem.pid != 0 ==>
              Progress(cfg, base, x.(pc := AtSaveDead, mem := x.mem.(status := Stopped)), a.(dead := true))
    ensures x.pc.AtProbe? ==> Progress(cfg, base, x.(pc := AtGuard), a)
  {}

  lemma ForkLocked(cfg: Config, s: State, p: ProcId, pid: nat)
    requires LockInv(cfg, s) && Inv(cfg, s) && CanFork(s, p, pid)
    ensures LockInv(cfg, DoFork(s, p, pid))
  {
    hide Inv, LockInv, Progress, BaseOf;
    HolderFacts(cfg, s, p);
    CreateProgress(cfg, BaseOf(cfg, s, p), s.procs[p], AnswersOf(s, p), pid);
    SilentLearn(cfg, s, DoFork(s, p, pid), p, AnswersOf(s, p).(pid := pid));
  }

  lemma DialLocked(cfg: Config, s: State, p: ProcId)
    requires LockInv(cfg, s) && Inv(cfg, s) && CanDial(s, p)
    ensures LockInv(cfg, DoDial(s, p))
  {
    hide Inv, LockInv, Progress, BaseOf;
    HolderFacts(cfg, s, p);
    StartProgress(cfg, BaseOf(cfg, s, p), s.procs[p], AnswersOf(s, p), |s.conns|);
    SilentLearn(cfg, s, DoDial(s, p), p, AnswersOf(s, p).(dialled := true));
  }

  lemma SendStartLocked(cfg: Config, s: State, p: ProcId)
    requires LockInv(cfg, s) && Inv(cfg, s) && CanSendStart(s, p)
    ensures LockInv(cfg, DoSendStart(cfg, s, p))
  {
    hide Inv, LockInv, Progress, BaseOf;
    HolderFacts(cfg, s, p);
    StartProgress(cfg, BaseOf(cfg, s, p), s.procs[p], AnswersOf(s, p), 0);
    SilentLearn(cfg, s, DoSendStart(cfg, s, p), p, AnswersOf(s, p).(sent := true));
  }

  lemma CgroupLocked(cfg: Config, s: State, p: ProcId)
    requires LockInv(cfg, s) && Inv(cfg, s) && CanCgroup(s, p)
    ensures LockInv(cfg, DoCgroup(s, p))
  {
    hide Inv, LockInv, Progress, BaseOf;
    HolderFacts(cfg, s, p);
    OtherProgress(cfg, BaseOf(cfg, s, p), s.procs[p], AnswersOf(s, p));
    SilentLearn(cfg, s, DoCgroup(s, p), p, AnswersOf(s, p).(acted := true));
  }

  lemma StartReceiveLocked(cfg: Config, s: State, p: ProcId)
    requires LockInv(cfg, s) && Inv(cfg, s) && CanReceiveExecReady(s, p)
    ensures LockInv(cfg, DoReceiveExecReady(s, p))
  {
    hide Inv, LockInv, Progress, BaseOf, ProcOk;
    HolderFacts(cfg, s, p);
    StartHears(cfg, s, p);
    StartProgress(cfg, BaseOf(cfg, s, p), s.procs[p], AnswersOf(s, p), 0);
    SilentLearn(cfg, s, DoReceiveExecReady(s, p), p, AnswersOf(s, p).(got := AnswersOf(s, p).got + [MsgExecReady]));
  }

  lemma LockSerial(cfg: Config, s: State)
    requires LockInv(cfg, s)
    ensures SerialOk(cfg, s)
  {}

  /** MsgInvalidExecutable adds nothing to what a create has done. */
  lemma InvalidEffect(cfg: Config, base: Option<ContainerState>, x: Process, a: Answers)
    requires Progress(cfg, base, x, a) && x.pc.AtRecvReady?
    ensures x.kind.Create?
    ensures OperationEffect(cfg, x.kind, base, a) == Effect([NewState(cfg)], false)
    ensures OperationEffect(cfg, x.kind, base, a.(got := a.got + [MsgInvalidExecutable]))
         == Effect([NewState(cfg)], false)
  {
    assert [MsgPrePivot] + [MsgInvalidExecutable] == [MsgPrePivot, MsgInvalidExecutable];
  }

  lemma InvalidEnds(cfg: Config, s: State, s': State, p: ProcId)
    requires LockInv(cfg, s) && Inv(cfg, s) && At(s, p, AtRecvReady)
    requires Learns(cfg, s, s', p, AnswersOf(s, p).(got := AnswersOf(s, p).got + [MsgInvalidExecutable]), [])
    requires s'.procs[p].pc.Ended?
    ensures LockInv(cfg, s')
  {
    hide Inv, LockInv, Progress, BaseOf, OperationEffect, SerialOk;
    var a := AnswersOf(s, p).(got := AnswersOf(s, p).got + [MsgInvalidExecutable]);
    HolderFacts(cfg, s, p);
    InvalidEffect(cfg, BaseOf(cfg, s, p), s.procs[p], AnswersOf(s, p));
    LockSerial(cfg, s);
    assert [NewState(cfg)] + [] == [NewState(cfg)];
    LearnedSerial(cfg, s, s', p, a, []);
    LearnedLocked(cfg, s, s', p, a, []);
  }

  lemma PrePivotLocked(cfg: Config, s: State, p: ProcId)
    requires LockInv(cfg, s) && Inv(cfg, s) && CanReceiveInit(s, p) && At(s, p, AtRecvPrePivot)
    ensures LockInv(cfg, DoReceiveInit(s, p))
  {
    hide Inv, LockInv, Progress, BaseOf, Finish, CloseConnection;
    HolderFacts(cfg, s, p);
    InitHears(cfg, s, p);
    CreateProgress(cfg, BaseOf(cfg, s, p), s.procs[p], AnswersOf(s, p), 0);
    SilentLearn(cfg, s, DoReceiveInit(s, p), p, AnswersOf(s, p).(got := AnswersOf(s, p).got + [MsgPrePivot]));
  }

  lemma ReadyLocked(cfg: Config, s: State, p: ProcId)
    requires LockInv(cfg, s) && Inv(cfg, s) && CanReceiveInit(s, p) && At(s, p, AtRecvReady)
    requires s.initChan[s.initRead] == MsgReady
    ensures LockInv(cfg, DoReceiveInit(s, p))
  {
    hide Inv, LockInv, Progress, BaseOf, Finish, CloseConnection;
    HolderFacts(cfg, s, p);
    CreateProgress(cfg, BaseOf(cfg, s, p), s.procs[p], AnswersOf(s, p), 0);
    SilentLearn(cfg, s, DoReceiveInit(s, p), p, AnswersOf(s, p).(got := AnswersOf(s, p).got + [MsgReady]));
  }

  lemma InvalidLocked(cfg: Config, s: State, p: ProcId)
    requires LockInv(cfg, s) && Inv(cfg, s) && CanReceiveInit(s, p) && At(s, p, AtRecvReady)
    requires s.initChan[s.initRead] == MsgInvalidExecutable
    ensures LockInv(cfg, DoReceiveInit(s, p))
  {
    hide Inv, LockInv, Progress, BaseOf;
    HolderFacts(cfg, s, p);
    InvalidEnds(cfg, s, DoReceiveInit(s, p), p);
  }

  lemma InitReceiveLocked(cfg: Config, s: State, p: ProcId)
    requires LockInv(cfg, s) && Inv(cfg, s) && CanReceiveInit(s, p)
    ensures LockInv(cfg, DoReceiveInit(s, p))
  {
    hide Inv, LockInv, DoReceiveInit;
    InitHears(cfg, s, p);
    if At(s, p, AtRecvPrePivot) {
      PrePivotLocked(cfg, s, p);
    } else if s.initChan[s.initRead] == MsgReady {
      ReadyLocked(cfg, s, p);
    } else {
      InvalidLocked(cfg, s, p);
    }
  }

  lemma CreateHooksPassLocked(cfg: Config, s: State, p: ProcId)
    requires LockInv(cfg, s) && Inv(cfg, s) && At(s, p, AtCreateRuntime)
    ensures LockInv(cfg, DoRunHooks(s, p, true))
  {
    hide Inv, LockInv, Progress, BaseOf, Finish;
    HolderFacts(cfg, s, p);
    CreateProgress(cfg, BaseOf(cfg, s, p), s.procs[p], AnswersOf(s, p), 0);
    SilentLearn(cfg, s, DoRunHooks(s, p, true), p, AnswersOf(s, p).(hooks := true));
  }

  lemma StartHooksPassLocked(cfg: Config, s: State, p: ProcId)
    requires LockInv(cfg, s) && Inv(cfg, s) && At(s, p, AtPrestart)
    ensures LockInv(cfg, DoRunHooks(s, p, true))
  {
    hide Inv, LockInv, Progress, BaseOf, Finish;
    HolderFacts(cfg, s, p);
    StartProgress(cfg, BaseOf(cfg, s, p), s.procs[p], AnswersOf(s, p), 0);
    SilentLearn(cfg, s, DoRunHooks(s, p, true), p, AnswersOf(s, p).(hooks := true));
  }

  lemma RunHooksLocked(cfg: Config, s: State, p: ProcId, ok: bool)
    requires LockInv(cfg, s) && Inv(cfg, s) && CanRunHooks(s, p)
    ensures LockInv(cfg, DoRunHooks(s, p, ok))
  {
    hide Inv, LockInv, Finish;
    var x := s.procs[p];
    if x.pc.AtPoststop? || x.pc.AtPoststart? || !ok {
      var s1 := Emit(s, Hooks(p, HookPhaseAt(x.pc), ok));
      EmitLocked(cfg, s, Hooks(p, HookPhaseAt(x.pc), ok));
      EmitKeeps(cfg, s, Hooks(p, HookPhaseAt(x.pc), ok));
      FinishLocked(cfg, s1, p, Succeeded);
      FinishLocked(cfg, s1, p, Failed);
    } else if x.pc.AtCreateRuntime? {
      CreateHooksPassLocked(cfg, s, p);
    } else {
      StartHooksPassLocked(cfg, s, p);
    }
  }

  /** Keeping the section as it is while moving on. */
  lemma ProgressLocked(cfg: Config, v: LockView, p: ProcId, x: Process, x': Process)
    requires Locked(cfg, v, p, x) && Critical(x.pc) && !v.gone
    requires x' == x.(pc := x'.pc, mem := x'.mem) && Critical(x'.pc) && !x'.pc.AtPoststop?
    requires Progress(cfg, SerialDisk(cfg, v.sections[..x.section]), x', v.sections[x.section].answers)
    ensures Locked(cfg, v, p, x')
  {
    hide Progress, SerialDisk;
  }

  lemma ProbeLocked(cfg: Config, s: State, p: ProcId, dead: bool)
    requires LockInv(cfg, s) && Inv(cfg, s) && CanProbe(s, p, dead)
    ensures LockInv(cfg, DoProbe(s, p, dead))
  {
    hide Inv, LockInv, Progress, Locked, SerialDisk;
    var x := s.procs[p];
    HolderFacts(cfg, s, p);
    OtherProgress(cfg, BaseOf(cfg, s, p), x, AnswersOf(s, p));
    if dead {
      hide BaseOf;
      SilentLearn(cfg, s, DoProbe(s, p, dead), p, AnswersOf(s, p).(dead := true));
    } else if x.kind.Delete? {
      LockedOf(cfg, s, p);
      ProgressLocked(cfg, LockViewOf(s), p, x, x.(pc := AtGuard));
      QuietLocked(cfg, s, DoProbe(s, p, dead), p);
    } else {
      FinishLocked(cfg, s, p, Succeeded);
    }
  }

  // ---- saving -------------------------------------------------------------

  function Added(x: Process, r: SaveResult): seq<ContainerState> {
    if r.Lost? then [] else [ToSave(x)]
  }

  /** A save adds exactly what it wrote to the effect, and leads on as it should. */
  lemma OperationSaveEffect(cfg: Config, v: View, p: ProcId, base: Option<ContainerState>, x: Process, a: Answers,
                            r: SaveResult)
    requires Progress(cfg, base, x, a) && OperationOk(cfg, v, p, x) && !x.kind.Create?
    requires AtSave(x.pc) && !r.NotReached? && !r.PidFileLost?
    ensures var a' := SaveAnswers(x, a, r);
            && OperationEffect(cfg, x.kind, base, a) == NoEffect
            && OperationEffect(cfg, x.kind, base, a') == Effect(Added(x, r), false)
            && (!NextAfterSave(x, r).Ended? ==> Progress(cfg, base, x.(pc := NextAfterSave(x, r)), a'))
  {
    hide ConnOk, Known;
  }

  lemma CreateSaveEffect(cfg: Config, v: View, p: ProcId, base: Option<ContainerState>, x: Process, a: Answers,
                         r: SaveResult)
    requires Progress(cfg, base, x, a) && CreateOk(cfg, v, p, x) && x.kind.Create?
    requires AtSave(x.pc) && !r.NotReached? && (r.PidFileLost? ==> x.pc.AtSaveCreated?)
    ensures var a', e := SaveAnswers(x, a, r), OperationEffect(cfg, x.kind, base, a);
            && !e.removes
            && OperationEffect(cfg, x.kind, base, a') == Effect(e.writes + Added(x, r), false)
            && (!NextAfterSave(x, r).Ended? ==> Progress(cfg, base, x.(pc := NextAfterSave(x, r)), a'))
  {}

  lemma SaveEffect(cfg: Config, s: State, p: ProcId, r: SaveResult)
    requires LockInv(cfg, s) && Inv(cfg, s) && CanSave(s, p, r)
    ensures !Gone(s) && s.sections != [] && s.procs[p].section == |s.sections| - 1
    ensures var x, base, a := s.procs[p], BaseOf(cfg, s, p), AnswersOf(s, p);
            var a', e := SaveAnswers(x, a, r), OperationEffect(cfg, x.kind, base, a);
            && s.sections[x.section].kind == x.kind && a == s.sections[x.section].answers
            && !e.removes
            && OperationEffect(cfg, x.kind, base, a') == Effect(e.writes + Added(x, r), false)
            && (!NextAfterSave(x, r).Ended? ==> Progress(cfg, base, x.(pc := NextAfterSave(x, r)), a'))
            && (!x.kind.Create? ==> s.disk == base)
  {
    var x, base, a := s.procs[p], BaseOf(cfg, s, p), AnswersOf(s, p);
    HolderFacts(cfg, s, p);
    FactsOf(cfg, s, p);
    LockSerial(cfg, s);
    hide Inv, LockInv, Progress, OperationOk, CreateOk, OperationEffect, Added, NextAfterSave, SaveAnswers;
    if x.kind.Create? {
      hide SerialOk, BaseOf;
      CreateSaveEffect(cfg, ViewOf(s), p, base, x, a, r);
    } else {
      assert !r.PidFileLost? by { AtSaveOfOperation(cfg, s, p); }
      OperationSaveEffect(cfg, ViewOf(s), p, base, x, a, r);
      assert [] + Added(x, r) == Added(x, r);
      NothingWrittenYet(cfg, s.sections);
    }
  }

  /** A last section that has written nothing leaves its base on disk. */
  lemma NothingWrittenYet(cfg: Config, sections: seq<Section>)
    requires sections != []
    ensures var n := |sections| - 1;
            var before := SerialDisk(cfg, sections[..n]);
            var e := OperationEffect(cfg, sections[n].kind, before, sections[n].answers);
            e == NoEffect ==> SerialDisk(cfg, sections) == before
  {
    hide OperationEffect;
  }

  lemma AtSaveOfOperation(cfg: Config, s: State, p: ProcId)
    requires Inv(cfg, s) && p in s.procs && !s.procs[p].kind.Create?
    ensures !AtSaveCreatePC(s.procs[p].pc)
  {
    FactsOf(cfg, s, p);
  }

  /** The status only moves along the path. */
  lemma OperationSaveLegal(cfg: Config, v: View, p: ProcId, st: ContainerState, x: Process, a: Answers)
    requires Progress(cfg, Some(st), x, a) && OperationOk(cfg, v, p, x) && !x.kind.Create? && AtSave(x.pc)
    requires Known(cfg, v, st)
    ensures LegalMove(st, ToSave(x))
  {
    hide ConnOk;
  }

  lemma CreateSaveLegal(cfg: Config, v: View, p: ProcId, x: Process)
    requires CreateOk(cfg, v, p, x) && AtSave(x.pc) && SavesOk(cfg, v)
    ensures if v.saves == [] then ToSave(x) == NewState(cfg) else LegalMove(v.saves[|v.saves| - 1], ToSave(x))
  {}

  lemma SaveLegal(cfg: Config, s: State, p: ProcId, r: SaveResult)
    requires LockInv(cfg, s) && Inv(cfg, s) && CanSave(s, p, r)
    ensures var st := ToSave(s.procs[p]);
            if s.saves == [] then st == NewState(cfg) else LegalMove(s.saves[|s.saves| - 1], st)
  {
    var x := s.procs[p];
    FactsOf(cfg, s, p);
    hide CreateOk, OperationOk, ToSave, LegalMove, ProcsOk, SharedOk, ConnsOk, LockInv, Progress;
    if x.kind.Create? {
      CreateSaveLegal(cfg, ViewOf(s), p, x);
    } else {
      hide Inv;
      SaveEffect(cfg, s, p, r);
      HolderFacts(cfg, s, p);
      assert s.saves != [] by { OperationHasLoaded(cfg, s, p); }
      DiskWhileHeld(cfg, s);
      OperationSaveLegal(cfg, ViewOf(s), p, s.disk.value, x, AnswersOf(s, p));
    }
  }

  lemma OperationHasLoaded(cfg: Config, s: State, p: ProcId)
    requires Inv(cfg, s) && p in s.procs && !s.procs[p].kind.Create?
    requires !s.procs[p].pc.AtLoad? && !s.procs[p].pc.Ended?
    ensures s.saves != []
  {
    FactsOf(cfg, s, p);
  }

  lemma DiskWhileHeld(cfg: Config, s: State)
    requires Inv(cfg, s) && !Gone(s) && s.saves != []
    ensures s.disk == Some(s.saves[|s.saves| - 1]) && Known(cfg, ViewOf(s), s.disk.value)
    ensures |s.saves| == 1 ==> s.disk.value == NewState(cfg)
  {
    DiskIsKnown(cfg, s);
  }

  lemma SaveLearns(s: State, cfg: Config, p: ProcId, r: SaveResult)
    requires CanSave(s, p, r) && s.procs[p].section < |s.sections|
    ensures Learns(cfg, s, DoSave(s, p, r), p, SaveAnswers(s.procs[p], AnswersOf(s, p), r), Added(s.procs[p], r))
    ensures DoSave(s, p, r).procs[p].pc == NextAfterSave(s.procs[p], r)
    ensures !NextAfterSave(s.procs[p], r).Ended? ==>
              DoSave(s, p, r).procs[p] == s.procs[p].(pc := NextAfterSave(s.procs[p], r))
  {
    hide ToSave, SaveAnswers;
  }

  lemma SaveLocked(cfg: Config, s: State, p: ProcId, r: SaveResult)
    requires LockInv(cfg, s) && Inv(cfg, s) && CanSave(s, p, r)
    ensures LockInv(cfg, DoSave(s, p, r))
  {
    hide Inv, LockInv, Progress, BaseOf, OperationEffect, SerialOk, DoSave, LegalMove, SaveAnswers, ToSave;
    var a := SaveAnswers(s.procs[p], AnswersOf(s, p), r);
    SaveEffect(cfg, s, p, r);
    SaveLegal(cfg, s, p, r);
    SaveLearns(s, cfg, p, r);
    LockSerial(cfg, s);
    LearnedSerial(cfg, s, DoSave(s, p, r), p, a, Added(s.procs[p], r));
    LearnedLocked(cfg, s, DoSave(s, p, r), p, a, Added(s.procs[p], r));
  }

  // ---- the removal --------------------------------------------------------

  lemma RemovalEffect(cfg: Config, base: Option<ContainerState>, x: Process, a: Answers)
    requires Progress(cfg, base, x, a) && x.kind.Delete? && x.pc.AtRemove?
    ensures OperationEffect(cfg, x.kind, base, a.(unlinked := true))
         == Effect(OperationEffect(cfg, x.kind, base, a).writes, true)
  {}

  /** The section of a Delete that has unlinked state.json. */
  lemma RemovalSerial(cfg: Config, sections: seq<Section>, x: Process, a: Answers)
    requires sections != [] && x.kind.Delete? && x.pc.AtRemove?
    requires var n := |sections| - 1;
             && sections[n].kind == x.kind && sections[n].answers == a
             && Progress(cfg, SerialDisk(cfg, sections[..n]), x, a)
    ensures var n := |sections| - 1;
            var r := sections[n := sections[n].(answers := a.(unlinked := true))];
            SerialDisk(cfg, r) == None && SerialSaves(cfg, r) == SerialSaves(cfg, sections)
  {
    var n := |sections| - 1;
    hide Progress, OperationEffect;
    RemovalEffect(cfg, SerialDisk(cfg, sections[..n]), x, a);
    ReplaceLast(cfg, sections, a.(unlinked := true));
    ReplaceLast(cfg, sections, a);
    assert sections[n := sections[n].(answers := a)] == sections;
    hide SerialDisk, SerialSaves;
  }

  lemma RemoverFacts(cfg: Config, s: State, p: ProcId)
    requires LockInv(cfg, s) && Inv(cfg, s) && CanUnlinkState(s, p)
    ensures s.procs[p].kind.Delete? && !Gone(s) && s.saves != []
    ensures s.sections != [] && s.procs[p].section == |s.sections| - 1
    ensures var k := s.procs[p].section;
            && s.sections[k].kind == s.procs[p].kind && AnswersOf(s, p) == s.sections[k].answers
            && Progress(cfg, BaseOf(cfg, s, p), s.procs[p], AnswersOf(s, p))
  {
    LockedOf(cfg, s, p);
    OperationFacts(cfg, s, p);
    hide Progress, SerialDisk, Known;
  }

  lemma UnlinkStateLocked(cfg: Config, s: State, p: ProcId)
    requires LockInv(cfg, s) && Inv(cfg, s) && CanUnlinkState(s, p)
    ensures LockInv(cfg, DoUnlinkState(s, p))
  {
    hide Progress;
    var s' := DoUnlinkState(s, p);
    RemoverFacts(cfg, s, p);
    LockedOf(cfg, s, p);
    RemovalSerial(cfg, s.sections, s.procs[p], AnswersOf(s, p));
    hide Inv, SerialDisk, SerialSaves, AllLocked, LegalHistory;
    assert SerialOk(cfg, s');
    hide SerialOk;
    assert s'.procs == s.procs[p := s'.procs[p]];
    MoveLocked(cfg, s, s', p);
  }

  /** The unlink of c.lock by itself harms nothing, before or after state.json. */
  lemma UnlinkLockLocked(cfg: Config, s: State, p: ProcId)
    requires LockInv(cfg, s) && Inv(cfg, s) && CanUnlinkLock(cfg, s, p)
    ensures LockInv(cfg, s.(lockPath := None))
  {
    OperationHasLoaded(cfg, s, p) by { OperationFacts(cfg, s, p); }
    hide Inv, AllLocked, SerialOk;
    var s' := s.(lockPath := None);
    assert LockViewOf(s') == LockViewOf(s);
    SerialSame(cfg, s, s');
  }

  lemma RmdirLocked(cfg: Config, s: State, p: ProcId)
    requires LockInv(cfg, s) && Inv(cfg, s) && CanRmdir(s, p)
    ensures LockInv(cfg, DoRmdir(s, p))
  {
    OperationHasLoaded(cfg, s, p) by { OperationFacts(cfg, s, p); }
    LockedOf(cfg, s, p);
    OperationFacts(cfg, s, p);
    hide Inv, LockInv, OperationOk;
    QuietLocked(cfg, s, DoRmdir(s, p), p);
  }

  // ---- every run ----------------------------------------------------------

  lemma SpawnLocked(cfg: Config, s: State, p: ProcId, k: Kind)
    requires LockInv(cfg, s) && p !in s.procs
    ensures LockInv(cfg, DoSpawn(cfg, s, p, k))
  {
    var s' := DoSpawn(cfg, s, p, k);
    assert LockViewOf(s') == LockViewOf(s);
    assert Locked(cfg, LockViewOf(s), p, s'.procs[p]);
    hide Locked;
    assert AllLocked(cfg, LockViewOf(s'), s'.procs);
  }

  lemma ChildLocked(cfg: Config, s: State, step: Step)
    requires LockInv(cfg, s) && ChildEnabled(cfg, s, step)
    ensures LockInv(cfg, DoChild(cfg, s, step))
  {
    hide MoveOf, Locked, Answered;
    assert LockViewOf(DoChild(cfg, s, step)) == LockViewOf(s);
  }

  lemma StepLocked(cfg: Config, s: State, step: Step)
    requires LockInv(cfg, s) && Inv(cfg, s) && Enabled(cfg, s, step) && !Remakes(s, step)
    ensures LockInv(cfg, Do(cfg, s, step))
  {
    hide Inv, LockInv;
    hide CanSave, CanReceiveInit, CanReceiveExecReady, CanRunHooks, CanCheck, CanProbe, CanRmdir, CanUnlinkState;
    hide DoSpawn, DoMkdir, DoLoad, DoOpenLock, DoFlock, DoReload, DoCheck, DoSave, DoFork, DoReceiveInit;
    hide DoReceiveExecReady, DoRunHooks, DoDial, DoSendStart, DoCgroup, DoProbe, DoUnlinkState, DoRmdir, DoChild;
    hide Finish;
    match step
    case Spawn(p, k) => SpawnLocked(cfg, s, p, k);
    case Mkdir(p) => MkdirLocked(cfg, s, p);
    case Load(p) => LoadLocked(cfg, s, p);
    case OpenLock(p) => OpenLockLocked(cfg, s, p);
    case Flock(p) => FlockLocked(cfg, s, p);
    case Reload(p) => ReloadLocked(cfg, s, p);
    case Check(p) => CheckLocked(cfg, s, p);
    case Save(p, r) => SaveLocked(cfg, s, p, r);
    case Fork(p, pid) => ForkLocked(cfg, s, p, pid);
    case Receive(p) =>
      if CanReceiveInit(s, p) { InitReceiveLocked(cfg, s, p); } else { StartReceiveLocked(cfg, s, p); }
    case RunHooks(p, ok) => RunHooksLocked(cfg, s, p, ok);
    case Dial(p) => DialLocked(cfg, s, p);
    case SendStart(p) => SendStartLocked(cfg, s, p);
    case Cgroup(p) => CgroupLocked(cfg, s, p);
    case Signal(p) => FinishLocked(cfg, s, p, Succeeded);
    case Probe(p, dead) => ProbeLocked(cfg, s, p, dead);
    case UnlinkState(p) => UnlinkStateLocked(cfg, s, p);
    case UnlinkLock(p) => UnlinkLockLocked(cfg, s, p);
    case Rmdir(p) => RmdirLocked(cfg, s, p);
    case Quit(p) => FinishLocked(cfg, s, p, Failed);
    case _ => ChildLocked(cfg, s, step);
  }

  /** The run never makes c.lock anew while state.json is there. */
  predicate LockKept(cfg: Config, s: State, steps: seq<Step>)
    requires Runs(cfg, s, steps)
    decreases |steps|
  {
    steps == [] || (!Remakes(s, steps[0]) && LockKept(cfg, Do(cfg, s, steps[0]), steps[1..]))
  }

  lemma {:induction false} RunLocked(cfg: Config, s: State, steps: seq<Step>)
    requires LockInv(cfg, s) && Inv(cfg, s) && Runs(cfg, s, steps) && LockKept(cfg, s, steps)
    ensures LockInv(cfg, Run(cfg, s, steps)) && Inv(cfg, Run(cfg, s, steps))
    decreases |steps|
  {
    hide Inv, LockInv;
    if steps != [] {
      StepKeeps(cfg, s, steps[0]);
      StepLocked(cfg, s, steps[0]);
      RunLocked(cfg, Do(cfg, s, steps[0]), steps[1..]);
    }
  }

  lemma ReachableLocked(cfg: Config, steps: seq<Step>)
    requires Runs(cfg, InitialState(cfg), steps) && LockKept(cfg, InitialState(cfg), steps)
    ensures LockInv(cfg, Run(cfg, InitialState(cfg), steps)) && Inv(cfg, Run(cfg, InitialState(cfg), steps))
  {
    RunLocked(cfg, InitialState(cfg), steps);
  }
}
