/**
 The lifecycle operations as the program runs them, one system call after another on
 the container object and its directory, each proved against its atomic effect; and
 the sequential replay that every interleaved run is equal to.
 */
module Container {
  import opened Wrappers
  import opened Lifecycle
  import opened Protocol
  import opened Locking

  /** The container directory: state.json and the flock on c.lock. */
  class Directory {
    var disk: Option<ContainerState>
    var saves: seq<ContainerState>
    var locked: bool

    constructor ()
      ensures disk == None && saves == [] && !locked
    {
      disk, saves, locked := None, [], false;
    }
  }

  /** The effect of an operation whose memory was mem before the reload. */
  function EffectFrom(cfg: Config, kind: Kind, disk: Option<ContainerState>, mem: ContainerState, w: Answers): Effect {
    if kind.Create? then CreateEffect(cfg, w)
    else if disk.None? then NoEffect
    else ReloadedEffect(cfg, kind, Unmarshal(Marshal(disk.value), mem), w)
  }

  /** It is the atomic effect whenever the merge of the reload loses nothing. */
  lemma EffectFromIsAtomic(cfg: Config, kind: Kind, disk: Option<ContainerState>, mem: ContainerState, w: Answers)
    requires disk.Some? && disk.value.pid == 0 ==> mem.pid == 0
    requires disk.Some? ==> mem.annotations.Keys <= disk.value.annotations.Keys
    ensures EffectFrom(cfg, kind, disk, mem, w) == OperationEffect(cfg, kind, disk, w)
  {
    if disk.Some? {
      ReloadExact(disk.value, mem);
    }
  }

  /** The directory is what the effect makes of what it was. */
  ghost predicate Did(dir: Directory, disk: Option<ContainerState>, saves: seq<ContainerState>, e: Effect)
    reads dir
  {
    dir.disk == After(disk, e) && dir.saves == saves + e.writes && !dir.locked
  }

  /** What kill(2) answers. */
  datatype SignalAnswer = Delivered | NoSuchProcess | OtherError

  /** The parts of a delete after its status check, each of which may go wrong without
      stopping it, and the removal of the directory. */
  datatype Act = CgroupDeleted | DirectoryRemoved | SocketRemoved | PoststopRun

  /** Nothing is done twice; the cgroup goes first, the directory before the socket, and
      the poststop hooks run after all of them. */
  predicate InOrder(acts: seq<Act>) {
    && (forall i, j :: 0 <= i < j < |acts| ==> acts[i] != acts[j])
    && (forall i :: 0 <= i < |acts| && !acts[i].CgroupDeleted? ==> CgroupDeleted in acts[..i])
    && (forall i :: 0 <= i < |acts| && acts[i].SocketRemoved? ==> DirectoryRemoved in acts[..i])
    && (forall i :: 0 <= i < |acts| && acts[i].PoststopRun? ==> SocketRemoved in acts[..i])
  }

  lemma RemovalInOrder()
    ensures InOrder([]) && InOrder([CgroupDeleted])
    ensures InOrder([CgroupDeleted] + [DirectoryRemoved, SocketRemoved, PoststopRun])
  {
    var acts := [CgroupDeleted] + [DirectoryRemoved, SocketRemoved, PoststopRun];
    assert acts[..1] == [acts[0]] && acts[..2] == acts[..1] + [acts[1]] && acts[..3] == acts[..2] + [acts[2]];
  }

  /** The status that an operation finds when it gets the lock and the state. */
  predicate Finds(locked: bool, disk: Option<ContainerState>, status: Status) {
    !locked && disk.Some? && disk.value.status == status
  }

  predicate GetsIn(locked: bool, disk: Option<ContainerState>) { !locked && disk.Some? }

  /** Signals in turn, up to the first error other than a missing process. */
  predicate SignalsInTurn(pids: seq<nat>, answer: nat -> SignalAnswer, signalled: seq<nat>) {
    && signalled <= pids
    && (forall i :: 0 <= i < |signalled| - 1 ==> !answer(signalled[i]).OtherError?)
    && (|signalled| < |pids| ==> signalled != [] && answer(signalled[|signalled| - 1]).OtherError?)
  }

  /** What init answers a child that reports a missing executable. */
  predicate FindsNoExecutable(w: Answers) {
    w.save1.Done? && w.pid != 0 && Heard(w, 0, MsgPrePivot) && w.hooks && Heard(w, 1, MsgInvalidExecutable)
  }

  /** A message that init does not wait for. */
  predicate InitMishears(w: Answers) {
    && w.save1.Done? && w.pid != 0 && w.got != []
    && if w.got[0] != MsgPrePivot then true
       else w.hooks && |w.got| > 1 && w.got[1] != MsgReady && w.got[1] != MsgInvalidExecutable
  }

  /** A message that start does not wait for. */
  predicate StartMishears(cfg: Config, w: Answers) {
    w.hooks && w.dialled && w.sent && !cfg.processNil && w.got != [] && w.got[0] != MsgExecReady
  }

  class Container {
    const cfg: Config
    const dir: Directory
    var state: ContainerState
    var hasLock: bool

    /** New. */
    constructor (cfg: Config, dir: Directory)
      ensures this.cfg == cfg && this.dir == dir && state == NewState(cfg) && !hasLock
    {
      this.cfg, this.dir := cfg, dir;
      state, hasLock := NewState(cfg), false;
    }

    /** Load, which reads state.json without the lock. */
    constructor Load(cfg: Config, dir: Directory)
      requires dir.disk.Some?
      ensures this.cfg == cfg && this.dir == dir && Some(state) == dir.disk && !hasLock
    {
      this.cfg, this.dir := cfg, dir;
      state, hasLock := dir.disk.value, false;
    }

    method Lock() returns (ok: bool)
      modifies this`hasLock, dir`locked
      ensures ok == !old(dir.locked) && dir.locked
      ensures hasLock == (ok || old(hasLock))
    {
      ok := !dir.locked;
      if ok {
        dir.locked, hasLock := true, true;
      }
    }

    method Unlock()
      modifies this`hasLock, dir`locked
      ensures !hasLock && dir.locked == (old(dir.locked) && !old(hasLock))
    {
      if hasLock {
        dir.locked, hasLock := false, false;
      }
    }

    method Save(fate: SaveResult) returns (ok: bool)
      modifies dir`disk, dir`saves
      ensures ok == fate.Done?
      ensures dir.saves == old(dir.saves) + Writes(state, fate)
      ensures dir.disk == After(old(dir.disk), Effect(Writes(state, fate), false))
    {
      if fate.Done? || fate.PidFileLost? {
        dir.disk, dir.saves := Some(state), dir.saves + [state];
      }
      ok := fate.Done?;
    }

    method ReloadState() returns (ok: bool)
      modifies this`state
      ensures ok == dir.disk.Some?
      ensures state == if ok then Unmarshal(Marshal(dir.disk.value), old(state)) else old(state)
    {
      if dir.disk.None? {
        return false;
      }
      state := Unmarshal(Marshal(dir.disk.value), state);
      ok := true;
    }

    /** Lock and reload, which every operation but create begins with. */
    method Enter() returns (r: Outcome)
      requires !hasLock
      modifies this`state, this`hasLock, dir`locked
      ensures r == if old(dir.locked) then OperationInProgress else if dir.disk.None? then Failed else Pending
      ensures r.Pending? ==> hasLock && dir.locked && state == Unmarshal(Marshal(dir.disk.value), old(state))
      ensures !r.Pending? ==> !hasLock && dir.locked == old(dir.locked) && state == old(state)
    {
      var ok := Lock();
      if !ok {
        return OperationInProgress;
      }
      ok := ReloadState();
      if !ok {
        Unlock();
        return Failed;
      }
      r := Pending;
    }

    method Init(w: Answers) returns (r: Outcome)
      requires !hasLock && state == NewState(cfg)
      modifies this, dir
      ensures !hasLock
      ensures r == OperationInProgress <==> old(dir.locked)
      ensures old(dir.locked) ==> unchanged(dir) && unchanged(this)
      ensures !old(dir.locked) ==>
                Did(dir, old(dir.disk), old(dir.saves), EffectFrom(cfg, Create, old(dir.disk), old(state), w))
      ensures r.Succeeded? <==> !old(dir.locked) && |CreateEffect(cfg, w).writes| == 2 && w.save2.Done?
      ensures r.InvalidExecutable? <==> !old(dir.locked) && FindsNoExecutable(w)
      ensures r.UnexpectedMessage? <==> !old(dir.locked) && InitMishears(w)
      ensures !(r.Pending? || r.Refused? || r.AlreadyExists? || r.NoSuchContainer?)
      ensures r.Succeeded? ==> Some(state) == dir.disk && state == NewState(cfg).(pid := w.pid, status := Created)
    {
      var ok := Lock();
      if !ok {
        return OperationInProgress;
      }
      r := InitLocked(w);
      Unlock();
    }

    method InitLocked(w: Answers) returns (r: Outcome)
      requires hasLock && dir.locked && state == NewState(cfg)
      modifies this`state, dir`disk, dir`saves
      ensures r.Succeeded? || r.Failed? || r.InvalidExecutable? || r.UnexpectedMessage?
      ensures r.Succeeded? <==> |CreateEffect(cfg, w).writes| == 2 && w.save2.Done?
      ensures r.InvalidExecutable? <==> FindsNoExecutable(w)
      ensures r.UnexpectedMessage? <==> InitMishears(w)
      ensures dir.disk == After(old(dir.disk), CreateEffect(cfg, w))
      ensures dir.saves == old(dir.saves) + CreateEffect(cfg, w).writes
      ensures r.Succeeded? ==> Some(state) == dir.disk && state == NewState(cfg).(pid := w.pid, status := Created)
    {
      var ok := Save(w.save1);
      if !ok || w.pid == 0 {
        return Failed;
      }
      state := state.(pid := w.pid);
      if |w.got| < 1 {
        return Failed;
      }
      if w.got[0] != MsgPrePivot {
        return UnexpectedMessage;
      }
      if !w.hooks || |w.got| < 2 {
        return Failed;
      }
      match w.got[1] {
        case MsgInvalidExecutable => return InvalidExecutable;
        case MsgReady =>
        case _ => return UnexpectedMessage;
      }
      state := state.(status := Created);
      ok := Save(w.save2);
      r := if ok then Succeeded else Failed;
    }

    method Start(w: Answers) returns (r: Outcome)
      requires !hasLock
      modifies this, dir
      ensures !hasLock
      ensures r == OperationInProgress <==> old(dir.locked)
      ensures old(dir.locked) ==> unchanged(dir) && unchanged(this)
      ensures !old(dir.locked) ==>
                Did(dir, old(dir.disk), old(dir.saves), EffectFrom(cfg, Kind.Start, old(dir.disk), old(state), w))
      ensures r.Refused? <==> GetsIn(old(dir.locked), old(dir.disk)) && !Finds(old(dir.locked), old(dir.disk), Created)
      ensures r.UnexpectedMessage? <==> Finds(old(dir.locked), old(dir.disk), Created) && StartMishears(cfg, w)
      ensures !(r.Pending? || r.InvalidExecutable? || r.AlreadyExists? || r.NoSuchContainer?)
      ensures r.Succeeded? <==> !old(dir.locked) && w.save1.Done?
                                && EffectFrom(cfg, Kind.Start, old(dir.disk), old(state), w).writes != []
      ensures r.Succeeded? ==> Some(state) == dir.disk && state.status == if cfg.processNil then Stopped else Running
    {
      r := Enter();
      if r.Pending? {
        r := StartLocked(w);
        Unlock();
      }
    }

    method StartLocked(w: Answers) returns (r: Outcome)
      modifies this`state, dir`disk, dir`saves
      ensures r.Succeeded? || r.Failed? || r.Refused? || r.UnexpectedMessage?
      ensures r.Refused? <==> old(state).status != Created
      ensures r.UnexpectedMessage? <==> old(state).status == Created && StartMishears(cfg, w)
      ensures r.Succeeded? <==> w.save1.Done? && StartEffect(cfg, old(state), w).writes != []
      ensures dir.disk == After(old(dir.disk), StartEffect(cfg, old(state), w))
      ensures dir.saves == old(dir.saves) + StartEffect(cfg, old(state), w).writes
      ensures r.Succeeded? ==> Some(state) == dir.disk && state.status == if cfg.processNil then Stopped else Running
    {
      if !CanBeStarted(state) {
        return Refused;
      }
      if !w.hooks || !w.dialled || !w.sent {
        return Failed;
      }
      if cfg.processNil {
        state := state.(status := Stopped);
        var saved := Save(w.save1);
        return if saved then Succeeded else Failed;
      }
      if |w.got| < 1 {
        return Failed;
      }
      if w.got[0] != MsgExecReady {
        return UnexpectedMessage;
      }
      state := state.(status := Running);
      var ok := Save(w.save1);
      r := if ok then Succeeded else Failed;
    }

    /** Pause and Resume. */
    method Toggle(kind: Kind, w: Answers) returns (r: Outcome)
      requires !hasLock && (kind.Pause? || kind.Resume?)
      modifies this, dir
      ensures !hasLock
      ensures r == OperationInProgress <==> old(dir.locked)
      ensures old(dir.locked) ==> unchanged(dir) && unchanged(this)
      ensures !old(dir.locked) ==>
                Did(dir, old(dir.disk), old(dir.saves), EffectFrom(cfg, kind, old(dir.disk), old(state), w))
      ensures r.Refused? <==>
                && GetsIn(old(dir.locked), old(dir.disk))
                && !Finds(old(dir.locked), old(dir.disk), if kind.Pause? then Running else Paused)
      ensures r.Succeeded? || r.Failed? || r.Refused? || r.OperationInProgress?
      ensures r.Succeeded? <==> !old(dir.locked) && w.save1.Done?
                                && EffectFrom(cfg, kind, old(dir.disk), old(state), w).writes != []
      ensures r.Succeeded? ==> Some(state) == dir.disk && state.status == if kind.Pause? then Paused else Running
    {
      r := Enter();
      if !r.Pending? {
        return;
      }
      if !Guard(kind, state) {
        r := Refused;
      } else if !w.acted {
        r := Failed;
      } else {
        state := state.(status := if kind.Pause? then Paused else Running);
        var ok := Save(w.save1);
        r := if ok then Succeeded else Failed;
      }
      Unlock();
    }

    /** One signal after another; a process that is gone is passed over. */
    static method SignalAll(pids: seq<nat>, answer: nat -> SignalAnswer) returns (ok: bool, signalled: seq<nat>)
      ensures ok <==> forall i :: 0 <= i < |pids| ==> !answer(pids[i]).OtherError?
      ensures SignalsInTurn(pids, answer, signalled) && (ok ==> signalled == pids)
    {
      signalled := [];
      for i := 0 to |pids|
        invariant signalled == pids[..i]
        invariant forall j :: 0 <= j < i ==> !answer(pids[j]).OtherError?
      {
        signalled := signalled + [pids[i]];
        if answer(pids[i]).OtherError? {
          return false, signalled;
        }
      }
      ok := true;
    }

    /** Kill sends signals and leaves the state alone. known says that the signal's name
        is one; pids are those of the cgroup, if it can still be read. */
    method Kill(all: bool, known: bool, pids: Option<seq<nat>>, answer: nat -> SignalAnswer)
      returns (r: Outcome, signalled: seq<nat>)
      requires !hasLock
      modifies this, dir
      ensures !hasLock
      ensures r == OperationInProgress <==> old(dir.locked)
      ensures old(dir.locked) ==> unchanged(dir) && unchanged(this)
      ensures !old(dir.locked) ==> Did(dir, old(dir.disk), old(dir.saves), NoEffect)
      ensures r.Refused? <==>
                && known && !all && GetsIn(old(dir.locked), old(dir.disk))
                && !Finds(old(dir.locked), old(dir.disk), Running)
                && !Finds(old(dir.locked), old(dir.disk), Created)
      ensures r.Succeeded? || r.Failed? || r.Refused? || r.OperationInProgress?
      ensures !known || !GetsIn(old(dir.locked), old(dir.disk)) || r.Refused? ==> signalled == [] && !r.Succeeded?
      ensures known && all && GetsIn(old(dir.locked), old(dir.disk)) ==>
                var members := if pids.Some? then pids.value else [];
                && SignalsInTurn(members, answer, signalled)
                && (r.Succeeded? <==> forall i :: 0 <= i < |members| ==> !answer(members[i]).OtherError?)
      ensures known && !all && GetsIn(old(dir.locked), old(dir.disk)) && !r.Refused? ==>
                var pid := Unmarshal(Marshal(old(dir.disk).value), old(state)).pid;
                signalled == [pid] && (r.Succeeded? <==> answer(pid).Delivered?)
    {
      signalled := [];
      r := Enter();
      if !r.Pending? {
        return;
      }
      if !known {
        r := Failed;
      } else if all {
        var ok := true;
        if pids.Some? {
          ok, signalled := SignalAll(pids.value, answer);
        }
        r := if ok then Succeeded else Failed;
      } else if !CanBeKilled(state) {
        r := Refused;
      } else {
        signalled := [state.pid];
        r := if answer(state.pid).Delivered? then Succeeded else Failed;
      }
      Unlock();
    }

    /** The liveness probe: a dead process makes the container stopped. */
    method Probe(w: Answers) returns (ok: bool)
      modifies this`state, dir`disk, dir`saves
      ensures state == Probed(old(state), w)
      ensures dir.saves == old(dir.saves) + ProbeWrites(old(state), w)
      ensures dir.disk == After(old(dir.disk), Effect(ProbeWrites(old(state), w), false))
      ensures ok == !(w.dead && old(state).pid != 0 && !w.save1.Done?)
    {
      ok := true;
      if state.pid != 0 && w.dead {
        state := state.(status := Stopped);
        ok := Save(w.save1);
      }
    }

    method GetState(w: Answers) returns (r: Outcome)
      requires !hasLock
      modifies this, dir
      ensures !hasLock
      ensures r == OperationInProgress <==> old(dir.locked)
      ensures old(dir.locked) ==> unchanged(dir) && unchanged(this)
      ensures !old(dir.locked) ==>
                Did(dir, old(dir.disk), old(dir.saves), EffectFrom(cfg, Kind.GetState, old(dir.disk), old(state), w))
      ensures r.Succeeded? ==> old(dir.disk).Some?
      ensures !old(dir.locked) && old(dir.disk).Some? ==>
                var st := Unmarshal(Marshal(old(dir.disk).value), old(state));
                (r.Succeeded? <==> (w.dead && st.pid != 0 ==> w.save1.Done?))
      ensures r.Succeeded? ==>
                var st := Unmarshal(Marshal(old(dir.disk).value), old(state));
                state == if w.dead && st.pid != 0 then st.(status := Stopped) else st
      ensures r.Succeeded? || r.Failed? || r.OperationInProgress?
    {
      r := Enter();
      if r.Pending? {
        var ok := Probe(w);
        r := if ok then Succeeded else Failed;
        Unlock();
      }
    }

    method Delete(force: bool, w: Answers) returns (r: Outcome, acts: seq<Act>)
      requires !hasLock
      modifies this, dir
      ensures !hasLock
      ensures r == OperationInProgress <==> old(dir.locked)
      ensures old(dir.locked) ==> unchanged(dir) && unchanged(this)
      ensures !old(dir.locked) ==>
                var e := EffectFrom(cfg, Kind.Delete(force), old(dir.disk), old(state), w);
                Did(dir, old(dir.disk), old(dir.saves), e)
      ensures r.Refused? <==>
                && GetsIn(old(dir.locked), old(dir.disk)) && !force
                && !Finds(old(dir.locked), old(dir.disk), Stopped)
                && !(w.dead && Unmarshal(Marshal(old(dir.disk).value), old(state)).pid != 0)
      ensures r.Succeeded? <==> GetsIn(old(dir.locked), old(dir.disk)) && !r.Refused? && w.unlinked
      ensures r.Succeeded? || r.Failed? || r.Refused? || r.OperationInProgress?
      ensures r.Succeeded? ==> dir.disk.None?
      ensures CgroupDeleted in acts <==> GetsIn(old(dir.locked), old(dir.disk)) && !r.Refused?
      ensures forall a :: a in {DirectoryRemoved, SocketRemoved, PoststopRun} ==> (a in acts <==> r.Succeeded?)
      ensures InOrder(acts)
    {
      acts := [];
      RemovalInOrder();
      hide InOrder;
      r := Enter();
      if !r.Pending? {
        return;
      }
      var _ := Probe(w);
      if !force && !CanBeDeleted(state) {
        r := Refused;
      } else {
        acts := [CgroupDeleted];
        if !w.unlinked {
          r := Failed;
        } else {
          dir.disk := None;
          acts := acts + [DirectoryRemoved, SocketRemoved, PoststopRun];
          r := Succeeded;
        }
      }
      Unlock();
    }
  }

  // ---- one operation after another ----------------------------------------

  /** One whole command: create on a new object, every other on a loaded one. */
  method Operate(cfg: Config, kind: Kind, dir: Directory, w: Answers)
    requires !dir.locked
    modifies dir
    ensures Did(dir, old(dir.disk), old(dir.saves), OperationEffect(cfg, kind, old(dir.disk), w))
  {
    if kind.Create? {
      var c := new Container(cfg, dir);
      var _ := c.Init(w);
    } else if dir.disk.Some? {
      var c := new Container.Load(cfg, dir);
      EffectFromIsAtomic(cfg, kind, dir.disk, c.state, w);
      match kind {
        case Start => var _ := c.Start(w);
        case Kill(all) => var _, _ := c.Kill(all, true, None, _ => Delivered);
        case Pause => var _ := c.Toggle(kind, w);
        case Resume => var _ := c.Toggle(kind, w);
        case GetState => var _ := c.GetState(w);
        case Delete(force) => var _, _ := c.Delete(force, w);
      }
    }
  }

  /** The sections run whole, in order, on an empty directory. */
  method Replay(cfg: Config, sections: seq<Section>) returns (dir: Directory)
    ensures fresh(dir) && !dir.locked
    ensures dir.disk == SerialDisk(cfg, sections) && dir.saves == SerialSaves(cfg, sections)
  {
    dir := new Directory();
    for i := 0 to |sections|
      invariant fresh(dir) && !dir.locked
      invariant dir.disk == SerialDisk(cfg, sections[..i]) && dir.saves == SerialSaves(cfg, sections[..i])
    {
      assert sections[..i + 1][..i] == sections[..i];
      Operate(cfg, sections[i].kind, dir, sections[i].answers);
    }
    assert sections[..|sections|] == sections;
  }

  /** Whatever the interleaving, as long as c.lock is not made anew beside state.json,
      state.json and its history are those of the lock winners' commands run by the
      sequential program in lock order. */
  method ReplayRun(cfg: Config, steps: seq<Step>) returns (dir: Directory)
    requires Runs(cfg, InitialState(cfg), steps) && LockKept(cfg, InitialState(cfg), steps)
    ensures fresh(dir)
    ensures dir.disk == Run(cfg, InitialState(cfg), steps).disk
    ensures dir.saves == Run(cfg, InitialState(cfg), steps).saves
  {
    var s := Run(cfg, InitialState(cfg), steps);
    ReachableLocked(cfg, steps);
    dir := Replay(cfg, s.sections);
  }

  // ---- hooks --------------------------------------------------------------

  /** ExecHooks: one hook after another, up to the first that fails. ran lists the
      indices of the hooks that were started. */
  method ExecHooks(succeeds: seq<bool>) returns (ok: bool, ran: seq<nat>)
    ensures ok <==> forall i :: 0 <= i < |succeeds| ==> succeeds[i]
    ensures |ran| <= |succeeds| && forall i :: 0 <= i < |ran| ==> ran[i] == i
    ensures forall i :: 0 <= i < |ran| - 1 ==> succeeds[i]
    ensures if ok then |ran| == |succeeds| else ran != [] && !succeeds[|ran| - 1]
  {
    ran := [];
    for i := 0 to |succeeds|
      invariant |ran| == i && forall j :: 0 <= j < i ==> ran[j] == j && succeeds[j]
    {
      ran := ran + [i];
      if !succeeds[i] {
        return false, ran;
      }
    }
    ok := true;
  }
}
