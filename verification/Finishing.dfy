/**
 Nobody but a command that waits for a message is ever blocked, and a delete that is
 past its guard can always finish, whatever is left of the directory.
 */
module Finishing {
  import opened Wrappers
  import opened Lifecycle
  import opened Protocol
  import opened Handshake
  import opened Frames
  import opened Outcomes

  /** The command waits for the child. */
  predicate Waits(pc: PC) { pc.AtRecvPrePivot? || pc.AtRecvReady? || pc.AtRecvExecReady? }

  /** A step that the command can take by itself; a create after the removal, which the
      model leaves out, has none. */
  function Ready(s: State, p: ProcId): Step
    requires p in s.procs
  {
    match s.procs[p].pc
    case AtMkdir => Mkdir(p)
    case AtLoad => Load(p)
    case AtOpenLock => OpenLock(p)
    case AtFlock => Flock(p)
    case AtReload => Reload(p)
    case AtCheck => Check(p)
    case AtGuard => Check(p)
    case AtFork => Fork(p, 1)
    case AtCreateRuntime => RunHooks(p, true)
    case AtPrestart => RunHooks(p, true)
    case AtPoststart => RunHooks(p, true)
    case AtPoststop => RunHooks(p, true)
    case AtDial => Dial(p)
    case AtSendStart => SendStart(p)
    case AtSignal => Signal(p)
    case AtCgroup => Cgroup(p)
    case AtProbe => Probe(p, false)
    case AtRemove => if s.disk.Some? then UnlinkState(p) else if s.lockPath.Some? then UnlinkLock(p) else Rmdir(p)
    case _ => Save(p, if s.dir.Present? then Done else Lost)
  }

  lemma SenderIsConnected(cfg: Config, s: State, p: ProcId)
    requires Inv(cfg, s) && At(s, p, AtSendStart)
    ensures CanSendStart(s, p)
  {
    FactsOf(cfg, s, p);
    hide SharedOk, SavesOk, ConnsOk, ProcsOk, Known, CreateOk;
  }

  predicate CanGo(cfg: Config, s: State, p: ProcId)
    requires p in s.procs
  {
    Enabled(cfg, s, Ready(s, p)) && Mine(Ready(s, p), p) && !Ready(s, p).Quit?
  }

  lemma OpenersGo(cfg: Config, s: State, p: ProcId)
    requires p in s.procs
    requires var pc := s.procs[p].pc;
             || (pc.AtMkdir? && !s.dir.Removed?) || pc.AtLoad? || pc.AtOpenLock? || pc.AtFlock? || pc.AtReload?
             || pc.AtCheck? || pc.AtGuard? || pc.AtProbe? || pc.AtRemove?
    ensures CanGo(cfg, s, p)
  {
    hide ChildEnabled;
  }

  lemma WorkersGo(cfg: Config, s: State, p: ProcId)
    requires p in s.procs && (s.procs[p].pc.AtSendStart? ==> CanSendStart(s, p))
    requires var pc := s.procs[p].pc;
             || CanRunHooks(s, p) || pc.AtFork? || pc.AtDial? || pc.AtSendStart? || pc.AtSignal? || pc.AtCgroup?
    ensures CanGo(cfg, s, p)
  {
    hide ChildEnabled;
  }

  lemma SaversGo(cfg: Config, s: State, p: ProcId)
    requires p in s.procs && AtSave(s.procs[p].pc)
    ensures CanGo(cfg, s, p)
  {
    hide ChildEnabled;
  }

  /** In every reachable state every command at work that does not wait for the child can
      take a step of its own other than giving up. */
  lemma NeverBlocked(cfg: Config, s: State, p: ProcId)
    requires Inv(cfg, s) && p in s.procs && !s.procs[p].pc.Ended? && !Waits(s.procs[p].pc)
    requires s.procs[p].pc.AtMkdir? ==> !s.dir.Removed?
    ensures CanGo(cfg, s, p)
  {
    hide Inv, CanGo, CanSendStart;
    if AtSave(s.procs[p].pc) {
      SaversGo(cfg, s, p);
    } else if CanRunHooks(s, p) || s.procs[p].pc.AtFork? || s.procs[p].pc.AtDial? || s.procs[p].pc.AtSendStart?
              || s.procs[p].pc.AtSignal? || s.procs[p].pc.AtCgroup? {
      if s.procs[p].pc.AtSendStart? {
        SenderIsConnected(cfg, s, p);
      }
      WorkersGo(cfg, s, p);
    } else {
      OpenersGo(cfg, s, p);
    }
  }

  // ---- the probe ----------------------------------------------------------

  lemma ProbeThenSave(s: State, p: ProcId)
    requires At(s, p, AtProbe) && s.procs[p].mem.pid != 0 && !s.child.alive && s.dir.Present?
    ensures CanProbe(s, p, true)
    ensures var t := DoProbe(s, p, true); CanSave(t, p, Done) && t.dir == s.dir && t.saves == s.saves
    ensures var t := DoProbe(s, p, true); ToSave(t.procs[p]) == s.procs[p].mem.(status := Stopped)
    ensures var u := DoSave(DoProbe(s, p, true), p, Done);
            u.saves == s.saves + [s.procs[p].mem.(status := Stopped)] && u.disk == Some(u.saves[|s.saves|])
  {
    hide CloseConnection, AnswersOf;
  }

  /** Whenever the child is dead, state and delete can find it out, and then state.json
      comes to say stopped. */
  lemma DeadIsFound(cfg: Config, s: State, p: ProcId)
    requires At(s, p, AtProbe) && s.procs[p].mem.pid != 0 && !s.child.alive && s.dir.Present?
    ensures var steps := [Probe(p, true)] + ([Save(p, Done)] + []);
            && Runs(cfg, s, steps)
            && Run(cfg, s, steps).disk == Some(s.procs[p].mem.(status := Stopped))
  {
    ProbeThenSave(s, p);
    var t := DoProbe(s, p, true);
    assert Enabled(cfg, s, Probe(p, true)) && Do(cfg, s, Probe(p, true)) == t;
    assert Enabled(cfg, t, Save(p, Done)) && Do(cfg, t, Save(p, Done)) == DoSave(t, p, Done);
    hide DoProbe, DoSave, Do, Enabled, CanProbe, CanSave;
    Then(cfg, t, Save(p, Done), []);
    hide Run, Runs;
    Then(cfg, s, Probe(p, true), [Save(p, Done)] + []);
  }

  /** One step, and then the rest. */
  lemma Then(cfg: Config, s: State, step: Step, rest: seq<Step>)
    requires Enabled(cfg, s, step) && Runs(cfg, Do(cfg, s, step), rest)
    ensures Runs(cfg, s, [step] + rest) && Run(cfg, s, [step] + rest) == Run(cfg, Do(cfg, s, step), rest)
  {
    hide Do, Enabled;
    assert ([step] + rest)[1..] == rest;
  }

  // ---- the removal --------------------------------------------------------

  /** The delete has succeeded and nothing is left. */
  predicate AllGone(t: State, p: ProcId) {
    At(t, p, Ended) && t.procs[p].outcome == Succeeded && t.dir.Removed? && t.disk.None? && t.lockPath.None?
  }

  /** The removal as it stands: a delete past its guard, and the names that are left. */
  predicate Left(s: State, p: ProcId, state: bool, lock: bool) {
    At(s, p, AtRemove) && s.disk.Some? == state && s.lockPath.Some? == lock
  }

  function RestOfRemoval(p: ProcId, state: bool, lock: bool, ok: bool): seq<Step> {
    (if state then [UnlinkState(p)] else []) + (if lock then [UnlinkLock(p)] else [])
    + [Rmdir(p), RunHooks(p, ok)]
  }

  lemma UnlinkStateLeaves(s: State, p: ProcId, lock: bool)
    requires Left(s, p, true, lock)
    ensures CanUnlinkState(s, p) && Left(DoUnlinkState(s, p), p, false, lock)
  {
    hide AnswersOf;
  }

  lemma RmdirLeaves(s: State, p: ProcId)
    requires Left(s, p, false, false)
    ensures CanRmdir(s, p)
    ensures var t := DoRmdir(s, p); At(t, p, AtPoststop) && t.dir.Removed? && t.disk.None? && t.lockPath.None?
  {}

  lemma PoststopEnds(s: State, p: ProcId, ok: bool)
    requires At(s, p, AtPoststop) && s.dir.Removed? && s.disk.None? && s.lockPath.None?
    ensures CanRunHooks(s, p) && AllGone(DoRunHooks(s, p, ok), p)
  {
    hide CloseConnection, AnswersOf;
  }

  lemma Ending(cfg: Config, t: State, p: ProcId, ok: bool)
    requires At(t, p, AtPoststop) && t.dir.Removed? && t.disk.None? && t.lockPath.None?
    ensures Runs(cfg, t, [RunHooks(p, ok)] + []) && AllGone(Run(cfg, t, [RunHooks(p, ok)] + []), p)
  {
    PoststopEnds(t, p, ok);
    assert Enabled(cfg, t, RunHooks(p, ok)) && Do(cfg, t, RunHooks(p, ok)) == DoRunHooks(t, p, ok);
    hide DoRunHooks, Do, Enabled, AllGone;
    Then(cfg, t, RunHooks(p, ok), []);
  }

  lemma Emptied(cfg: Config, s: State, p: ProcId, ok: bool)
    requires Left(s, p, false, false)
    ensures var rest := [Rmdir(p)] + ([RunHooks(p, ok)] + []); Runs(cfg, s, rest) && AllGone(Run(cfg, s, rest), p)
  {
    RmdirLeaves(s, p);
    assert Enabled(cfg, s, Rmdir(p)) && Do(cfg, s, Rmdir(p)) == DoRmdir(s, p);
    hide DoRmdir, Do, Enabled, AllGone, Run, Runs;
    Ending(cfg, DoRmdir(s, p), p, ok);
    Then(cfg, s, Rmdir(p), [RunHooks(p, ok)] + []);
  }

  lemma Unnamed(cfg: Config, s: State, p: ProcId, lock: bool, ok: bool)
    requires Left(s, p, false, lock)
    ensures var rest := (if lock then [UnlinkLock(p)] else []) + ([Rmdir(p)] + ([RunHooks(p, ok)] + []));
            Runs(cfg, s, rest) && AllGone(Run(cfg, s, rest), p)
  {
    var last := [Rmdir(p)] + ([RunHooks(p, ok)] + []);
    if lock {
      var t := s.(lockPath := None);
      assert Enabled(cfg, s, UnlinkLock(p)) && Do(cfg, s, UnlinkLock(p)) == t;
      Emptied(cfg, t, p, ok);
      hide Do, Enabled, AllGone, Run, Runs;
      Then(cfg, s, UnlinkLock(p), last);
    } else {
      Emptied(cfg, s, p, ok);
      assert [] + last == last;
    }
  }

  lemma Removed(cfg: Config, s: State, p: ProcId, state: bool, lock: bool, ok: bool)
    requires Left(s, p, state, lock)
    ensures var rest := (if state then [UnlinkState(p)] else [])
                        + ((if lock then [UnlinkLock(p)] else []) + ([Rmdir(p)] + ([RunHooks(p, ok)] + [])));
            Runs(cfg, s, rest) && AllGone(Run(cfg, s, rest), p)
  {
    var last := (if lock then [UnlinkLock(p)] else []) + ([Rmdir(p)] + ([RunHooks(p, ok)] + []));
    if state {
      UnlinkStateLeaves(s, p, lock);
      var t := DoUnlinkState(s, p);
      assert Enabled(cfg, s, UnlinkState(p)) && Do(cfg, s, UnlinkState(p)) == t;
      Unnamed(cfg, t, p, lock, ok);
      hide Do, Enabled, AllGone, Run, Runs, DoUnlinkState;
      Then(cfg, s, UnlinkState(p), last);
    } else {
      Unnamed(cfg, s, p, lock, ok);
      assert [] + last == last;
    }
  }

  /** From every state in which a delete is past its guard, whatever is left of the
      directory and whatever the poststop hooks answer, its own next steps take the rest
      away, state.json before c.lock, and end it with success. */
  lemma DeleteCanFinish(cfg: Config, s: State, p: ProcId, ok: bool)
    requires At(s, p, AtRemove)
    ensures var rest := RestOfRemoval(p, s.disk.Some?, s.lockPath.Some?, ok);
            Runs(cfg, s, rest) && AllGone(Run(cfg, s, rest), p)
  {
    var state, lock := s.disk.Some?, s.lockPath.Some?;
    Removed(cfg, s, p, state, lock, ok);
    hide Run, Runs, AllGone;
    assert RestOfRemoval(p, state, lock, ok)
        == (if state then [UnlinkState(p)] else [])
           + ((if lock then [UnlinkLock(p)] else []) + ([Rmdir(p)] + ([RunHooks(p, ok)] + [])));
  }
}
