/**
 The child as the list of its own steps: it follows one script, each step once and in
 order, up to a death, a failed hook or a missing executable.
 */
module Scripts {
  import opened Wrappers
  import opened Lifecycle
  import opened Protocol
  import opened Handshake
  import opened Frames
  import opened Lookup
  import opened Guarantees

  // ---- runs, step by step -------------------------------------------------

  lemma LastStep(cfg: Config, steps: seq<Step>, n: nat)
    requires Runs(cfg, InitialState(cfg), steps) && n < |steps|
    ensures Enabled(cfg, Before(cfg, steps, n), steps[n])
    ensures Before(cfg, steps, n + 1) == Do(cfg, Before(cfg, steps, n), steps[n])
  {
    hide Do, Enabled;
    var s0 := InitialState(cfg);
    RunPrefix(cfg, s0, steps, n);
    RunPrefix(cfg, s0, steps, n + 1);
    assert steps[n..][0] == steps[n] && steps[..n + 1] == steps[..n] + [steps[n]];
    OneMoreStep(cfg, s0, steps[..n], steps[n]);
  }

  lemma {:induction false} OneMoreStep(cfg: Config, s: State, steps: seq<Step>, step: Step)
    requires Runs(cfg, s, steps) && Enabled(cfg, Run(cfg, s, steps), step)
    ensures Runs(cfg, s, steps + [step]) && Run(cfg, s, steps + [step]) == Do(cfg, Run(cfg, s, steps), step)
    decreases |steps|
  {
    hide Do, Enabled;
    if steps == [] {
      var t := Do(cfg, s, step);
      assert [] + [step] == [step] && [step][1..] == [];
      assert Runs(cfg, t, []) && Run(cfg, t, []) == t;
    } else {
      assert (steps + [step])[1..] == steps[1..] + [step];
      OneMoreStep(cfg, Do(cfg, s, steps[0]), steps[1..], step);
    }
  }

  lemma BeforeIsReachable(cfg: Config, steps: seq<Step>, n: nat)
    requires Runs(cfg, InitialState(cfg), steps) && n <= |steps|
    ensures Inv(cfg, Before(cfg, steps, n))
  {
    RunPrefix(cfg, InitialState(cfg), steps, n);
    hide Inv;
    Reachable(cfg, steps[..n]);
  }

  // ---- the child ----------------------------------------------------------

  function ChildOnly(steps: seq<Step>): seq<Step> {
    if steps == [] then []
    else
      var n := |steps| - 1;
      ChildOnly(steps[..n]) + if ChildStep(steps[n]) then [steps[n]] else []
  }

  /** The child's script. */
  predicate IsNth(i: nat, step: Step) {
    match i
    case 0 => step.ChildLoad?
    case 1 => step.ChildPrePivot?
    case 2 => step.ChildRoot?
    case 3 => step.ChildCreateHooks?
    case 4 => step.ChildReady?
    case 5 => step.ChildAccept?
    case 6 => step.ChildReceive?
    case 7 => step.ChildSecure?
    case 8 => step.ChildStartHooks?
    case 9 => step.ChildExecReady?
    case 10 => step.ChildExec?
    case _ => false
  }

  predicate EndsChild(step: Step) {
    step.ChildDie? || (step.ChildCreateHooks? && !step.ok) || (step.ChildStartHooks? && !step.ok)
  }

  /** The script from its beginning, step by step and each once, up to a death, a hook
      that failed, or an executable that was not found, after which it can only die. */
  predicate Scripted(cfg: Config, c: seq<Step>) {
    && (forall i :: 0 <= i < |c| ==> IsNth(i, c[i]) || (c[i].ChildDie? && i == |c| - 1))
    && (forall i :: 0 <= i < |c| - 1 ==> !EndsChild(c[i]) && (NotFound(cfg, c[i]) ==> c[i + 1].ChildDie?))
  }

  /** How much of the script is behind a child in this phase. */
  function Behind(ph: Phase): nat {
    if ph.Unborn? then 0 else if ph.InvalidSent? then 3 else Rank(ph) - 1
  }

  predicate ChildSofar(cfg: Config, child: Child, c: seq<Step>) {
    && Scripted(cfg, c)
    && (child.phase.Unborn? ==> c == [] && !child.alive)
    && (child.alive ==>
          && |c| == Behind(child.phase)
          && (c != [] ==> !EndsChild(c[|c| - 1]))
          && (child.phase.InvalidSent? <==> c != [] && NotFound(cfg, c[|c| - 1])))
    && (!child.alive && !child.phase.Unborn? ==> Behind(child.phase) < |c|)
  }

  /** One step more of a script that has not ended. */
  lemma ScriptGrows(cfg: Config, c: seq<Step>, step: Step)
    requires Scripted(cfg, c) && (IsNth(|c|, step) || step.ChildDie?)
    requires c != [] ==> !EndsChild(c[|c| - 1]) && (NotFound(cfg, c[|c| - 1]) ==> step.ChildDie?)
    ensures Scripted(cfg, c + [step])
  {
    hide IsNth, EndsChild, NotFound;
    var all := c + [step];
    assert all[|c|] == step && forall i :: 0 <= i < |c| ==> all[i] == c[i];
    assert forall i :: 0 <= i < |c| ==> IsNth(i, c[i]) by { EveryStepScripted(cfg, c); }
  }

  lemma EveryStepScripted(cfg: Config, c: seq<Step>)
    requires Scripted(cfg, c) && (c != [] ==> !EndsChild(c[|c| - 1]))
    ensures forall i :: 0 <= i < |c| ==> IsNth(i, c[i])
  {
    hide IsNth;
  }

  lemma ReceivesStart(cfg: Config, s: State)
    requires Inv(cfg, s) && ChildEnabled(cfg, s, ChildReceive)
    ensures s.conns[0].up[0] == MsgStart
  {
    hide SharedOk, SavesOk, ProcsOk;
  }

  lemma ForkFromUnborn(cfg: Config, s: State, p: ProcId, pid: nat)
    requires Inv(cfg, s) && CanFork(s, p, pid)
    ensures s.child.phase.Unborn? && DoFork(s, p, pid).child.phase.Forked? && DoFork(s, p, pid).child.alive
  {
    FactsOf(cfg, s, p);
    hide Inv, OperationOk, AnswersOf;
  }

  lemma ChildMoves(cfg: Config, s: State, step: Step, c: seq<Step>)
    requires ChildSofar(cfg, s.child, c) && ChildEnabled(cfg, s, step)
    requires step.ChildReceive? ==> s.conns[0].up[0] == MsgStart
    ensures ChildSofar(cfg, DoChild(cfg, s, step).child, c + [step])
  {
    hide Answered, Scripted;
    ScriptGrows(cfg, c, step);
  }

  lemma ChildStepSofar(cfg: Config, s: State, step: Step, c: seq<Step>)
    requires Inv(cfg, s) && ChildSofar(cfg, s.child, c) && ChildEnabled(cfg, s, step)
    ensures ChildSofar(cfg, DoChild(cfg, s, step).child, c + [step])
  {
    if step.ChildReceive? { ReceivesStart(cfg, s); }
    hide Inv, DoChild, ChildSofar;
    ChildMoves(cfg, s, step, c);
  }

  lemma CommandSofar(cfg: Config, s: State, step: Step, c: seq<Step>)
    requires Inv(cfg, s) && Enabled(cfg, s, step) && ChildSofar(cfg, s.child, c) && !ChildStep(step)
    ensures ChildSofar(cfg, Do(cfg, s, step).child, c)
  {
    if step.Fork? {
      assert CanFork(s, step.p, step.pid) && Do(cfg, s, step) == DoFork(s, step.p, step.pid);
      ForkFromUnborn(cfg, s, step.p, step.pid);
      hide Inv, Do, DoFork, Enabled, Scripted, NotFound;
    } else {
      hide Inv, Do, Enabled, ChildSofar;
      CommandsAreSilent(cfg, s, step);
    }
  }

  lemma StepScripted(cfg: Config, s: State, step: Step, c: seq<Step>)
    requires Inv(cfg, s) && Enabled(cfg, s, step) && ChildSofar(cfg, s.child, c)
    ensures ChildSofar(cfg, Do(cfg, s, step).child, c + if ChildStep(step) then [step] else [])
  {
    hide Inv, ChildSofar, Do, Enabled;
    if ChildStep(step) {
      ChildDoes(cfg, s, step);
      hide DoChild, ChildEnabled;
      ChildStepSofar(cfg, s, step, c);
    } else {
      CommandSofar(cfg, s, step, c);
      assert c + [] == c;
    }
  }

  lemma ChildDoes(cfg: Config, s: State, step: Step)
    requires Enabled(cfg, s, step) && ChildStep(step)
    ensures ChildEnabled(cfg, s, step) && Do(cfg, s, step) == DoChild(cfg, s, step)
  {
    hide ChildEnabled, DoChild;
  }

  lemma NothingYet(cfg: Config, steps: seq<Step>)
    requires Runs(cfg, InitialState(cfg), steps)
    ensures Before(cfg, steps, 0) == InitialState(cfg) && ChildOnly(steps[..0]) == []
    ensures ChildSofar(cfg, InitialState(cfg).child, [])
  {
    assert steps[..0] == [];
  }

  lemma ChildOnlyGrows(steps: seq<Step>, n: nat)
    requires n < |steps|
    ensures ChildOnly(steps[..n + 1]) == ChildOnly(steps[..n]) + if ChildStep(steps[n]) then [steps[n]] else []
  {
    assert steps[..n + 1][..n] == steps[..n];
  }

  lemma {:induction false} ScriptedSofar(cfg: Config, steps: seq<Step>, n: nat)
    requires Runs(cfg, InitialState(cfg), steps) && n <= |steps|
    ensures ChildSofar(cfg, Before(cfg, steps, n).child, ChildOnly(steps[..n]))
  {
    hide Inv, Do, Enabled, Run, Runs, ChildSofar, Before, ChildStep, ChildOnly;
    if n == 0 {
      NothingYet(cfg, steps);
    } else {
      ScriptedSofar(cfg, steps, n - 1);
      BeforeIsReachable(cfg, steps, n - 1);
      LastStep(cfg, steps, n - 1);
      ChildOnlyGrows(steps, n - 1);
      StepScripted(cfg, Before(cfg, steps, n - 1), steps[n - 1], ChildOnly(steps[..n - 1]));
    }
  }

  /** On every run the child follows its script, and a child that runs the user's program
      has been through all of it. */
  lemma ChildFollowsScript(cfg: Config, steps: seq<Step>)
    requires Runs(cfg, InitialState(cfg), steps)
    ensures var c := ChildOnly(steps);
            && Scripted(cfg, c)
            && Behind(StateAfter(cfg, steps).child.phase) <= |c|
            && (StateAfter(cfg, steps).child.phase == UserProcess ==>
                  |c| >= 11 && forall i :: 0 <= i < 11 ==> IsNth(i, c[i]))
  {
    assert steps[..|steps|] == steps;
    ScriptedSofar(cfg, steps, |steps|);
    hide Run, Runs, ChildOnly, IsNth;
    var c := ChildOnly(steps);
    if StateAfter(cfg, steps).child.alive {
      EveryStepScripted(cfg, c);
    }
  }
}
