/**
 The container state record, the guards of the lifecycle operations, and what
 each operation does to state.json when it runs from lock to unlock with nobody
 beside it.

 Everything the operation learns from outside (hook exit codes, messages, the
 answer of kill(pid, 0), the fate of a save) is one record, Answers. A field that
 still has its initial value means "the operation did not get that far", so the
 effect of a half-filled record is the effect of an operation cut short there.
 */
module Lifecycle {
  import opened Wrappers

  datatype Status = Creating | Created | Running | Paused | Stopped

  datatype ContainerState = ContainerState(
    version: string, id: string, status: Status, pid: nat, bundle: string,
    annotations: map<string, string>)

  /** What does not change during a run: the spec's facts that the code branches
      on, and how the environment removes a directory.

      lockFirst says that os.RemoveAll may unlink c.lock while state.json is still
      there, which depends on directory order and on unlink errors. */
  datatype Config = Config(
    version: string, id: string, bundle: string, annotations: map<string, string>,
    processNil: bool, mountNamespace: bool, lockFirst: bool)

  function NewState(cfg: Config): ContainerState {
    ContainerState(cfg.version, cfg.id, Creating, 0, cfg.bundle, cfg.annotations)
  }

  // ---- state.json as JSON -------------------------------------------------

  /** The JSON object: pid and annotations are left out when they are empty. */
  datatype Json = Json(
    version: string, id: string, status: Status, pid: Option<nat>, bundle: string,
    annotations: Option<map<string, string>>)

  function Marshal(st: ContainerState): Json {
    Json(st.version, st.id, st.status, if st.pid == 0 then None else Some(st.pid), st.bundle,
         if st.annotations == map[] then None else Some(st.annotations))
  }

  /** json.Unmarshal into an existing struct: an absent field keeps the value it
      had, and a map gains the file's keys without losing its own. */
  function Unmarshal(j: Json, into: ContainerState): ContainerState {
    ContainerState(
      j.version, j.id, j.status,
      if j.pid.Some? then j.pid.value else into.pid,
      j.bundle,
      if j.annotations.Some? then into.annotations + j.annotations.value else into.annotations)
  }

  /** A reload gives back the file exactly when nothing that the file leaves out
      is present in memory. */
  lemma ReloadExact(file: ContainerState, mem: ContainerState)
    ensures Unmarshal(Marshal(file), mem) == file <==>
            && (file.pid == 0 ==> mem.pid == 0)
            && mem.annotations.Keys <= file.annotations.Keys
  {
    if mem.annotations.Keys <= file.annotations.Keys {
      if file.annotations == map[] {
        assert mem.annotations.Keys == {};
        assert mem.annotations == map[];
      } else {
        assert mem.annotations + file.annotations == file.annotations;
      }
    } else {
      var k :| k in mem.annotations.Keys && k !in file.annotations.Keys;
      assert k in Unmarshal(Marshal(file), mem).annotations.Keys;
    }
  }

  // ---- operations ---------------------------------------------------------

  datatype Kind =
    | Create
    | Start
    | Kill(all: bool)
    | Pause
    | Resume
    | GetState
    | Delete(force: bool)

  datatype Message = MsgStart | MsgReady | MsgInvalidExecutable | MsgPrePivot | MsgExecReady

  /** The fate of one save: not reached, failed with the old file still in place,
      done, or state.json renamed but the pid file write failed after it. */
  datatype SaveResult = NotReached | Lost | Done | PidFileLost

  datatype Answers = Answers(
    save1: SaveResult, save2: SaveResult,
    pid: nat, got: seq<Message>, hooks: bool, dialled: bool, sent: bool,
    acted: bool, dead: bool, unlinked: bool)

  const NoAnswers := Answers(NotReached, NotReached, 0, [], false, false, false, false, false, false)

  predicate CanBeStarted(st: ContainerState) { st.status == Created }
  predicate CanBeDeleted(st: ContainerState) { st.status == Stopped }
  predicate CanBeKilled(st: ContainerState) { st.status == Running || st.status == Created }
  predicate CanBePaused(st: ContainerState) { st.status == Running }
  predicate CanBeResumed(st: ContainerState) { st.status == Paused }

  /** The status check an operation makes after its reload. */
  predicate Guard(kind: Kind, st: ContainerState) {
    match kind
    case Start => CanBeStarted(st)
    case Kill(all) => all || CanBeKilled(st)
    case Pause => CanBePaused(st)
    case Resume => CanBeResumed(st)
    case Delete(force) => force || CanBeDeleted(st)
    case _ => true
  }

  datatype Effect = Effect(writes: seq<ContainerState>, removes: bool)

  const NoEffect := Effect([], false)

  function Writes(st: ContainerState, save: SaveResult): seq<ContainerState> {
    if save == Done || save == PidFileLost then [st] else []
  }

  /** The n-th message the operation received was m. */
  predicate Heard(a: Answers, n: nat, m: Message) { n < |a.got| && a.got[n] == m }

  function CreateEffect(cfg: Config, a: Answers): Effect {
    var initial := NewState(cfg);
    if a.save1 != Done || a.pid == 0 || !Heard(a, 0, MsgPrePivot) || !a.hooks || !Heard(a, 1, MsgReady) then
      Effect(Writes(initial, a.save1), false)
    else
      Effect([initial] + Writes(initial.(pid := a.pid, status := Created), a.save2), false)
  }

  function StartEffect(cfg: Config, st: ContainerState, a: Answers): Effect {
    if !Guard(Start, st) || !a.hooks || !a.dialled || !a.sent then NoEffect
    else if cfg.processNil then Effect(Writes(st.(status := Stopped), a.save1), false)
    else if !Heard(a, 0, MsgExecReady) then NoEffect
    else Effect(Writes(st.(status := Running), a.save1), false)
  }

  function ToggleEffect(kind: Kind, st: ContainerState, a: Answers): Effect
    requires kind.Pause? || kind.Resume?
  {
    if !Guard(kind, st) || !a.acted then NoEffect
    else Effect(Writes(st.(status := if kind.Pause? then Paused else Running), a.save1), false)
  }

  /** The status in memory after the liveness probe; a dead process makes the
      container stopped in memory even if the save of that fact fails. */
  function Probed(st: ContainerState, a: Answers): ContainerState {
    if a.dead && st.pid != 0 then st.(status := Stopped) else st
  }

  function ProbeWrites(st: ContainerState, a: Answers): seq<ContainerState> {
    if a.dead && st.pid != 0 then Writes(Probed(st, a), a.save1) else []
  }

  /** The effect of an operation that reloaded st. */
  function ReloadedEffect(cfg: Config, kind: Kind, st: ContainerState, a: Answers): Effect {
    match kind
    case Start => StartEffect(cfg, st, a)
    case Pause => ToggleEffect(kind, st, a)
    case Resume => ToggleEffect(kind, st, a)
    case GetState => Effect(ProbeWrites(st, a), false)
    case Delete(_) => Effect(ProbeWrites(st, a), a.unlinked && Guard(kind, Probed(st, a)))
    case _ => NoEffect
  }

  function OperationEffect(cfg: Config, kind: Kind, disk: Option<ContainerState>, a: Answers): Effect {
    if kind.Create? then CreateEffect(cfg, a)
    else if disk.None? then NoEffect
    else ReloadedEffect(cfg, kind, disk.value, a)
  }

  function After(disk: Option<ContainerState>, e: Effect): Option<ContainerState> {
    if e.removes then None
    else if e.writes == [] then disk
    else Some(e.writes[|e.writes| - 1])
  }

  // ---- operations run one after another -----------------------------------

  /** One winner of the lock and what the world answered it. */
  datatype Section = Section(proc: nat, kind: Kind, answers: Answers)

  function SerialDisk(cfg: Config, sections: seq<Section>): Option<ContainerState> {
    if sections == [] then None
    else
      var n := |sections| - 1;
      var before := SerialDisk(cfg, sections[..n]);
      After(before, OperationEffect(cfg, sections[n].kind, before, sections[n].answers))
  }

  function SerialSaves(cfg: Config, sections: seq<Section>): seq<ContainerState> {
    if sections == [] then []
    else
      var n := |sections| - 1;
      var before := SerialDisk(cfg, sections[..n]);
      SerialSaves(cfg, sections[..n])
        + OperationEffect(cfg, sections[n].kind, before, sections[n].answers).writes
  }

  // ---- the status path ----------------------------------------------------

  /** The moves a status history may make. Stopped is final: only the removal of
      the container ends it. */
  predicate LegalMove(a: ContainerState, b: ContainerState) {
    && a.version == b.version && a.id == b.id && a.bundle == b.bundle && a.annotations == b.annotations
    && b.pid != 0
    && (a.pid != 0 ==> a.pid == b.pid)
    && match a.status
       case Creating => b.status == Created
       case Created => b.status == Running || b.status == Stopped
       case Running => b.status == Paused || b.status == Stopped
       case Paused => b.status == Running || b.status == Stopped
       case Stopped => b.status == Stopped
  }

  predicate LegalHistory(cfg: Config, saves: seq<ContainerState>) {
    && (saves != [] ==> saves[0] == NewState(cfg))
    && forall i :: 0 < i < |saves| ==> LegalMove(saves[i - 1], saves[i])
  }

  /** creating is exactly pid 0, and the two never come back. */
  lemma {:induction false} HistoryPids(cfg: Config, saves: seq<ContainerState>, i: nat, j: nat)
    requires LegalHistory(cfg, saves)
    requires i <= j < |saves|
    ensures saves[j].status == Creating <==> saves[j].pid == 0
    ensures saves[j].status == Creating <==> j == 0
    ensures saves[i].pid != 0 ==> saves[j].pid == saves[i].pid
    ensures saves[i].status == Stopped ==> saves[j].status == Stopped
    decreases j
  {
    if i < j {
      HistoryPids(cfg, saves, i, j - 1);
      assert LegalMove(saves[j - 1], saves[j]);
    } else if j > 0 {
      HistoryPids(cfg, saves, j - 1, j - 1);
      assert LegalMove(saves[j - 1], saves[j]);
    }
  }
}
