/**
 AtomicWriteFile as steps on a directory, with readers that take no lock. Any number
 of writers may overlap, a writer may fail or crash after any step, a write may be
 partial, and any entry may be unlinked at any time, as a delete does.

 What this needs of os.CreateTemp is a little more than O_EXCL: its random name must
 not be the one of a writer that has not returned, even when no file bears it any more
 because it was unlinked or renamed.
 */
module AtomicFile {
  import opened Wrappers

  type Inode = nat
  type Id = nat

  datatype Name = Target | Temp(k: nat)

  datatype Phase = Writing | Syncing | Chmodding | Closing | Renaming | Cleaning

  datatype Writer = Writer(data: string, phase: Phase, temp: nat, inode: Inode, written: nat)

  /** A reader keeps the inode it opened and reads until end of file. */
  datatype Reader = Reader(inode: Inode, got: string, eof: bool)

  datatype State = State(
    names: map<Name, Inode>,
    content: seq<string>,             // by inode
    writers: map<Id, Writer>,
    readers: map<Id, Reader>,
    saves: seq<string>,               // the data of every completed rename
    leaked: set<Inode>)               // temp files that a crash or a failed cleanup left

  const Empty := State(map[], [], map[], map[], [], {})

  datatype Step =
    | Begin(w: Id, data: string, k: nat)     // CreateTemp, which opens with O_EXCL
    | Write(w: Id, n: nat)
    | Sync(w: Id)
    | Chmod(w: Id)
    | Close(w: Id)
    | Rename(w: Id)
    | Fail(w: Id)                             // any call returns an error
    | Clean(w: Id, ok: bool)                  // the deferred removal, then return
    | Crash(w: Id)
    | Unlink(name: Name)
    | Open(r: Id)
    | Read(r: Id, n: nat)
    | Eof(r: Id)

  predicate InPhase(s: State, w: Id, p: Phase) { w in s.writers && s.writers[w].phase == p }

  predicate Enabled(s: State, step: Step) {
    match step
    case Begin(w, data, k) => w !in s.writers && Temp(k) !in s.names
    case Write(w, n) =>
      && InPhase(s, w, Writing) && s.writers[w].inode < |s.content|
      && s.writers[w].written + n <= |s.writers[w].data|
    case Sync(w) => InPhase(s, w, Syncing)
    case Chmod(w) => InPhase(s, w, Chmodding)
    case Close(w) => InPhase(s, w, Closing)
    case Rename(w) => InPhase(s, w, Renaming) && Temp(s.writers[w].temp) in s.names
    case Fail(w) => w in s.writers && !InPhase(s, w, Cleaning)
    case Clean(w, ok) => InPhase(s, w, Cleaning)
    case Crash(w) => w in s.writers
    case Unlink(name) => name in s.names
    case Open(r) => r !in s.readers && Target in s.names
    case Read(r, n) =>
      && r in s.readers && !s.readers[r].eof && s.readers[r].inode < |s.content|
      && |s.readers[r].got| + n <= |s.content[s.readers[r].inode]|
    case Eof(r) =>
      && r in s.readers && s.readers[r].inode < |s.content|
      && |s.readers[r].got| == |s.content[s.readers[r].inode]|
  }

  function Advance(s: State, w: Id, p: Phase): State
    requires w in s.writers
  {
    s.(writers := s.writers[w := s.writers[w].(phase := p)])
  }

  function DoWrite(s: State, w: Id, n: nat): State
    requires Enabled(s, Write(w, n))
  {
    var x := s.writers[w];
    var chunk := x.data[x.written..x.written + n];
    var x' := x.(written := x.written + n, phase := if x.written + n == |x.data| then Syncing else Writing);
    s.(content := s.content[x.inode := s.content[x.inode] + chunk], writers := s.writers[w := x'])
  }

  // rename(2) moves whatever the temp name leads to.
  function DoRename(s: State, w: Id): State
    requires Enabled(s, Rename(w))
  {
    var x := s.writers[w];
    Advance(s, w, Cleaning).(
      names := (s.names - {Temp(x.temp)})[Target := s.names[Temp(x.temp)]],
      saves := s.saves + [x.data])
  }

  function DoClean(s: State, w: Id, ok: bool): State
    requires w in s.writers
  {
    var t := s.writers[w].temp;
    if ok || Temp(t) !in s.names
    then s.(names := s.names - {Temp(t)}, writers := s.writers - {w})
    else s.(writers := s.writers - {w}, leaked := s.leaked + {s.writers[w].inode})
  }

  function DoRead(s: State, r: Id, n: nat): State
    requires Enabled(s, Read(r, n))
  {
    var x := s.readers[r];
    var chunk := s.content[x.inode][|x.got|..|x.got| + n];
    s.(readers := s.readers[r := x.(got := x.got + chunk)])
  }

  function Do(s: State, step: Step): State
    requires Enabled(s, step)
  {
    match step
    case Begin(w, data, k) =>
      s.(names := s.names[Temp(k) := |s.content|], content := s.content + [""],
         writers := s.writers[w := Writer(data, Writing, k, |s.content|, 0)])
    case Write(w, n) => DoWrite(s, w, n)
    case Sync(w) => Advance(s, w, Chmodding)
    case Chmod(w) => Advance(s, w, Closing)
    case Close(w) => Advance(s, w, Renaming)
    case Rename(w) => DoRename(s, w)
    case Fail(w) => Advance(s, w, Cleaning)
    case Clean(w, ok) => DoClean(s, w, ok)
    case Crash(w) => s.(writers := s.writers - {w}, leaked := s.leaked + {s.writers[w].inode})
    case Unlink(name) => s.(names := s.names - {name})
    case Open(r) => s.(readers := s.readers[r := Reader(s.names[Target], "", false)])
    case Read(r, n) => DoRead(s, r, n)
    case Eof(r) => s.(readers := s.readers[r := s.readers[r].(eof := true)])
  }

  predicate Runs(s: State, steps: seq<Step>)
    decreases |steps|
  {
    steps == [] || (Enabled(s, steps[0]) && Runs(Do(s, steps[0]), steps[1..]))
  }

  function Run(s: State, steps: seq<Step>): State
    requires Runs(s, steps)
    decreases |steps|
  {
    if steps == [] then s else Run(Do(s, steps[0]), steps[1..])
  }

  /** The step takes no temp name of a writer that has not returned. */
  predicate Apart(s: State, step: Step) {
    step.Begin? ==> forall w :: w in s.writers ==> s.writers[w].temp != step.k
  }

  predicate AllApart(s: State, steps: seq<Step>)
    requires Runs(s, steps)
    decreases |steps|
  {
    steps == [] || (Apart(s, steps[0]) && AllApart(Do(s, steps[0]), steps[1..]))
  }

  // ---- what holds in every state ------------------------------------------

  /** Its content is a completed save and nobody will write to it again. */
  predicate Frozen(s: State, i: Inode) {
    && i < |s.content| && s.content[i] in s.saves
    && forall w :: w in s.writers && s.writers[w].inode == i ==> !s.writers[w].phase.Writing?
  }

  predicate WriterOk(s: State, x: Writer) {
    && x.inode < |s.content| && x.written <= |x.data|
    && s.content[x.inode] == x.data[..x.written]
    && (x.phase.Syncing? || x.phase.Chmodding? || x.phase.Closing? || x.phase.Renaming? ==> x.written == |x.data|)
    && (Temp(x.temp) in s.names ==> s.names[Temp(x.temp)] == x.inode)
  }

  predicate ReaderOk(s: State, x: Reader) {
    && Frozen(s, x.inode) && x.got <= s.content[x.inode]
    && (x.eof ==> x.got == s.content[x.inode])
  }

  predicate WritersApart(s: State) {
    forall v, w :: v in s.writers && w in s.writers && v != w ==>
      s.writers[v].temp != s.writers[w].temp && s.writers[v].inode != s.writers[w].inode
  }

  predicate TargetOk(s: State) {
    Target in s.names ==>
      s.saves != [] && Frozen(s, s.names[Target]) && s.content[s.names[Target]] == s.saves[|s.saves| - 1]
  }

  predicate ReadersOk(s: State) { forall r :: r in s.readers ==> ReaderOk(s, s.readers[r]) }

  /** Every temp file is some writer's or has been left behind. */
  predicate TempsOwned(s: State) {
    forall n :: n in s.names && n.Temp? ==>
      s.names[n] in s.leaked || exists w :: w in s.writers && s.writers[w].temp == n.k
  }

  predicate Inv(s: State) {
    && WritersApart(s)
    && (forall w :: w in s.writers ==> WriterOk(s, s.writers[w]))
    && TargetOk(s)
    && ReadersOk(s)
    && TempsOwned(s)
  }

  /** Steps that change neither contents, saves nor what a name leads to. */
  lemma MovesKeep(s: State, s': State)
    requires Inv(s)
    requires s'.content == s.content && s'.saves == s.saves && s'.readers == s.readers
    requires s'.names.Keys <= s.names.Keys && (forall n :: n in s'.names ==> s'.names[n] == s.names[n])
    requires s.leaked <= s'.leaked
    requires s'.writers.Keys <= s.writers.Keys
    requires forall w :: w in s'.writers ==>
      && s'.writers[w] == s.writers[w].(phase := s'.writers[w].phase)
      && (s'.writers[w].phase.Writing? ==> s.writers[w].phase.Writing?)
      && (s'.writers[w].phase == s.writers[w].phase || s'.writers[w].phase.Cleaning?
          || s.writers[w].written == |s.writers[w].data|)
    requires forall w :: w in s.writers && w !in s'.writers ==>
      Temp(s.writers[w].temp) !in s'.names || s.writers[w].inode in s'.leaked
    ensures Inv(s')
  {
    forall n | n in s'.names && n.Temp?
      ensures s'.names[n] in s'.leaked || exists w :: w in s'.writers && s'.writers[w].temp == n.k
    {
      if s.names[n] !in s.leaked {
        var w :| w in s.writers && s.writers[w].temp == n.k;
        assert WriterOk(s, s.writers[w]);
        assert w in s'.writers || s'.names[n] in s'.leaked;
      }
    }
  }

  lemma BeginKeeps(s: State, w: Id, data: string, k: nat)
    requires Inv(s) && Enabled(s, Begin(w, data, k)) && Apart(s, Begin(w, data, k))
    ensures Inv(Do(s, Begin(w, data, k)))
  {
    var s' := Do(s, Begin(w, data, k));
    forall i: Inode | Frozen(s, i) ensures Frozen(s', i) {}
    forall v | v in s'.writers
      ensures WriterOk(s', s'.writers[v])
    {
      if v != w { assert WriterOk(s, s.writers[v]); }
    }
    OwnersStay(s, s', w);
  }

  /** Every temp name is still accounted for when writers only come. */
  lemma OwnersStay(s: State, s': State, w: Id)
    requires Inv(s) && w in s'.writers && s'.leaked == s.leaked
    requires forall n :: n in s'.names && n.Temp? ==>
               (n in s.names && s'.names[n] == s.names[n]) || n.k == s'.writers[w].temp
    requires forall v :: v in s.writers ==> v in s'.writers && s'.writers[v].temp == s.writers[v].temp
    ensures forall n :: n in s'.names && n.Temp? ==>
              s'.names[n] in s'.leaked || exists v :: v in s'.writers && s'.writers[v].temp == n.k
  {
    forall n | n in s'.names && n.Temp? && s'.names[n] !in s'.leaked
      ensures exists v :: v in s'.writers && s'.writers[v].temp == n.k
    {
      if n in s.names && s'.names[n] == s.names[n] {
        var v :| v in s.writers && s.writers[v].temp == n.k;
        assert s'.writers[v].temp == n.k;
      } else {
        assert s'.writers[w].temp == n.k;
      }
    }
  }

  lemma WriteKeeps(s: State, w: Id, n: nat)
    requires Inv(s) && Enabled(s, Write(w, n))
    ensures Inv(DoWrite(s, w, n))
  {
    var s', x := DoWrite(s, w, n), s.writers[w];
    assert x.data[..x.written] + x.data[x.written..x.written + n] == x.data[..x.written + n];
    forall i: Inode | Frozen(s, i) ensures Frozen(s', i) && s'.content[i] == s.content[i] {}
    forall v | v in s'.writers
      ensures WriterOk(s', s'.writers[v])
    {
      assert WriterOk(s, s.writers[v]);
    }
    OwnersStay(s, s', w);
    hide Frozen, WriterOk;
    forall r | r in s'.readers
      ensures ReaderOk(s', s'.readers[r])
    {
      assert ReaderOk(s, s.readers[r]);
    }
  }

  lemma RenameKeeps(s: State, w: Id)
    requires Inv(s) && Enabled(s, Rename(w))
    ensures Inv(DoRename(s, w))
  {
    var s', x := DoRename(s, w), s.writers[w];
    assert x.data[..x.written] == x.data;
    assert s'.names[Target] == x.inode && s'.content[x.inode] == x.data;
    forall i: Inode | Frozen(s, i) ensures Frozen(s', i) {}
    forall v | v in s'.writers
      ensures WriterOk(s', s'.writers[v]) && (s'.writers[v].inode == x.inode ==> v == w)
    {
      assert WriterOk(s, s.writers[v]);
    }
    assert Frozen(s', x.inode);
    OwnersStay(s, s', w);
    hide Frozen, WriterOk;
    forall r | r in s'.readers
      ensures ReaderOk(s', s'.readers[r])
    {
      assert ReaderOk(s, s.readers[r]);
    }
  }

  lemma FrozenSame(s: State, s': State, i: Inode)
    requires Frozen(s, i) && s'.content == s.content && s'.saves == s.saves && s'.writers == s.writers
    ensures Frozen(s', i)
  {}

  lemma ReaderStep(s: State, step: Step, r: Id)
    requires ReadersOk(s) && TargetOk(s) && Enabled(s, step) && (step.Open? || step.Read? || step.Eof?)
    requires r in Do(s, step).readers
    ensures ReaderOk(Do(s, step), Do(s, step).readers[r])
  {
    var s' := Do(s, step);
    FrozenSame(s, s', s'.readers[r].inode);
    hide Frozen;
    if r in s.readers {
      assert ReaderOk(s, s.readers[r]);
      if step.Read? && step.r == r {
        ReadOn(s.readers[r].got, s.content[s.readers[r].inode], step.n);
      }
    }
  }

  lemma ReadersKeep(s: State, step: Step)
    requires Inv(s) && Enabled(s, step) && (step.Open? || step.Read? || step.Eof?)
    ensures Inv(Do(s, step))
  {
    var s' := Do(s, step);
    if Target in s.names {
      FrozenSame(s, s', s.names[Target]);
    }
    hide Frozen, ReaderOk;
    forall r | r in s'.readers
      ensures ReaderOk(s', s'.readers[r])
    {
      ReaderStep(s, step, r);
    }
    hide Enabled;
    forall w | w in s'.writers ensures WriterOk(s', s'.writers[w]) {
      assert WriterOk(s, s.writers[w]);
    }
  }

  lemma ReadOn(got: string, c: string, n: nat)
    requires got <= c && |got| + n <= |c|
    ensures got + c[|got|..|got| + n] <= c
  {}

  lemma AdvanceKeeps(s: State, w: Id, p: Phase)
    requires Inv(s) && w in s.writers
    requires p.Cleaning? || (s.writers[w].written == |s.writers[w].data| && !p.Writing?)
    ensures Inv(Advance(s, w, p))
  {
    MovesKeep(s, Advance(s, w, p));
  }

  lemma WrittenOnceSynced(s: State, w: Id)
    requires Inv(s) && (InPhase(s, w, Syncing) || InPhase(s, w, Chmodding) || InPhase(s, w, Closing))
    ensures s.writers[w].written == |s.writers[w].data|
  {
    assert WriterOk(s, s.writers[w]);
  }

  lemma CleanKeeps(s: State, w: Id, ok: bool)
    requires Inv(s) && w in s.writers
    ensures Inv(DoClean(s, w, ok))
  {
    MovesKeep(s, DoClean(s, w, ok));
  }

  lemma LossKeeps(s: State, w: Id, name: Name)
    requires Inv(s)
    ensures w in s.writers ==>
              Inv(s.(writers := s.writers - {w}, leaked := s.leaked + {s.writers[w].inode}))
    ensures Inv(s.(names := s.names - {name}))
  {
    if w in s.writers {
      MovesKeep(s, s.(writers := s.writers - {w}, leaked := s.leaked + {s.writers[w].inode}));
    }
    MovesKeep(s, s.(names := s.names - {name}));
  }

  lemma StepKeeps(s: State, step: Step)
    requires Inv(s) && Enabled(s, step) && Apart(s, step)
    ensures Inv(Do(s, step))
  {
    hide Inv, Apart, DoWrite, DoRename, DoClean, Advance;
    match step
    case Begin(w, data, k) => BeginKeeps(s, w, data, k);
    case Write(w, n) => WriteKeeps(s, w, n);
    case Rename(w) => RenameKeeps(s, w);
    case Open(_) => ReadersKeep(s, step);
    case Read(_, _) => ReadersKeep(s, step);
    case Eof(_) => ReadersKeep(s, step);
    case Sync(w) => WrittenOnceSynced(s, w); AdvanceKeeps(s, w, Chmodding);
    case Chmod(w) => WrittenOnceSynced(s, w); AdvanceKeeps(s, w, Closing);
    case Close(w) => WrittenOnceSynced(s, w); AdvanceKeeps(s, w, Renaming);
    case Fail(w) => AdvanceKeeps(s, w, Cleaning);
    case Clean(w, ok) => CleanKeeps(s, w, ok);
    case Crash(w) => LossKeeps(s, w, Target);
    case Unlink(name) => LossKeeps(s, 0, name);
  }

  lemma {:induction false} RunKeeps(s: State, steps: seq<Step>)
    requires Inv(s) && Runs(s, steps) && AllApart(s, steps)
    ensures Inv(Run(s, steps))
    decreases |steps|
  {
    hide Inv, Apart;
    if steps != [] {
      StepKeeps(s, steps[0]);
      RunKeeps(Do(s, steps[0]), steps[1..]);
    }
  }

  // ---- whole files --------------------------------------------------------

  /** state.json is absent or the last completed save, and whoever has read it to the
      end, whenever it opened it, holds exactly the bytes of one completed save. */
  predicate Whole(s: State) {
    && (Target in s.names ==>
          && s.names[Target] < |s.content| && s.saves != []
          && s.content[s.names[Target]] == s.saves[|s.saves| - 1])
    && (forall r :: r in s.readers && s.readers[r].eof ==> s.readers[r].got in s.saves)
  }

  /** Whole files on every run, of any number of overlapping writers, in which no
      CreateTemp is given the name of a writer that has not returned. */
  lemma WholeWhileApart(steps: seq<Step>)
    requires Runs(Empty, steps) && AllApart(Empty, steps)
    ensures Whole(Run(Empty, steps))
  {
    RunKeeps(Empty, steps);
  }

  ghost predicate AlwaysWhole(apart: bool) {
    forall steps :: Runs(Empty, steps) && (apart ==> AllApart(Empty, steps)) ==> Whole(Run(Empty, steps))
  }

  /** The rename trick by itself, with O_EXCL alone, does not do it. */
  lemma WholeIffApart(apart: bool)
    ensures AlwaysWhole(apart) <==> apart
  {
    if apart {
      forall steps | Runs(Empty, steps) && AllApart(Empty, steps)
        ensures Whole(Run(Empty, steps))
      {
        WholeWhileApart(steps);
      }
    } else {
      var steps, s := TornFile();
      assert !Whole(Run(Empty, steps));
    }
  }

  predicate Reaches(steps: seq<Step>, s: State) {
    Runs(Empty, steps) && Run(Empty, steps) == s
  }

  lemma {:induction false} Append(s: State, steps: seq<Step>, step: Step)
    requires Runs(s, steps) && Enabled(Run(s, steps), step)
    ensures Runs(s, steps + [step])
    ensures Run(s, steps + [step]) == Do(Run(s, steps), step)
    decreases |steps|
  {
    if steps == [] {
      assert [step][1..] == [] && steps + [step] == [step];
      assert Runs(Do(s, step), []);
    } else {
      assert (steps + [step])[1..] == steps[1..] + [step];
      Append(Do(s, steps[0]), steps[1..], step);
    }
  }

  lemma Take(steps: seq<Step>, s: State, step: Step) returns (more: seq<Step>, s': State)
    requires Reaches(steps, s) && Enabled(s, step)
    ensures Reaches(more, s') && s' == Do(s, step)
  {
    more, s' := steps + [step], Do(s, step);
    Append(Empty, steps, step);
  }

  lemma WrittenOut() returns (steps: seq<Step>, s: State)
    ensures Reaches(steps, s) && s.saves == [] && s.names == map[Temp(0) := 0]
    ensures s.writers == map[0 := Writer("a", Renaming, 0, 0, 1)] && |s.content| == 1
  {
    steps, s := [], Empty;
    hide Reaches;
    assert Reaches(steps, s) by { ReachesEmpty(); }
    steps, s := Take(steps, s, Begin(0, "a", 0));
    steps, s := Take(steps, s, Write(0, 1));
    steps, s := Take(steps, s, Sync(0));
    steps, s := Take(steps, s, Chmod(0));
    steps, s := Take(steps, s, Close(0));
  }

  lemma ReachesEmpty()
    ensures Reaches([], Empty)
  {}

  /** Two writers at once: the first one's temp file is unlinked, the second gets the
      same name, and the first renames the second's empty file into place. */
  lemma TornFile() returns (steps: seq<Step>, s: State)
    ensures Reaches(steps, s) && !Whole(s) && !AllApart(Empty, steps)
  {
    hide Reaches;
    steps, s := WrittenOut();
    steps, s := Take(steps, s, Unlink(Temp(0)));
    steps, s := Take(steps, s, Begin(1, "b", 0));
    steps, s := Take(steps, s, Rename(0));
    assert s.content[s.names[Target]] == "" && s.saves == ["a"];
    NotWholeNotApart(steps, s);
  }

  lemma NotWholeNotApart(steps: seq<Step>, s: State)
    requires Reaches(steps, s) && !Whole(s)
    ensures !AllApart(Empty, steps)
  {
    if AllApart(Empty, steps) {
      WholeWhileApart(steps);
    }
  }

  // ---- one cell -----------------------------------------------------------

  /** state.json as a single cell that is written and emptied in one step. */
  function Cell(s: State): Option<string>
    requires Inv(s)
  {
    if Target in s.names then Some(s.content[s.names[Target]]) else None
  }

  /** Only a rename writes the cell, and it writes the whole of the data that its
      writer was given; only unlinking the target empties it. */
  lemma StepIsAtomic(s: State, step: Step)
    requires Inv(s) && Enabled(s, step) && Apart(s, step)
    ensures Inv(Do(s, step))
    ensures Cell(Do(s, step)) ==
              match step
              case Rename(w) => Some(s.writers[w].data)
              case Unlink(name) => if name.Target? then None else Cell(s)
              case _ => Cell(s)
  {
    StepKeeps(s, step);
    if step.Rename? {
      var x := s.writers[step.w];
      assert WriterOk(s, x) && x.data[..x.written] == x.data;
    }
  }

  /** What has been put in place stays as it is. */
  lemma FrozenStays(s: State, step: Step, i: Inode)
    requires Inv(s) && Enabled(s, step) && Frozen(s, i)
    ensures var s' := Do(s, step); Frozen(s', i) && s'.content[i] == s.content[i]
  {}

  predicate Reads(s: State, r: Id, i: Inode) { r in s.readers && s.readers[r].inode == i }

  lemma StepReads(s: State, step: Step, r: Id, i: Inode)
    requires Inv(s) && Enabled(s, step) && Reads(s, r, i)
    ensures Reads(Do(s, step), r, i)
  {}

  lemma {:induction false} RunReads(s: State, steps: seq<Step>, r: Id, i: Inode)
    requires Inv(s) && Runs(s, steps) && AllApart(s, steps) && Reads(s, r, i) && Frozen(s, i)
    ensures var t := Run(s, steps);
            Inv(t) && Reads(t, r, i) && Frozen(t, i) && t.content[i] == s.content[i]
    decreases |steps|
  {
    hide Inv, Frozen, Reads, Apart;
    if steps != [] {
      StepKeeps(s, steps[0]);
      StepReads(s, steps[0], r, i);
      FrozenStays(s, steps[0], i);
      RunReads(Do(s, steps[0]), steps[1..], r, i);
    }
  }

  /** A whole read, however it is cut up and whatever is saved or unlinked meanwhile,
      gives what the cell held when the file was opened. */
  lemma ReadIsAtomic(before: seq<Step>, r: Id, after: seq<Step>)
    requires Runs(Empty, before) && AllApart(Empty, before) && Enabled(Run(Empty, before), Open(r))
    requires Runs(Do(Run(Empty, before), Open(r)), after)
    requires AllApart(Do(Run(Empty, before), Open(r)), after)
    ensures var s := Run(Empty, before);
            var t := Run(Do(s, Open(r)), after);
            && Inv(s) && r in t.readers
            && (t.readers[r].eof ==> Cell(s) == Some(t.readers[r].got))
  {
    RunKeeps(Empty, before);
    var s := Run(Empty, before);
    var i, s1 := s.names[Target], Do(s, Open(r));
    StepKeeps(s, Open(r));
    RunReads(s1, after, r, i);
    var t := Run(s1, after);
    hide Run;
    assert ReaderOk(t, t.readers[r]);
  }

  // ---- one name a file ----------------------------------------------------

  /** No two names lead to the same file. */
  predicate NoLinks(s: State) {
    && (forall n :: n in s.names ==> s.names[n] < |s.content|)
    && (forall m, n :: m in s.names && n in s.names && m != n ==> s.names[m] != s.names[n])
  }

  lemma StepNoLinks(s: State, step: Step)
    requires NoLinks(s) && Enabled(s, step)
    ensures NoLinks(Do(s, step))
    ensures step.Begin? ==> forall n :: n in s.names ==> n in Do(s, step).names && Do(s, step).names[n] == s.names[n]
  {}

  /** On every run: a rename takes the temp name away with it, and CreateTemp makes a new
      file and replaces none. */
  lemma {:induction false} RunNoLinks(s: State, steps: seq<Step>)
    requires NoLinks(s) && Runs(s, steps)
    ensures NoLinks(Run(s, steps))
    decreases |steps|
  {
    hide NoLinks, Enabled, Do;
    if steps != [] {
      StepNoLinks(s, steps[0]);
      RunNoLinks(Do(s, steps[0]), steps[1..]);
    }
  }

  // ---- the order of the calls ---------------------------------------------

  lemma {:induction false} RunsSplit(s: State, steps: seq<Step>, n: nat)
    requires Runs(s, steps) && n < |steps|
    ensures Runs(s, steps[..n]) && Enabled(Run(s, steps[..n]), steps[n])
    ensures Runs(s, steps[..n + 1]) && Run(s, steps[..n + 1]) == Do(Run(s, steps[..n]), steps[n])
    decreases n
  {
    hide Enabled, Do;
    if n == 0 {
      assert steps[..1] == [steps[0]] && steps[..1][1..] == [] && steps[..0] == [];
    } else {
      var t := Do(s, steps[0]);
      RunsSplit(t, steps[1..], n - 1);
      assert steps[1..][..n - 1] == steps[..n][1..] && steps[1..][..n] == steps[..n + 1][1..];
    }
  }

  predicate Works(s: State, w: Id, p: Phase, i: Inode) { InPhase(s, w, p) && s.writers[w].inode == i }

  /** The writer of this file is in this phase after n steps. */
  predicate PhaseAt(steps: seq<Step>, n: nat, w: Id, p: Phase, i: Inode)
    requires Runs(Empty, steps) && n <= |steps|
  {
    PrefixRuns(steps, n);
    Works(Run(Empty, steps[..n]), w, p, i)
  }

  /** A phase is entered by its call alone. */
  lemma StepEnters(s: State, step: Step, w: Id, p: Phase, i: Inode)
    requires Enabled(s, step) && (p.Chmodding? || p.Closing? || p.Renaming?) && Works(Do(s, step), w, p, i)
    ensures Works(s, w, p, i) || (step == CallBefore(w, p).0 && Works(s, w, CallBefore(w, p).1, i))
  {}

  lemma PrefixRuns(steps: seq<Step>, n: nat)
    requires Runs(Empty, steps) && n <= |steps|
    ensures Runs(Empty, steps[..n])
  {
    if n < |steps| {
      RunsSplit(Empty, steps, n);
    } else {
      assert steps[..n] == steps;
    }
  }

  /** The call that leads to a phase, and the phase it is made in. */
  function CallBefore(w: Id, p: Phase): (Step, Phase)
    requires p.Chmodding? || p.Closing? || p.Renaming?
  {
    match p
    case Chmodding => (Sync(w), Syncing)
    case Closing => (Chmod(w), Chmodding)
    case Renaming => (Close(w), Closing)
  }

  lemma {:induction false} PhaseIsEntered(steps: seq<Step>, n: nat, w: Id, p: Phase, i: Inode) returns (k: nat)
    requires Runs(Empty, steps) && n <= |steps| && PhaseAt(steps, n, w, p, i)
    requires p.Chmodding? || p.Closing? || p.Renaming?
    ensures k < n && steps[k] == CallBefore(w, p).0 && PhaseAt(steps, k, w, CallBefore(w, p).1, i)
  {
    assert n > 0;
    hide Run, Runs, Works, Enabled, Do, CallBefore;
    RunsSplit(Empty, steps, n - 1);
    StepEnters(Run(Empty, steps[..n - 1]), steps[n - 1], w, p, i);
    if PhaseAt(steps, n - 1, w, p, i) {
      k := PhaseIsEntered(steps, n - 1, w, p, i);
    } else {
      k := n - 1;
    }
  }

  /** Whoever is about to rename a file has synced it, then set its mode, then closed it. */
  lemma RenameComesLast(steps: seq<Step>, w: Id) returns (a: nat, b: nat, c: nat)
    requires Runs(Empty, steps) && InPhase(Run(Empty, steps), w, Renaming)
    ensures a < b < c < |steps| && steps[a] == Sync(w) && steps[b] == Chmod(w) && steps[c] == Close(w)
    ensures var i := Run(Empty, steps).writers[w].inode;
            PhaseAt(steps, a, w, Syncing, i) && PhaseAt(steps, b, w, Chmodding, i) && PhaseAt(steps, c, w, Closing, i)
  {
    assert steps[..|steps|] == steps;
    var i := Run(Empty, steps).writers[w].inode;
    c := PhaseIsEntered(steps, |steps|, w, Renaming, i);
    b := PhaseIsEntered(steps, c, w, Closing, i);
    a := PhaseIsEntered(steps, b, w, Chmodding, i);
  }

  /** And nobody syncs a file before all of its data is written. */
  lemma SyncedIsWritten(steps: seq<Step>, w: Id)
    requires Runs(Empty, steps) && AllApart(Empty, steps) && Enabled(Run(Empty, steps), Sync(w))
    ensures var s := Run(Empty, steps);
            s.writers[w].inode < |s.content| && s.content[s.writers[w].inode] == s.writers[w].data
  {
    RunKeeps(Empty, steps);
    var s := Run(Empty, steps);
    hide Run;
    assert WriterOk(s, s.writers[w]);
    assert s.writers[w].data[..|s.writers[w].data|] == s.writers[w].data;
  }

  // ---- nothing left behind ------------------------------------------------

  /** The writer of this file crashes, or fails to remove it as it returns. */
  predicate Abandons(s: State, step: Step, i: Inode) {
    && (step.Crash? || (step.Clean? && !step.ok))
    && step.w in s.writers && s.writers[step.w].inode == i
  }

  /** Some step of the run abandons the file. */
  predicate Abandoned(s: State, steps: seq<Step>, i: Inode)
    requires Runs(s, steps)
    decreases |steps|
  {
    steps != [] && (Abandons(s, steps[0], i) || Abandoned(Do(s, steps[0]), steps[1..], i))
  }

  lemma {:induction false} LeakedWasAbandoned(s: State, steps: seq<Step>, i: Inode)
    requires Runs(s, steps) && i in Run(s, steps).leaked && i !in s.leaked
    ensures Abandoned(s, steps, i)
    decreases |steps|
  {
    if i in Do(s, steps[0]).leaked {
      assert Abandons(s, steps[0], i);
    } else {
      LeakedWasAbandoned(Do(s, steps[0]), steps[1..], i);
    }
  }

  /** Whatever is in the directory beside the target is the file of a writer that has
      not returned, or its own writer crashed or failed to remove it. */
  lemma NoTempFilesLeft(steps: seq<Step>, k: nat)
    requires Runs(Empty, steps) && AllApart(Empty, steps) && Temp(k) in Run(Empty, steps).names
    ensures var s := Run(Empty, steps);
            || (exists w :: w in s.writers && s.writers[w].temp == k && s.writers[w].inode == s.names[Temp(k)])
            || Abandoned(Empty, steps, s.names[Temp(k)])
  {
    RunKeeps(Empty, steps);
    var s := Run(Empty, steps);
    var i := s.names[Temp(k)];
    if i in s.leaked {
      LeakedWasAbandoned(Empty, steps, i);
    } else {
      var w :| w in s.writers && s.writers[w].temp == k;
      assert WriterOk(s, s.writers[w]);
    }
  }

  /** No crash, and every cleanup that finds the temp file can remove it. */
  predicate Tidy(steps: seq<Step>) {
    forall i :: 0 <= i < |steps| ==> !steps[i].Crash? && (steps[i].Clean? ==> steps[i].ok)
  }

  lemma {:induction false} TidyAbandonsNothing(s: State, steps: seq<Step>, i: Inode)
    requires Runs(s, steps) && Tidy(steps)
    ensures !Abandoned(s, steps, i)
    decreases |steps|
  {
    if steps != [] {
      assert steps[0] in steps;
      TidyAbandonsNothing(Do(s, steps[0]), steps[1..], i);
    }
  }

  /** So, once every write has returned without either, only the target is left. */
  lemma OnlyTheTarget(steps: seq<Step>)
    requires Runs(Empty, steps) && AllApart(Empty, steps) && Tidy(steps)
    requires Run(Empty, steps).writers == map[]
    ensures Run(Empty, steps).names.Keys <= {Target}
  {
    var s := Run(Empty, steps);
    forall n | n in s.names
      ensures n == Target
    {
      if n.Temp? {
        NoTempFilesLeft(steps, n.k);
        TidyAbandonsNothing(Empty, steps, s.names[n]);
      }
    }
  }

  // ---- the function, run alone --------------------------------------------

  /** The call that fails, if any. */
  datatype Fault = NoFault | InCreate | InWrite | InSync | InChmod | InClose | InRename

  class Folder {
    var files: map<Name, string>

    constructor ()
      ensures files == map[]
    {
      files := map[];
    }

    /** AtomicWriteFile: the target changes to data in whole or not at all. */
    method AtomicWriteFile(data: string, k: nat, fault: Fault, partial: nat, cleanup: bool) returns (ok: bool)
      requires Temp(k) !in files && partial <= |data|
      modifies this
      ensures ok <==> fault.NoFault?
      ensures ok ==> files == old(files)[Target := data]
      ensures !ok ==> files - {Temp(k)} == old(files)
      ensures cleanup || fault.InCreate? ==> Temp(k) !in files
      ensures !ok && !cleanup && !fault.InCreate? ==>
                Temp(k) in files && files[Temp(k)] == if fault.InWrite? then data[..partial] else data
    {
      if fault.InCreate? {
        return false;
      }
      files := files[Temp(k) := ""];
      ok := Fill(data, k, fault, partial);
      // the deferred function
      if Temp(k) in files && cleanup {
        files := files - {Temp(k)};
      }
    }

    method Fill(data: string, k: nat, fault: Fault, partial: nat) returns (ok: bool)
      requires Temp(k) in files && partial <= |data| && !fault.InCreate?
      modifies this
      ensures ok <==> fault.NoFault?
      ensures ok ==> files == (old(files) - {Temp(k)})[Target := data]
      ensures !ok ==> Temp(k) in files && files - {Temp(k)} == old(files) - {Temp(k)}
      ensures !ok ==> files[Temp(k)] == if fault.InWrite? then data[..partial] else data
    {
      if fault.InWrite? {
        files := files[Temp(k) := data[..partial]];
        return false;
      }
      files := files[Temp(k) := data];
      if fault.InSync? || fault.InChmod? || fault.InClose? || fault.InRename? {
        return false;
      }
      files := (files - {Temp(k)})[Target := files[Temp(k)]];
      ok := true;
    }
  }
}
