# The lifecycle of an anocir container, modelled and proved

anocir is an OCI runtime. Several short-lived commands (create, start, kill, pause,
resume, state, delete) and one long-lived child work on a container through a lock
file, a state file and one-byte socket messages. This project models that protocol
as a state machine over its system calls and proves what it promises on every
interleaving, and it models the algorithms around it: the atomic file write, the
namespace list that Go prints and C parses, the mount and capability bits, the
privilege changes before the user's program, the exec command line and the walk to
the parent mount.

## The protocol

- `Lifecycle` has the state record, its JSON, the guards, and the effect on
  state.json of one operation that runs whole. What the world answers an operation
  (hooks, messages, the liveness probe, the fate of each save) is one record.
- `Protocol` has the state machine. A step is one system call or one hook run of one
  command, or one move of the child. The environment chooses freely whether a hook,
  a save or a call fails, when a process dies, what the probe of the child answers
  (never that a living child is gone), and in which order and how far os.RemoveAll
  gets; `Quit` stands for every error return and for a crash.
- `Handshake` and `HookOrder` hold in every environment. `Locking` holds on every run
  that never makes c.lock anew while state.json is there (`LockKept`). Whether that can
  happen depends on the order in which os.RemoveAll takes the two names, one field of
  the configuration, `lockFirst`; `RemovalOrder` shows with concrete runs that mutual
  exclusion, serialisability and the finality of the removal each hold on all runs of
  an environment if and only if it is false, and `Histories` does so for the status
  path, which also holds when there is no process to run, and for what the disk says
  when MsgStart is sent.
- `Frames`, `Guarantees`, `Endings` and `Completion` state the results over whole
  runs: who can write, the joint state of disk and child, the status path, what can
  never be undone, and that neither handshake goes on for ever, that of create never
  gets stuck, and that of start does so only when its directory is removed under it.
  `Creation` shows why nobody disturbs a create and `Stranding` when a start is
  stranded. Results without `LockKept` hold in every environment.
- `Scripts` and `Outcomes` look at a run as the lists of the steps of each party: the
  child follows one script, a command that succeeds has made exactly the calls of its
  operation, and every other outcome has its reason. `Lookup` says what the search for
  the user's executable decides, `Connections` how long a connection is open, and
  `Finishing` that nobody else is ever blocked and a removal can always be completed.
- `Container` has the operations as methods of a class that updates its state and its
  directory step by step, each proved against the atomic effect of `Lifecycle`, and
  the replay that every run that keeps its lock is equal to.
- `AtomicFile` justifies that `Protocol` reads and writes state.json in one step, also
  where writes overlap: state.json is a cell that a rename writes and an unlink empties,
  and a read gives what the cell held when the file was opened, as long as no
  os.CreateTemp draws the name of a writer that has not returned.

Which step models which lines: `DoMkdir` internal/oci/create.go:110-116; `DoLoad`
internal/container/load.go:22-62; `DoOpenLock` and `DoFlock`
internal/container/container.go:181-202; `DoReload` 1069-1082; `DoCheck` 1031-1050;
`DoSave` 118-167; `DoFork` 486-590; `DoReceiveInit` 613-652; `DoRunHooks`
internal/container/lifecycle.go:24-56; `DoDial` and `DoSendStart`
internal/container/container.go:329-344; `DoReceiveExecReady` 359-370; `DoCgroup`
830-832 and 860-862; `DoProbe` 1093-1104; `DoUnlinkState`, the step `UnlinkLock` and
`DoRmdir` 252; `Finish` the deferred Unlock and Close of each operation; `DoChild`
669-815.

## The algorithms

- `NsHandover` has strtok_r on a buffer of characters with its nested use, the parser
  and the printer; `Namespaces` has configureNamespaces and the list of exec;
  `Environment` has getenv and the duplicate rule of os/exec, and `Launch` puts the four
  together, from the spec or the exec list to the joins that the constructor attempts.
- `Bits` and `MountFlags` have the option fold on 64-bit words; `Capabilities` the
  two-word masks; `Privileges` the credentials of a process with the kernel's rules of
  capabilities(7), setuid(2), prctl(2) and seccomp(2), and the program on them.
- `Decimal` and `ExecArgs` have the exec command line, the descriptor table and the
  environment, with their reader; `ParentWalk` has filepath.Dir on absolute paths and
  the walk.

## What the proofs found

- The lock protects a container only while os.RemoveAll does not take c.lock away
  before state.json. If it does, a state command can get past its reload while the
  delete is still removing, and can write state.json anew after it was removed.
- In that case a forced delete can also remove the directory under a start that has
  just read MsgExecReady. The start is stranded: the child goes on to run the user's
  program, and nobody can ever save that it does.
- A start that ends after its dial and before the container runs uses up the one
  connection that the child accepts. The container never gets to running: no later
  start can bring it there.
- A create whose pid file cannot be written fails, but the container is created.
- The join list is handed over exactly only for paths without commas and colons.
- A container environment that sets `_ANOCIR_JOIN_NS` replaces the list of its spec,
  because it is appended behind it and os/exec keeps the last entry of a key; in exec
  an entry of the caller's environment hides the list, because it stands before it and
  getenv takes the first.
- With c.lock gone and made anew a container can be saved as running after stopped.
- `shared` or `rshared` anywhere in the options of a mount suppresses the propagation
  type asked for by a later option.
- childexec puts its capabilities into the bounding list alone, so an exec without
  ALL ends with empty permitted, effective and ambient sets.
- The number of the seccomp descriptor is appended behind the caller's environment,
  so an entry of the caller with the same key hides it.
- Where comment and code disagree the code was followed: DropBoundingCapabilities
  drops the capabilities that are not listed
  (internal/platform/capabilities.go:184-185), SetPropagation accepts MS_UNBINDABLE
  and 0 where its comment says MS_BINDABLE (internal/platform/mount.go:57-60), and
  Save makes no directory (internal/container/container.go:169-170).

## Model

| member | source | states |
|---|---|---|
| Lifecycle.ReloadExact | internal/container/container.go:1069-1082 | Reloading state.json into a struct that already has values gives back the file if and only if nothing that the file leaves out (pid 0, empty annotations, missing annotation keys) is present in memory |
| Lifecycle.HistoryPids | internal/container/container.go:1031-1050 | Along any history that makes only the legal moves, creating is exactly pid 0 and exactly the first content, a pid once set never changes, and stopped is never left |
| Handshake.Reachable | internal/container/container.go:466-664 | Every run of any number of commands and the child, in every environment, keeps the invariant that ties channels, connections, state.json and the memory of every process together |
| Handshake.StepKeeps | internal/container/container.go:308-383 | One step of anybody keeps that invariant |
| Handshake.ReloadIsExact | internal/container/container.go:1069-1082 | A locked reload that finds the file leaves in memory exactly the last saved state, whatever the unlocked load read before |
| Handshake.InitHears | internal/container/container.go:613-652 | Init reads MsgPrePivot first and then MsgReady or MsgInvalidExecutable, and nothing else |
| Handshake.StartHears | internal/container/container.go:359-370 | Only the start that owns the first connection ever reads anything, and what it reads is MsgExecReady from a child past its startContainer hooks |
| Handshake.SavedIsKnown | internal/container/container.go:118-147 | What any process is about to save is legitimate at that moment: it belongs to this child, running or paused only after MsgExecReady, stopped only for a dead child or a nil Process |
| Handshake.OnlyOneSaveWhileCreating | internal/container/container.go:1031-1050 | Nobody but the creator is ever about to save while the container is creating |
| HookOrder.HooksInOrder | internal/container/container.go:628-661 | On every run every event is preceded by those that must come first: createRuntime and createContainer hooks before the created save, prestart before MsgStart, startContainer before MsgExecReady, MsgExecReady before the running save, that save before poststart, the removal of the directory before poststop |
| HookOrder.StepPast | internal/container/container.go:751-812 | One step of anybody keeps what has happened by each program point of every command and of the child |
| HookOrder.SaveJustified | internal/container/container.go:118-167 | The save that a process is about to make is justified by the hooks and messages before it |
| HookOrder.HookJustified | internal/container/lifecycle.go:24-56 | The hooks that a process is about to run are justified by the saves and the removal before them |
| Locking.ReachableLocked | internal/container/container.go:181-215 | Every run of every environment in which nobody makes c.lock anew while state.json is there keeps the lock invariant, whose serial part says that the contents of state.json are those of the lock winners run whole in lock order |
| Locking.StepLocked | internal/container/container.go:219-300 | One step of anybody keeps the lock invariant, unless it makes c.lock anew while state.json is there |
| Locking.SaveEffect | internal/container/container.go:118-167 | From a state with the lock invariant, the save that a lock holder makes is the next write of its atomic effect, and its failure leaves the effect where it was |
| Locking.SaveLegal | internal/container/container.go:1031-1050 | From a state with the lock invariant, every save is the first content or a legal move from the one before |
| Locking.Alone | internal/container/container.go:192-198 | Two processes that both hold a lock before the removal, or are both past their reload, are the same process |
| Locking.RemovalEffect | internal/container/container.go:245-254 | Unlinking state.json completes the atomic effect of a delete |
| RemovalOrder.LockKeptIsEnough | internal/container/container.go:181-198 | On every run of every environment in which nobody makes c.lock anew while state.json is there, one process at a time is past its reload and the history is serial |
| RemovalOrder.StateFirstKeepsLock | internal/container/container.go:252 | When removals take state.json before c.lock, no run makes c.lock anew while state.json is there |
| RemovalOrder.SingleWriterIff | internal/container/container.go:252 | An environment has one process at a time past its reload, on all runs, if and only if its removals never take c.lock away before state.json |
| RemovalOrder.SerialIff | internal/container/container.go:252 | An environment has serial histories, on all runs, if and only if its removals never take c.lock away before state.json |
| RemovalOrder.StaysGoneIff | internal/container/container.go:252 | In an environment state.json never comes back after its removal, on all runs, if and only if its removals never take c.lock away before state.json |
| RemovalOrder.RunStaysGone | internal/container/container.go:219-254 | From a state with the lock invariant and without state.json, no run writes it again |
| RemovalOrder.TwoWriters | internal/container/container.go:181-215 | A concrete run with two effective writers when c.lock goes first |
| RemovalOrder.Resurrection | internal/container/container.go:289-297 | A concrete run in which a state command writes state.json anew after the delete has unlinked it |
| Frames.LosersWriteNothing | internal/container/container.go:188-198 | A process that was told ErrOperationInProgress has no place in the lock order and has written nothing, and nobody wins the lock twice |
| Guarantees.JointState | internal/container/container.go:751-812 | On every run, what state.json says and how far the child has come agree: creating is pid 0, created implies MsgReady, running or paused implies that MsgStart was consumed, the startContainer hooks succeeded and MsgExecReady was sent, stopped implies a dead child or a nil Process |
| Guarantees.UserProcessWasStarted | internal/container/container.go:771-812 | On every run that executes the user's program, the owner of the accepted connection sent MsgStart at some step, and at that step it was a start that held its lock, had reloaded created and had run its prestart hooks; the child received it, its startContainer hooks succeeded and MsgExecReady was sent |
| Guarantees.SenderSeesCreated | internal/container/container.go:308-343 | On every run whoever is about to send MsgStart is a start that holds the lock file it opened, has reloaded created and has run its prestart hooks |
| Guarantees.StartIsSentFromCreated | internal/container/container.go:320-344 | If moreover nobody has made c.lock anew while state.json was there, state.json still says created |
| Guarantees.NoMessageConfusion | internal/container/ipc/ipc.go:16-35 | The four branches that reject an unexpected message are never taken, and each channel carries a prefix of what its reader waits for |
| Guarantees.ReloadGivesLastSave | internal/container/container.go:1069-1082 | After every locked reload of every run the memory is the state that was saved last |
| Guarantees.PidsOnEveryRun | internal/container/container.go:97-103 | On every run pid 0 is exactly creating and exactly the first content, and a pid once set never changes |
| Guarantees.StatusPath | internal/container/container.go:1031-1050 | On every run in which nobody makes c.lock anew while state.json is there, the contents of state.json go creating, created, running and paused in alternation, stopped: created follows creating alone, running follows created or paused, paused follows running, and stopped is never left |
| Histories.StatusPathIff | internal/container/container.go:1031-1050 | An environment keeps the status path on all runs if and only if its removals never take c.lock away before state.json or there is no process to run |
| Histories.StoppedThenRunning | internal/container/container.go:372-375 | A concrete run that saves running over stopped otherwise |
| Histories.RunStraight | internal/container/container.go:346-353 | Without a process every run saves creating, created and then nothing but stopped |
| Histories.SentFromDiskIff | internal/container/container.go:320-344 | In an environment state.json is always what the start reloaded when MsgStart is about to be sent, on all runs, if and only if its removals never take c.lock away before state.json |
| Histories.SentWithoutDisk | internal/container/container.go:329-344 | A concrete run otherwise, on which state.json is gone as MsgStart is about to be sent |
| Guarantees.OneCreatePasses | internal/oci/create.go:110-116 | Of all the creates of a run at most one gets past the exclusive Mkdir |
| Guarantees.OnlyTheCreatorCreates | internal/oci/create.go:51-70 | A create at work past Mkdir is the one that made the directory |
| Endings.CreatingIsStuck | internal/container/container.go:245-250 | In every environment a container that a dead create left creating is never saved again, and only a forced delete takes its state.json away |
| Endings.CreateDies | internal/container/container.go:466-474 | Such a container is reached |
| Endings.CreatedButFailed | internal/container/container.go:146-167 | A concrete run on which create fails and leaves a created container behind, because its pid file is written after state.json |
| Endings.DeadLineStaysDead | internal/container/container.go:756-769 | In every environment, once the start that owns the child's only accepted connection has ended without the container having run, no run ever saves running or paused |
| Endings.RunRanFirst | internal/container/container.go:1069-1082 | On every run nobody has running or paused in memory before it has been saved |
| Endings.StartDiesOnTheLine | internal/container/container.go:329-343 | Such a state is reached, with the container created and its child alive |
| Endings.OrphanedLockIsHarmless | internal/container/container.go:1069-1082 | After state.json is gone on a run in which nobody made c.lock anew beside it, nobody new gets past the reload, whichever lock file he has opened or made and whether he gets its flock, and nothing is written |
| Creation.CreateIsUndisturbed | internal/container/container.go:466-664 | On every run of every environment, between its Mkdir and its end a create has the directory, nobody else is past the lock, and from its first save up to its second state.json is there and says creating |
| Creation.StepUndisturbed | internal/container/container.go:181-202 | One step of anybody keeps this: whoever comes in while the creator is at work opens the creator's c.lock |
| Creation.FlockIsRefused | internal/container/container.go:188-198 | Whoever asks for the lock while the creator is at work is told ErrOperationInProgress |
| Completion.HandshakeCompletes | internal/container/container.go:613-661 | From any state of the create or the start handshake that keeps what every run of every environment keeps, on every run in which neither party fails or dies, whatever other commands do in between, at most Left of the handshake's own steps are taken before it completes, and until it completes one of them can be taken, unless it is a start about to save running in a directory that has been removed |
| Completion.EveryHandshakeCompletes | internal/container/container.go:329-375 | The same from every state that the commands can have brought about, in every environment |
| Lookup.LookupDecides | internal/container/container.go:736-748 | On every run the child reports a missing executable exactly when it has a mount namespace and a process to run and has not found the executable; a create ends with that error only then; and then the child never reports ready and created is never saved |
| Lookup.EveryCreateCompletes | internal/container/container.go:613-661 | A create from its fork on, on every run of every environment on which neither party fails: at most Left of its own steps are taken before it ends, until then one can be taken, and it ends with the created save if no search for the executable failed and with the error if one did |
| Scripts.ChildFollowsScript | internal/container/container.go:669-815 | On every run the child's own steps are its script from the beginning, each once and in order, up to a death, a failed hook or a missing executable; a child that runs the user's program has been through all of it |
| Outcomes.OutcomesMean | internal/container/container.go:219-462 | On every run a command that succeeds has made exactly the calls of its operation, in order; and every other outcome has its reason in the step that ended the command, such as a status that the operation may not begin from |
| Outcomes.StepAccounted | internal/container/container.go:308-383 | One step of a command keeps this account of what it has done |
| Finishing.NeverBlocked | internal/container/container.go:181-300 | In every reachable state every command at work that does not wait for a message can take a step of its own other than giving up |
| Finishing.DeleteCanFinish | internal/container/container.go:245-274 | From every state in which a delete is past its guard, whatever is left of the directory and whatever the poststop hooks answer, its own next steps take the rest away and end it with success |
| Finishing.DeadIsFound | internal/container/container.go:1093-1104 | Whenever the child is dead, a state or a delete that probes it can find it out, and then state.json comes to say stopped |
| Connections.OpenWhileStarting | internal/container/container.go:329-370 | On every run a connection is open exactly as long as the start that made it has not ended, and the child announces itself only to a start that waits for it |
| Guarantees.ChildLoadsCreating | internal/oci/reexec.go:22-25 | What the child loads, without a lock, is the state that its create saved first |
| Frames.TakenExactlyWhileHeld | internal/container/container.go:188-215 | On every run the flock of an inode is taken exactly while some command is between its flock and its end |
| Stranding.RemovedIsEmpty | internal/container/container.go:252 | Along every run a removed directory is an empty one |
| Completion.CreateNotStuck | internal/container/container.go:713-754 | Create and child are never both blocked, in any state that a run of any environment reaches |
| Completion.StartCanGoOnIff | internal/container/container.go:756-806 | Start and child are both blocked if and only if start is about to save running and the directory has been removed |
| Completion.StepNears | internal/container/container.go:329-375 | A step of the handshake brings it nearer and no step of anybody else takes it further away, in every environment |
| Stranding.StrandedIff | internal/container/container.go:245-252 | In an environment no start is ever stranded, on all runs, if and only if its removals never take c.lock away before state.json or there is no process to run |
| Stranding.StrandedStart | internal/container/container.go:359-375 | A concrete run that strands a start otherwise: the child lives and has sent MsgExecReady, and the directory is gone |
| Stranding.StrandedForGood | internal/container/container.go:372-375 | Whatever anybody does after a start has been stranded, state.json is not written again |
| Container.Container.Init | internal/container/container.go:466-664 | The directory ends as the atomic effect of create says; without the lock nothing changes; success means created with the child's pid on disk |
| Container.Container.Start | internal/container/container.go:308-383 | The directory ends as the atomic effect of start says; refused exactly when the status found is not created; success means running, or stopped for a nil Process; each other outcome is exact |
| Container.Container.Toggle | internal/container/container.go:818-873 | The same for pause and resume: pause is refused exactly when the status found is not running and resume exactly when it is not paused; success means the new status is on disk |
| Container.Container.Kill | internal/container/container.go:387-462 | Writes nothing; with a known signal for the container process alone it is refused exactly when the status found is neither running nor created, and otherwise signals exactly that process; for all it signals the processes of the cgroup in order up to the first error other than a missing process; otherwise nobody is signalled |
| Container.Container.SignalAll | internal/container/container.go:417-433 | Signals in order, passes over missing processes and stops at the first other error |
| Container.Container.GetState | internal/container/container.go:279-300 | Writes stopped exactly when there is a pid and its process is gone |
| Container.Container.Delete | internal/container/container.go:219-274 | Refused exactly when not forced, not stopped and not found dead; past that guard the cgroup is deleted first; the directory, then the socket, are removed and then the poststop hooks run exactly on success, each once; success leaves no state.json |
| Container.EffectFromIsAtomic | internal/container/container.go:1069-1082 | An operation's effect after the merging reload is its atomic effect whenever the merge loses nothing |
| Container.Replay | internal/container/container.go:181-215 | Running the sections whole, in order, gives the serial disk and the serial history |
| Container.ReplayRun | internal/container/container.go:181-215 | For every interleaved run in which nobody makes c.lock anew while state.json is there, the sequential program run on the lock winners in lock order ends with the same state.json and the same history |
| Container.ExecHooks | internal/container/hooks/hooks.go:18-40 | Runs the hooks in order up to and including the first that fails, and succeeds if and only if all of them do |
| AtomicFile.WholeWhileApart | internal/platform/atomic.go:13-51 | With failures and crashes after every step, partial writes, unlinks at any time and any number of overlapping writers, the target is absent or the last completed save and every reader that reaches end of file holds exactly one completed save, on every run in which no CreateTemp is given the name of a writer that has not returned |
| AtomicFile.WholeIffApart | internal/platform/atomic.go:14 | O_EXCL alone does not do: whole files on all runs if and only if the runs that reuse the name of a writer that has not returned are left out |
| AtomicFile.TornFile | internal/platform/atomic.go:46 | A concrete run that reuses such a name, after which the target is a file that nobody completed |
| AtomicFile.RunKeeps | internal/platform/atomic.go:13-51 | Every run that reuses no such name keeps the invariant on names, contents, writers and readers |
| AtomicFile.StepIsAtomic | internal/platform/atomic.go:30-50 | Seen as one cell the target is written by the renames alone, each with the whole of its writer's data, and emptied by its unlink alone, however many writers overlap |
| AtomicFile.ReadIsAtomic | internal/container/load.go:22-35 | A whole read gives what the target held when it was opened, however it is cut up and whatever is saved or unlinked meanwhile |
| AtomicFile.RenameComesLast | internal/platform/atomic.go:30-50 | On every run whoever is about to rename a file has synced it, then set its mode, then closed it, in this order |
| AtomicFile.SyncedIsWritten | internal/platform/atomic.go:30-36 | And it had all of its data when it was synced |
| AtomicFile.RunNoLinks | internal/platform/atomic.go:14-50 | Along every run no two names lead to the same file, so a rename takes the temp name with it and CreateTemp replaces no file |
| AtomicFile.NoTempFilesLeft | internal/platform/atomic.go:19-28 | On every run in which no CreateTemp is given the name of a writer that has not returned, each file beside the target is that of a writer that has not returned, or of one that crashed or failed to remove it |
| AtomicFile.OnlyTheTarget | internal/platform/atomic.go:19-28 | So, without crashes and with successful cleanups, the directory holds nothing but the target once every write has returned |
| AtomicFile.Folder.AtomicWriteFile | internal/platform/atomic.go:13-51 | Run alone it changes the target in whole or not at all, and leaves no temp file if the cleanup works |
| NsHandover.StrTokR | internal/nssetup/nssetup.c:66-80 | One strtok_r call finds the next token, writes at most one NUL, over the separator that ends it, and leaves its position behind it |
| NsHandover.ParseEntry | internal/nssetup/nssetup.c:69-78 | The two inner calls write nothing outside the entry and yield the join of its first two pieces |
| NsHandover.NsSetup | internal/nssetup/nssetup.c:57-83 | On any NUL-free value the nested loops call join_ns on exactly the joins of Parse, in order, up to the first that fails, and the process exits if and only if one fails |
| NsHandover.HandoverIsExact | internal/container/container.go:926-939 | Parsing the printed list gives back exactly the printed pairs if and only if no path has a comma or a colon in it |
| NsHandover.TokensOfPrint | internal/container/container.go:926-939 | Cutting the printed list at commas gives the printed items |
| NsHandover.PiecesOfItem | internal/nssetup/nssetup.c:70-71 | Cutting an item at colons gives its name and its path |
| NsHandover.JoinsAreClean | internal/nssetup/nssetup.c:57-83 | No path that the parser yields has a comma or a colon in it |
| Namespaces.Cmd.ConfigureNamespaces | internal/container/container.go:879-943 | Succeeds if and only if every entry is accepted; then a type's clone flag is set if and only if some entry of the type has no path, the parent has entered the pid namespaces with a path, and every other entry with a path is in the join variable in spec order |
| Namespaces.SpecIsPrintedExactly | internal/container/container.go:921-939 | For every accepted spec the printed list parses back to exactly the listed namespaces, in spec order and each with its own flag, if and only if no listed path has a comma or a colon in it |
| Namespaces.ThreeWays | internal/container/container.go:906-929 | The clone list, the parent's joins and the join list share out the spec: together they have as many entries, and a type is in the clone list if and only if some entry of the type has no path |
| Namespaces.TablesAgree | internal/nssetup/nssetup.c:11-22 | The flag that the C table gives the printed name is the flag that the Go table gives the type |
| Namespaces.CloneStep | internal/container/container.go:906-909 | Adding one entry sets its own clone flag when it has no path and changes no other type's |
| Namespaces.ExecLoop | internal/container/exec.go:136-212 | The loop's outcome, the namespaces that exec enters itself, those it lists and whether the child is root of the container's user namespace, for any list of types and any failing calls |
| Namespaces.ExecListIsRight | internal/container/exec.go:48-57 | By the names under /proc: what exec asks the constructor to join is exactly the net, ipc, uts, cgroup and mnt namespaces that differ from those of the host's first process, with their own paths and clone numbers, in this order with mnt last; exec itself enters pid and then time_for_children, if they differ |
| Namespaces.ExecWorksIff | internal/container/exec.go:136-212 | By the names under /proc: the calls on which exec fails are exactly the stats, opens and setns of what it needs |
| Namespaces.TableValues | internal/platform/namespace.go:17-39 | Each type's name under /proc and its number in clone(2) |
| Namespaces.ExecListIsPrintedExactly | internal/container/exec.go:208-218 | For every pid and every set of shared namespaces the list of exec parses back to itself |
| Environment.FindEnv | internal/nssetup/nssetup.c:41 | The value of the first entry with the key |
| Environment.DedupKeepsLast | internal/container/container.go:572-580 | After os/exec has dropped duplicates, getenv finds the last value that a key was given |
| Environment.DedupIs | internal/container/container.go:572-580 | What os/exec hands on is exactly the entries without a key that are not empty and the last entry of each key, unchanged and in order |
| Launch.Constructor | internal/nssetup/nssetup.c:40-83 | On the environment of its process the constructor attempts exactly the joins of the first value of the variable, up to the first that fails, and nothing without one |
| Launch.InitReceives | internal/container/container.go:552-580 | The child of Init finds the value that the container's own environment gives the variable last, and the printed list if it gives none |
| Launch.InitValueArrives | internal/container/container.go:552-580 | The printed list arrives if and only if the container's environment does not set the variable or last sets it to the same text |
| Launch.SpecReachesConstructor | internal/container/container.go:879-943 | For every accepted spec and every environment of the container the constructor is asked for exactly the listed namespaces if and only if the environment does not set the variable and no listed path has a comma or a colon in it, or its last value spells the same joins |
| Launch.Reexec | internal/container/container.go:552-580 | The whole way from the spec: the child starts if and only if the spec is accepted and no entry has a NUL in it; then it attempts the listed namespaces, in order up to the first failure, when the container's environment does not set the variable and the paths are plain, and what that environment says when it does |
| Launch.InitListIsReplaced | internal/container/container.go:572-574 | An environment that empties the variable makes the constructor join nothing, whatever the spec lists |
| Launch.InitListIsSupplied | internal/container/container.go:572-574 | An environment that sets it makes the constructor join what no spec lists |
| Launch.ExecReceives | internal/container/exec.go:214-221 | The child of exec finds the value that the caller's environment gives the variable first, and the printed list if it gives none |
| Launch.ExecValueArrives | internal/container/exec.go:214-221 | The printed list arrives if and only if the caller's environment does not set the variable or first sets it to the same text |
| Launch.ExecListReachesConstructor | internal/container/exec.go:134-221 | The constructor is asked for exactly the joins that exec needs if and only if the caller's environment does not set the variable or its first value spells the same joins |
| Launch.ExecChild | internal/container/exec.go:134-275 | The whole way of an exec child: it starts exactly when the needed calls work and the caller's environment has no NUL; exec enters what it has to; and the constructor attempts the needed joins, in order up to the first failure, when the caller's environment does not set the variable, and what that environment says when it does |
| Launch.TailArrives | internal/container/exec.go:218-251 | The exec child reads the container's pid and the index of the seccomp profile unless the caller's environment sets those variables |
| Launch.SocketsArrive | internal/container/container.go:545-556 | The child of Init reads the numbers of its two sockets unless the container's environment sets those variables |
| Launch.ExecListIsHidden | internal/container/exec.go:214-217 | A caller's entry that empties the variable hides the whole list |
| MountFlags.FoldOptions | internal/platform/mounts.go:83-114 | For any option list every bit but MS_REC is set if and only if the last non-propagation option touching it sets it, MS_REC if and only if some such option is recursive, the data options are the unknown ones with an equals sign in order, and the propagation is that of the last propagation option |
| MountFlags.StepSays | internal/platform/mounts.go:94-109 | One option sets, clears or leaves a bit as its table entry says, rro setting MS_RDONLY |
| MountFlags.StepRec | internal/platform/mounts.go:107-109 | MS_REC is set by a recursive option and never cleared |
| MountFlags.MountOne | internal/platform/mounts.go:116-139 | The mount is made first, with every data option whole, in order, a comma between any two and nothing else; cut at its commas the data string gives back the options if and only if none has a comma of its own; then the type that the last propagation option names, if and only if there is one and no option anywhere is shared or rshared; then the recursive attribute if and only if rro occurs |
| MountFlags.PropagationMeans | internal/platform/mounts.go:145-168 | The propagation type of each option by its name in the kernel's numbers, recursive exactly for the names that begin with an r |
| MountFlags.TableMeans | internal/platform/rootfs.go:16-55 | Every other option's bit in the kernel's numbers, which of a pair clears it, and which are recursive; the table knows no others |
| MountFlags.OptionsGiveValidPropagation | internal/platform/mount.go:61-73 | SetPropagation never rejects what an option asks for |
| MountFlags.ValidPropagationIs | internal/platform/mount.go:69-73 | SetPropagation accepts exactly one type or none, recursive or not |
| MountFlags.RootfsPropagationIsPlain | internal/platform/rootfs.go:109-125 | Nothing is done for private or unknown types, and otherwise the plain type is applied whether or not the recursive one was asked for |
| Capabilities.ResolveCaps | internal/platform/capabilities.go:228-247 | The result holds a capability if and only if it is named, or is known and ALL or CAP_ALL occurs; unknown names add nothing |
| Capabilities.CapShift | internal/platform/capabilities.go:251-257 | Sets bit c of the two words and changes no other |
| Capabilities.Mask | internal/platform/capabilities.go:128-147 | Bit c of the mask is set if and only if the list asks for c; an absent list gives an empty mask |
| Capabilities.TableIsComplete | internal/platform/capabilities.go:65-107 | Every capability from 0 to 40 has a name in the table |
| Capabilities.TableIsKnown | internal/platform/capabilities.go:65-107 | The table names no other |
| Privileges.Process.DropBoundingCapabilities | internal/platform/capabilities.go:186-213 | When no drop is refused the bounding set up to cap_last_cap is the old one intersected with the list, or unchanged without a list |
| Privileges.Process.SetUser | internal/platform/user.go:15-53 | Groups unless denied, then gid, then uid; leaving root clears the effective and ambient sets and keeps the permitted one only with the keep flag |
| Privileges.Process.SetCapabilities | internal/platform/capabilities.go:128-182 | Succeeds exactly when the kernel's capset rules allow the requested sets, and then they are the process's sets, with the ambient set being what was asked within permitted and inheritable |
| Privileges.Process.ApplyProcessSecurity | internal/platform/process_security.go:19-95 | From full root, for every record of options, no step is refused if and only if the requested sets nest; then seccomp is loaded exactly once if requested, under the first credentials without no_new_privs and under the final ones with it, and the final sets, ids, groups and bounding set are those requested, or everything known when Bounding holds ALL or CAP_ALL |
| Privileges.AllNamesRequest | internal/platform/capabilities.go:110-120 | Listing every name asks for the same as ALL |
| Privileges.BoundingListAlone | internal/oci/childexec.go:71 | The record that childexec builds always nests, and unless it holds ALL it leaves the permitted, effective and ambient sets empty |
| ExecArgs.Encode | internal/container/exec.go:66-132 | The argument list that exec builds |
| ExecArgs.AppendArgsSlice | internal/container/exec.go:325-331 | Appends the flag before each value, in order |
| ExecArgs.DecodeOfEncode | internal/oci/childexec.go:23-35 | For every record of options the reader gets back what was meant, the tty flag following the console socket alone |
| ExecArgs.DecodeSlice | internal/container/exec.go:325-331 | A repeated flag fills its list with the values in order, whatever they look like |
| ExecArgs.UserOf | internal/oci/childexec.go:37-41 | The user record that the handler builds |
| ExecArgs.IdsSurvive | internal/oci/childexec.go:37-41 | Each id comes back as it was if and only if it is in the range of uint32 |
| ExecArgs.Uint32Is | internal/oci/childexec.go:37-41 | The conversion keeps any number modulo 2 to the 32 |
| ExecArgs.DescriptorTable | internal/container/exec.go:223-251 | The preserved descriptors keep their numbers and the index handed over leads to the memfd wherever it stands, also when its number lies in the preserved range |
| ExecArgs.SeccompIndexArrives | internal/container/exec.go:247-251 | The child reads the index of the memfd if and only if the caller's own environment has no entry for the variable or one with the same number |
| ParentWalk.DirShrinks | internal/platform/rootfs.go:95 | filepath.Dir of an absolute path is absolute and strictly shorter unless the path is "/" |
| ParentWalk.DirIsParent | internal/platform/rootfs.go:95 | On a cleaned path it is the parent |
| ParentWalk.DirOfDots | internal/platform/rootfs.go:95 | On a path that is not cleaned dot-dot goes up once more, the root being its own parent, and a dot or an empty component goes nowhere |
| ParentWalk.ChainAt | internal/platform/rootfs.go:83-97 | Each path of the walk is the Dir of the one before, and the walk ends at "/" |
| ParentWalk.RootfsParentMountPrivate | internal/platform/rootfs.go:83-97 | For every absolute path the walk ends, succeeds if and only if the first path of it that does not answer EINVAL is made private, and makes private that one alone |
| Decimal.AtoiOfItoa | internal/container/exec.go:66-69 | A printed integer reads back as itself |
| Decimal.AtoiOfSigned | internal/container/exec.go:66-69 | The reader takes a sign of either kind |

## Left out

- One incarnation of a container ID is modelled, from the exclusive Mkdir to the
  removal of the directory; a create after the removal does not step.
- No two live containers share a bundle, whose path alone determines the socket path
  (internal/container/load.go:60-62); the hash in it is taken to be injective.
- createRuntime and createContainer hooks are not ordered among themselves: the child
  does not wait after MsgPrePivot, so they run at the same time.
- For a nil Process the child's own steps after MsgStart are modelled, but nothing is
  claimed about their order relative to the stopped save: Start does not wait.
- A dial always finds a listener in `Protocol`, and an end of file or a refused dial is
  a `Quit`; both allow more runs than the program has.
- Process identifiers are not reused: a probe never takes a foreign process for the
  child.
- Handshake completion says that a step is possible and that only so many are needed;
  that the scheduler eventually takes one is not modelled.
- Power failure and the durability of fsync: `AtomicFile` has process failures and
  crashes only. Its directory is that of the target alone; the pid file has its own.
  That os.CreateTemp does not draw the name of a writer that has not returned is a
  matter of its random suffix.
- The check for an existing directory before Mkdir (internal/oci/create.go:42) only
  refuses earlier and is left out.
- Creating mount targets, the cgroup mount, the mapping tables of user namespaces, and
  the calls of MountRootfs around the walk.
- Mounts, pivot_root, ptys, devices, sysctls, rlimits, AppArmor and SELinux: steps that
  may fail, or nothing. The same for cgroups, whose freezing and thawing are one step.
- Seccomp rules: loading a filter is one privileged call.
- Credentials: real, effective and saved ids are one number each, every id is mapped,
  securebits are at their default, and reading cap_last_cap and setgroups does not fail.
- The chroot of the C constructor and its use of the container pid.
- os/exec and getenv are modelled by their documented rules for duplicate keys.
- The parsing of pflag before the flags of childexec, numbers outside the range of
  Go's int, and the base prefixes that its reader would accept.
- filepath.Dir and filepath.Clean are modelled by their documented effect on absolute
  paths, not by their byte loops; a relative root file system path is left out, on
  which the walk need not end.
- The command-line layer, logging, output, features and the CRI server.
- Capabilities.ResolveCaps: the order in which ALL lists the table, which Go leaves
  open, is by number here.
- Container.Container.Delete: the removal of the pid file is left out; Load leaves its
  path empty (internal/container/load.go:47-52), so no delete gets to it.
- Namespaces.Cmd.ConfigureNamespaces: the id mappings themselves are one flag.
