# Verified model of the NSN Bridge

The NSN Bridge is the local process that moves, renames and creates files and folders in a connected
library after approval, undoes such plans, scans the library, and talks to a cloud service through
signed commands. This project models its filesystem core and the stores around it, and proves what
they promise.

- **The journaled filesystem protocol** (`FileSystem`, `Protocol`). Moving a file, creating a folder,
  removing an owned folder and historical recovery, as one step machine: a disk of directory entries
  over an inode table, one durable journal per action owner, and one program counter per system call
  or journal write. Between any two steps other programs may change public names and file contents,
  and the process may die, which keeps the disk and the journals and nothing else.
  - `ProtocolInvariant`, `ProtocolSteps`: what every reachable state satisfies, and that every event
    keeps it.
  - `ProtocolSafety`, `ProtocolOutcomes`, `ProtocolForeign`: safety over every run.
  - `ProtocolAuthority`, `ActionBinding`: what an owner has journaled carries the authority of its
    action, and when historical recovery recognises it.
  - `QuietMove`, `QuietCreate`, `QuietRemove`, `QuietEffect`: liveness and exact effects when no other
    program interferes, for every schedule of crashes.
  - `SelfMove`: the one way in which a move can lose its file (see *Findings*).
  - `Refusals`, `RestoreRace`: what an undisturbed call refuses and how little it has done by then, and
    what is given back when another program wins the race for a name.
  - `Recoveries`, `RemovalRetries`: what a retry and historical recovery decide of an unfinished move or
    removal, case by case.
  - `Bridge`: the same functions in imperative form, a class whose methods change the disk and the
    journals one system call at a time with interference in between. Each method is proved to extend
    a legal run of the step machine that begins with its own call, so the theorems about runs apply to it
    at every step. `BridgeAlone` says what the methods come to when the process does not die and no other
    program acts.
- **Plans** (`Plan`, `PlanRun`, `RoundTrip`, `Library`). The two previews, the order of execution, the
  overall status, and the round trip of execution and undo on a library tree.
  - `DiskTree`, `DiskPlan`, `DiskRuns`: the step machine refines that tree. Each undisturbed journaled
    call is one step on it, so the round trip holds of the disk, and such runs exist.
  - `Executor`: the loop that runs, stops and settles at the first failure, and the recovery of a list,
    through `Bridge` and under interference; what is reported is what the journals say, and by
    `ReportedEffect` what happened to the names of the library.
- **The scanner** (`Scanner`, `ScannerPasses`, `ScannerCalm`, `ScannerGap`). Two passes over a tree that
  changes between any two system calls, what the published inventory says about one moment, and the scan
  of a tree that is left alone.
- **Canonical text and commands** (`Canonical`, `CanonicalParse`, `Envelope`). `stableStringify` over
  UTF-16 code units, a JSON parser that reads its text back, and the signed envelope on top of it.
- **Locks and stores** (`Locks`, `RootAuthority`, `Registry`, `Outbox`, `Paths`). The promise-chain
  mutex, the root authority above it with the programs that take it, the registry of connected
  folders, the watcher's outbox, and relative paths.

## Assumptions

- Inode numbers are never reused, and names made by `mkdtemp` and tokens made by `randomBytes` are
  fresh. Other programs leave the contents of `.nsn-move-*` and `.nsn-remove-*` directories alone.
- `physicalFileIdentity` is one atomic read and `writeLocalJson` one atomic durable write. A digest
  stands for the contents of a file. SHA-256 and HMAC are injective parameters.
- A directory entry is keyed by the inode of the directory that holds it. The parent directories of
  the paths that calls and journals name are not replaced during the whole run, crashes and retries
  included: the code compares path strings, the model the entries they denote.
- The paths of calls have no segment that begins with `.nsn-move-` or `.nsn-remove-`. The code does not
  refuse such segments (`bridge-app/src/filesystem/safety.ts:239-306`); a plan that names one reaches
  into private directories.
- Action ids are unique in a plan and in an undo list, and an owner belongs to one action.
- One journaled call runs at a time: all effects on a root are made under its authority lock, which
  `Locks` and `RootAuthority` model on their own.
- `validateRootPath` gives back the path it validated when it is asked again, and tokens are not
  guessed. Inside the scope of a root's authority no other root is updated, and such updates are
  awaited, as at `bridge-app/src/filesystem/scanner.ts:408-410`.
- A system call error that the code does not handle ends the call where it is, like a death: no
  handler of such an error touches the disk or the journals.
- The locale's order of keys, paths and ids is a parameter: any total order, in which a folder comes
  before what lies inside it.
- In the scanner, a change of an object gives it a stamp that no object ever had, an object keeps its
  kind, and the directories above the root are left alone.

## Findings

- **A move of a name onto itself loses the file.** The exclusive link fails, but the intent is on
  record; the retry finds the source at its destination, verifies it, captures it and unlinks its only
  name. From every idle state, calls of that move and their steps alone can do it
  (`SelfMove.SelfMoveLosesTheFile`), and without other programs a move of a file with one name can lose
  it exactly when source and destination are the same (`SelfMove.LosesExactlySelfMoves`).
  `ProtocolSafety.LossExactly` says exactly when a step takes a file's last name away, and
  `ProtocolSafety.FilesAreConserved` that no run does while the two differ, under any interference that
  leaves linked destinations alone. The previews refuse such a plan, since the destination is occupied.
- **A folder or a link that wins a rename race is not given back.** The capture of a move takes whatever
  the source name denotes at that instant. A regular file gets its name back if that is vacant; a folder
  or a symbolic link cannot be opened as a file, the call throws before it comes to the restoring link,
  and the public name is gone (`RestoreRace.RestoredExactly`, in both directions). Likewise a removal
  gives nothing back unless what it caught is a directory (`RestoreRace.ExposedExactly`), and then under
  the public name stands a copy.
- **A scan can publish the inventory of no moment.** A nested folder recorded by the first pass can gain
  a file, and be gone again after the second pass looked at its parent but before it listed it; nothing
  then compares what the first pass recorded of it. `ScannerGap.ScanMatchesNoMoment` is such a scan: it
  passes every check and publishes an empty inventory, while at every time before, during and after it
  there was a file. `Scanner.InventoryExactly` says what the inventory always is: what was visible at one
  moment between the passes, but for what lay below such missed folders; so it is exactly that moment if
  and only if nothing lay below one (`Scanner.SnapshotExactly`). The comment at
  `bridge-app/src/filesystem/scanner.ts:310-312` promises more than the code does.
- **Historical recovery refuses journals that their own actions wrote.** It looks a folder removal up
  under the action's destination path, while undo removes the source path; it expects a source for a
  creation that names one, while the journal of a creation has none; and it wants a checksum from every
  move. A journal passes exactly when the action is self-consistent in these three respects
  (`ActionBinding.BindingAgrees`); otherwise recovery throws for good
  (`ActionBinding.UnrecoverableActions`).
- **A run can be COMPLETED with actions left PENDING.** An action that threw and was then found
  completed still ends the loop (`PlanRun.CompletedRunLeavesPending`); `PlanRun.CompletedRunExactly`
  says when the two agree. For recovery they always do (`Executor.RecoverActions`).
- **Unfinished folder actions can stay so for good.** An intent to remove whose rename never happened is
  not taken up again (`QuietRemove.RemovalReplay`, both directions). A creation that dies between its
  `mkdir` and the record of it throws ever after (`QuietCreate.DeathAfterMkdir`,
  `QuietCreate.StuckForever`).

## Model

| member | source | states |
|---|---|---|
| ProtocolSteps.PermittedKeeps | bridge-app/src/filesystem/safe-move.ts:21-101 | the system calls the protocol allows itself keep the disk well formed and leave every other owner's private directories alone |
| ProtocolSteps.TickGood | bridge-app/src/filesystem/physical-journal.ts:50-264 | every step of every call, from any state of the invariant, is one of the allowed system calls, or a journal write that fits the owner's open action |
| ProtocolSteps.EventKeeps | bridge-app/src/filesystem/physical-journal.ts:50-264 | steps, calls, deaths and outside changes all keep the protocol invariant |
| ProtocolInvariant.JournalsFrame | bridge-app/src/filesystem/physical-journal.ts:15-36 | a step of one owner leaves the journals of all other owners in order |
| ProtocolSafety.InvAlways | bridge-app/src/filesystem/physical-journal.ts:50-264 | the invariant holds in every state of every run |
| ProtocolSafety.StepPossible | bridge-app/src/filesystem/physical-journal.ts:84-241 | a running call can always take its next step |
| ProtocolSafety.NoOverwrite | bridge-app/src/filesystem/safe-move.ts:47-58 | no step changes an occupied public name to another inode; a public name only becomes vacant when its inode moves into a private directory of the running owner |
| ProtocolSafety.LossExactly | bridge-app/src/filesystem/safe-move.ts:51-64 | a step takes a file's last name away exactly when it unlinks its verified capture and nothing else names that inode |
| ProtocolSafety.OnlyUnlinkLoses | bridge-app/src/filesystem/safe-move.ts:47-64 | no permitted call but unlink can make a file unreachable |
| ProtocolSafety.HeldAlways | bridge-app/src/filesystem/safe-move.ts:93-99 | from the moment the destination was verified, it holds the moved inode for as long as others leave it alone |
| ProtocolSafety.FilesAreConserved | bridge-app/src/filesystem/safe-move.ts:21-64 | in every run in which linked destinations are left alone, no step makes any file inode unreachable, unless a name is moved onto itself |
| SelfMove.SelfMoveLosesTheFile | bridge-app/src/filesystem/physical-journal.ts:84-98 | from every idle state, for every file with one name, calls that move the name onto itself, and their steps alone, can end with the file unreachable |
| SelfMove.LosesExactlySelfMoves | bridge-app/src/filesystem/safe-move.ts:21-64 | without other programs, some schedule of calls, steps and deaths of a move loses a file with one name exactly when source and destination are the same |
| SelfMove.SafeAlways | bridge-app/src/filesystem/safe-move.ts:87-101 | when they differ, the file stays reachable and the verified destination held in every state of every such schedule |
| ProtocolOutcomes.CompletedForever | bridge-app/src/filesystem/physical-journal.ts:51-51 | a completed journal is never written again, in any run |
| ProtocolOutcomes.NoSecondEffect | bridge-app/src/filesystem/physical-journal.ts:88-90 | a call whose owner has an outcome returns that outcome or throws, and changes no public name |
| ProtocolOutcomes.OutcomesAreRecorded | bridge-app/src/filesystem/physical-journal.ts:44-49 | whatever outcome a call returns is the completed journal on record, in every run |
| ProtocolAuthority.EntitledTick | bridge-app/src/filesystem/physical-journal.ts:84-124 | no step journals anything that its own call is not authorised for |
| ProtocolAuthority.AuthorityAlways | bridge-app/src/filesystem/physical-journal.ts:84-241 | in every run, as long as an owner has one live call, whatever it has journaled carries that call's authority |
| ActionBinding.JournalAgrees | bridge-app/src/filesystem/physical-journal.ts:244-257 | a journal that the call of an action can have written is accepted by the binding derived from the action exactly when the action is self-consistent: a move with a checksum, a removal whose two paths normalise alike, a creation without a source |
| ActionBinding.BindingAgrees | bridge-app/src/filesystem/physical-journal.ts:243-257 | so in every run, for the journal that running the action left behind |
| ActionBinding.UnrecoverableActions | bridge-app/src/filesystem/operations.ts:617-624 | a removal whose destination is another path, a creation with a source and a move without a checksum run, and no journal they can write is accepted |
| ProtocolOutcomes.NoJournalNoEffect | bridge-app/src/filesystem/physical-journal.ts:93-115 | before an owner has a journal, no step of its calls changes a public name |
| ProtocolOutcomes.JournalsStay | bridge-app/src/filesystem/physical-journal.ts:19-37 | journals are never deleted |
| ProtocolOutcomes.HonestFailure | bridge-app/src/filesystem/operations.ts:713-719 | if an owner has no journal at the end of a run, no step of any of its calls in that run ever changed a public name |
| ProtocolOutcomes.HistoricalRecovery | bridge-app/src/filesystem/physical-journal.ts:50-83 | historical recovery of a move never links, renames or creates; only the captured name and its directory may go, and only the completed outcome may be written |
| ProtocolForeign.OnlyOwnedDirectoriesAreRemoved | bridge-app/src/filesystem/physical-journal.ts:192-206 | a step removes a directory only when it is empty, and is a private directory of the call or the directory that the original completed creation recorded |
| ProtocolForeign.CompletedRemovalIsReal | bridge-app/src/filesystem/physical-journal.ts:201-211 | a completed removal means that the recorded directory is gone, now and in every continuation, under any interference |
| ProtocolForeign.ForeignDirectoryForever | bridge-app/src/filesystem/physical-journal.ts:141-199 | a foreign directory caught by the rename keeps its place for ever, and that removal is never reported completed |
| ProtocolForeign.StaysForOwner | bridge-app/src/filesystem/physical-journal.ts:201-206 | the owner takes a name out of its private directory only by unlinking the verified source or removing the verified directory |
| ProtocolForeign.RaceCatchesForeignFile | bridge-app/src/filesystem/safe-move.ts:43-48 | a file other than the verified one that the rename captures becomes a foreign file of the capture |
| ProtocolForeign.ForeignFileTick | bridge-app/src/filesystem/safe-move.ts:51-60 | no step takes a foreign captured file away |
| ProtocolForeign.ForeignFileForever | bridge-app/src/filesystem/safe-move.ts:51-60 | a foreign captured file keeps that name in every continuation: the failing call, retries and recovery included |
| RestoreRace.RacedFileIsGivenBack | bridge-app/src/filesystem/safe-move.ts:47-60 | from every state before the capture rename in which the source name denotes a regular file that is not the journaled one, however other programs act: the call that ends has thrown, its last step linked the file back if the name was vacant then and changed nothing if it was occupied, and the private name still denotes the file |
| RestoreRace.RestoredExactly | bridge-app/src/filesystem/safe-move.ts:47-60 | by steps alone that call throws with the file under its own name again exactly if it is a regular file; no journal and no other name changes |
| RestoreRace.ChangedSourceIsLeft | bridge-app/src/filesystem/safe-move.ts:43-45 | a source that is no longer the journaled file when it is looked at is never renamed: the call throws and every name is as it was |
| RestoreRace.MissingDestinationThrows | bridge-app/src/filesystem/physical-journal.ts:44-49 | no outcome is recorded when the destination is gone at the last look |
| RestoreRace.ExposedExactly | bridge-app/src/filesystem/physical-journal.ts:146-199 | a removal whose rename caught something else throws with its journal as it was; what was caught stays in the private directory, and a new directory stands under the public name exactly if it was a directory |
| Refusals.RemovalRefusedExactly | bridge-app/src/filesystem/physical-journal.ts:221-240 | from every idle state, an undisturbed removal by an owner without a journal changes the disk or the journals exactly when the target is the empty directory that the original's completed creation recorded as made by itself; otherwise it throws |
| Refusals.FilledFolderStays | bridge-app/src/filesystem/physical-journal.ts:221-224 | a recorded folder with anything in it stays where it is, and nothing is journaled |
| Refusals.ForeignFolderStays | bridge-app/src/filesystem/physical-journal.ts:221-224 | so does a folder that the original did not make, or another one in its place |
| Refusals.MoveDecides | bridge-app/src/filesystem/physical-journal.ts:91-105 | an undisturbed move by an owner with nothing on record renames exactly the source to the destination, and returns, if the source is the authorised file and the destination vacant; otherwise it throws and the disk is as it was |
| Refusals.MoveRefused | bridge-app/src/filesystem/safe-move.ts:90-93 | with no authorised file at the source nothing is journaled; with an occupied destination only the intent is |
| Refusals.CreationRefused | bridge-app/src/filesystem/physical-journal.ts:114-119 | a creation over anything but a directory throws with only its intent on record |
| Refusals.LinkIsRecordedFirst | bridge-app/src/filesystem/safe-move.ts:98-99 | a fresh move begins to take its source away only with LINKED on record |
| Recoveries.RecoveryDecides | bridge-app/src/filesystem/physical-journal.ts:50-83 | undisturbed historical recovery of an unfinished move reports nothing, throws, or clears the capture and returns the recorded outcome, decided by what is at the destination, in the capture and at the source; the first two change nothing |
| Recoveries.RetryDecides | bridge-app/src/filesystem/physical-journal.ts:84-98 | so does a repeated move, which starts afresh where recovery reports nothing |
| RemovalRetries.RetryDecides | bridge-app/src/filesystem/physical-journal.ts:125-220 | a removal taken up again leaves everything as it is, tidies up its empty private directory, or removes the recorded folder if it is empty and records that, case by case |
| QuietMove.QuietTick | bridge-app/src/filesystem/physical-journal.ts:50-105 | undisturbed, a step stays within the stages of the move, gets nearer to the end, and never makes a live move fail |
| QuietMove.QuietAlways | bridge-app/src/filesystem/physical-journal.ts:50-105 | every schedule of calls, steps and deaths stays within these stages |
| QuietMove.MkdtempOrderly | bridge-app/src/filesystem/safe-move.ts:26-32 | making a capture directory leaves all unrelated names and the recorded capture as they were |
| QuietMove.CrashedMovesComplete | bridge-app/src/filesystem/physical-journal.ts:84-105 | after any schedule of crashes the next uncrashed move ends within 31 events, never throws, and ends with the original inode at the destination, the source and the recorded capture gone, only empty private directories left over, and every other name as it was |
| QuietMove.FreshMoveCompletes | bridge-app/src/filesystem/physical-journal.ts:84-105 | so from a fresh job: nothing journaled, the file in its place, the destination vacant |
| QuietMove.HistoryCompletesExactly | bridge-app/src/filesystem/physical-journal.ts:251-264 | undisturbed historical recovery completes the move exactly when the capture rename had happened, and otherwise changes neither disk nor journals |
| QuietRemove.QuietAlways | bridge-app/src/filesystem/physical-journal.ts:185-241 | every schedule of calls, steps and deaths stays within the stages of the removal |
| QuietRemove.RemovalReplay | bridge-app/src/filesystem/physical-journal.ts:185-241 | an uninterrupted removal or recovery completes, container included, exactly when the capture rename had happened or nothing was journaled and it is the removal itself; otherwise it changes nothing |
| QuietRemove.FreshRemovalReplay | bridge-app/src/filesystem/physical-journal.ts:213-241 | so from a fresh removal, and a completed one leaves no private directory |
| QuietCreate.QuietAlways | bridge-app/src/filesystem/physical-journal.ts:106-124 | every schedule of calls, steps and deaths of a creation stays within its stages |
| QuietCreate.CreationReplay | bridge-app/src/filesystem/physical-journal.ts:106-124 | after any schedule of crashes an uninterrupted call ends within 7 events, and completes exactly when the outcome is on record, or it is a creation and the name is vacant, or nothing is journaled and the name is a folder already; otherwise no name changes |
| QuietCreate.DeathAfterMkdir | bridge-app/src/filesystem/physical-journal.ts:116-121 | a death after the folder was made and before that was recorded leaves an intent and an occupied name |
| QuietCreate.StuckForever | bridge-app/src/filesystem/physical-journal.ts:109-113 | from there no schedule changes the disk or the journal again: every call throws |
| QuietEffect.OneCaptureAlways | bridge-app/src/filesystem/safe-move.ts:26-32 | an uninterrupted fresh move has no private directory but the one its journal records, or is about to |
| QuietEffect.MoveEffect | bridge-app/src/filesystem/physical-journal.ts:84-105 | an undisturbed fresh move changes the public names by exactly one rename, leaves nothing private behind, and returns its outcome |
| QuietEffect.RemovalEffect | bridge-app/src/filesystem/physical-journal.ts:213-241 | an undisturbed fresh removal takes exactly the folder's public name away, leaves nothing private behind, and returns its outcome |
| QuietEffect.CreationEffect | bridge-app/src/filesystem/physical-journal.ts:106-124 | an undisturbed fresh creation adds exactly the name of a new empty folder, journaled as created, or changes no name where a folder was, journaled as not created |
| QuietEffect.CallKept | bridge-app/src/filesystem/physical-journal.ts:84-241 | an uninterrupted call changes no inode, no other owner's journal, and makes private directories of its own owner only |
| DiskTree.MoveRefines | bridge-app/src/filesystem/physical-journal.ts:84-105 | on a disk that shows a tree, an undisturbed move ends on a disk that shows the moved tree |
| DiskTree.CreateRefines | bridge-app/src/filesystem/physical-journal.ts:106-124 | an undisturbed creation ends on a disk that shows the tree with the new folder under its own number, recorded as created, or the same tree |
| DiskTree.RemoveRefines | bridge-app/src/filesystem/physical-journal.ts:213-241 | an undisturbed removal of a recorded empty folder ends on a disk that shows the tree without it |
| Bridge.Bridge.constructor | bridge-app/src/filesystem/physical-journal.ts:15-18 | starts an empty history with no journals |
| Bridge.Bridge.Interfere | bridge-app/src/filesystem/safe-move.ts:15-20 | other programs make any allowed change of the disk, recorded as an event of the run |
| Bridge.Bridge.Observe | bridge-app/src/filesystem/physical-journal.ts:41-43 | a read after interference is the read the step machine makes at that point |
| Bridge.Bridge.WriteJournal | bridge-app/src/main/local-json-store.ts:31-42 | replaces exactly this owner's journal with the record worked on |
| Bridge.Bridge.Make | bridge-app/src/filesystem/safe-move.ts:47-64 | performs one system call on the disk as interference left it, or throws without effect |
| Bridge.Bridge.MakePrivate | bridge-app/src/filesystem/safe-move.ts:26-32 | makes a fresh private directory beside a public name and returns its identity |
| Bridge.Bridge.RemoveOwnedSource | bridge-app/src/filesystem/safe-move.ts:21-64 | extends the run to the state after the captured source and its directory are gone, or ends thrown or dead, writing only the capture into this owner's journal |
| Bridge.Bridge.InspectCaptured | bridge-app/src/filesystem/safe-move.ts:51-60 | goes on to unlink only a capture with the verified identity; otherwise it takes the machine's restoring step, with the effect of `RestoreRace`, and throws |
| Bridge.Bridge.MoveWithoutReplacement | bridge-app/src/filesystem/safe-move.ts:87-101 | on success the record is a move with this source, destination and authorised checksum, ready to complete |
| Bridge.Bridge.RecoverMove | bridge-app/src/filesystem/physical-journal.ts:50-83 | returns the completed record, nothing to recover, or throws; a completed record is returned without any effect |
| Bridge.Bridge.CompleteMove | bridge-app/src/filesystem/physical-journal.ts:44-49 | records and returns the entry as completed |
| Bridge.Bridge.JournaledMove | bridge-app/src/filesystem/physical-journal.ts:84-105 | runs its own call to an outcome, a throw or a death; a returned journal is the completed one on record and carries the caller's authority; other owners' journals are untouched; a recorded outcome is returned again without a write |
| Bridge.Bridge.JournaledCreateFolder | bridge-app/src/filesystem/physical-journal.ts:106-124 | as for a move, for the creation of a folder |
| Bridge.Bridge.CleanupCompletedDirectoryRemoval | bridge-app/src/filesystem/physical-journal.ts:125-140 | returns the record once its private directory is gone, or throws |
| Bridge.Bridge.ExposeForeignCapturedDirectory | bridge-app/src/filesystem/physical-journal.ts:146-183 | only makes exclusive creations at public names, and the call never succeeds |
| Bridge.Bridge.FinishDirectoryRemoval | bridge-app/src/filesystem/physical-journal.ts:185-212 | on success the record is completed on record and returned |
| Bridge.Bridge.JournaledRemoveFolder | bridge-app/src/filesystem/physical-journal.ts:213-241 | as for a move, for the removal of an owned folder; `BridgeAlone.RemovalAlone` says when it touches nothing |
| Bridge.Bridge.RecoverPhysicalAction | bridge-app/src/filesystem/physical-journal.ts:251-264 | a returned journal is the completed one on record and matches the expected binding; without a journal nothing is written or returned |
| BridgeAlone.MoveAlone | bridge-app/src/filesystem/physical-journal.ts:84-105 | with no death and no other program, `JournaledMove` by an owner with nothing on record returns exactly if the source is the authorised file and the destination vacant, and has then renamed it and nothing else |
| BridgeAlone.RemovalAlone | bridge-app/src/filesystem/physical-journal.ts:213-241 | likewise `JournaledRemoveFolder` changes disk or journals exactly if the target is the recorded empty folder, and otherwise throws |
| BridgeAlone.FolderGone | bridge-app/src/filesystem/physical-journal.ts:225-241 | and a recorded empty folder is taken away, and nothing else |
| BridgeAlone.CreationAlone | bridge-app/src/filesystem/physical-journal.ts:106-124 | likewise `JournaledCreateFolder` returns exactly if nothing or a directory is there, and has then added that one name or none, as its journal says |
| BridgeAlone.ReturnsIfFeasible | bridge-app/src/filesystem/operations.ts:342-379 | with no death and no other program, the journaled call of a fresh action returns only if it is feasible, and a move or a creation always does when it is |
| Plan.FolderInjective | bridge-app/src/filesystem/safety.ts:318-365 | different paths lead to different directories |
| Plan.SourceIssues | bridge-app/src/filesystem/operations.ts:83-132 | no issue exactly when the source is a regular file with the authorised checksum; otherwise the one that names the cause |
| Plan.Destinations.Add | bridge-app/src/filesystem/operations.ts:168-171 | the map holds, for every destination, the ids of the actions that use it, in order |
| Plan.Destinations.Duplicates | bridge-app/src/filesystem/operations.ts:236-246 | names exactly the actions that share their destination with another one |
| Plan.SharedDestination | bridge-app/src/filesystem/operations.ts:236-246 | more than one id under a destination exactly when two positions of the plan share it |
| Plan.PreviewExecution | bridge-app/src/filesystem/operations.ts:150-254 | the preview is clear exactly when every destination is free and used once and every source is the authorised file; otherwise its issues are exactly the causes, each with its action |
| Plan.UndoIssues | bridge-app/src/filesystem/operations.ts:440-523 | one undo action has no issue exactly when its file is the recorded one and its old name vacant, or its folder holds only what earlier actions take out; otherwise exactly its causes |
| Plan.PreviewUndo | bridge-app/src/filesystem/operations.ts:429-555 | the undo preview is clear exactly when every action is and no two moves share a destination; otherwise its issues are exactly the causes, each with its action |
| Plan.LeavingExactly | bridge-app/src/filesystem/operations.ts:467-481 | an entry counts as cleared exactly when an earlier undo action has it as its source |
| PlanRun.PlanOrder | bridge-app/src/filesystem/operations.ts:310-318 | the executed order is a permutation of the plan: creations, moves, renames, then both in one, within a kind by destination and id; so every created folder comes before what goes inside it |
| PlanRun.InsertOrders | bridge-app/src/filesystem/operations.ts:310-318 | inserting by the comparator keeps the order and the actions |
| Executor.AttemptAction | bridge-app/src/filesystem/operations.ts:342-379 | an attempt that returns has its action's completed, authorised journal on record, whatever other programs did; one that throws was not allowed, named no call, was obstructed before anything was journaled, or had begun its call |
| Executor.Settle | bridge-app/src/filesystem/operations.ts:713-736 | "failed with no effect" exactly when there is no journal, and then nothing is touched; completed when recovery recognises the recorded outcome; otherwise pending, and then recovery has thrown, died or found nothing |
| Executor.RunActions | bridge-app/src/filesystem/operations.ts:335-388 | completed actions, at most one settled one, which had a reason to stop, then pending ones whose owners have done nothing; a completed report says CHANGED exactly if its journal is one of a move, a removal, or a creation that made its folder, and NONE otherwise; a failed one means that no call of its owner ever changed a public name |
| Executor.RecoverActions | bridge-app/src/filesystem/operations.ts:681-711 | recovery is called for every action whose binding can be derived; it reports COMPLETED exactly when it reports every action so, and then every action's own completed journal is on record |
| Executor.FailedChangedNothing | bridge-app/src/filesystem/operations.ts:717-719 | an action reported as failed with no effect never changed a public name in the whole run |
| ReportedEffect.EffectIsReal | bridge-app/src/filesystem/operations.ts:379-379 | after an undisturbed fresh action, a completed report says NONE exactly if every public name is as it was, and CHANGED exactly if not |
| PlanRun.Stop | bridge-app/src/filesystem/operations.ts:335-388 | the loop ends at the first attempt that throws |
| PlanRun.CompletedRunExactly | bridge-app/src/filesystem/operations.ts:380-408 | the overall status of a run, by how the first attempt that threw was settled; all actions are completed exactly when it is COMPLETED and nothing came after |
| PlanRun.RunStatusMeans | bridge-app/src/filesystem/operations.ts:402-407 | each overall status in terms of the single reports: one that needs recovery, failed and completed ones |
| PlanRun.RecoveryCompletedExactly | bridge-app/src/filesystem/operations.ts:707-710 | the same for recovery, where any pending report needs recovery |
| PlanRun.CompletedRunLeavesPending | bridge-app/src/filesystem/operations.ts:402-407 | a COMPLETED run can leave an action PENDING |
| RoundTrip.CreationAddsDirectory | bridge-app/src/filesystem/physical-journal.ts:116-120 | creating a folder makes exactly one more path lead to a directory |
| RoundTrip.RestFeasible | bridge-app/src/filesystem/operations.ts:335-388 | after one action the rest of a feasible plan is feasible |
| RoundTrip.PlanCompletes | bridge-app/src/filesystem/operations.ts:304-388 | undisturbed, every action of a feasible plan completes |
| RoundTrip.UndoRestores | bridge-app/src/filesystem/operations.ts:579-643 | running the reversed list puts every name back |
| RoundTrip.UndoListClear | bridge-app/src/filesystem/operations.ts:429-555 | the preview accepts the reversed list, folders that become empty only on the way included |
| RoundTrip.NewNames | bridge-app/src/filesystem/operations.ts:467-481 | every name a run adds is the source of an undo action |
| RoundTrip.ExecuteThenUndo | bridge-app/src/filesystem/operations.ts:579-643 | execution completes, the undo preview accepts, and undo restores the original map from names to inodes |
| DiskPlan.PlanRefines | bridge-app/src/filesystem/operations.ts:335-388 | executing a ready plan on the step machine, one undisturbed call after another, is its run on the tree, and the undo list that the reports give is the one of the run |
| DiskPlan.PreviewOnDisk | bridge-app/src/filesystem/operations.ts:429-555 | the undo preview sees on the disk what it sees on the tree |
| DiskPlan.UndoRefines | bridge-app/src/filesystem/operations.ts:579-643 | undoing on the step machine is the list's run on the tree |
| DiskPlan.ExecuteThenUndoOnDisk | bridge-app/src/filesystem/operations.ts:579-643 | every undisturbed execution of a ready plan delivers all outcomes, the undo preview accepts, and every undisturbed undo gives every public name on the disk its inode back |
| DiskRuns.PlanRuns | bridge-app/src/filesystem/operations.ts:335-388 | a ready plan can be executed to its end |
| DiskRuns.UndoRuns | bridge-app/src/filesystem/operations.ts:608-643 | so can an undo list that runs through on the tree |
| DiskRuns.RoundTripRuns | bridge-app/src/filesystem/operations.ts:304-410 | from every disk that shows a tree on which the plan is feasible there is such an execution and such an undo, and the public names are as before |
| DiskRuns.SensiblePlanRuns | bridge-app/src/filesystem/operations.ts:304-410 | in particular for a clear plan, complete in itself, in its executed order |
| Library.OrderedIsFeasible | bridge-app/src/filesystem/operations.ts:310-318 | a plan with a clear preview, distinct sources and parents that exist or are created by it can run in the executed order |
| Library.ConnectedLibrary.RunInOrder | bridge-app/src/filesystem/operations.ts:335-388 | executes up to the first action that fails, and the tree is that of the completed actions |
| Library.ConnectedLibrary.ExecutePlan | bridge-app/src/filesystem/operations.ts:304-410 | changes nothing unless the preview is clear; completes every action of a sensible plan |
| Library.ConnectedLibrary.ExecuteUndo | bridge-app/src/filesystem/operations.ts:579-677 | changes nothing unless the undo preview is clear; applies the list in order up to the first failure |
| Library.ExecuteThenUndoPlan | bridge-app/src/filesystem/operations.ts:304-410 | executing and undoing a sensible plan through these methods restores every name |
| Scanner.RevisitedStable | bridge-app/src/filesystem/scanner.ts:313-335 | a path with the same stamp in both passes denoted the same unchanged object from its first look to the moment between the passes |
| Scanner.PublishedWasThere | bridge-app/src/filesystem/scanner.ts:127-335 | every published path was, at that moment, the recorded file or link; it is SUPPORTED, with the checksum of its bytes then, exactly if it was a regular file of a supported type, UNSUPPORTED without one exactly if not, and never FAILED |
| Scanner.DirectoryReached | bridge-app/src/filesystem/scanner.ts:313-335 | a visible directory of that moment, not below a missed one, was listed by both passes |
| Scanner.InventoryExactly | bridge-app/src/filesystem/scanner.ts:343-401 | a path is published exactly when it was visible at that moment and not below a missed directory |
| Scanner.SnapshotExactly | bridge-app/src/filesystem/scanner.ts:310-335 | the inventory is exactly the tree of that moment if and only if no visible file or link then lay below a missed directory |
| Scanner.SnapshotTheorem | bridge-app/src/filesystem/scanner.ts:310-335 | in particular when every recorded directory was revisited |
| ScannerCalm.CalmScanIsExact | bridge-app/src/filesystem/scanner.ts:343-401 | of a tree that is left alone the inventory is the tree: every visible regular file of a supported type with its own checksum, every other visible file and link unread, and nothing else |
| ScannerGap.ScanMatchesNoMoment | bridge-app/src/filesystem/scanner.ts:313-329 | a scan passes all its checks and publishes an inventory that the tree had at no time at all |
| ScannerPasses.Scan.FileDraft | bridge-app/src/filesystem/scanner.ts:127-233 | only a file of a supported type is published as supported, with the digest of the bytes if they did not change while they were read, and the same as far as identities are compared before and after; a file that holds still is supported exactly if its type is, and never failed |
| ScannerPasses.Scan.Record | bridge-app/src/filesystem/scanner.ts:282-306 | records the stamp seen and publishes every file or link |
| ScannerPasses.Scan.ScanEntry | bridge-app/src/filesystem/scanner.ts:257-307 | an entry is published or recorded, and a directory gone through, touching nothing outside it |
| ScannerPasses.Scan.ScanDirectory | bridge-app/src/filesystem/scanner.ts:235-308 | every visible entry of the listing is handled, whatever other programs do meanwhile |
| ScannerPasses.Scan.VerifyEntry | bridge-app/src/filesystem/scanner.ts:318-334 | goes on only if the entry has the stamp recorded for its path |
| ScannerPasses.Scan.VisiblePaths | bridge-app/src/filesystem/scanner.ts:313-335 | every visible entry of the second listing has been looked at again |
| ScannerPasses.Scan.ScanBridgeRoot | bridge-app/src/filesystem/scanner.ts:343-401 | a returned inventory satisfies all that the snapshot theorem asks for; and it does return, unless something changed meanwhile or a visible entry is missing or too deep |
| ScannerPasses.Stepped | bridge-app/src/filesystem/scanner.ts:257-307 | going through one entry leaves its siblings as they were |
| ScannerPasses.StillNewAgain | bridge-app/src/filesystem/scanner.ts:318-334 | verifying one entry touches none of its siblings |
| Canonical.EscapeUnit | packages/bridge-protocol/src/commands.ts:14-16 | an escaped unit never begins with a quotation mark or a high surrogate |
| Canonical.SortSorts | packages/bridge-protocol/src/commands.ts:22-24 | entries are sorted strictly by key and are the same entries |
| Canonical.SortedUnique | packages/bridge-protocol/src/commands.ts:22-24 | only one sequence lists given entries in order |
| Canonical.QuoteUnambiguous | packages/bridge-protocol/src/commands.ts:26-28 | a quoted string followed by anything determines the string and what follows |
| Canonical.SamePrints | packages/bridge-protocol/src/commands.ts:13-29 | values equal up to key order print alike |
| Canonical.Unambiguous | packages/bridge-protocol/src/commands.ts:13-29 | equal text, followed by anything that cannot continue a numeral, comes from values equal up to key order |
| Canonical.StringifyCanonical | packages/bridge-protocol/src/commands.ts:13-29 | two JSON values print alike exactly when they differ only in object key order |
| CanonicalParse.TextBack | packages/bridge-protocol/src/commands.ts:14-16 | a parser of JSON strings reads every quoted string back, escapes, pairs and lone surrogates included |
| CanonicalParse.PrintedIsRead | packages/bridge-protocol/src/commands.ts:13-29 | a parser after RFC 8259 reads every printed value back as the same value, with the keys of its objects in order, and takes nothing of what follows |
| Envelope.PayloadCovered | packages/bridge-protocol/src/commands.ts:148-157 | an accepted envelope stays accepted after any reordering of its payload's keys, and is refused as changed after any other change of the payload |
| Envelope.VerdictOrder | packages/bridge-protocol/src/commands.ts:116-184 | for every envelope: each verdict means that its own check is the first to fail, and acceptance that none does |
| Envelope.ForgedIsRefused | packages/bridge-protocol/src/commands.ts:159-165 | a signature made over other signed fields is never accepted |
| Envelope.CreatedIsAllowed | packages/bridge-protocol/src/commands.ts:68-184 | a created envelope is accepted exactly by its own device, while that is not revoked, until it expires, once; and each refusal it can meet has its own cause |
| Envelope.NothingSignedChanges | packages/bridge-protocol/src/commands.ts:35-66 | an accepted envelope with the signature of a created one agrees with it in every signed field and in the payload |
| Locks.StepKeeps | bridge-app/src/main/local-json-store.ts:8-17 | every step of the promise chains keeps the order of calls, entries and pending works |
| Locks.CleanUpKeeps | bridge-app/src/main/local-json-store.ts:15-16 | deleting an entry never lets a later caller overlap a pending one |
| Locks.ValidAlways | bridge-app/src/main/local-json-store.ts:8-17 | and so in every run |
| Locks.MutualExclusion | bridge-app/src/main/local-json-store.ts:8-17 | a work has begun only when all earlier works for its key have settled |
| Locks.RejectionInvisible | bridge-app/src/main/local-json-store.ts:13-13 | what is possible next does not depend on whether a work was rejected |
| Locks.LastOneCleansUp | bridge-app/src/main/local-json-store.ts:15-17 | when the last call for a key cleans up, the map keeps no entry for that key and loses no other |
| Locks.AlwaysMovable | bridge-app/src/main/registry.ts:49-57 | no deadlock: while any call is pending, some work can start or end or a tail can settle |
| RootAuthority.CallsInOrder | bridge-app/src/main/registry.ts:49-57 | the calls that the programs make inside a held authority keep the order of locks |
| RootAuthority.StoreKeeps | bridge-app/src/main/registry.ts:198-294 | a write of the registry keeps what is known of tokens, selections and the locks that registrations hold |
| RootAuthority.ValidAlways | bridge-app/src/main/registry.ts:37-57 | and so in every run of selections, registrations, updates and runs |
| RootAuthority.OneRegistryWork | bridge-app/src/main/registry.ts:37-47 | at most one work is between reading the registry and writing it |
| RootAuthority.NoLostUpdate | bridge-app/src/main/local-json-store.ts:3-4 | what a work writes back is made from the registry as it is |
| RootAuthority.RegistrationSpends | bridge-app/src/main/registry.ts:211-243 | a registration that is written leaves its token without a selection |
| RootAuthority.SpentForever | bridge-app/src/main/registry.ts:211-243 | and then no registration by that token changes a root in any continuation |
| RootAuthority.WrittenUnderAuthority | bridge-app/src/main/registry.ts:40-47 | every change of a root's record is made in a scope that holds its authority; the registration that takes the registry lock alone changes none |
| RootAuthority.AuthorityStable | bridge-app/src/filesystem/operations.ts:298-302 | while a run holds a root's authority, its revision, status and grants stay what they were, its own re-entrant updates included |
| RootAuthority.GrantsStable | bridge-app/src/filesystem/operations.ts:343-344 | so every permission check during the run comes out as at its start |
| RootAuthority.DeadlockFree | bridge-app/src/main/registry.ts:49-57 | while any call is pending, some work can start or end or a tail can settle, the order of nested calls being the programs' own |
| Locks.LocalStore.WithLocalStoreLock | bridge-app/src/main/local-json-store.ts:9-14 | chains on the current tail of the key and becomes its tail |
| Locks.LocalStore.CleanUp | bridge-app/src/main/local-json-store.ts:15-16 | deletes the entry only while it is this call's own tail |
| Registry.RegistryFile.CreateFolderSelection | bridge-app/src/main/registry.ts:140-180 | adds one selection under a fresh token and drops expired ones |
| Registry.RegistryFile.Connect | bridge-app/src/main/registry.ts:245-283 | the whole stored record: a known folder with the next revision and a later time, or a new one with revision 1, with the selection's path and the given grants, changing no other root |
| Registry.RegistryFile.RegisterRoot | bridge-app/src/main/registry.ts:198-294 | fails exactly without a live selection for the token, for a folder that is not valid, or for a watch grant without read, and then changes no root; otherwise it connects the selection's folder and consumes the token |
| Registry.RegistryFile.UpdateRoot | bridge-app/src/main/registry.ts:327-404 | fails exactly for an unknown root or a watch grant without read; otherwise stores that root with every named change, pauses a watcher that lost its grant, and advances its time, under any clock |
| Registry.GrantsFollowWishes | bridge-app/src/main/registry.ts:354-383 | a patch decides exactly the permissions it names; without one a new root may only be read; a root that is not connected grants nothing |
| Registry.UnexpiredUnique | bridge-app/src/main/registry.ts:109-115 | dropping expired selections keeps tokens unique |
| Outbox.EventOutbox.Queue | bridge-app/src/watcher/event-outbox.ts:59-71 | ignores a known id; appends a new event, giving up the oldest beyond the bound |
| Outbox.EventOutbox.Acknowledge | bridge-app/src/watcher/event-outbox.ts:85-104 | removes exactly the acknowledged ids and keeps the order |
| Outbox.EventOutbox.List | bridge-app/src/watcher/event-outbox.ts:73-83 | returns the first events of the root, as many as there are up to the limit, which is 1 to 100 and 100 by default |
| Outbox.SelectedShows | bridge-app/src/watcher/event-outbox.ts:80-82 | the selected events are a subsequence of the outbox |
| Outbox.SelectedPositions | bridge-app/src/watcher/event-outbox.ts:80-82 | of exactly the positions whose event belongs to the root |
| Outbox.EventOutbox.Take | bridge-app/src/watcher/event-outbox.ts:106-112 | with other callers in between, what the caller is given was in the outbox when listed and is not there afterwards, and nothing else goes |
| Outbox.AcknowledgeKeeps | bridge-app/src/watcher/event-outbox.ts:85-104 | after an acknowledgement every queued event is still there, acknowledged, or has a thousand newer ones |
| Outbox.EvictKeeps | bridge-app/src/watcher/event-outbox.ts:67-68 | an event is given up only when a thousand newer ones were queued |
| Outbox.RemainingShows | bridge-app/src/watcher/event-outbox.ts:94-96 | what remains is a subsequence of what was queued, without the acknowledged ids |
| Paths.AcceptedIsPlain | bridge-app/src/filesystem/safety.ts:230-306 | an accepted nonempty path consists of plain segments without any refused character only |
| Paths.AcceptedExactly | bridge-app/src/filesystem/safety.ts:239-306 | every verdict, by where the path leads: refused when empty, absolute, leaving its folder, ending in a slash, leading nowhere or through a bad name; otherwise accepted as the names it ends at |
| Paths.SafePathIsKept | bridge-app/src/filesystem/safety.ts:239-306 | a path of safe names is accepted as it is |
| Paths.FoldLeadsThere | bridge-app/src/filesystem/safety.ts:271-271 | normalisation leads to the same place from every folder: a dot-dot takes away the segment before it |
| Paths.JoinSegments | bridge-app/src/filesystem/safety.ts:297-305 | splitting a joined path gives the segments back |
| Paths.ResolvesBelow | bridge-app/src/filesystem/safety.ts:323-329 | an accepted path resolves to the root followed by its own segments |
| Paths.ContainedAndInjective | bridge-app/src/filesystem/safety.ts:308-329 | every accepted path leads strictly below the root, and different ones to different places |

## Left out

- Durability of directory entries after power loss: `syncDirectory` is not modelled; a crash here is the death of the process.
- Journals that are corrupt, or written before the present identity encoding: `load`'s validation and `usablePhysicalIdentity` refuse them before any effect.
- `modifiedAt` and `sizeBytes` of outcomes, and the metadata comparison of size and time in `validateSourceIntegrity`.
- Several calls of one owner, or of one root, at the same time: the locks that exclude them are modelled in `Locks`, not interleaved with the protocol.
- Bridge.Bridge.ExposeForeignCapturedDirectory: does not model which entries the recursive copy makes; any exclusive creations of public names are allowed, and the checks that the recreated directory is still the same one are left out.
- RoundTrip.PlanCompletes: models each journaled call as one step on the tree; `DiskTree` and `DiskPlan` prove the same of the step machine.
- RoundTrip.UndoRestores: models each journaled call as one step on the tree; see `DiskPlan.UndoRefines`.
- RoundTrip.ExecuteThenUndo: models each journaled call as one step on the tree; see `DiskPlan.ExecuteThenUndoOnDisk`.
- Library.ConnectedLibrary.RunInOrder: models undisturbed fresh actions on the tree; reports and settling are those of `Executor.RunActions`, which runs through the bridge.
- Library.ConnectedLibrary.ExecutePlan: models fresh plans on the tree; a resumed plan previews only the actions without a journal.
- Library.ConnectedLibrary.ExecuteUndo: models fresh undo lists on the tree, likewise.
- Library.ExecuteThenUndoPlan: models fresh plans on the tree; `DiskRuns.SensiblePlanRuns` is its counterpart on the disk.
- Plan.SourceIssues: does not model the comparison of size and modification time; the disk knows files by their digest.
- Plan.UndoIssues: does not model links at the old name: `access` follows them, so a dangling link passes the code's preview and is then refused by the exclusive link; the model calls the name occupied.
- Plan.PreviewUndo: has the gaps of `Plan.UndoIssues`.
- Executor.RunActions: takes permission checks and path resolution of `resolveInsideRoot` beyond its lexical part as an arbitrary yes or no; the name audit after an undo is left out.
- ScannerPasses.Scan.FileDraft: leaves image metadata and access bits out; an image is read twice and compared.
- ScannerGap.ScanMatchesNoMoment: the witness is all that a scan has seen and checked, not a run of `ScannerPasses.Scan`, whose waiting and order of entries are arbitrary.
- ScannerPasses.Scan.ScanBridgeRoot: compares the whole stamp of the root, where the code leaves size and mode out of that one comparison; the final sort of the inventory is left out.
- Locks.AlwaysMovable: takes the order of nested acquisitions as a condition on callers; `RootAuthority` derives it from the programs.
- CanonicalParse.PrintedIsRead: reads JSON without insignificant blanks, and takes a numeral to be any run of its characters; nothing else is ever printed.
- Symbolic links and `realpath` in `resolveInsideRoot` and `validateRootPath`, Windows case folding, and access bits.
- Idempotence of `normalizeRelativePath`, which does not hold when dot segments expose blanks.
- The HTTP server, pairing, process management, content readers, watchers, the user interface and the services behind it.
