# VelocityCopy transfer core, modelled and proved

VelocityCopy copies and moves files on Windows. A session works through a live plan: items wait in a
queue, up to four workers take them, failed items are parked for a decision, and more jobs may be
pasted in while the session runs. This project models that core and the formats and orders it rests on,
and proves what the code is meant to guarantee.

The parts build on one another:

- **Live plan.** `Items`, `LivePlan`, `PlanInvariant`, `PlanOperations`, `PlanAdmission`, `PlanEntry`,
  `PlanRuns`, `QueueOrder`, `LiveCopyPlan`, `Checkpoint`, `CheckpointReads`, `SavedCheckpoint`, `ParkedDecisions`. `LiveCopyPlan` is a class that
  updates its fields in place, with the loops, guards and unchecked 64-bit additions of the code. Every
  method is proved against a function on plan values, and one invariant (`PlanInvariant.Inv`) ties ids,
  reserved destination keys, weights, bytes, progress marks, attempt numbers and outcomes together. Every
  operation keeps it, so the saturating guards in the code never clip. It keeps its history (terminal
  items, writes reported, retries begun) as specification fields, against which the counters are stated.
- **Workers and sessions.** `ExecutionControl`, `Executor`, `ExecutorOwnership`, `ExecutorRuns`,
  `Reservations`, `Session`, `SessionSafety`, `SessionDrain`. A pass of the executor is a state machine: a
  worker has a program counter between any two calls on the plan or the control, and steps of workers, the
  main thread, the user and the planner interleave freely. The copy itself is a step with any outcome. The
  session adds the append gate, the planning queue and the session thread, in steps delimited by the locks
  the code takes.
  A run of the executor spans any number of passes and of sessions resumed after a stop, a conflict or a
  decision; a session starts from whatever plan and whatever reservations earlier ones left.
- **Data safety of a Move.** `MoveSafety` is a machine over an abstract disk: removals in progress pin files
  and compare fingerprints one system call at a time, while anything not pinned may change between calls.
  `MovedItems` runs it together with the executor: what a worker or the retry pass is told about a copy, a
  rename or a removal is what the disk did.
- **Trees.** `OutputRegistry`, `PlannerWalk`, `PlannerPlans`, `SourceCleanup`, `DestinationPath`. The
  explicit stacks, early exits and rollbacks of the code, proved equal to recursive definitions.
- **Keys and formats.** `PathKeys`, `Wire`, `ShellCodec`, `QueueArchive`, `QueueFiles`. `Wire` builds codecs
  out of smaller ones with two laws (decoding undoes encoding, and whatever decodes was an encoding); the
  byte-level readers and writers are methods proved against codecs put together this way.

## Assumptions

- A path key is a list of component classes; `PathKeys.KeysAreClassLists` shows that this is what the
  encoded keys come to, given an ordinal comparison that is a total preorder under either
  case policy.
- When a copy completes, the fingerprints it reports are those of the objects then at its source and its
  destination (`MovedItems`).
- Calls that settle or park an item, copy, rename or remove a source do not throw; they are declared so.
- A pinned file is neither deleted nor replaced nor written by others, and its fingerprint read from the
  pinned handle is that of the file; a rename by the executor is atomic (`MoveSafety`).
- The plan's mutex, the gate's mutex and the planner's mutex make the steps they guard atomic, and only those:
  a checkpoint is two such steps, with any run of the executor between them (`CheckpointReads`).
- Whoever settles a finished copy records it as succeeded or as copied with its source retained, as the retry
  pass (`ExecutorRuns.StaysConcluding`) and the window's decision (`ParkedDecisions.ResolveParkedFailures`) do.
- `is_absolute`, the search for a parent reference and the path containment tests are parameters of the two
  codecs; the file system's answers are parameters of planning, cleanup and directory creation.

## Where the code does less than its design promises

Each of these is a result of this project: the exact condition, and an input or run that shows it.

- `append` takes the byte total a plan declares, and checks the weights of files against 64 bits but not those
  of planning failures. It keeps the books exactly when the total is right and all weights fit
  (`PlanEntry.AppendKeepsIff`, `PlanEntry.AppendOverflowExample`). The constructor checks neither weights, nor
  the total, nor ids (`PlanEntry.CreateKeepsIff`, `PlanEntry.CreateOverflowExample`,
  `PlanEntry.CreateMiscountExample`). Totals and ids are right in every plan the program makes: planned
  (`PlannerPlans.PlannedIsAccepted`), exported (`Checkpoint.ExportDeclared`) or loaded
  (`SavedCheckpoints.LoadedDeclares`).
- The bounded wait for outstanding planning closes the gate when it times out, and the session then ends
  without looking at the plan again: appended work can be left queued (`SessionDrain.TimeoutStrands`,
  `SessionDrain.TimeoutExample`). On every other way to success the session is drained
  (`SessionDrain.SessionDrains`).
- The version 3 request reader checks for four bytes before it reads the eight-byte id and not after it:
  it reads past the end exactly on messages of 16 to 19 bytes that open as version 3
  (`ShellCodec.ReadsPastEndIff`, `ShellCodec.PastEndExample`). Where the code would do this the model's reader
  answers `ReadsPastEnd`.
- Saving a queue does not check what loading does: a saved archive loads exactly when its sizes add up
  within 64 bits, its removals were attempted and the file is not too long (`QueueArchive.LoadsIff`,
  `QueueArchive.UnloadableExample`).
- A checkpoint reads the removal records first and the files second, under the lock each time but not across
  both, while workers may be running. A finished copy that a worker parks in between is in neither: the
  checkpoint holds every unresolved item exactly when there is no such item (`CheckpointReads.ReadsCoverIff`,
  `CheckpointReads.OvertakenExample`), and so does the plan rebuilt from it, in which finished copies settled in
  between reappear as removals to be looked at again (`CheckpointReads.ReadsReturn`,
  `SavedCheckpoints.SavedCheckpointReturns`).
- A checkpoint drops an item parked for source removal without a recovery record
  (`Checkpoint.CheckpointCoversIff`, `Checkpoint.DroppedExample`); the executor and the window never produce
  one (`Checkpoint.ExportableKept`).
- Key equality is not quite mutual prefix: two empty keys are equal, yet the prefix test rejects them
  (`PathKeys.EqualIsMutualPrefix`, `PathKeys.EmptyKeysExample`).
- A refused destination directory is undone completely exactly when nobody else made one of the components
  on the way and the failing one could not be created at all (`DestinationPath.UndoneIff`,
  `DestinationPath.StrandedExample`).

## Model

| member | source | states |
|---|---|---|
| PlanRuns.RunKeeps | src/core/live_copy_plan.cpp:134-915 | The invariant holds in every plan reachable from one where it holds, by any sequence of appends, queue edits, acquire, release, redirect, park, retry, resolve, skip, restore and progress reports |
| PlanInvariant.ResolvedAtMostTotal | src/core/live_copy_plan.cpp:602-642 | Resolved weight never exceeds the total, and equals it once nothing is unresolved |
| PlanInvariant.Retired | src/core/live_copy_plan.cpp:602-642 | Settling an item keeps the invariant and raises the resolved weight by its weight less exactly what its in-flight mark had counted: no guard clips |
| PlanAdmission.RemoveKeeps | src/core/live_copy_plan.cpp:408-453 | Removal takes exactly the weights, marks, bytes and count of the chosen pending items out of the totals, unclipped |
| PlanAdmission.DropAllForm | src/core/live_copy_plan.cpp:590-600 | Dropping in-flight progress item by item forgets exactly those marks; the saturating subtraction never clips |
| PlanAdmission.SkipKeeps | src/core/live_copy_plan.cpp:528-556 | Taking an active item out altogether keeps the invariant |
| PlanAdmission.ScreenAccepts | src/core/live_copy_plan.cpp:167-192 | Destinations that pass screening have distinct, normalisable, unchanged keys that were free, and are then reserved |
| PlanAdmission.ScreenRefuses | src/core/live_copy_plan.cpp:167-192 | Conversely such destinations always pass |
| PlanEntry.AppendAcceptsIff | src/core/live_copy_plan.cpp:134-233 | Append accepts exactly plans with this destination and operation whose files fit the remaining ids, bytes and weights and whose destinations are fit, unchanged and free |
| PlanEntry.AppendKeepsIff | src/core/live_copy_plan.cpp:134-233 | An accepted append keeps the invariant if and only if the plan declares its own byte total and all weights it brings fit 64 bits; a refused one changes nothing |
| PlanEntry.AppendOverflowExample | src/core/live_copy_plan.cpp:57-67 | A planning failure on top of a maximal file wraps the total weight to zero and breaks the books |
| PlanEntry.CreateKeepsIff | src/core/live_copy_plan.cpp:30-55 | The constructor succeeds exactly on placeable destinations, and establishes the invariant if and only if ids are 64-bit and distinct, the declared byte total is right and the weights fit 64 bits |
| PlanEntry.CreateOverflowExample | src/core/live_copy_plan.cpp:40-53 | A maximal file and an empty one wrap the total weight to zero |
| PlanEntry.CreateMiscountExample | src/core/live_copy_plan.cpp:30-39 | A plan that declares too few bytes is accepted and breaks the books |
| PlanEntry.RestoreKeeps | src/core/live_copy_plan.cpp:693-740 | Restoring an archived source removal keeps the invariant, whatever the record |
| PlanOperations.RedirectKeeps | src/core/live_copy_plan.cpp:497-526 | Keep-both redirection swaps one reservation for a free one and keeps the invariant |
| PlanOperations.RecordBytesKeeps | src/core/live_copy_plan.cpp:893-915 | A progress report keeps marks within weights, and physical bytes equal to the reported writes modulo 2^64 |
| PlanOperations.FailUnderKeeps | src/core/live_copy_plan.cpp:869-891 | Failing everything queued below a directory keeps the invariant |
| PlanRuns.StatesApart | src/core/include/velocitycopy/item_result.hpp:64-76 | No id is pending, active, parked and terminal twice over |
| PlanRuns.StepLawful | src/core/include/velocitycopy/item_result.hpp:64-76 | Every operation moves every item along a valid transition; new ids appear only by append and restore, at or above the next id, and ids vanish only by removal and the older skip |
| PlanRuns.NextIdGrows | src/core/live_copy_plan.cpp:134-233 | Ids are given out upwards and never again after the 64-bit sentinel; outcomes are only ever added |
| PlanRuns.SettledForEver | src/core/include/velocitycopy/item_result.hpp:64-76 | Over any run a terminal item stays terminal with its outcome kept, and an id that left never comes back |
| PlanRuns.RemovalNeverTransfers | src/core/live_copy_plan.cpp:756-782 | An item parked for source removal never becomes pending or active again: it waits or is settled |
| PlanRuns.ProgressOverRuns | src/core/live_copy_plan.cpp:893-915 | Without removals and older skips the resolved weight never decreases over a run, though attempts restart at zero |
| PlanRuns.ProgressMonotone | src/core/include/velocitycopy/item_result.hpp:81-89 | The same for a single operation |
| PlanRuns.PhysicalBoundsMarks | src/core/live_copy_plan.cpp:893-915 | The bytes physically written bound the marks of all items not restored, and the counter is that number modulo 2^64 |
| LiveCopyPlans.LiveCopyPlan.Build | src/core/live_copy_plan.cpp:30-55 | For any plan, the constructor's screening and totals, or its exception; the object is valid exactly when ids, declared total and weights are in order |
| LiveCopyPlans.LiveCopyPlan.AppendPlan | src/core/live_copy_plan.cpp:134-233 | For any plan, the new state and answer of append; any refusal leaves everything as it was; the object stays valid exactly while the declared total is right and the weights fit |
| LiveCopyPlans.LiveCopyPlan.MovePendingFile | src/core/live_copy_plan.cpp:258-282 | One item rotates to a position of the queue |
| LiveCopyPlans.LiveCopyPlan.MovePendingFilesUp | src/core/live_copy_plan.cpp:284-302 | The pass of adjacent swaps leaves the queue as `QueueOrder.Up` describes |
| LiveCopyPlans.LiveCopyPlan.MovePendingFilesDown | src/core/live_copy_plan.cpp:304-324 | The downward pass is the mirror image |
| LiveCopyPlans.LiveCopyPlan.ReorderPendingPage | src/core/live_copy_plan.cpp:362-402 | Accepts exactly the genuine reorderings of a page, and then puts exactly that page in the requested order; otherwise changes nothing |
| LiveCopyPlans.LiveCopyPlan.RemovePendingFiles | src/core/live_copy_plan.cpp:408-453 | Removes the chosen pending items and reports how many |
| LiveCopyPlans.LiveCopyPlan.AcquireNext | src/core/live_copy_plan.cpp:455-465 | The first pending item becomes active |
| LiveCopyPlans.LiveCopyPlan.ReleaseActive | src/core/live_copy_plan.cpp:488-495 | An active item returns to the front of the queue |
| LiveCopyPlans.LiveCopyPlan.CompleteActive | src/core/live_copy_plan.cpp:467-486 | Success through the older completion call |
| LiveCopyPlans.LiveCopyPlan.RedirectActiveDestination | src/core/live_copy_plan.cpp:497-526 | The first numbered alternative that neither plan nor disk has taken replaces the destination |
| LiveCopyPlans.LiveCopyPlan.SkipActive | src/core/live_copy_plan.cpp:528-556 | The older skip takes the item and what it weighed out of the plan |
| LiveCopyPlans.LiveCopyPlan.ParkActive | src/core/live_copy_plan.cpp:644-665 | An active item is parked with its incident and attempt number |
| LiveCopyPlans.LiveCopyPlan.ParkActiveSourceRemoval | src/core/live_copy_plan.cpp:667-691 | The same for a finished copy, with the fingerprints for its removal |
| LiveCopyPlans.LiveCopyPlan.RestoreParkedSourceRemoval | src/core/live_copy_plan.cpp:693-740 | Accepts exactly the restorable records and parks the item as already copied |
| LiveCopyPlans.LiveCopyPlan.ParkedSourceRemovals | src/core/live_copy_plan.cpp:742-754 | The records to archive, brought up to date with their incidents |
| LiveCopyPlans.LiveCopyPlan.UnparkFile | src/core/live_copy_plan.cpp:756-782 | Parked transfers, and nothing else, return to the front of the queue with one attempt more |
| LiveCopyPlans.LiveCopyPlan.BeginParkedRetry | src/core/live_copy_plan.cpp:784-799 | A retry in place counts one attempt more, saturating |
| LiveCopyPlans.LiveCopyPlan.RecordParkedRetryFailure | src/core/live_copy_plan.cpp:801-813 | The incident and its record take the new code |
| LiveCopyPlans.LiveCopyPlan.ResolvePendingFile | src/core/live_copy_plan.cpp:815-831 | Settles a pending item |
| LiveCopyPlans.LiveCopyPlan.ResolveActiveFile | src/core/live_copy_plan.cpp:833-849 | Settles an active item |
| LiveCopyPlans.LiveCopyPlan.ResolveParkedFile | src/core/live_copy_plan.cpp:851-867 | Settles a parked item |
| LiveCopyPlans.LiveCopyPlan.FailPendingUnder | src/core/live_copy_plan.cpp:869-891 | Every pending item strictly inside a directory fails, and the count is right |
| LiveCopyPlans.LiveCopyPlan.RecordAttemptBytes | src/core/live_copy_plan.cpp:893-915 | A cumulative report adds its increase to the physical bytes and raises the mark |
| LiveCopyPlans.LiveCopyPlan.MarkDirectoriesMaterialized | src/core/include/velocitycopy/live_copy_plan.hpp:101-105 | The marker only grows, and never past the directories |
| QueueOrder.UpShiftsByOne | src/core/live_copy_plan.cpp:284-302 | A bulk move-up shifts every chosen item outside the leading chosen run by exactly one, and leaves that run in place |
| QueueOrder.UpKeepsOrders | src/core/live_copy_plan.cpp:284-302 | It permutes the queue and keeps the relative order of chosen and of other items |
| QueueOrder.DownShiftsByOne | src/core/live_copy_plan.cpp:304-324 | The mirror image for moving down |
| QueueOrder.UpChangesIff | src/core/live_copy_plan.cpp:284-302 | The move does nothing exactly when the chosen items already lead the queue |
| QueueOrder.SettlesPartitioned | src/core/live_copy_plan.cpp:284-302 | Repeating it terminates in the stable partition |
| QueueOrder.PageFills | src/core/live_copy_plan.cpp:362-402 | As many distinct items as requested distinct ids, all requested, fill every place of the page |
| QueueOrder.PageOrderPermutes | src/core/live_copy_plan.cpp:362-402 | A page reorder permutes the queue |
| QueueOrder.PageOrderUnique | src/core/live_copy_plan.cpp:362-402 | The request determines the whole resulting queue |
| Checkpoint.ExportRemainingPlan | src/core/live_copy_plan_export.cpp:10-52 | The loop exports active items, parked transfers and the queue, renumbered from 1; its byte total never overflows |
| Checkpoint.DescriptionRoundTrip | src/core/live_copy_plan_export.cpp:10-52 | Short of 64-bit overflow, building a plan from any description of the work remaining in one plan, policies and source folders or not, and restoring the removals recorded of another or of the same one succeeds exactly when no record is for a destination of that work; the result exports that description and those records again |
| Checkpoint.Reopen | src/ui/VelocityCopy.UI/MainWindow.QueuePersistence.cpp:387-393 | The start from a loaded queue: construction, then each record in turn, and nothing at all if one is refused |
| Checkpoint.CheckpointRoundTrip | src/core/live_copy_plan_export.cpp:10-52 | From a plan's own export the same gives the identical plan and the same removals up to ids |
| Checkpoint.ExportDeclared | src/core/live_copy_plan_export.cpp:20-29 | Every export declares its own byte total and has sound ids |
| Checkpoint.CheckpointCoversIff | src/core/live_copy_plan.cpp:742-754 | Export and removals cover every unresolved item exactly when each item parked for removal carries its record |
| Checkpoint.DroppedExample | src/core/live_copy_plan_export.cpp:43-46 | A plan whose only item is parked for removal without a record has an empty checkpoint |
| CheckpointReads.FinishedOverRuns | src/core/job_executor.cpp:424-462 | Over any run a finished copy goes on waiting as the same file or is settled as copied |
| CheckpointReads.ReadsCoverIff | src/ui/VelocityCopy.UI/MainWindow.QueuePersistence.cpp:261-263 | With any run between reading the records and reading the files, the two hold every item unresolved at the second reading exactly when none was parked for source removal in between |
| CheckpointReads.ReadsReturn | src/ui/VelocityCopy.UI/MainWindow.QueuePersistence.cpp:261-263 | A plan rebuilt from the two readings always opens, has every such item exactly under that condition, and has besides only finished copies settled in between |
| CheckpointReads.OvertakenExample | src/ui/VelocityCopy.UI/MainWindow.QueuePersistence.cpp:60-62 | A one-file Move whose finished copy is parked between the readings: no record, no file, one unresolved item |
| Checkpoint.ExportableKept | src/core/live_copy_plan.cpp:667-691 | Everything the executor and the window do keeps the plan exportable |
| SavedCheckpoints.SavedCheckpointReturns | src/ui/VelocityCopy.UI/MainWindow.QueuePersistence.cpp:258-268 | A checkpoint read in two steps with any run between them, saved to a queue file and loaded again, describes the remaining work of the later plan and the removals of the earlier one; the plan it opens as has every item then unresolved exactly when none was parked for source removal in between, adds only finished copies settled in between, and its own checkpoint is the same but for case policies looked up anew and source folders |
| SavedCheckpoints.LoadedDeclares | src/core/queue_archive.cpp:162-210 | Every plan loaded from any queue file declares its own byte total and has sound ids |
| ParkedDecisions.ResumeParkedFailures | src/ui/VelocityCopy.UI/MainWindow.Execution.cpp:1216-1226 | Every parked transfer is queued again, last one first, finished copies stay parked, and the failure exit is never taken |
| ParkedDecisions.ResolveParkedFailures | src/ui/VelocityCopy.UI/MainWindow.Execution.cpp:1251-1282 | Accepting the failures settles every parked item with the right outcome, in order; either the session restarts or all weight is resolved |
| ExecutionControls.EndingIsFinal | src/core/execution_control.cpp:9-89 | No sequence of requests and lookups leads back from Stop or Cancel, weakens Cancel to Stop, or adds a skip once winding down |
| ExecutionControls.SkipsGrantedOnce | src/core/execution_control.cpp:61-89 | No skip request is granted twice |
| ExecutionControls.ExecutionControl.RequestPause | src/core/execution_control.cpp:9-17 | Pause takes effect only on a running session |
| ExecutionControls.ExecutionControl.Resume | src/core/execution_control.cpp:19-28 | Only a paused session resumes |
| ExecutionControls.ExecutionControl.RequestStop | src/core/execution_control.cpp:30-39 | Stop never overrides Cancel |
| ExecutionControls.ExecutionControl.RequestCancel | src/core/execution_control.cpp:41-49 | Cancel always takes effect |
| ExecutionControls.ExecutionControl.RequestSkip | src/core/execution_control.cpp:61-75 | A skip request is remembered unless the session is ending |
| ExecutionControls.ExecutionControl.ConsumeSkip | src/core/execution_control.cpp:77-89 | A lookup answers yes exactly on a remembered request, and forgets it |
| ExecutorOwnership.OwnershipOverRuns | src/core/job_executor.cpp:398-1009 | In any interleaving of workers, main thread, requests, edits and appends the plan's invariant holds, the active list is exactly what workers hold or exceptions left behind, and no call misses its item |
| ExecutorOwnership.OneOwner | src/core/job_executor.cpp:544-972 | No two workers hold the same item |
| ExecutorOwnership.JoinedLeavesNothing | src/core/job_executor.cpp:972-986 | After the join only items left behind by exceptions are active |
| ExecutorOwnership.NothingActiveAfterJoin | src/core/job_executor.cpp:544-995 | From any plan, over any number of passes, stops and resumes: after the join only what exceptions left behind, or was active at the start, is active, so nothing is in runs without exceptions from a plan nobody works on; and a pass never ends over an invalid plan state |
| ExecutorRuns.StopTakesOneMore | src/core/job_executor.cpp:551-605 | Once Stop or Cancel is set a worker acquires at most one more item, and gives back what it acquired; only an exception that hits the worker itself parks the item or leaves it active instead |
| ExecutorRuns.AccountedOverRuns | src/core/job_executor.cpp:846-962 | Over any run, exceptions included, every source the executor removed belongs to an item that succeeded or is about to |
| ExecutorRuns.OneOutcome | src/core/include/velocitycopy/item_result.hpp:64-76 | An item has one terminal outcome only |
| ExecutorRuns.RetainedKeepsSource | src/core/job_executor.cpp:846-901 | In an accounted machine an item that ended with its source retained is not among those whose source was removed |
| ExecutorRuns.MoveKeepsRetainedSources | src/core/job_executor.cpp:424-462 | In every run from any plan, through exceptions, stops, decisions and resumed sessions, the executor never deleted the source of an item that ended as retained |
| ExecutorRuns.StepsCall | src/core/job_executor.cpp:398-1009 | Whatever workers, main thread, window and planner do over a run, they do to the plan by a sequence of its calls, each in order |
| ExecutorRuns.CheckpointDuringRun | src/ui/VelocityCopy.UI/MainWindow.QueuePersistence.cpp:58-66 | A checkpoint read while the executor runs, its two readings any number of steps apart, opens again with every item unresolved at the second exactly when no finished copy was parked in between, and besides those only finished copies settled in between |
| ExecutorRuns.ExportableOverRuns | src/core/live_copy_plan_export.cpp:10-52 | At every moment of every run the plan's checkpoint can be taken and restored |
| MoveSafety.MoveNeverLosesData | src/core/source_removal_recovery.cpp:112-142 | Whatever changes between the system calls, and with any number of removals at once, a source is deleted only while the object with the recorded fingerprint and identity is pinned at the destination, and only as the recorded source object; or it is renamed whole |
| MoveSafety.SaneOverRuns | src/core/source_removal_recovery.cpp:30-47 | What a removal has pinned and compared still stands, over every run |
| MoveSafety.KeptMeansKept | src/core/source_removal_recovery.cpp:112-142 | A removal that reports any failure has deleted nothing |
| MoveSafety.DeletionNeedsIdentity | src/core/source_removal_recovery.cpp:30-47 | Only records with both file identities ever lead to a deletion |
| MoveSafety.VerdictDecides | src/core/source_removal_recovery.cpp:88-142 | Undisturbed and with both identities, the deletion goes through exactly when the verdict was that source and destination are unchanged; without them it never does |
| MovedItems.SteadyOverRuns | src/core/job_executor.cpp:846-901 | In every joint run of executor and disk: whoever is to delete a source has a title to it, each removal under way is one worker's or the retry pass's own, and the executor knows of exactly the deletions reported to it |
| MovedItems.MovesByRight | src/core/job_executor.cpp:846-901 | In every joint run, whatever others do to the disk, a source is deleted only as the very object that item's own completed copy was made from, with that copy pinned at its destination, or by right of a record the plan was begun with or an archive restored; and never for an item that ended with its source retained |
| Reservations.ReckonedOverRuns | src/core/job_planning_worker.cpp:35-133 | In any race of planner, window, cancellation and session thread, the count at the gate and the callbacks delivered agree with every request's whereabouts |
| Reservations.CalledOnce | src/core/job_planning_worker.cpp:43-133 | No request is called back twice, and one called back is neither outstanding nor dropped |
| Reservations.AllCalledBack | src/core/job_planning_worker.cpp:51-133 | When nothing is outstanding every request had its one callback or was dropped, and the gate counts just the dropped ones |
| Reservations.ReleaseIsCounted | src/ui/VelocityCopy.UI/MainWindow.CopyAppend.cpp:118-154 | Whoever is about to release a reservation finds the count nonzero: the guard hides no underflow |
| Reservations.CountIsOutstanding | src/ui/VelocityCopy.UI/MainWindow.CopyAppend.cpp:48-111 | Until a session is cancelled, over or its planner destroyed, the count is exactly the queued, running and deferred reservations |
| Reservations.GateStaysShut | src/ui/VelocityCopy.UI/MainWindow.xaml.h:141-172 | A closed gate is never opened again, and counts no new reservation |
| SessionSafety.SafeOverRuns | src/ui/VelocityCopy.UI/MainWindow.Execution.cpp:163-254 | Over every run of a session: the executor's invariant, sound books of reservations, and a gate shut from the moment the session decided to end |
| SessionDrain.SessionDrains | src/ui/VelocityCopy.UI/MainWindow.Execution.cpp:163-254 | From any plan and any open gate, with whatever is reserved there: every run that ends in success without the wait timing out closed the gate itself, with no file pending or active, no directory left to make, and every item given to the session, at its start or by an append, terminal, parked or removed by the user |
| SessionDrain.OverIsFinal | src/ui/VelocityCopy.UI/MainWindow.Execution.cpp:249-254 | After any exit no callback commits, whatever happens next |
| SessionDrain.NothingCommittedAfter | src/ui/VelocityCopy.UI/MainWindow.CopyAppend.cpp:144-155 | The same over every further run |
| SessionDrain.DrainedForGood | src/ui/VelocityCopy.UI/MainWindow.Execution.cpp:240-247 | A drained plan stays exactly as it is |
| SessionDrain.KeptOverRuns | src/ui/VelocityCopy.UI/MainWindow.CopyAppend.cpp:144-155 | An item given to a session never goes missing: it stays in the plan, is settled, or was taken out by the user |
| SessionDrain.TimeoutStrands | src/ui/VelocityCopy.UI/MainWindow.xaml.h:149-161 | From any successful wait with work queued and another reservation out, the timeout ends the session in success with that work still queued, and nothing that happens later takes it up unless the user edits the queue |
| SessionDrain.TimeoutExample | src/ui/VelocityCopy.UI/MainWindow.Execution.cpp:216-238 | A complete run from an empty plan that ends in success with appended work still queued |
| OutputRegistries.OutputRegistry.AddDirectory | src/core/job_planner.cpp:133-159 | The walk that stops at the first known ancestor registers the whole chain, and fails exactly when an unusable key or a file is on it |
| OutputRegistries.OutputRegistry.AddFile | src/core/job_planner.cpp:161-177 | Accepts exactly a free place below directories, and registers file and chain |
| OutputRegistries.NoFileAbove | src/core/job_planner.cpp:130-183 | No registered file lies above another output |
| OutputRegistries.FitsIff | src/core/job_planner.cpp:133-177 | One more output fits exactly when it clashes with none registered before |
| OutputRegistries.AcceptsUnclashing | src/core/job_planner.cpp:130-183 | What is accepted, in whatever order, is a set of outputs no two of which clash, and any output that clashes with none of them fits |
| PlannerWalk.Enumerate | src/core/job_planner.cpp:407-460 | One folder's entries are admitted in order, and its subfolders come out in enumeration order |
| PlannerWalk.Walk | src/core/job_planner.cpp:359-469 | The explicit stack terminates on every finite tree and produces exactly the recursive order, or the first problem it meets |
| PlannerPlans.Build | src/core/job_planner.cpp:259-473 | A plan comes out exactly when every step succeeds, and is what the recursive account says |
| PlannerPlans.PlannedIsAccepted | src/core/live_copy_plan.cpp:30-55 | Ids are consecutive from 1, totals are the sums and maxima of sizes and declared as such, the limits hold, and the live plan's constructor accepts every planner plan under the same case policies |
| PlannerPlans.PlanFollows | src/core/job_planner.cpp:359-469 | Directories and files stand in the plan in the order of the walk |
| PlannerPlans.ScanParentsFirst | src/core/job_planner.cpp:404-463 | Every directory comes after its parent, every file and failure after its folder |
| PlannerPlans.AllParentsFirst | src/core/job_planner.cpp:404-463 | The same for all the folders on the stack together |
| PlannerPlans.ScanCounts | src/core/job_planner.cpp:404-463 | The walk accounts for exactly what the tree holds, as often as it holds it |
| PlannerPlans.FolderCovered | src/core/job_planner.cpp:404-469 | Everything enumerated that is not a visited folder ends up exactly once among files or failures, and nothing else does |
| SourceCleanup.RemoveEmptyDirectories | src/core/job_executor.cpp:90-157 | What is removed is always a prefix of the file-free directories, children first; a completed run removed all of them |
| SourceCleanup.CleanupRemoves | src/core/job_executor.cpp:90-157 | However it ends, every directory removed had no file beneath it; if complete, exactly those are gone, each once |
| SourceCleanup.ClearSources | src/core/job_executor.cpp:90-157 | The loop over the source roots removes a prefix of what the recursive list of all roots names; completed, all of it |
| SourceCleanup.SourcesClearedHas | src/core/job_executor.cpp:90-157 | That list names exactly the directories with no file beneath under each root |
| SourceCleanup.ClearedHas | src/core/job_executor.cpp:90-157 | The recursive list names exactly the directories that exist and hold no file at any depth |
| DestinationPath.DestinationPathGuard.LockExistingChain | src/core/destination_path_guard.hpp:78-137 | Pins every existing directory of the path and lists the missing ones, unless one of them is unsafe |
| DestinationPath.DestinationPathGuard.RollbackCreated | src/core/destination_path_guard.hpp:61-76 | Removes what was made below the deepest directory that has to stay, and holds no handle on anything made |
| DestinationPath.DestinationPathGuard.CreateMissing | src/core/destination_path_guard.hpp:139-184 | Makes the whole path, or stops at the first failing component and leaves what cannot be undone |
| DestinationPath.DestinationPathGuard.PrepareDirectory | src/core/destination_path_guard.hpp:186-191 | Both together: success exactly when every existing part is safe and every missing one can be made and opened |
| DestinationPath.UndoneIff | src/core/destination_path_guard.hpp:139-184 | A failure leaves the disk unchanged exactly when the failing component was refused and nobody else made one of the others |
| DestinationPath.StrandedExample | src/core/destination_path_guard.hpp:151-163 | A directory that is made and then cannot be opened stays |
| DestinationPath.VacantIff | src/core/destination_path_guard.hpp:61-76 | Of the directories made, only the deepest is empty, so the order of the rollback matters |
| PathKeys.TakeComponent | src/core/path_key.cpp:64-69 | Splits off the first component and leaves the others |
| PathKeys.PathKeyLess | src/core/path_key.cpp:85-92 | The loop decides the lexicographic order of component lists |
| PathKeys.PathKeyEqual | src/core/path_key.cpp:94-96 | Two comparisons decide componentwise equality |
| PathKeys.PathKeyIsPrefix | src/core/path_key.cpp:98-107 | The loop decides the prefix relation of component lists |
| PathKeys.SplitJoin | src/core/path_key.cpp:64-69 | Splitting a built key recovers its components |
| PathKeys.StrictWeakOrder | src/core/path_key.cpp:85-92 | The order is a strict weak order, and its equivalence is a congruence |
| PathKeys.EqualIffAlike | src/core/path_key.cpp:94-96 | Neither key precedes the other exactly when they are alike in every component |
| PathKeys.EqualIsMutualPrefix | src/core/path_key.cpp:94-107 | Key equality is mutual prefix, except for two empty keys |
| PathKeys.EmptyKeysExample | src/core/path_key.cpp:94-107 | The empty key equals itself and is not a prefix of itself |
| PathKeys.PrefixPreorder | src/core/path_key.cpp:98-107 | The prefix test is reflexive on real keys, transitive, and respects key equality |
| PathKeys.PrefixInterval | src/core/path_key.cpp:85-107 | The keys under a prefix form one contiguous interval of the order |
| PathKeys.PathKeyFactory.Make | src/core/path_key.cpp:116-149 | The key built is the one the remembered policies determine; remembered policies never change, and a covered path asks the disk nothing |
| PathKeys.KeyStable | src/core/path_key.cpp:116-149 | Once built, a key no longer depends on what the disk says |
| PathKeys.SiblingsCollideIff | src/core/path_key.cpp:71-77 | Two names in a directory share a key exactly when that directory's policy cannot tell them apart |
| PathKeys.ParentIsPrefix | src/core/path_key.cpp:123-149 | A directory's key is a prefix of the key of everything below it |
| PathKeys.KeysAreClassLists | src/core/path_key.cpp:71-107 | Equality and prefix of encoded keys are those of their lists of component classes |
| ShellCodec.AcceptedIffEncoding | src/core/ipc_protocol.cpp:76-150 | A message is accepted as a request exactly when it is the encoding of that request, for both versions |
| ShellCodec.DecodesEncoded | src/core/ipc_protocol.cpp:107-150 | Decoding an encoded request gives that request |
| ShellCodec.AcceptsOnlyEncodings | src/core/ipc_protocol.cpp:107-150 | Whatever is accepted was an encoding, and can be written |
| ShellCodec.ReadsPastEndIff | src/core/ipc_protocol.cpp:117-128 | The reader runs off the end exactly on messages of 16 to 19 bytes that open as version 3 |
| ShellCodec.PastEndExample | src/core/ipc_protocol.cpp:117-128 | Magic, version 3, an id and nothing more |
| ShellCodec.Serialize | src/core/ipc_protocol.cpp:76-105 | Writes exactly the encodable requests, as their message |
| ShellCodec.Deserialize | src/core/ipc_protocol.cpp:107-150 | Reads a message as the format says, or says that it would read past the end |
| ShellCodec.AppendPath | src/core/ipc_protocol.cpp:42-51 | Writes a counted text of 16-bit units, within both limits |
| ShellCodec.ReadPath | src/core/ipc_protocol.cpp:53-72 | Reads one, or fails exactly when it is too long or cut short |
| ShellCodec.AppendU64 | src/core/ipc_protocol.cpp:18-21 | Two 32-bit halves, low one first, are the eight bytes of the number |
| ShellCodec.ReadU64 | src/core/ipc_protocol.cpp:35-40 | And read back as that number |
| QueueArchive.LoadUndoesSave | src/core/queue_archive.cpp:436-480 | Loading a saved archive gives it back with exactly the unsaved fields reset |
| QueueArchive.LoadsIff | src/core/queue_archive.cpp:388-480 | A saved archive loads exactly when its sizes add up, its removals were attempted and the file is not too long |
| QueueArchive.UnloadableExample | src/core/queue_archive.cpp:307-346 | An archive with a removal that was never attempted is saved and does not load |
| QueueArchive.ResetMeans | src/core/queue_archive.cpp:127-346 | The fields a queue file does not keep, and what they become |
| QueueArchive.LoadedResaves | src/core/queue_archive.cpp:388-480 | Whatever loads, of any version, can be saved and needs no reset; a version 3 file is written back byte for byte |
| QueueArchive.UpgradeKeepsArchive | src/core/queue_archive.cpp:436-480 | An older file saved anew loads as the same archive |
| QueueFiles.Save | src/core/queue_archive.cpp:388-434 | Writes exactly the savable archives, as their image |
| QueueFiles.Load | src/core/queue_archive.cpp:436-480 | Reads a file of any version as the format says |
| QueueFiles.WritePlan | src/core/queue_archive.cpp:127-160 | Writes a plan exactly when its paths are contained and short and its lists not too long |
| QueueFiles.ReadPlan | src/core/queue_archive.cpp:162-210 | Reads a plan back with ids and totals counted anew, or refuses it |
| QueueFiles.ReadFiles | src/core/queue_archive.cpp:191-208 | Reads files as long as their sizes add up within 64 bits, numbering them from 1 |
| QueueFiles.WriteJobs | src/core/queue_archive.cpp:212-267 | Writes jobs as the format says, or refuses those too long |
| QueueFiles.ReadJobs | src/core/queue_archive.cpp:228-278 | Reads them back, as pending jobs |
| QueueFiles.WritePrint | src/core/queue_archive.cpp:280-291 | Writes a fingerprint, with its identity if there is one |
| QueueFiles.ReadPrint | src/core/queue_archive.cpp:293-305 | Reads one back |
| QueueFiles.WriteRemovals | src/core/queue_archive.cpp:307-324 | Writes source removals |
| QueueFiles.ReadRemovals | src/core/queue_archive.cpp:326-346 | Reads them back, refusing those never attempted |

## Left out

- `reorder_pending_files`: reordering the whole queue by a list of ids; the page reorder makes the same argument.
- Accessors, snapshots and queue views: they only read fields that the proofs already describe.
- Exceptions and failed allocations: present only as a step that ends a worker or parks its item, where the code can throw; the stale id a worker keeps between settling its item and forgetting it is not modelled.
- The copy engine, renaming and disk probes: their results are arbitrary outcomes of a step; `remove_partial_destination` and directory attributes have no effect in the model.
- Conflict policies: replacing and keeping both appear as the call they lead to; recording the conflicting file and the strategy choice do not.
- Time: the bounded wait may time out at any moment, retries may happen at any moment, and delays and speeds do not exist.
- The window beyond the gate, pasting, cancellation and the two decisions about parked items: buttons, dialogs, telemetry, gates of other sessions, and which interruption leads to which resumption.
- PlannerPlans.Build: destination roots and the disambiguation of equal top-level names are given with the sources, and cancellation while planning is not modelled.
- `valid_relative_path`: relative paths of enumerated entries are taken to be valid, since an entry lies in the folder it was found in.
- Case policies that change while a plan is built: the planner and the constructor see the same ones, as the acceptance theorem says; append compares with a fresh view.
- SourceCleanup.RemoveEmptyDirectories: the pinning of ancestors and entries that appear or vanish meanwhile are not modelled.
- Checkpoint.Reopen: the ids, the declared total and the attempt numbers are those of a loaded file; weights beyond 64 bits, with which the books are wrong from the start (`PlanEntry.CreateKeepsIff`), and a plan without a destination root are not considered.
- SavedCheckpoints.SavedCheckpointReturns: takes it that saving accepted the archive and that case policies can be looked up; looking up the sources again after loading, merging append jobs into the plan, and leaving out a plan with neither files nor directories are not modelled.
- DestinationPath.DestinationPathGuard.LockExistingChain: absolute paths and device prefixes are resolved beforehand; a directory that exists but cannot be opened counts as unsafe, and handles are not closed one by one.
- Inspection of reparse tags: a directory is safe or not.
- Writing a queue file to the disk: the temporary file, flushing and the atomic replacement; an archive is a byte string.
- PathKeys.PathKeyFactory.Make: absolute normalised paths are given; network roots are treated as roots whose policy is not asked, like in the code, but the text processing before that is not modelled.
- LiveCopyPlans.LiveCopyPlan.constructor: takes a plan already screened; `Build` is the code's constructor with its exception.
- Fields that the class groups into records (counters, progress maps, history) are separate members in the code.
- The history fields (terminal items, writes, retries begun, restored ids) do not exist in the code.
- ReadsPastEnd as an outcome of the request reader stands for an access beyond the buffer, whose effect is undefined.
