# Verified model of the music library backend

The backend keeps an inventory of a music library on disk, plans which files of it to convert and which to remove, and
runs those plans. This project models that logic in Dafny and proves what it promises. It verifies with
`dafny verify dfyconfig.toml`.

**Execution sessions** (`Tracker`, `Session*`). One coordinator opens units into a bounded window, feeds their encode
tasks to workers through one queue, and commits the units in order, while tasks fail and the user cancels. `OpenUnit` is
the counter object under its mutex; `Session` is the protocol as atomic steps, fine enough that a delivery is sent
before it is counted, a return is counted before a stop is asked for, a stop is stored before it cancels, and a stop and
the context are read one after the other. `SessionProof` holds the invariant, `SessionTheorems` safety and status,
`SessionLiveness` absence of deadlock and termination, `SessionCauses` and `SessionCancel` which action of a run a stop
and a cancellation go back to, `SessionOrder` the order tasks are taken up in.

**Component runs** (`Disk`, `Executor*`, `Prepared`). A disk whose calls may fail at any moment without effect, an
oracle for every failure and cancellation, and the run of one component on it: stage, validate, commit with a
recoverable old file, remove. `Executor` specifies each step as a function of the disk; `PreparedComponent` performs
them call by call. The theorems cover what a run reports, what it may lose, and that encoding in any order ends like
the serial run; that without faults a run succeeds (`ExecutorCalm`); what one run needs and touches among others
(`Footprint`); why a run ended as it did and what one fault undoes (`ExecutorStatus`, `ExecutorExact`); and that a whole
session of such runs on one disk loses nothing (`SessionDisk`) and accounts for everything it prepared (`SessionEnds`).

**Planning** (`Text`, `Ordering`, `Audio`, `Grouping*`, `Planner*`, `ComponentExact`, `Nameless`, `Obstructed`) and **the
gate** (`Gate*`, `PlanGate`, `PlanPasses`). Grouping by breadth-first search, the available_sources decision table, the
checks a frozen plan must pass, that plans pass them, and (`Replan`, `Roundtrip`) that planning, running, scanning and
planning again is a no-op. The modules called Exact say what a part decides without its own helper functions: the
decision table about the files of a stem, the gate about the request and the disk, the grouping about names and paths.

**Scanning** (`Walk*`, `Scan`, `Inventory`). The parallel walk with its work accounting, the batching pipeline, the
merge, and the three together: the catalog becomes the disk.

**The store** (`Store`, `StoreExact`, `Repository`, `Results`). Tables as maps and transactions as steps, with what each
guard guards against over whole runs and what each transaction leaves alone; session counters, retried writes, the view rebuilt from rows, and its pages. **Fingerprints and batches** (`Fingerprint`, `FileOps`).

## Reading the hypotheses

- `LanesOk`: the lossless lane of a profile holds a lossless codec, the encoded lane a lossy one with a positive bitrate.
  `validateProfileOutput` (backend/go/internal/conversion/reconcile/classifier.go:110-127) does not ask for it.
- `Named`, in `FilesOk`: a file's name is more than an extension. `Nameless` shows what goes wrong otherwise.
- `FreshDisk`: the files of the component are on the disk as they were, everything else there with an audio name is a
  listed entry unless it is a directory, and listed entries of one directory and stem are in one partition.
- `OutsideZone`: no planned path lies under the recovery `Delete` directory.
- `Room`, for success without faults only: what a soft run parks lies below the recovery root, no recovery name stands
  where a recovery directory must be, and of each file's names within the limit more are free than rivals could take.
- `NamesFree`: the identifiers in the names of staged and set-aside files are fresh.
- `ParentsAreDirs`: whatever is on the disk has directories above it.
- `LaterScan`: the scan after a run sees unchanged facts for untouched files; a committed encoded output carries its
  credential, or, for MP3, which ignores credentials, measures the bitrate it was written at.
- `FreshRecord`: record identifiers are random and not reused.
- `IndexesAscend`: the frozen worklist numbers its units upwards.
- A preparation and an encode task report a cancellation only under a canceled context. For commits this is proved of the
  runs on the disk (`CommitsKeepThePromise`), from the context of a commit being the session's.
- `Apart`, for a session on a disk: what one component may touch no other relies on; `FreshNames`: no original is called
  like a file the session makes for itself.
- `Proper`, for a whole scan: sibling names are distinct and contain no slash; the scanned root is not `/`.

## Where the code does less than it might seem

- The planner recognises `.opus` (backend/go/internal/conversion/reconcile/grouping.go:16), the gate's removable
  extensions omit it (backend/go/internal/conversion/execute/component_precheck.go:16-18): a plan removing one is
  refused.
- Only files are listed (backend/go/internal/adapters/sqlite/repo_entries.go:27), so the planner does not see a directory
  with the name of an output, and the gate refuses such a plan. `PlanPassesGate` states exactly when a plan passes, and
  `DirectoryInTheWay` gives a plan that does not.
- Only the encoded target is checked against occupied paths (backend/go/internal/conversion/reconcile/mode.go:205-223).
  For named files whose directory and stem are in one partition no listed entry can be at a missing lossless target;
  `KeptFileIsTarget` shows two nameless files where one is.
- The error of the stale cleanup is dropped (backend/go/internal/adapters/sqlite/scan_merge.go:135), so a committed merge
  can mix new rows with stale ones. `MergeIsExact` states exactly when it does not.

## Model

| member | source | states |
|---|---|---|
| Tracker.OpenUnit.constructor | backend/go/internal/workset/execution_pool.go:50-58 | A unit opens with its declared task count fixed, nothing delivered or returned, and not sealed. |
| Tracker.OpenUnit.TaskDelivered | backend/go/internal/workset/execution_pool.go:61-65 | Counts one delivered task and changes nothing else. |
| Tracker.OpenUnit.EndDelivery | backend/go/internal/workset/execution_pool.go:69-74 | Delivery ends once; the unit seals at that moment if everything delivered is back. |
| Tracker.OpenUnit.TaskReturned | backend/go/internal/workset/execution_pool.go:79-87 | Counts one return, keeps the first failure, and seals when delivery has ended and this was the last. |
| Tracker.OpenUnit.SealLocked | backend/go/internal/workset/execution_pool.go:91-97 | Sealing happens at most once and changes no counter. |
| Tracker.OpenUnit.Committable | backend/go/internal/workset/execution_pool.go:102-106 | True exactly when the unit is sealed, every declared task was delivered and none failed. |
| Tracker.TrackerMeansItsEvents | backend/go/internal/workset/execution_pool.go:61-106 | For every interleaving of sends, returns and the end of delivery: the counters are the event counts, the failure is the first one returned, and the unit is sealed exactly when delivery ended and as many tasks came back as were delivered. |
| SessionTheorems.StepInv | backend/go/internal/workset/execution_pool.go:144-446 | Each atomic step of coordinator, workers or user keeps the invariant: where every task is, which units are open, who holds the stop, and what may have failed. |
| SessionTheorems.ReachableInv | backend/go/internal/workset/execution_worker.go:142-256 | The invariant holds in every state of every interleaving, from any start with a window of at least one. |
| SessionTheorems.ResolvedExactlyOnce | backend/go/internal/workset/execution_pool.go:297-446 | A prepared unit is committed or discarded at most once and exactly once by the end, never both, and only after every task of it that entered the pool has come back. |
| SessionTheorems.CommittedArePrefix | backend/go/internal/workset/execution_pool.go:258-343 | Committed units are a prefix of the frozen worklist, and every declared task of each was delivered and returned without error. |
| SessionTheorems.StatusTellsTheTruth | backend/go/internal/workset/execution_worker.go:202-255 | Failed iff something failed for real or a result could not be stored; Canceled only by the user with no recorded stop; Succeeded only with the whole worklist committed and no stop. |
| SessionTheorems.FailureDecidesTheStatus | backend/go/internal/workset/execution_pool.go:160-291 | Over the actions of the run themselves: it ends Failed exactly when one of them was a real failure of a preparation, an encode task or a commit, or a commit result that could not be stored, whatever the coordinator saw first. |
| SessionTheorems.FirstStopStays | backend/go/internal/workset/execution_pool.go:191-205 | Once a run has recorded a failure, every continuation of it keeps that failure and no other. |
| SessionTheorems.TeardownReportsFirst | backend/go/internal/workset/execution_pool.go:365-446 | In every reachable state that reports an observed stop or cancellation: the report is the recorded failure; when it is a task's, its unit is an open one, is discarded, and that very report stands for it. Which unit a preparation's or a commit's failure names is `PreparationStopIsReal` and `CommitStopIsReal`. |
| SessionTheorems.RecordedStopIsReal | backend/go/internal/workset/execution_pool.go:160-198 | In every run a recorded task failure is the outcome of a task of the very unit it names. |
| SessionCauses.PreparationStopIsReal | backend/go/internal/workset/execution_pool.go:293-310 | In every run a recorded failure of a preparation names the unit whose preparation answered that very error, taken with the worklist cursor at it; that unit never was prepared, so it is never the head. |
| SessionCauses.CommitStopIsReal | backend/go/internal/workset/execution_pool.go:258-291 | In every run a recorded failure that is already reported names the unit whose commit answered that very error when it was the head. |
| SessionCancel.ToldIsRecorded | backend/go/internal/workset/execution_pool.go:365-427 | What a finished session reported is the failure recorded in it, so both statements above are about the report as well. |
| SessionCancel.NoCommitAfterCancel | backend/go/internal/workset/execution_pool.go:331-361 | Once the context is canceled no unit commits any more in any continuation, except the one the coordinator is already committing. |
| SessionCancel.StopsCancel | backend/go/internal/workset/execution_pool.go:191-216 | In every reachable state a recorded stop has canceled the context once its recording is over, and until the teardown a canceled context has the user or a recorded stop as its cause. |
| SessionOrder.FrozenOrder | backend/go/internal/workset/execution_pool.go:177-185 | In every interleaving tasks enter and leave the queue in the order of the worklist: none is taken up before one of an earlier unit or an earlier one of its own. |
| SessionTheorems.OutcomesStay | backend/go/internal/workset/execution_pool.go:162-173 | A real failure of a task, once returned, is never forgotten or changed. |
| SessionLiveness.NeverStuck | backend/go/internal/workset/execution_pool.go:144-251 | In every reachable unfinished state some step other than the user's is enabled. |
| SessionLiveness.WithinTheWindow | backend/go/internal/workset/execution_pool.go:144-251 | Open list, queue and tasks in hand never exceed the window; the queue closes only in the shutdown; the head is always the first open unit when it is waited for or committed. |
| SessionLiveness.DeliverProgress | backend/go/internal/workset/execution_pool.go:177-185 | A delivery can always go on, by sending or by being cut short, and the queue is not closed. |
| SessionLiveness.WaitProgress | backend/go/internal/workset/execution_pool.go:331-343 | Waiting for the head can always go on: the head is sealed, or some worker can move one of its tasks. |
| SessionLiveness.DrainProgress | backend/go/internal/workset/execution_pool.go:210-216 | The shutdown drains: while workers are busy or the queue is not empty, one of them can move. |
| SessionLiveness.StepShrinks | backend/go/internal/workset/execution_pool.go:243-446 | Every step of every participant makes a lexicographic measure of non-negative numbers smaller. |
| SessionLiveness.EveryRunEnds | backend/go/internal/workset/execution_worker.go:142-256 | No interleaving of coordinator, workers and user runs for ever. |
| Disk.Filesystem.Move | backend/go/internal/conversion/execute/component_run.go:135-142 | A rename replaces the file at its destination or fails and changes nothing. |
| Disk.Filesystem.Delete | backend/go/internal/conversion/execute/component_run.go:135-142 | A remove takes one file away or fails and changes nothing. |
| Prepared.PreparedComponent.EncodeOne | backend/go/internal/conversion/execute/component_prepare.go:51-74 | One encode stages its output beside its target and touches no other task's path; its failure is told apart from a cancellation. |
| Prepared.PreparedComponent.UniqueRecoveryPath | backend/go/internal/conversion/execute/component_delete.go:71-83 | The loop finds the first free numbered name of the recovery directory, or none within the limit. |
| Prepared.PreparedComponent.RenameWithLockRetry | backend/go/internal/conversion/execute/component_delete.go:96-115 | The loop tries a locked file again a bounded number of times and any other failure not at all. |
| Prepared.PreparedComponent.Park | backend/go/internal/conversion/execute/component_delete.go:45-67 | Moves a file into the mirrored recovery directory under a free name. |
| Prepared.PreparedComponent.CommitOutput | backend/go/internal/conversion/execute/component_commit.go:31-72 | Replaces in place keeping the old file recoverable until the new one has landed, with the rollbacks of the soft and the hard mode. |
| Prepared.PreparedComponent.RemoveObsolete | backend/go/internal/conversion/execute/component_delete.go:25-37 | Removes or parks one obsolete file. |
| Prepared.PreparedComponent.CleanupTemps | backend/go/internal/conversion/execute/component_run.go:202-214 | Removes every staged file it can and lists the ones it could not. |
| Prepared.PreparedComponent.RemainingOps | backend/go/internal/conversion/execute/component_run.go:189-198 | The two loops list the uncommitted targets and then the files not removed, in frozen order. |
| Prepared.PreparedComponent.ValidateStagedOutput | backend/go/internal/conversion/execute/component_run.go:218-245 | A staged output passes only when it still reads as audio of its declared codec. |
| Prepared.PreparedComponent.Commit | backend/go/internal/conversion/execute/component_prepare.go:82-153 | Validate all, commit in order, remove in order, with a stop between any two operations; equal to the specification the theorems below are about. |
| Prepared.PreparedComponent.Discard | backend/go/internal/conversion/execute/component_prepare.go:160-165 | Cleans the staging area and reports everything as remaining. |
| Prepared.PreparedComponent.RunAll | backend/go/internal/conversion/execute/component_run.go:153-164 | The serial run: encode in order, discard on the first failure, else commit. |
| ExecutorProof.RenameRetryEffect | backend/go/internal/conversion/execute/component_delete.go:96-115 | However often it is tried, a success moved the file exactly once and a failure changed nothing. |
| ExecutorProof.SoftRemoveEffect | backend/go/internal/conversion/execute/component_delete.go:45-83 | A removal to recovery never overwrites: the destination was free before and holds exactly what the source held; without a destination nothing moved. |
| ExecutorProof.CommitSoftEffect | backend/go/internal/conversion/execute/component_commit.go:31-72 | A soft replacement lands exactly or leaves the old file in place or at its reported recovery path. |
| ExecutorProof.CommitHardEffect | backend/go/internal/conversion/execute/component_commit.go:31-72 | A hard replacement lands exactly or leaves the old file in place or at its reported path aside. |
| ExecutorExact.SoftFaultIsUndone | backend/go/internal/conversion/execute/component_commit.go:39-54 | A soft replacement that meets a single failing call is taken back unless the new output landed: outside the recovery directory the disk is as before and nothing is reported. |
| ExecutorExact.HardFaultIsUndone | backend/go/internal/conversion/execute/component_commit.go:55-72 | A hard replacement that meets a single failing call is taken back unless the new output landed; if only the removal of the old copy fails, the new output stands and the copy is left aside. |
| ExecutorExact.NamesAre | backend/go/internal/conversion/execute/component_delete.go:45-93 | The names a run uses, from directory, stem and extension: staged and set-aside outputs beside their target, removed files mirrored below Delete under their own name or a numbered one. |
| ExecutorExact.NameSearch | backend/go/internal/conversion/execute/component_delete.go:71-83 | Without faults the first free of the own name and a hundred numbered ones is taken, and there is none exactly when all are taken. |
| ExecutorStatus.OnlyLocksAreRetried | backend/go/internal/conversion/execute/component_delete.go:96-115 | A rename that fails for anything but a lock is not tried again. |
| ExecutorStatus.LocksAreWaitedOut | backend/go/internal/conversion/execute/component_delete.go:96-115 | A lock that goes away within the attempts is overcome, with the effect of one rename. |
| ExecutorStatus.LocksGiveUp | backend/go/internal/conversion/execute/component_delete.go:96-115 | A lock that stays is given up on after the attempts, reported as a lock, with the disk as before. |
| ExecutorTheorems.CleanupEffect | backend/go/internal/conversion/execute/component_run.go:202-214 | Cleaning up touches staged paths only, and every staged file that stays is reported. |
| ExecutorExact.CleanupTriesAll | backend/go/internal/conversion/execute/component_run.go:202-214 | Every staged path is tried in a moment of its own whatever happened to the others: it stays, and is reported, exactly when its own removal fails. |
| ExecutorTheorems.CommitTellsTheTruth | backend/go/internal/conversion/execute/component_prepare.go:82-165 | However a commit ends: committed targets are a prefix that holds the new outputs, removed files a prefix that is gone, the rest is remaining in order, and a removal implies every target is committed. |
| ExecutorStatus.CommitCanceledIsSeen | backend/go/internal/conversion/execute/component_prepare.go:82-153 | A commit reports Canceled only when the context was canceled at a moment it lasted. |
| ExecutorStatus.RunCanceledIsSeen | backend/go/internal/conversion/execute/component_run.go:153-164 | A serial run reports Canceled only when the context was canceled at a moment it lasted or one of its encodes was canceled. |
| ExecutorStatus.CommitStageFits | backend/go/internal/conversion/execute/component_prepare.go:82-153 | The stage of a report says how far a commit got: nothing committed while validating, nothing removed while committing, every target committed once it removes, and no stage exactly when everything is done. |
| ExecutorStatus.ValidationTellsWhy | backend/go/internal/conversion/execute/component_prepare.go:88-118 | A commit that stops while validating failed exactly on a staged output that did not pass while nobody had canceled, and was canceled only when the context was seen canceled before or right after such a look. |
| ExecutorExact.UnfitOutputStops | backend/go/internal/conversion/execute/component_prepare.go:88-118 | One staged output that is missing, unfinished or of another codec keeps everything from being committed. |
| ExecutorExact.FitOutputsPass | backend/go/internal/conversion/execute/component_prepare.go:88-118 | When all of them are finished audio of their codec, only a failing look or a cancellation keeps the commit from starting. |
| ExecutorExact.StagingTellsWhy | backend/go/internal/conversion/execute/component_run.go:153-164 | A run that stops while staging stopped at its first encode that did not end clean, as Canceled exactly when that one was canceled; and a run with such an encode commits nothing. |
| ExecutorTheorems.TempsGone | backend/go/internal/conversion/execute/component_prepare.go:120-153 | After the last removal of a run with all outputs landed no staged path is left. |
| ExecutorStaging.AnyScheduleStagesTheSame | backend/go/internal/conversion/execute/component_prepare.go:44-74 | Two complete schedules of the encodes, in any order and overlapping at will, leave the same files, the same staged paths and the same outcomes. |
| ExecutorStaging.ScheduleExplained | backend/go/internal/conversion/execute/component_prepare.go:51-74 | At any moment of any schedule each staged path holds what its own task alone determines, and nothing else on the disk changed. |
| ExecutorStaging.TempIsNotAside | backend/go/internal/conversion/execute/component_commit.go:13-21 | The name of a staged output is never the name an old file is put aside under. |
| ExecutorOutcome.CommitIsGood | backend/go/internal/conversion/execute/component_prepare.go:82-153 | Committing complete staging under any faults and cancellations: the report is true, no media is lost, and a success is one simultaneous update of all targets from the original sources minus the removals. |
| ExecutorOutcome.CommitConserves | backend/go/internal/conversion/execute/component_commit.go:31-72 | Soft mode: every original content is at its own path or at a path listed in the recovery. Hard mode: it is gone only when its replacement landed there, or it was obsolete and every output had landed. |
| ExecutorOutcome.DiscardRestores | backend/go/internal/conversion/execute/component_prepare.go:160-184 | Discarding at any point of any schedule restores the disk except for reported leftovers, with nothing committed or removed. |
| ExecutorOutcome.AnyScheduleEndsLikeSerial | backend/go/internal/conversion/execute/component_prepare.go:51-153 | Encoding in any order and then committing ends exactly like the serial run, in disk and report. |
| ExecutorOutcome.EveryRunIsGood | backend/go/internal/conversion/execute/component_run.go:153-198 | Truth of the report, media conservation and the one-update form hold for the serial run whatever fails and whenever it is canceled. |
| Footprint.Undisturbed | backend/go/internal/conversion/execute/component_prepare.go:24-42 | As long as nothing a prepared component needs is touched, whatever else happens on the disk leaves its staging and what the gate established as they were. |
| Footprint.CommitEnds | backend/go/internal/conversion/execute/component_prepare.go:82-153 | A commit among other components touches its own paths only, whatever fails, and reports recoveries among its own. |
| Footprint.DiscardEnds | backend/go/internal/conversion/execute/component_prepare.go:160-165 | So does a discard at any point of the staging. |
| SessionDisk.HeadEncoded | backend/go/internal/workset/execution_pool.go:258-291 | When the session commits a unit, everything of it is encoded on the disk. |
| SessionDisk.CommitsKeepThePromise | backend/go/internal/workset/execution_pool.go:258-291 | A commit run answers a cancellation only under a canceled context: what the session's machine asks of every commit holds of the commits on the disk. |
| SessionDisk.StillUnresolved | backend/go/internal/workset/execution_pool.go:258-446 | A unit the session commits or discards had not been resolved before. |
| SessionDisk.StepSound | backend/go/internal/workset/execution_pool.go:144-446 | Each step of a session with what it does to the disk keeps: tasks and staging agree, unresolved units are at work undisturbed, and nothing is lost. |
| SessionDisk.SessionLosesNothing | backend/go/internal/workset/execution_worker.go:142-256 | Over a whole session on distinct components, at every moment, whatever fails, whoever cancels and however encodes and commits interleave: every original file is at its path, at a path some unit reported, or given up under the condition of the hard mode. |
| SessionEnds.SessionAccountsForAll | backend/go/internal/workset/execution_pool.go:365-446 | Over a whole session on distinct components, in every interleaving and under every fault: at the end every prepared unit has a report, of a commit below the commit cursor and of a discard that did nothing above it, and every staged file still on the disk is named by the report of its unit. |
| ExecutorCalm.CalmSoftRemove | backend/go/internal/conversion/execute/component_delete.go:45-115 | When no call fails, a file for which one of its first names is free in the recovery directory is parked under one of them. |
| ExecutorCalm.CalmRunSucceeds | backend/go/internal/conversion/execute/component_run.go:153-164 | When no call fails and nothing is canceled, an admitted plan runs to success, numbering its recovery copies where names are taken, as long as rivals and taken names leave one within the limit. |
| ExecutorCalm.CommitFailureHasACause | backend/go/internal/conversion/execute/component_prepare.go:82-153 | A commit reports Failed only when some call or look of it failed from outside, given room for its recovery names. |
| ExecutorCalm.FailureHasACause | backend/go/internal/conversion/execute/component_run.go:153-164 | A serial run reports Failed only when some call or look of it failed from outside or some encode broke, given that room. |
| ExecutorCalm.OwnNamesSuffice | backend/go/internal/conversion/execute/component_delete.go:71-92 | That room is there when every parked file finds its own name free and none lies below another. |
| ExecutorCalm.RivalsTake | backend/go/internal/conversion/execute/component_delete.go:71-92 | Each earlier parked file takes at most one of the names a later one may get, and only when it is a rival for them. |
| Gate.PlannedComponent.CollectOperations | backend/go/internal/conversion/execute/component_precheck.go:212-283 | The loop collects the encodes and removals of the operations in order, or answers the first refusal. |
| Gate.PlannedComponent.ValidateConflicts | backend/go/internal/conversion/execute/component_precheck.go:294-325 | One walk with a set accepts exactly when targets are distinct, no source or removed file is a target, and no file is removed twice. |
| Gate.PlannedComponent.ValidateDependencies | backend/go/internal/conversion/execute/component_precheck.go:330-344 | Accepts exactly when every dependency of a removal is a target. |
| Gate.PlannedComponent.CheckDiskFacts | backend/go/internal/conversion/execute/component_paths.go:95-206 | Frozen files must be unchanged and targets free or declared replacements; marks exactly the encodes that replace a file. |
| Gate.RunPrecheck | backend/go/internal/conversion/execute/component_precheck.go:63-135 | The whole gate in the program's order of checks; the first check that fails answers. |
| GateProof.DiskChecked | backend/go/internal/conversion/execute/component_paths.go:95-206 | After the disk checks sources and removed files are regular files, and a target exists exactly when its encode is marked as a replacement. |
| GateProof.GateAdmits | backend/go/internal/conversion/execute/component_precheck.go:63-344 | Everything the executor theorems assume about a plan and the disk follows from passing the gate if and only if no output or obsolete file lies under the recovery directory of a soft run. |
| GateExact.GateIsExact | backend/go/internal/conversion/execute/component_precheck.go:97-344 | The gate lets a request through if and only if the request, its operations and the disk fit as said without the gate's own walk -- every used file still of its frozen size and within a second of its frozen time, fresh targets free in a directory -- and the plan that comes out is the request's own. |
| GateExact.GateAnswers | backend/go/internal/conversion/execute/component_precheck.go:97-344 | Which error it answers, in the order of its checks. |
| GateExact.ToolsAreLast | backend/go/internal/conversion/execute/component_precheck.go:97-134 | Missing tools are answered exactly for a request that is otherwise let through. |
| GateExact.ChangeIsNoticed | backend/go/internal/conversion/execute/component_paths.go:138-176 | A request that passes on one disk answers FileChanged as soon as one file it reads, replaces or removes is gone, no regular file, of another size or modified by more than a second. |
| PlanPasses.PlanPassesGate | backend/go/internal/conversion/execute/component_precheck.go:212-344 | On an unchanged disk an unblocked plan passes the gate if and only if it removes no .opus file and no output has something in its way that is no file of the component; the error tells the two causes apart, and encodes replace exactly observed files. |
| PlanPasses.OnlyDirectoriesObstruct | backend/go/internal/conversion/execute/component_paths.go:177-206 | What is in the way of a refused output is a directory. |
| Obstructed.DirectoryInTheWay | backend/go/internal/conversion/reconcile/mode.go:205-223 | For every root and name: a WAV file beside a directory with the name of its FLAC output is planned without a block, and the gate refuses the plan. |
| Grouping.BuildComponents | backend/go/internal/conversion/reconcile/grouping.go:49-106 | The breadth-first search returns exactly the classes of the transitive closure of same directory or same stem over the recognised files, each in path order. |
| Grouping.TogetherIffConnected | backend/go/internal/conversion/reconcile/grouping.go:49-106 | Two of the (distinct) recognised files are in one component if and only if a chain of shared directories and shared stems connects them. |
| Grouping.SearchStep | backend/go/internal/conversion/reconcile/grouping.go:70-95 | Taking one file from the queue and queueing its unseen neighbours keeps the search invariant: everything seen is connected to the start and taken files have no unseen neighbour. |
| Grouping.SearchEnds | backend/go/internal/conversion/reconcile/grouping.go:70-104 | An empty queue means exactly one whole class was found. |
| Grouping.OneComponentEach | backend/go/internal/conversion/reconcile/grouping.go:49-106 | Every recognised file is in exactly one component. |
| Grouping.LinkedStayTogether | backend/go/internal/conversion/reconcile/grouping.go:49-106 | Files sharing a directory or a stem are never split. |
| Grouping.ComponentsKeepStems | backend/go/internal/conversion/reconcile/grouping.go:49-126 | A component leaves no file of any of its stems behind. |
| Grouping.GroupStems | backend/go/internal/conversion/reconcile/grouping.go:110-126 | Grouping through a table whose keys come in any order gives the groups by stem, sorted. |
| GroupingExact.NameIsRead | backend/go/internal/conversion/reconcile/grouping.go:22-45 | The extension of a name decides its codec whatever its case, the rest in lower case is its stem, and its directory is what precedes it. |
| GroupingExact.BareNameIsRead | backend/go/internal/conversion/reconcile/grouping.go:22-45 | A name that is all extension is its own stem; one without a dot is no audio file. |
| GroupingExact.TogetherIffShared | backend/go/internal/conversion/reconcile/grouping.go:49-106 | Two files are in one component exactly when a chain of files that share a directory or a stem leads from one to the other, said about paths alone. |
| GroupingExact.ComponentsInOrder | backend/go/internal/conversion/reconcile/grouping.go:98-103 | Every component lists its files in the byte order of their paths. |
| GroupingExact.GroupsAreStems | backend/go/internal/conversion/reconcile/grouping.go:110-126 | One group for each stem, in the byte order of the stems, with exactly the files of that stem. |
| GroupingExact.ByFirstDifference | backend/go/internal/conversion/reconcile/grouping.go:98-103 | That order: a proper beginning first, else the first difference decides. |
| PlannerRun.StemDecision.KeepFile | backend/go/internal/conversion/reconcile/mode.go:27-29 | Appends a keep decision and changes nothing else. |
| PlannerRun.StemDecision.DeleteFile | backend/go/internal/conversion/reconcile/mode.go:31-33 | Appends a delete decision and changes nothing else. |
| PlannerRun.StemDecision.EncodeFile | backend/go/internal/conversion/reconcile/mode.go:35-44 | Appends the decision, its operation and its target together. |
| PlannerRun.PlanStem | backend/go/internal/conversion/reconcile/mode.go:156-235 | The decision table run step by step gives the stem plan the lemmas are about, in every branch: ambiguous source, unmet, conflict, reached. |
| PlannerRun.PlanComponent | backend/go/internal/conversion/reconcile/mode.go:100-151 | The component loop with its accumulators gives the component outcome the lemmas are about. |
| ComponentExact.BlockedComponent | backend/go/internal/conversion/reconcile/mode.go:100-152 | A component is blocked exactly when one of its stems is: it gives the first one's reason, shows that stem's decisions last, and has no operation. |
| ComponentExact.ComponentOperations | backend/go/internal/conversion/reconcile/mode.go:100-152 | The operations of an unblocked component are the encodes of its stems and the removals of what they delete, nothing else, under its name, and every removal depends on exactly all the targets. |
| ComponentExact.EncodesComeFirst | backend/go/internal/conversion/reconcile/reconcile.go:619-631 | Every encode comes before every removal. |
| ComponentExact.Projected | backend/go/internal/conversion/reconcile/reconcile.go:633-653 | What is to be there afterwards is exactly what its stems keep or encode. |
| ComponentExact.Observations | backend/go/internal/conversion/reconcile/reconcile.go:195-224 | Its files are recorded with the facts they were observed with, blocked or not. |
| PlannerProof.DerivedPath | backend/go/internal/conversion/reconcile/reconcile.go:101-108 | A target derived from a named source keeps directory and stem and has the codec asked for. |
| PlannerProof.EveryStemSound | backend/go/internal/conversion/reconcile/mode.go:156-235 | Every unblocked stem plan: one decision per path, encodes from its own lossless files to allowed targets of its own stem, kept and deleted files observed ones, decisions and operations naming the same targets. |
| PlannerExact.AmbiguousBlocks | backend/go/internal/conversion/reconcile/mode.go:156-190 | A stem that misses an output is blocked as ambiguous exactly when several of its files are preferred sources -- the declared lossless codec before WAV before FLAC -- and then nothing is planned for it. |
| PlannerExact.UnmetKeepsAll | backend/go/internal/conversion/reconcile/mode.go:156-190 | A stem that misses an output and has no source keeps every file, each as unconfirmed when it falls short of the encoded target and as unmet otherwise. |
| PlannerExact.ReachedIsPlanned | backend/go/internal/conversion/reconcile/mode.go:190-236 | A stem with its single source encodes exactly the outputs it misses: the lossless one beside the source, the encoded one in place of the only file that falls short of it and beside the source otherwise; it is blocked exactly when that target is taken by something that is no file of the stem. |
| PlannerExact.ReachedDecides | backend/go/internal/conversion/reconcile/mode.go:190-236 | The decisions of a reached stem, each with its reason: exactly the satisfying files are kept, the missing outputs made, and everything else but the replaced file removed. |
| PlannerExact.ReplacedInPlace | backend/go/internal/conversion/reconcile/mode.go:205-223 | A stem with exactly one file of the declared codec that falls short encodes in place of it: the target is in its directory under its display name, and when the extension is the codec's it is that very path, which nothing removes. |
| ComponentExact.MeetsTarget | backend/go/internal/conversion/reconcile/reconcile.go:47-100 | MP3 meets a target on its measured rate to within one kilobit; Opus on that floor or on the record that this very file was written for this target. |
| ComponentExact.MeetsAacTarget | backend/go/internal/conversion/reconcile/reconcile.go:47-100 | AAC meets a target within 95 to 110 percent, 60 to 110 above 192 kilobits, or on that record. |
| ComponentExact.OutputNames | backend/go/internal/conversion/reconcile/reconcile.go:103-108 | An output beside a file has its directory, its display stem and the extension its codec is written with. |
| PlanGate.DraftIsSound | backend/go/internal/conversion/reconcile/mode.go:112-140 | Over all stems of a component the targets stay pairwise distinct and the operations are exactly the stems' own. |
| PlanGate.RemovalsAreSound | backend/go/internal/conversion/reconcile/mode.go:128-150 | The removals are exactly the deletions of the stems, each file once, each depending on all targets. |
| PlanPasses.ComponentOpsHold | backend/go/internal/conversion/reconcile/mode.go:112-151 | Every operation of an unblocked outcome is a good encode or a good removal, after sorting as before. |
| PlanPasses.SourceIsNoTarget | backend/go/internal/conversion/reconcile/mode.go:156-235 | What a plan reads is never what it writes. |
| PlanPasses.NotATarget | backend/go/internal/conversion/reconcile/mode.go:156-235 | What any stem deletes is the target of no stem. |
| Replan.ReplanStem | backend/go/internal/conversion/reconcile/mode.go:156-235 | Planning a stem again after its plan ran needs nothing and blocks nothing; a reached stem holds exactly its declared shape and an unmet one what it held. |
| Replan.ReplanIsNoOp | backend/go/internal/conversion/reconcile/mode.go:100-151 | The component planned again has no operation and no block. |
| Replan.ReplanComponents | backend/go/internal/conversion/reconcile/mode.go:100-151 | A partition planned again: none of the components its files now form, however removals disconnected them, has an operation or a block. |
| Roundtrip.PlanOfOps | backend/go/internal/conversion/execute/component_precheck.go:212-283 | The executor plan that left the gate has exactly the targets and removals of the operations. |
| Roundtrip.PlannedIsAdmitted | backend/go/internal/conversion/execute/component_precheck.go:63-344 | A planned component that passed the gate meets every hypothesis of the executor theorems. |
| Roundtrip.PlanRunReplan | backend/go/internal/conversion/reconcile/mode.go:100-235 | Plan, pass the gate, run to success, scan, plan again: no operation and no block, for the files as one component and for each component the search now finds in them. |
| Roundtrip.CalmRoundtrip | backend/go/internal/conversion/reconcile/mode.go:100-235 | An unblocked plan passes the gate on an unchanged disk exactly when it removes no .opus file and no directory is in its way; when then no call fails and nothing is canceled, its run succeeds and planning again after a scan has nothing to do. |
| Nameless.TargetKeepsStem | backend/go/internal/conversion/reconcile/reconcile.go:101-108 | A target derived for another codec stays in its source's stem if and only if the source's name is more than an extension. |
| Nameless.KeptFileIsTarget | backend/go/internal/conversion/reconcile/mode.go:170-200 | For files named .wav and .flac in one directory: the lossless target of one stem is the kept file of the other, and neither is blocked. |
| Walk.StepInv | backend/go/internal/adapters/filesystem/walk.go:60-198 | Each step of coordinator or worker keeps: emitted plus everything still to come is the whole tree, unless a failure is on its way. |
| Walk.CompleteWalkIsExact | backend/go/internal/adapters/filesystem/walk.go:43-199 | A parallel walk that ends without an error has emitted every proper descendant of the root exactly once, in every interleaving. |
| WalkExact.EmitsTheNodes | backend/go/internal/adapters/filesystem/walk.go:43-199 | The entries of a complete walk are exactly the facts -- path, parent, name, kind, size and time -- of the nodes reached from the root by names through directories. |
| WalkExact.EndingTellsWhy | backend/go/internal/adapters/filesystem/walk.go:43-199 | In every interleaving a finished walk is complete if and only if no reader failed and nobody canceled; the failure it answers is one a reader met; a cancellation somebody's; and a failure is never lost. |
| Walk.PendingIsExact | backend/go/internal/adapters/filesystem/walk.go:60-198 | Until a cancellation the pending count equals directories queued, in the job channel, being read and in the result channel, and the loop runs exactly while it is positive. |
| WalkLiveness.StepShrinks | backend/go/internal/adapters/filesystem/walk.go:60-198 | Every step of the walk uses up at least one of the steps left. |
| WalkLiveness.WalkEnds | backend/go/internal/adapters/filesystem/walk.go:43-199 | On every finite tree, with any workers, failures and cancellation, a run is bounded by the size of the tree. |
| WalkLiveness.NeverStuck | backend/go/internal/adapters/filesystem/walk.go:60-198 | No interleaving of full channels, failures and cancellation leaves everyone waiting. |
| WalkLiveness.FolderWalk.WalkFolder | backend/go/internal/adapters/filesystem/walk.go:216-284 | The recursive walk emits every descendant in preorder unless a moment it looks at is canceled or fails; it stops at the first such moment with what that moment answers, having emitted a prefix. |
| WalkLiveness.ParallelIsRecursive | backend/go/internal/adapters/filesystem/walk.go:43-284 | A complete parallel walk emits the same multiset as the recursive one. |
| Scan.Consume | backend/go/internal/inventory/service.go:268-306 | Batching loses, repeats and reorders nothing: it succeeds exactly when every write of a thousand entries, and of the rest, does; else everything before the first failing write is staged and nothing after. |
| Scan.MergeMeansComplete | backend/go/internal/inventory/service.go:238-374 | The merge runs only if the walk completed, every emitted entry was staged and nothing was canceled or failed, in every interleaving of producer and consumer. |
| Scan.BlameIsRight | backend/go/internal/inventory/service.go:44-58 | The failure code names the walk exactly for the walk's own errors, never for the cancellation a failed staging write caused. |
| Scan.VerdictTellsWhy | backend/go/internal/inventory/service.go:320-345 | The verdict over the actions of the run: given up exactly when the caller canceled; else the walk is blamed exactly when it failed, the staging exactly when only a write did; and merged exactly when nothing failed. |
| Scan.BatchesAreFull | backend/go/internal/inventory/service.go:238-306 | The queue holds at most a hundred entries, a full batch is a thousand, and the walk waits exactly while the queue is full. |
| Scan.NeverStuck | backend/go/internal/inventory/service.go:238-306 | In every reachable state before both have ended, the producer or the consumer can take a step that is no failure of the walk: neither waits for the other for ever. |
| Scan.EveryScanEnds | backend/go/internal/inventory/service.go:238-306 | Every run of the pipeline is bounded by the number of entries, whatever fails and whenever it is canceled. |
| Scan.Database.Merge | backend/go/internal/adapters/sqlite/scan_merge.go:15-143 | The transaction statement by statement: upserts, cleanup, clearing, all undone when one that counts fails. |
| Scan.MergeIsExact | backend/go/internal/adapters/sqlite/scan_merge.go:73-221 | A merge is committed exactly when neither an upsert nor the clearing nor the commit fails; a failed one changes nothing; a committed one, with or without a session row, makes the scope exactly the staged entries and leaves the rest alone if and only if the cleanup ran or nothing was stale. |
| Scan.SwallowedCleanupMixes | backend/go/internal/adapters/sqlite/scan_merge.go:100-143 | A concrete scan whose cleanup error is swallowed: it commits a mixture of new and stale rows. |
| Scan.ScopeKeepsItsRow | backend/go/internal/adapters/sqlite/scan_merge.go:148-221 | A folder scan keeps the row of the folder it was asked for. |
| Scan.MissingSessionCleansRoot | backend/go/internal/adapters/sqlite/scan_merge.go:148-221 | Without a session row the cleanup covers the whole root: the one handed in, or that of the staged rows when none is. |
| Scan.SessionRootIsCleaned | backend/go/internal/adapters/sqlite/scan_merge.go:148-221 | Without a root handed in, the cleanup covers the session's root, and its scope only. |
| Scan.NoRootNoCleanup | backend/go/internal/adapters/sqlite/scan_merge.go:160-185 | Without a root, a session root and staged rows nothing is deleted. |
| Scan.RevisionCountsChanges | backend/go/internal/adapters/sqlite/scan_merge.go:73-100 | A row's revision grows by one exactly when size or mtime changed, and its bitrate survives exactly otherwise. |
| Scan.NewRowsStartAtOne | backend/go/internal/adapters/sqlite/scan_merge.go:73-100 | A new row starts at revision one, clean, without a bitrate, under this scan. |
| Scan.TableKeepsLast | backend/go/internal/adapters/sqlite/scan_staging.go:39-95 | Staging keeps the last entry written for a path. |
| Scan.ScanIsAllOrNothing | backend/go/internal/inventory/service.go:202-374 | A scan that is merged and committed makes its scope exactly what the walk emitted if and only if its cleanup was not dropped or nothing was stale; any other scan leaves the catalog unchanged. |
| Inventory.PathsOnce | backend/go/internal/adapters/filesystem/walk.go:216-284 | In a tree with distinct sibling names no path is found twice. |
| Inventory.PosixInjective | backend/go/internal/inventory/service.go:560-573 | The stored form of a path determines the path. |
| Inventory.TableIsTree | backend/go/internal/inventory/service.go:560-573 | The staging table of a complete walk holds exactly what is below the directory, by stored path, with its facts. |
| Inventory.WalkIsStagedFor | backend/go/internal/inventory/service.go:560-573 | What a walk emits is of the scanned root and strictly below the scanned directory, as the merge relies on. |
| Inventory.ScanMakesCatalogTheDisk | backend/go/internal/inventory/service.go:202-557 | A whole root or folder scan, walk to merge, in every interleaving and with every fault: when it is merged and committed its rows in the scope are exactly the proper descendants on the disk with their facts and all others are as before, unless a cleanup error over stale rows was dropped; any other scan changes nothing. |
| Inventory.ScopeMeansBelow | backend/go/internal/adapters/sqlite/scan_merge.go:186-212 | The prefix that selects the rows of a scope selects exactly the paths strictly below the directory, and none below one whose name merely begins like it. |
| Inventory.OutsideStays | backend/go/internal/adapters/sqlite/scan_merge.go:186-212 | A folder scan leaves every row that is not strictly below its folder as it was, the folder's own included. |
| Repository.Repository.SaveOperationDraft | backend/go/internal/adapters/sqlite/repo_operation.go:121-156 | The guarded version bump and the draft are written together or not at all. |
| Repository.Repository.MaxRevisionIndex | backend/go/internal/adapters/sqlite/repo_operation.go:269-276 | The scan over the operation's revision rows answers their largest index, zero without any. |
| Repository.Repository.PersistOperationRevision | backend/go/internal/adapters/sqlite/repo_operation.go:232-305 | Publishes snapshot, revision, promotion and terminal generation and retires the replaced plan in one transaction; an inactive or unknown generation undoes everything. |
| Repository.Repository.DeletePlanData | backend/go/internal/adapters/sqlite/repo_operation.go:311-319 | Retiring a plan takes its revision and its executions along. |
| Repository.Repository.CreateExecutionGuarded | backend/go/internal/adapters/sqlite/repo_execution.go:131-173 | Inserts only for the current plan, version and draft of an idle operation of a live record, and only once per plan. |
| Repository.Repository.CancelExecution | backend/go/internal/adapters/sqlite/repo_execution.go:541-557 | Its two conditional updates with nobody between them: a queued session is canceled, a running one gets the flag, a terminal one stays. |
| Repository.Repository.FinishExecution | backend/go/internal/adapters/sqlite/repo_execution.go:525-535 | Only queued and running rows take a terminal status. |
| Repository.Repository.ReplaceCurrentWorkset | backend/go/internal/adapters/sqlite/repo_workset.go:132-238 | Replaces the record the caller saw, when it is idle, together with everything it owns, or answers why not. |
| Store.TxInv | backend/go/internal/adapters/sqlite/repo_operation.go:232-319 | Every transaction of any participant keeps the relation between records, operations, plans, revisions and executions. |
| StoreExact.OthersUntouched | backend/go/internal/adapters/sqlite/repo_operation.go:121-319 | Whatever a transaction is about, everything stored for every other record stays exactly as it was. |
| Store.OnePlanEach | backend/go/internal/adapters/sqlite/repo_operation.go:219-319 | In every reachable store an operation has at most one plan, its current revision, and at most one execution, which is of that plan; a library has at most one record per operation type. |
| Store.MaxIsCurrent | backend/go/internal/adapters/sqlite/repo_operation.go:269-276 | The largest stored index is the current revision's, because older revisions are gone, so the next one is one more. |
| Store.SwapPlan | backend/go/internal/adapters/sqlite/repo_operation.go:240-305 | Exchanging the current plan for a new one keeps plans, revisions and the operations' current plans one relation. |
| Store.RunGrows | backend/go/internal/adapters/sqlite/repo_operation.go:121-305 | Over any run, while an operation exists its version and its revision index never decrease. |
| Store.TerminalIsFinal | backend/go/internal/adapters/sqlite/repo_execution.go:525-576 | A terminal session row never changes again, whoever cancels, finishes or interrupts it afterwards. |
| Store.TxSettles | backend/go/internal/adapters/sqlite/repo_generation.go:218-275 | No transaction changes a planning or execution session that has reached a terminal status. |
| Store.CancelTakesEffect | backend/go/internal/adapters/sqlite/repo_execution.go:541-557 | The two updates of a cancel are separate transactions: whatever runs between and after them, the session ends up terminal or running with the request recorded. |
| StoreExact.StartsExactly | backend/go/internal/adapters/sqlite/repo_execution.go:131-173 | A start is answered with a new queued row if and only if plan, version and draft are the current ones of an operation of a live record, nothing is being planned, the identifier is unused and the plan has no execution; else nothing changes. |
| StoreExact.StaleVersionIsRefused | backend/go/internal/adapters/sqlite/repo_execution.go:138-156 | Over runs: whoever read an operation before a draft was saved or a plan published for it can neither start it nor save a draft with what was read. |
| StoreExact.StartsOnLastDraft | backend/go/internal/adapters/sqlite/repo_execution.go:138-156 | Over runs: a start that is answered happens while its operation is not being planned, with the draft of the last successful save, and for the current plan of a live record. |
| StoreExact.DraftIsLastSaved | backend/go/internal/adapters/sqlite/repo_operation.go:121-156 | Over runs the stored draft is that of the last successful save, whatever other transactions did. |
| StoreExact.PublishesExactly | backend/go/internal/adapters/sqlite/repo_operation.go:232-305 | A plan is published if and only if its session is still active and its identifier new; it becomes current, one version and one index on, and its session succeeds. |
| StoreExact.OnlyIdleRecordsGo | backend/go/internal/adapters/sqlite/repo_workset.go:132-238 | Whatever transaction makes a record go, nothing of it was queued or running, and it was replaced by a successor that expected it or went with its library. |
| StoreExact.ReplacesExactly | backend/go/internal/adapters/sqlite/repo_workset.go:132-238 | Which answer a replacement gets: changed exactly when the expected record is not the current one, busy exactly when that is in use, else the successor is the only current one, with a fresh operation and an empty draft. |
| StoreExact.DeletesExactly | backend/go/internal/adapters/sqlite/repo_library.go:192-262 | A library goes, with exactly its own records, if and only if none of them is in use. |
| StoreExact.ExecutionSteps | backend/go/internal/adapters/sqlite/repo_execution.go:343-576 | Every transition of an execution session: claimed only from the queue, canceled at once only there, asked to stop only while running, one end, never back. |
| StoreExact.StatusHasACause | backend/go/internal/adapters/sqlite/repo_execution.go:343-576 | Over every run: an execution session is running only when it was claimed from the queue, ends as it does only when it was ended, canceled or interrupted so, carries the request to stop only when that was asked, moves only forward, and keeps its operation and plan. |
| Results.CountersAreExact | backend/go/internal/adapters/sqlite/repo_execution.go:414-459 | Whatever boundaries a run wrote, the session counters are the count and the sum over its result rows. |
| Results.SaveIsIdempotent | backend/go/internal/adapters/sqlite/repo_execution.go:414-459 | Replaying a write changes nothing, and rewriting a component counts only its last result. |
| Results.SaveCounts | backend/go/internal/adapters/sqlite/repo_execution.go:414-459 | A write counts a component that is over now and no longer counts what was stored for it before. |
| Results.AfterIsExact | backend/go/internal/adapters/sqlite/repo_execution.go:397-459 | After any events the position is the last event's and each component's row is the last one saved for it. |
| Results.RowsWereSaved | backend/go/internal/adapters/sqlite/repo_execution.go:414-459 | Every stored row was saved by some event of the run. |
| Results.RetriesWriteOnce | backend/go/internal/workset/execution_worker.go:380-403 | However the attempts fare, even when one commits and reports an error, the session is as before or as after one write, and the latter after a reported success. |
| Results.SessionRow.Persist | backend/go/internal/workset/execution_worker.go:380-403 | The retry loop succeeds exactly when one of three attempts reports success; then, or when one that reported an error went through all the same, the row is written once, and else not at all. |
| Results.ViewIsReport | backend/go/internal/workset/execution.go:668-738 | The view rebuilt from worklist and rows equals the worker's report on every component whose last write was kept. |
| Results.ViewShowsLastKept | backend/go/internal/workset/execution.go:668-738 | The view of a component shows the last write of it that was kept, whatever later ones were. |
| Results.ViewShowsPending | backend/go/internal/workset/execution.go:668-738 | Without a kept write a component is shown as pending and empty. |
| Results.ReportShowsLast | backend/go/internal/workset/execution_pool.go:449-466 | The worker's own report shows the last write, kept or not. |
| Results.PageUnits | backend/go/internal/workset/execution.go:582-597 | The loop answers the units from an index on, up to the limit; the zero page is the whole run. |
| Results.PageHasItsRows | backend/go/internal/adapters/sqlite/repo_execution.go:464-501 | The row query, although it has a limit of its own, always brings the rows of the page. |
| Results.PageIsSlice | backend/go/internal/workset/execution.go:582-712 | Any page of the view is that slice of the full view. |
| Results.PageIsWindow | backend/go/internal/workset/execution.go:582-712 | A page shows a window of the run: from the first component whose index is not below its start, as many as the limit allows, all without one. |
| Fingerprint.WriteStream | backend/go/internal/conversion/reconcile/fingerprint.go:17-34 | Sorting in place and writing line by line produces the stream. |
| Fingerprint.OrderIndependent | backend/go/internal/conversion/reconcile/fingerprint.go:17-34 | The stream does not depend on the order of the entries. |
| Fingerprint.EncodingIsExact | backend/go/internal/conversion/reconcile/fingerprint.go:17-34 | Two inventories with distinct NUL-free paths encode equally if and only if they hold the same tuples. |
| Fingerprint.SortedIsWritten | backend/go/internal/conversion/reconcile/fingerprint.go:17-34 | Entries in the byte order of their paths are written as they come, each as path, size and time. |
| Fingerprint.StaleIffChanged | backend/go/internal/conversion/facts.go:16-27 | Under a collision-free hash a collected root is stale if and only if some tuple was added, removed or changed. |
| FileOps.PlanItems | backend/go/internal/fileops/service.go:143-179 | The nested loops with their set decide each item as the specification does, keeping order and length. |
| FileOps.CleanedIsSource | backend/go/internal/pathnorm/pathnorm.go:121-150 | Cleaning never changes a path: what is not already clean is refused and taken as it is. |
| FileOps.DescendantMeansNames | backend/go/internal/fileops/service.go:181-187 | A path is covered by another exactly when its names go on from the other's, so a directory whose name another one's merely begins with covers nothing of it. |
| FileOps.SplitIsNames | backend/go/internal/fileops/service.go:181-187 | Those names hold no slash and joined by slashes are the path. |
| FileOps.PlanIsExact | backend/go/internal/fileops/service.go:143-179 | An item below another requested path is covered by it; of the others the first of each path is applied and its repetitions are duplicates. |
| FileOps.AppliedAreIndependent | backend/go/internal/fileops/service.go:143-187 | Applied items are pairwise distinct and none lies below any requested path. |
| FileOps.EveryItemIsCovered | backend/go/internal/fileops/service.go:143-187 | Every requested path is applied itself or lies below one that is. |
| FileOps.Apply | backend/go/internal/fileops/service.go:48-129 | Items run in order until the first failure; the counters are the number of items that went through, that failed, and that were skipped or not attempted. |
| FileOps.OutcomesAreExact | backend/go/internal/fileops/service.go:48-129 | How each item ends, from what was planned for it and what would work: skipped, not attempted after the first failure, or tried. |
| FileOps.Count | backend/go/internal/fileops/service.go:116-125 | The three counters are the sizes of the three sets of items, and together all of them. |
| FileOps.StopsAtFirstFailure | backend/go/internal/fileops/service.go:48-129 | Everything planned before the failure went through, and nothing after it was tried. |

## Left out

- SessionTheorems.FailureDecidesTheStatus: the state machine lets a commit report a cancellation only once the context is canceled; `SessionDisk.CommitsKeepThePromise` proves it of commit runs, given that a run sees only the session's own cancellation.
- SessionTheorems.ReachableInv: the coordinator's loops are steps of a state machine rather than methods with loops, because other participants act between any two of them; only the unit counters are an object with methods.
- SessionTheorems.StatusTellsTheTruth: Canceled implies that the user canceled, but a user's cancellation that arrives after the last commit still ends Succeeded, as in the code.
- ExecutorCalm.CalmRunSucceeds: room is a sufficient condition; a run may be lucky with less.
- SessionDisk.SessionLosesNothing: a commit is one step on the disk, although encodes of other units run beside it in the program; they touch disjoint paths.
- Prepared.PreparedComponent.ValidateStagedOutput: probing is an oracle; what makes a file readable audio is not modelled.
- Prepared.PreparedComponent.EncodeOne: one call runs to its end around an explicit staging area; the overlap of several calls is covered by the schedules of `ExecutorStaging`.
- Roundtrip.PlanRunReplan: the scan between the run and the second plan is a hypothesis on the component's paths; `Inventory` proves what a scan does, but on a tree rather than on the executor's disk.
- ExecutorExact.HardFaultIsUndone: more than one failing call may leave the old file aside, reported, as `ExecutorProof.CommitHardEffect` says.
- StoreExact.StatusHasACause: which queued session a claim picks, the oldest, is not modelled; a claim names its session.
- Results.AfterIsExact: that a boundary names the unit after the finished one as the next position is left to the caller.
- Results.ViewIsReport: for a component whose last write failed for good the view shows the row before it, as in the code.
- Results.PageIsSlice: supposes that rows are of worklist units and indexes ascend, which the writers guarantee.
- Scan.MergeIsExact: an error of the final commit counts as a merge that did not happen; a count query failing after a successful commit, which reports failure although the rows are merged, is not modelled.
- Store.RunGrows: supposes that new records have unused identifiers, and speaks about an operation only while it exists.
- Strict planning mode, tag classification and partitioning by policy.
- ffmpeg, ffprobe, hashing, clocks, timestamps and generated identifiers: oracles or parameters.
- Symbolic links, junctions, Windows paths and case folding, and errors of Lstat other than absence in the gate.
- Unicode: case folding covers ASCII letters, and strings are sequences of characters, not bytes.
- SyncObservedInventory and the recording of generation credentials after a commit.
- The JSON form of stored rows; an unreadable row is modelled, how it became unreadable is not.
- Creation idempotency keys, replayed start requests and the reasons an operation is not executable.
- At most one active generation per operation, and no generation during an execution: the code reads before it writes, so neither holds under concurrency and neither is claimed.
- The event stream of a running session.
- Fairness: progress says that a step is enabled and every run is finite, not how long a step takes.
- HTTP handlers, settings, the admission gate, the maintenance loop, the tag library and the frontend.
