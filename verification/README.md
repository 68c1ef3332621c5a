# Verified protocols of AWR

A Dafny model of the parts of AWR that must survive crashes, concurrency and lost answers, and of the
pure assessors that guard them. Each module follows one component of the repository; each theorem is
about every input, every run, or every interleaving.

Three shapes recur. A call that runs under a lock is described by the sequence of durable states it
writes; a crash keeps a prefix, and a run is a list of such calls. A program whose effects matter in
order (the scheduler, the operation journal) is described by its trace, watched by an observer that
says which effect is allowed next. Real concurrency (executions, the inspector's event loop, foreign
commits to the store) is a machine of atomic steps taken in any order. Beside each specification stands
a class whose methods are shown to write exactly what the specification says.

| module | component |
|---|---|
| Restore | journalled restore of the runtime database |
| Backup | sealed backups and their check |
| Relocation | relocation of a source across binding, manifest, receipt and marker |
| Execution, Supervisor | registration and supervision of at-most-once executions |
| Paths, Orchestrator | the host's conflict-free scheduler |
| Workflow | the host's operation journal, with run keys and reports |
| Client | hook deliveries of one client conversation |
| Completeness, Ordering | the completeness verdict and its diagnostics |
| Segments | the rendered bootstrap text and its reviewed segments |
| Observer | the inspector's GitHub observer |
| Inspector | the inspector's child processes |
| Prelude | shared vocabulary |

## Where the code does not do what is claimed for it

Each of these is a theorem with the exact condition, a concrete input, or both.

- A restore whose backup image equals the current main file while sidecars exist passes its preview,
  writes its marker and is then refused by every recovery (`Restore.RestoreCompletesIff`,
  `Restore.SameImageWithWalBlocks`). A candidate torn while being staged has the same effect; the
  original is then still in place (`Restore.TornCandidateRefuses`).
- A sealed backup whose manifest is longer than the check reads never passes, because nothing measures
  the manifest while it is written; thousands of runtime files with long names are enough
  (`Backup.SealedPassesIff`, `Backup.LongNamesSealAndFail`).
- A relocation that stops between creating its directory and saving its receipt leaves a key nothing
  can move again, and an edit seen only by the index pass is recorded as the source's new bytes, after
  which recovery refuses even the reviewed bytes (`Relocation.DirectoryWithoutReceiptBlocks`,
  `Relocation.EditDuringIndexBlocks`).
- A comment says that native turn ids deduplicate repeats; the delivery key also covers the source
  state, noted progress and the session's work revision, so one turn can be recorded twice
  (`Client.RepeatIsDuplicateIff`, `Client.SameTurnTwice`).
- An interrupted hook's session is looked for on the current branch only. After a switch of the branch
  the next hook opens a second active session of the same conversation (`Client.NeverASecondSessionIff`,
  `Client.SwitchedAwayOpensTwo`); on each branch there is never more than one (`Client.OneSessionPerBranch`).
- The observer's rate holds below 200 watched pull requests. At 200 a refresh evicts another good answer,
  and nearly twice the allowed requests fit in one moment; above 200 there is no bound at all
  (`Observer.RequestRate`, `Observer.FullCacheExceedsRate`, `Observer.NoRateAboveCapacity`).
- The inspector's counter is the number of slots held, but a failed kill frees the slot of a running
  child, and the retry of `--json` is not admitted (`Inspector.LiveChildrenCountedIff`,
  `Inspector.FailedKillOvercommits`, `Inspector.RetryExceedsLimit`).

The completeness verdict agrees with the diagnostics for facts as the reader builds them; for facts that
only the type allows, `Completeness.VerdictGap` says exactly when it does not. The issue pushed after the
sort is always the greatest, so inspected reports are sorted too (`Completeness.InspectionIsSorted`).

## Model

| member | source | states |
|---|---|---|
| Restore.OnlyRecordedBytesReplaced | crates/awr-cli/src/runtime_snapshot.rs:816-876 | A continuation removes or replaces a database file only while it still holds the recorded bytes, and only after the rollback directory holds the same bytes. |
| Restore.FinishShape | crates/awr-cli/src/runtime_snapshot.rs:830-876 | Every state a continuation leaves differs from its start by absent sidecars and a replaced main file at most; an installed snapshot is never touched again. |
| Restore.ForeignBytesStopRecovery | crates/awr-cli/src/runtime_snapshot.rs:841-849 | On any disk whatever, bytes in a database file that are neither the recorded ones nor the installed snapshot make every recovery and every restore refuse before its first write, in any sequence of them. |
| Restore.FinishOnward | crates/awr-cli/src/runtime_snapshot.rs:782-895 | Every durable state of a continuation is sound and still leads to the same finished disk, wherever it is killed. |
| Restore.RecoveryCompletesIff | crates/awr-cli/src/runtime_snapshot.rs:830-891 | With unchanged inputs, a sound pending restore is completed by one recovery if and only if an installed snapshot stands alone or the staged copy is absent or whole; otherwise nothing is written. |
| Restore.RestoreCompletesIff | crates/awr-cli/src/runtime_snapshot.rs:896-957 | An accepted restore completes if and only if the current main file is not already the snapshot with sidecars beside it; the branch that fails is the sidecar test of an installed image. |
| Restore.SameImageWithWalBlocks | crates/awr-cli/src/runtime_snapshot.rs:831-839 | A concrete project kept in write-ahead mode whose accepted restore writes its marker and is then refused, which no recovery can change while the sidecar stays. |
| Restore.PendingRestoreFinishes | crates/awr-cli/src/runtime_snapshot.rs:816-891 | A concrete accepted restore, killed once its marker is written, that recovery completes. |
| Restore.TornCandidateRefuses | crates/awr-cli/src/runtime_snapshot.rs:855-863 | A staged copy torn by a crash makes recovery refuse without a write; the main file is still the original. |
| Restore.CopiesEverything | crates/awr-cli/src/runtime_snapshot.rs:924-936 | Retaining the rollback copies exactly the present database files, all of them, and touches none. |
| Restore.CallSafe | crates/awr-cli/src/runtime_snapshot.rs:896-957 | One restore or recovery, killed after any number of writes, keeps the disk sound and adds no possible final database but the snapshot's; a recovery keeps the destination. |
| Restore.RunSafe | crates/awr-cli/src/runtime_snapshot.rs:782-957 | Over every run of restores, recoveries and crashes: without the marker the database files are wholly those from before or wholly a snapshot. |
| Restore.PendingHoldsEveryOriginal | crates/awr-cli/src/runtime_snapshot.rs:816-829 | In every reachable pending state each original file is in place or byte-identical in rollback, the main file is the original or the snapshot, and an installed snapshot never sits beside an old sidecar. |
| Restore.RecoveriesConverge | crates/awr-cli/src/runtime_snapshot.rs:1019-1028 | Any number of recoveries, each killed anywhere, lead to one and the same finished disk. |
| Restore.CrashedRestoreReachesUninterrupted | crates/awr-cli/src/runtime_snapshot.rs:896-957 | From every crash point after the marker, repeated recovery ends in exactly the state of the uninterrupted restore. |
| Restore.RuntimeDirectory.Finish | crates/awr-cli/src/runtime_snapshot.rs:782-895 | The writes of the method, in order, are those of the continuation the theorems speak about, and so are its refusals. |
| Restore.RuntimeDirectory.StageCandidate | crates/awr-cli/src/runtime_snapshot.rs:855-863 | Stages the candidate through a partial file, or accepts an identical staged one. |
| Restore.RuntimeDirectory.DropSidecars | crates/awr-cli/src/runtime_snapshot.rs:869-873 | Removes the present sidecars one durable write at a time. |
| Restore.RuntimeDirectory.Seal | crates/awr-cli/src/runtime_snapshot.rs:878-891 | Validation, completed receipt, marker removal, in that order. |
| Restore.RuntimeDirectory.Recover | crates/awr-cli/src/runtime_snapshot.rs:1019-1028 | Recovery reads the marker and its receipt and continues that restore. |
| Restore.RuntimeDirectory.RetainRollback | crates/awr-cli/src/runtime_snapshot.rs:924-936 | Copies each present database file to the rollback directory. |
| Restore.RuntimeDirectory.Prepare | crates/awr-cli/src/runtime_snapshot.rs:919-956 | Directories, rollback copies, receipt, and only then the pending marker. |
| Restore.RuntimeDirectory.Restore | crates/awr-cli/src/runtime_snapshot.rs:896-957 | The whole call writes exactly the modelled sequence and refuses exactly when the model does. |
| Backup.KeptIsExact | crates/awr-cli/src/runtime_snapshot.rs:272-325 | The inventory lists, ascending, exactly the files that are not excluded. |
| Backup.Walk | crates/awr-cli/src/runtime_snapshot.rs:278-325 | Stopping at the first cap exceeded refuses exactly the directories whose kept files exceed a cap as a whole. |
| Backup.Output.Create | crates/awr-cli/src/runtime_snapshot.rs:383-526 | The directory is the result of the modelled writes, and the manifest is written exactly when the configuration and every source can be read within their caps, everything read still agrees at the end and the caps on the whole hold. |
| Backup.Output.CopyRuntime | crates/awr-cli/src/runtime_snapshot.rs:454-462 | Copies the runtime files up to the first one that changed since it was listed. |
| Backup.SealIsLast | crates/awr-cli/src/runtime_snapshot.rs:499-522 | The seal is the last step of a backup and is there exactly when the backup completes. |
| Backup.UnsealedNeverPasses | crates/awr-cli/src/runtime_snapshot.rs:443-531 | A backup stopped by a crash or a refusal anywhere before its seal never passes the check. |
| Backup.SealedPassesIff | crates/awr-cli/src/runtime_snapshot.rs:527-616 | A sealed backup passes layout, names, caps and byte comparison if and only if its manifest is within the cap the check reads it with; nothing else can fail. |
| Backup.LongNamesSealAndFail | crates/awr-cli/src/runtime_snapshot.rs:494-533 | A directory of nine thousand files with thousand-character names seals, whatever program, database and configuration, and its backup never passes the check: the manifest is never measured while it is written. |
| Backup.PassingIsExact | crates/awr-cli/src/runtime_snapshot.rs:569-585 | Whatever passes gives back, for every payload, the bytes its manifest describes. |
| Backup.ChangedPayloadFails | crates/awr-cli/src/runtime_snapshot.rs:242-248 | Changing the bytes of any payload of a passing directory makes it fail. |
| Backup.NamedApart | crates/awr-cli/src/runtime_snapshot.rs:443-475 | The payload names of the program, database, runtime files and sources never collide. |
| Backup.CheckPayloads | crates/awr-cli/src/runtime_snapshot.rs:551-585 | The running test of names, caps and bytes accepts exactly the lists that satisfy them as a whole. |
| Backup.Check | crates/awr-cli/src/runtime_snapshot.rs:527-616 | The check accepts exactly the directories the theorems call passing. |
| Relocation.RunSafe | crates/awr-cli/src/source_relocation.rs:194-421 | Over every run of relocations, recoveries and index refreshes, each killed anywhere, the stage of marker, receipt, binding and manifest is one the protocol explains. |
| Relocation.DisagreementIsExplained | crates/awr-cli/src/source_relocation.rs:346-385 | Binding and manifest disagree only while the marker holds this relocation's key, and a relocated manifest implies a relocated binding. |
| Relocation.RecoveryCompletesIff | crates/awr-cli/src/source_relocation.rs:264-412 | An undisturbed recovery of a pending relocation reaches both-after with the marker gone if and only if the binding still carries the reviewed bytes. |
| Relocation.EveryCrashPointRecovers | crates/awr-cli/src/source_relocation.rs:264-412 | After any run whose index passes saw the reviewed bytes, one undisturbed recovery finishes. |
| Relocation.ReceiptWithoutMarkerRecovers | crates/awr-cli/src/source_relocation.rs:345-353 | A relocation stopped between receipt and marker is finished by recovering its key. |
| Relocation.FailedChecksChangeNothing | crates/awr-cli/src/source_relocation.rs:272-344 | Recoveries whose checks fail, however many and wherever killed, change nothing but the failure in their own receipt, on any disk, and leave the checks of later ones as they were. |
| Relocation.DirectoryWithoutReceiptBlocks | crates/awr-cli/src/source_relocation.rs:238-244 | A crash between creating the directory and saving the receipt leaves a key that neither call can move again. |
| Relocation.EditDuringIndexBlocks | crates/awr-cli/src/source_relocation.rs:386-404 | A concrete run in which an edit seen only by the index pass is recorded as the source's new bytes, after which no recovery succeeds even with the reviewed bytes back. |
| Relocation.FinishGood | crates/awr-cli/src/source_relocation.rs:264-421 | Every durable state of a finishing pass keeps the invariant. |
| Relocation.CallGood | crates/awr-cli/src/source_relocation.rs:194-263 | One call of either kind, killed anywhere, keeps the invariant. |
| Relocation.ProjectFiles.FinishRelocation | crates/awr-cli/src/source_relocation.rs:264-421 | Writes exactly the modelled sequence: checks, marker, binding, manifest, index, completion, or the failure receipt. |
| Relocation.ProjectFiles.FinishManifest | crates/awr-cli/src/source_relocation.rs:359-385 | Replaces the manifest once, only if it is still the one compared, and records the stage. |
| Relocation.ProjectFiles.FinishBinding | crates/awr-cli/src/source_relocation.rs:354-358 | Relocates the binding once and records the stage. |
| Relocation.ProjectFiles.FinishIndex | crates/awr-cli/src/source_relocation.rs:386-412 | Indexes, looks at the destination again, completes the receipt, removes the marker. |
| Relocation.ProjectFiles.RecoverRelocation | crates/awr-cli/src/source_relocation.rs:254-263 | A completed receipt without a marker is only reported; any other is finished. |
| Relocation.ProjectFiles.AcceptRelocation | crates/awr-cli/src/source_relocation.rs:194-253 | An accepted relocation refuses a known key or a pending marker and otherwise writes directory, receipt and marker before finishing. |
| Execution.RegisterKept | crates/awr-cli/src/execution.rs:85-108 | Under the key lock the key stays unregistered between look-up and transaction, whatever others do. |
| Execution.SpawnKept | crates/awr-cli/src/execution.rs:321-331 | When a supervisor starts a command, its execution is recorded as starting and was never started before. |
| Execution.FinishKept | crates/awr-cli/src/execution.rs:417-431 | The finished state is committed only with the receipt that result.json already holds. |
| Execution.ApplyKeeps | crates/awr-cli/src/execution.rs:85-431 | Every atomic step of every caller, supervisor, foreign commit or crash keeps the invariant of locks, records, directories and started commands. |
| Execution.RunSafe | crates/awr-cli/src/execution.rs:85-431 | So does every interleaving. |
| Execution.AtMostOnce | crates/awr-cli/src/execution.rs:154-195 | Over every interleaving from an empty project an operation key has at most one execution, its command starts at most once, and a finished record equals the durable receipt. |
| Execution.RecordedForGood | crates/awr-store/src/execution.rs:98-302 | What one moment of a run recorded every later moment still shows: keys, intents, started commands, finished receipts. |
| Execution.Store.Retry | crates/awr-cli/src/execution.rs:68-83 | The action commits exactly once or not at all: in the first of sixteen rounds without a foreign commit, if it is acceptable there. |
| Supervisor.LeadsIsRun | crates/awr-cli/src/execution.rs:295-415 | The statements of a supervisor are a run of the interleaving machine, so its safety is theirs. |
| Supervisor.SupervisedExecution.Supervise | crates/awr-cli/src/execution.rs:295-415 | Undisturbed but for foreign commits, the command starts once and its receipt becomes durable when the starting record finds a quiet attempt, and the execution is recorded finished when the last one does too; without the starting record nothing starts. |
| Supervisor.SupervisedExecution.RecordStart | crates/awr-cli/src/execution.rs:321-323 | The starting identity is committed in the first quiet attempt or not at all. |
| Supervisor.SupervisedExecution.RecordRunning | crates/awr-cli/src/execution.rs:351-355 | A failed running record leaves the started child to be awaited. |
| Supervisor.SupervisedExecution.Finish | crates/awr-cli/src/execution.rs:417-431 | The receipt is written, renamed into place, and stays there whether or not the finished state can be committed. |
| Paths.AncestorByString | examples/host-app/orchestrator.py:33-36 | The string test on normalised paths says segment-wise ancestor or equal, in both directions. |
| Paths.ConflictIffComparable | examples/host-app/orchestrator.py:16-36 | Two precise reservations conflict if and only if some two of their paths are segment-wise comparable. |
| Paths.NoConflictIffDisjointTrees | examples/host-app/orchestrator.py:16-36 | For all path lists: they do not conflict if and only if neither reserves the whole workspace and no path lies under both. |
| Paths.ConflictsSymmetric | examples/host-app/orchestrator.py:33-36 | Conflict does not depend on the order of the two lists. |
| Paths.ClaimOf | examples/host-app/orchestrator.py:25-30 | The normal form of a precise path is its folded segments joined by slashes. |
| Paths.Resources | examples/host-app/orchestrator.py:16-30 | The loop builds exactly the modelled reservation, giving up to the whole workspace at the first unbounded path. |
| Orchestrator.StepAccepted | examples/host-app/orchestrator.py:89-140 | Every effect of one step, in order, is one the observer allows: saves keep the schedule, dispatches follow their save. |
| Orchestrator.DispatchedAtMostOnceAndDurably | examples/host-app/orchestrator.py:114-138 | Over every run of steps killed anywhere: no work and no identity is dispatched twice, each was saved before, and every saved state keeps slots, distinctness and disjoint resources. |
| Orchestrator.OccupiedTreesAreDisjoint | examples/host-app/orchestrator.py:16-36 | In every saved state of a run, two jobs that occupy slots reserve precise lists of paths, and no path lies under a name of each. |
| Orchestrator.JobsAreAppendOnly | examples/host-app/orchestrator.py:92-137 | Between any two saves of a run the job list only grew, identities stayed and stopped jobs stayed stopped. |
| Orchestrator.AppendKeeps | examples/host-app/orchestrator.py:117-129 | A free slot, a new work and identity and no conflict with an occupying job make room for the new job. |
| Orchestrator.Scheduler.ObserveJobs | examples/host-app/orchestrator.py:92-105 | Stopped jobs are left alone; every other answer, or its absence, is saved at once. |
| Orchestrator.Scheduler.FillSlots | examples/host-app/orchestrator.py:114-138 | The loop's effects are those of the modelled dispatch pass over the graph in key order. |
| Orchestrator.Scheduler.Dispatch | examples/host-app/orchestrator.py:125-137 | Saved, then dispatched, then saved with what happened. |
| Orchestrator.Scheduler.Step | examples/host-app/orchestrator.py:89-140 | One step has exactly the modelled effects and raises exactly on an incomplete or invalid graph. |
| Workflow.CommandAccepted | examples/host-app/workflow.py:116-403 | Every effect of every command, in every reachable journal, is one the observer allows. |
| Workflow.SentOnceAndSavedFirst | examples/host-app/workflow.py:116-132 | Over every run with crashes and reconciliations an operation is sent only while the saved journal holds it as pending, its id was never sent before, and everything sent before is settled in the history. |
| Workflow.EveryOperationAccountedFor | examples/host-app/workflow.py:128-132 | In every journal on disk ids are distinct, and every id sent is in exactly one of history and pending. |
| Workflow.JournalOnlyGrows | examples/host-app/workflow.py:384-403 | Between two moments of a run the history only grew and every run key kept its request and runtime key. |
| Workflow.RunKeyDispatchedOnce | examples/host-app/execution_reports.py:70-94 | A run key is recorded before it is dispatched and dispatched at most once across crashes and reconciliation. |
| Workflow.GatedNeedsAcknowledgedContext | examples/host-app/workflow.py:284-317 | Progress, checkpoint, run and complete reach AWR only with this session's context, its file intact, acknowledged after the last fetch. |
| Workflow.ReportEvidenceAddedOnce | examples/host-app/execution_reports.py:214-233 | A report's evidence is sent only after the latest look-up found that key missing; when look-ups are accurate it is applied at most once per key. |
| Workflow.ReconcileSound | examples/host-app/workflow.py:384-403 | A reconciliation sends nothing, moves exactly the pending operation to the history and drops a context of another session. |
| Workflow.FinishReportSound | examples/host-app/execution_reports.py:194-233 | Collecting, checking, looking up, registering, completing and ending keep the journal's rules at every step. |
| Workflow.OperationJournal.Perform | examples/host-app/workflow.py:116-126 | Saved, sent, saved; an error or lost answer keeps the operation pending. |
| Workflow.OperationJournal.FetchContext | examples/host-app/workflow.py:179-206 | The stored context is dropped before the fetch and replaced only by a complete one of this session, not acknowledged. |
| Workflow.OperationJournal.PrepareContext | examples/host-app/workflow.py:208-237 | Fetch, record the reassessment, and fetch again when an action was asked for. |
| Workflow.OperationJournal.AcknowledgeContext | examples/host-app/workflow.py:300-307 | Acknowledges exactly the intact delivered context with that hash. |
| Workflow.OperationJournal.SubmitCheckpoint | examples/host-app/workflow.py:309-317 | A checkpoint needs the acknowledged context it names. |
| Workflow.OperationJournal.FinishSession | examples/host-app/workflow.py:347-363 | Completes then ends, or only ends after a completed work. |
| Workflow.OperationJournal.ReconcileInspected | examples/host-app/workflow.py:384-403 | Records the operator's decision on exactly the inspected pending operation. |
| Workflow.OperationJournal.RunManaged | examples/host-app/execution_reports.py:51-94 | A known key is only queried; a new one is saved with its runtime key before dispatch. |
| Workflow.OperationJournal.CollectExecution | examples/host-app/execution_reports.py:130-160 | A verified result is stored once; a stored one is only checked again. |
| Workflow.OperationJournal.RecordReport | examples/host-app/execution_reports.py:170-192 | Only a collected run with an acknowledged context yields a report record. |
| Workflow.OperationJournal.File | examples/host-app/execution_reports.py:214-233 | Looks the exact evidence key up before registering, then finishes. |
| Workflow.OperationJournal.FinishWithReport | examples/host-app/execution_reports.py:194-233 | The whole call has exactly the modelled effects. |
| Client.SavesSound | crates/awr-cli/src/client.rs:117-134 | Every store seen or made by the bounded save keeps what was recorded. |
| Client.SavesWhenQuiet | crates/awr-cli/src/client.rs:117-134 | The save succeeds if and only if one of its attempts meets no foreign commit between its read and its write. |
| Client.SavesOnce | crates/awr-store/src/client.rs:64-107 | A binding is stored once, unchanged but for its revision; a failed save leaves binding and deliveries alone. |
| Client.FindComplete | crates/awr-store/src/client.rs:48-60 | Looking a delivery's checkpoint up in the bound session finds it if it exists anywhere. |
| Client.CheckpointOncePerKey | crates/awr-cli/src/client.rs:494-527 | Whatever commands were run, interrupted and interfered with, no key has two checkpoints, a delivered key has exactly one, and the conversation's session never changes. |
| Client.OneSessionPerBranch | crates/awr-cli/src/client.rs:218-264 | Without resuming a predecessor the conversation never has two active sessions of its own on one branch, in any run. |
| Client.SecondSessionIff | crates/awr-cli/src/client.rs:218-257 | The next undisturbed hook opens a second active session if and only if the conversation is unbound and its own active session is on another branch than the current one. |
| Client.NeverASecondSessionIff | crates/awr-cli/src/client.rs:218-264 | Over every run without resuming: no store has two active sessions of the conversation and none gets two from the next hook, if and only if no switch of the branch falls between reading it for a session and saving the session's binding. |
| Client.SwitchedAwayOpensTwo | crates/awr-store/src/branch.rs:216-237 | A concrete run: a hook killed after opening its session, a switch of the branch, and a second hook that opens a second active session. |
| Client.DeliveredExactlyOnce | crates/awr-cli/src/client.rs:471-531 | A delivery that reports success has its event recorded under a key with exactly one checkpoint. |
| Client.UndisturbedDelivery | crates/awr-cli/src/client.rs:135-314 | An undisturbed delivery succeeds if and only if the conversation can be bound to the work, and adds one checkpoint unless its key has one. |
| Client.CrashedDeliveryCompletes | crates/awr-cli/src/client.rs:471-531 | A delivery killed anywhere and repeated ends with the checkpoints of one that was not killed. |
| Client.RepeatIsDuplicateIff | crates/awr-cli/src/client.rs:471-499 | A repeated notice adds no checkpoint if and only if it was recorded with the sources, progress and work revision as they are now. |
| Client.SameTurnTwice | crates/awr-cli/src/client.rs:471-494 | A concrete run in which one native turn id is recorded twice because others changed the sources in between. |
| Client.Conversation.SaveBinding | crates/awr-cli/src/client.rs:117-134 | The retry loop sees and makes exactly the modelled stores. |
| Client.Conversation.PickSession | crates/awr-cli/src/client.rs:173-265 | Chosen, resumed, orphaned or new session, with the refusals of each; orphans are looked for on the branch read when the project was opened. |
| Client.Conversation.AttachConversation | crates/awr-cli/src/client.rs:135-314 | A bound conversation keeps its binding or is refused; any other gets one. |
| Client.Conversation.SaveCheckpoint | crates/awr-store/src/checkpoint_save.rs:216-277 | The start receipt and the completion are two commits, and a change between them voids the checkpoint. |
| Client.Conversation.RecordEvent | crates/awr-cli/src/client.rs:495-527 | A delivered key is answered, a checkpoint left by an interrupted delivery is named, anything else is recorded. |
| Client.Conversation.DeliverEvent | crates/awr-cli/src/client.rs:393-531 | The whole delivery sees and makes exactly the modelled stores. |
| Completeness.VerdictAgreesWithIssues | crates/awr-context/src/completeness.rs:118-373 | With facts as they are read and a refresh as the indexer writes it, the verdict is complete if and only if nothing is reported. |
| Completeness.VerdictGap | crates/awr-context/src/completeness.rs:118-373 | For all facts: exactly when a complete verdict comes with issues, and exactly when a silent report is incomplete. |
| Completeness.CompleteWithIssues | crates/awr-context/src/completeness.rs:135-146 | A good refresh that lists a problem makes a complete context with an issue. |
| Completeness.IncompleteWithoutIssues | crates/awr-context/src/completeness.rs:247-250 | An existing work item without rule facts is incomplete with nothing reported. |
| Completeness.IssuesAreSorted | crates/awr-context/src/completeness.rs:359-360 | The issues are strictly ascending and are exactly the ones pushed. |
| Completeness.InspectionIsSorted | crates/awr-context/src/completeness.rs:511-524 | The issue appended for an inactive workstream comes after every other, so the list stays ascending without repeats. |
| Completeness.InspectionAgrees | crates/awr-context/src/completeness.rs:447-524 | Inspection keeps verdict and issues in agreement, also for an inactive workstream. |
| Completeness.SourceFieldAgrees | crates/awr-context/src/completeness.rs:127-173 | Sources are current if and only if neither refresh nor source states give a diagnostic. |
| Completeness.WorkFieldsAgree | crates/awr-context/src/completeness.rs:184-215 | Acceptance and work state each fall if and only if their diagnostic is reported. |
| Completeness.RuleFieldAgrees | crates/awr-context/src/completeness.rs:224-250 | Rules are complete if and only if no rule diagnostic is reported and their sources were refreshed; otherwise something is reported. |
| Completeness.DependencyFieldAgrees | crates/awr-context/src/completeness.rs:251-324 | The dependency flag falls if and only if a dependency diagnostic is reported. |
| Completeness.DecisionFieldAgrees | crates/awr-context/src/completeness.rs:325-354 | The decision flag falls if and only if a decision diagnostic is reported. |
| Completeness.Assess | crates/awr-context/src/completeness.rs:66-406 | The loops compute exactly the flags, verdict, dependency list and sorted issues of the specification, or its refusal. |
| Completeness.AssessDependencies | crates/awr-context/src/completeness.rs:255-324 | The flag flipped along the loops is the dependency predicate. |
| Completeness.Inspect | crates/awr-context/src/completeness.rs:500-532 | Overwrites state, verdict and issues of the report for an inactive workstream. |
| Ordering.AscendingUnique | crates/awr-context/src/completeness.rs:355-360 | There is one ascending list without repeats of given elements, so sort-then-dedup is determined whatever the algorithm. |
| Ordering.SortUniqueSorts | crates/awr-context/src/completeness.rs:355-360 | The specification's list is ascending and holds exactly the given elements. |
| Segments.GroupingConserves | crates/awr-context/src/bootstrap.rs:183-197 | Grouping rules under headings loses none and repeats none. |
| Segments.PiecesPlaced | crates/awr-context/src/bootstrap.rs:106-274 | For any sequence of text and marked pieces the recorded offsets are in bounds, ascending, disjoint and exact. |
| Segments.SegmentsAreExact | crates/awr-context/src/bootstrap.rs:134-226 | The segments are exactly the work item's block and each critical rule's block once. |
| Segments.FindingsAreInOneReviewedBlock | crates/awr-context/src/bootstrap.rs:666-697 | In an accepted rendering every non-empty finding lies in exactly one segment, whose block yields its signature by itself. |
| Segments.EmptyFindingInTwo | crates/awr-context/src/bootstrap.rs:204-225 | Whenever two rules share a heading, some accepted rendering has an empty finding that lies in both of their segments, so the restriction to non-empty ones is needed. |
| Segments.GroupRules | crates/awr-context/src/bootstrap.rs:183-197 | The loop over a map yields the ascending headings and, under each, its rules in their order. |
| Segments.Renderer.Render | crates/awr-context/src/bootstrap.rs:102-275 | Appending text and segments produces exactly the specified text and offsets. |
| Segments.Check | crates/awr-context/src/bootstrap.rs:667-697 | The check with precomputed signature sets accepts exactly the covered renderings. |
| Observer.SlotsAndOrder | tools/inspector/team-progress.js:78-87 | After any interleaving at most two tasks hold slots, none is idle while one waits, tasks started in scheduling order, each once, and the cache holds at most 200 entries. |
| Observer.OneUnresolvedPerPullRequest | tools/inspector/team-progress.js:105-148 | Two unresolved tasks are never for the same pull request. |
| Observer.PendingNeverEvicted | tools/inspector/team-progress.js:113-118 | A pending entry stays until its own task delivers its result, whatever else happens. |
| Observer.NoRequestWhileLimited | tools/inspector/team-progress.js:88-104 | While a rate limit lasts no interleaving sends a request or shortens the limit, and answers to earlier requests can only lengthen it. |
| Observer.RoomKeeps | tools/inspector/team-progress.js:113-118 | At capacity only a finished entry is evicted, and there is no room exactly when all are pending. |
| Observer.ApplyKeeps | tools/inspector/team-progress.js:78-149 | Every event keeps the accounting of slots, queue, tasks and cache. |
| Observer.RequestRate | tools/inspector/team-progress.js:108-130 | With n watched pull requests, fewer than 200, and good reads only, the refreshes scheduled within W milliseconds make at most 3n + 3W/240000 requests. |
| Observer.FullCacheForgetsGoodAnswers | tools/inspector/team-progress.js:111-118 | In a full cache a refresh evicts another entry whose answer has not expired, and observing that pull request then reads it again. |
| Observer.FullCacheExceedsRate | tools/inspector/team-progress.js:108-118 | At exactly 200 watched pull requests the rate is not kept: from a reached full cache, once its answers have expired, 398 refreshes of three requests each fit in one moment, where the bound allows 200. |
| Observer.NoRateAboveCapacity | tools/inspector/team-progress.js:108-118 | With 201 watched pull requests, for every k, k refreshes of three requests each follow one another at one moment, each reading what the last one evicted. |
| Observer.FullCacheReached | tools/inspector/team-progress.js:105-148 | A cache full of good answers, with one more pull request to watch, is reached from the start. |
| Observer.GithubObserver.FillSlots | tools/inspector/team-progress.js:78-84 | The loop starts waiting tasks exactly as specified. |
| Observer.GithubObserver.ObserveReference | tools/inspector/team-progress.js:105-150 | A usable answer is returned, a full cache refuses, anything else is scheduled once. |
| Observer.GithubObserver.Read | tools/inspector/team-progress.js:88-93 | Sends unless limited. |
| Observer.GithubObserver.TakeAnswer | tools/inspector/team-progress.js:94-101 | Sets or extends the limit by what an answer says, whenever it comes. |
| Observer.GithubObserver.DeliverResult | tools/inspector/team-progress.js:142-147 | Resolves exactly the entry of its task. |
| Observer.GithubObserver.ReleaseSlot | tools/inspector/team-progress.js:82-82 | Gives one slot back and fills it again. |
| Inspector.SlotsBounded | tools/inspector/server.js:338-455 | After any interleaving the counter is the number of slots held, at most one above the limit and only after the flag moved; the retry happens at most once; no writer was signalled; collected output is a prefix. |
| Inspector.LiveChildrenCountedIff | tools/inspector/server.js:347-419 | Every live child, timed out or not, holds its slot if and only if no kill of a still running child failed; the counter then bounds the live children, and equals them when every child could be started. |
| Inspector.FailedKillOvercommits | tools/inspector/server.js:378-411 | A concrete run in which a failed kill frees the slot of a running child: limit one, two live children. |
| Inspector.RetryExceedsLimit | tools/inspector/server.js:446-455 | A concrete run in which the unadmitted retry makes one child more than the limit. |
| Inspector.TimedOutNeverRetried | tools/inspector/server.js:446-455 | A command whose outcome is unknown because it timed out is never repeated: it reports no output, so nothing that rejects the flag. |
| Inspector.FirstResultStays | tools/inspector/server.js:364-369 | The first result reported for a child is the one its command keeps. |
| Inspector.ApplyKeeps | tools/inspector/server.js:338-455 | Every event keeps slots, signals, output prefixes and retries accounted for. |
| Inspector.Server.RunCommand | tools/inspector/server.js:427-444 | Admission refuses exactly when the counter is at the limit. |
| Inspector.Server.TimerFired | tools/inspector/server.js:371-383 | A writer is reported unknown and left running; a reader is signalled and reported timed out; when the signal cannot be sent, that error is the result and gives the slot back. |
| Inspector.Server.StdoutData | tools/inspector/server.js:387-398 | Beyond the limit nothing more is collected and only a reader is killed. |
| Inspector.Server.ChildClosed | tools/inspector/server.js:412-419 | Closing gives the slot back once. |
| Inspector.Server.ChildError | tools/inspector/server.js:408-411 | So does an error event. |
| Inspector.Server.Continue | tools/inspector/server.js:446-455 | The retry happens only for an explicit rejection while the flag is still in its first place. |

## Left out

Assumptions. Digests do not collide, and a digest is represented by the content it names. Generated
ids are new. A lock is mutual exclusion that ends with its process. Writing and renaming a receipt, a
marker or a journal is one atomic step. A store transaction commits once or reports a moved revision
without effect.

- Restore.RunSafe: does not model a process that ignores the runtime lease and writes database files between two steps; such writes are covered by Restore.ForeignBytesStopRecovery when they precede a recovery.
- Restore: the preview's comparison of sources and runtime files (`matches_target`) enters as one answer, and malformed receipts are refused before anything modelled here.
- Backup.SealedPassesIff: does not cover the identity, history and source fingerprints read from the exported database, which both sides take from the store; the manifest's length is the least its runtime entries take and, beyond that, an input; a configuration that is there only while sources are read, and not while the directory is listed, is not modelled.
- Backup.Walk: takes the directory tree as a list of its files, and the refusal of symbolic links and of names that are not UTF-8 is not modelled.
- Relocation.RunSafe: requires the new locator to differ from the old one, which the plan checks, and treats the four resources as the only ones.
- Execution: which process runs next is arbitrary, so nothing is said about fairness or time; probes of a running worker and log files are not modelled.
- Supervisor.SupervisedExecution.Supervise: is the supervisor met by foreign commits only; its interleaving with other supervisors, callers and crashes is what module Execution is about.
- Paths.Resources: the result is a set, so the sorted order of the reservation list is not modelled, and case folding is any folding by character that neither adds nor removes slashes or stars.
- Orchestrator.Scheduler.Step: does not model a driver answer that is neither an observation nor an exception, nor a change of `parallelism` between two steps of one state file.
- Orchestrator.DispatchedAtMostOnceAndDurably: rests on the graph's keys being distinct, since the code does not add to `known` while it dispatches.
- Workflow.CommandAccepted: argument validation, capabilities and revisions named by the caller enter as one yes or no; each command starts from the saved journal, as each invocation of the program does.
- Workflow.ReportEvidenceAddedOnce: says nothing about evidence that others add between the look-up and the registration.
- Client.NeverASecondSessionIff: assumes that no other program opens sessions under this conversation's agent name, fewer than a thousand active sessions, which is as many as the code lists, and branches that are not closed while a session is opened on them.
- Client.Conversation.DeliverEvent: context text, hashes, compaction observations and the events that only show context are not modelled.
- Completeness.Assess: evidence gaps and source versions are passed through without influence on the verdict and are not modelled; a diagnostic whose code has one fixed sentence carries an empty reason.
- Completeness.Inspect: reading the facts from the store, and the narrowing of sources to a workstream, come before what is modelled.
- Segments.Renderer.Render: the text before the work item and after the rules is given, not composed; the detector and the store's check of each segment are parameters.
- Observer.RequestRate: is about refreshes whose reads succeed; after a failed read the next one comes after a minute, and the parsing of answers is not modelled.
- Inspector: HTTP, cookies, origin checks, JSON parsing and the wording of answers are not modelled; lower-casing of output is that of ASCII letters; stderr has its own limit of the same kind.
- Wrapper commands, SQL, git, TCP probes, signals, Windows handles, argument parsing and printing are left to the code.
