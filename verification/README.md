# Durable context compaction, and the structural code around it

This project models how a chat agent's context is compacted durably, and proves
what that protocol guarantees. A *compaction job* freezes a prefix of a context
(a Conversation or a member's AgentSession), has it summarized, and replaces the
prefix by one message. Jobs, contexts and runtimes are separate documents: each
update is an atomic compare-and-set on one of them and there is no transaction
across them. Workers are elected by expiring leases and may crash, pause for any
time or be taken over, while other actors append to the context, enqueue
competing jobs, hold a source-turn guard, offer a local summary or cancel.

## How it is modelled

* `CompactionTypes` has the documents. SHA-256 is injective: a prefix hash is the
  prefix, a job ID is the pair it digests. Tokens are numbers that never repeat;
  dates are natural numbers.
* `JobCommands` has every compare-and-set on a job document, as a function from
  the document to the updated one or to `None` when the filter does not match.
* `Protocol` is the state machine: one action is one read or write of one
  document. A worker has a program counter with what it has read so far; a crash
  is a worker that takes no further action, an exception is `Abort`. Each action
  carries its own clock value and nothing relates those of different actions, so
  every interleaving, pause and clock skew is covered. `ProtocolInvariant` and
  `ProtocolSteps` have the invariant and its proof, one small lemma per document
  and action; `ProtocolTheorems`, `ContextHistory`, `JobGuarantees` and
  `MergeContexts` have the theorems over whole runs.
* `FenceLease` adds what needs clocks: whoever swaps a context holds the job's
  lease, unless another claim took the job over with a clock at or past the fence's
  deadline. `FenceResidue` says when a context keeps a job's fence.
  `Counterexamples`, `SettlementTwice` and `FenceWitnesses` are concrete runs to
  what the code does not guarantee.
* `CompactionService` (with `ServiceSteps`) and `JobCommandCalls` have the repository calls and the
  phase driver as the code runs them: classes over shared documents, with other
  actors moving, and exceptions striking, at every await. What they do is a
  schedule, and each method is proved for every schedule; every database access
  is recorded as an action of the protocol, so the theorems about runs hold of
  these methods. An undisturbed run is one in which any time passes at the awaits,
  within the lease, and nothing else happens; for it the contracts say exactly what
  is stored. `MergeAttempts` has what a run says about one call of the owner merge:
  what was appended meanwhile, which updates missed, what the reads saw.
  `CompactionIntake` has enqueue, handoff and the admission barrier.
* `WorkerSchedule` specifies the worker's timer, pump and shutdown event by event;
  `CompactionWorker` is the closure that implements it.
* `CheckpointRecovery`, `RepairPrefix`, `FigureClusters`, `WorkspacePaths`,
  `WorkspaceTree`, `WorkspaceBuilder` and `WorkspaceNavigation` model the remaining
  algorithms; `NestedWorkspace` is a tree on which two of them disagree.
  Messages of a repair history are reduced to their tool events and the character
  and image counts of the token estimate; names in the workspace tree are compared
  by any total order.

## What the code does not guarantee

Each point has a concrete input or run that shows it, and the condition under which
it happens, proved in both directions.

* Cancelling a job does not stop a swap whose filter carries a clock value read
  before the lease was taken over (`Counterexamples.LateSwap`). A swap is late
  exactly when another claim took the job over, and, if the swapper's own claim and
  heartbeats read their clock in order, exactly when such a claim read a clock at or
  past the fence's deadline (`FenceLease.SwapIsLateExactlyWhen`); so never on one
  clock (`FenceLease.SwapperHoldsLease`).
* A Conversation's settlement is not pinned to the last applied job in its filter,
  unlike an AgentSession's: a worker that pauses before it can settle its job a
  second time (`SettlementTwice.ConversationSettledTwice`). It does exactly when
  another job of the Conversation was settled in between
  (`JobGuarantees.SettledAgainExactlyWhen`).
* A fresh claim does not always merge an intact context: a fence that a crash left
  behind makes it report a lost lease until the fence expires
  (`FenceWitnesses.StrandedByFence`). `CanMerge`, in
  `CompactionService.ReplayToMerge`, is the exact condition.
* The comment on `finalizeAppliedCompactionJob` says that terminal convergence must
  not leave the fence set, but a merged job's context can still carry it
  (`FenceWitnesses.MergedWithFence`). The swap takes the fence with it, so it does
  exactly when a claim installed the fence after the swap and nothing cleared, reaped
  or replaced it since (`FenceResidue.MergedKeepsFenceExactlyWhen`).
* Messages appended before a checkpoint is recovered can be swallowed
  (`CheckpointRecovery.UnnamedBoundarySwallowsAppends`). They are exactly when the
  checkpoint has neither a boundary message nor a prefix hash and its replacement is
  not in place; with a hash alone the recovery is refused instead
  (`CheckpointRecovery.AppendsSwallowedExactlyWhen`).
* `findTreeNode` and `first-child` normalize the path they are given again, and
  normalizing is not idempotent: inside a top-level folder called `workspace`, or
  for a path with white space at an end, a node is not found by its own path.
  `NestedWorkspace.FirstChildIsLost` is a tree built from one artifact on which
  `first-child` and `next` differ; `WorkspacePaths.NormalizeAgain`,
  `WorkspaceNavigation.FindsItself` and `FirstChildIsNext` have the exact condition.

## Model

| member | source | states |
|---|---|---|
| ProtocolSteps.NextKeeps | lib/agent-compaction/repository.ts:351-1986 | every access of every actor keeps the protocol's invariant, whatever its clock says |
| ProtocolSteps.RunKeeps | lib/agent-compaction/repository.ts:351-1986 | the invariant holds at every point of every run |
| ProtocolSteps.InitialInv | lib/agent-compaction/models.ts:62-70 | it holds before the first job |
| ProtocolSteps.SwapIsFirst | lib/agent-compaction/repository.ts:1305-1366 | a swap that passes its filters sees the current messages and is the job's first |
| ProtocolTheorems.NextEvolves | lib/agent-compaction/repository.ts:90-144 | no access takes back or rewrites what a job has persisted |
| ProtocolTheorems.JobsEvolve | lib/agent-compaction/repository.ts:1019-1251 | over any run a job's summary, merge context, replacement and settlement mark are written at most once, its keys and its log only grow, and a terminal status is left only from failed to superseded |
| ProtocolTheorems.NextHistory | lib/agent-compaction/repository.ts:1331-1377 | the record of swaps and settlements that theorems speak of is exactly what the accesses did |
| ProtocolTheorems.AppliedAtMostOnce | lib/agent-compaction/repository.ts:1285-1387 | over any run a job is applied to its context at most once, even by a worker that wakes after later jobs merged |
| ProtocolTheorems.SwapReplacesPrefixOnly | lib/agent-compaction/repository.ts:1314-1366 | a swap acts on what the context holds at that moment: exactly the frozen prefix gives way to the replacement |
| ProtocolTheorems.SessionSettledAtMostOnce | lib/agent-compaction/repository.ts:1491-1518 | over any run an AgentSession's runtime is settled for a job at most once |
| ProtocolTheorems.MergedWasAppliedAndSettled | lib/agent-compaction/repository.ts:1253-1277 | a merged job was swapped exactly once, and after that its runtime was settled or a Conversation had none, before the status changed |
| ContextHistory.SwapHolds | lib/agent-compaction/repository.ts:1317-1325 | what a job's frozen prefix holds is the standing replacement and the next uncovered messages |
| ContextHistory.NoMessageLost | lib/agent-compaction/repository.ts:1279-1284 | while other writers only append, every message ever written is still there in order or lies in the prefix of one applied job |
| JobCommands.OutboxStepKeeps | lib/agent-compaction/repository.ts:38-144 | a write that logs one legal edge keeps the outbox a faithful history |
| JobCommands.CommandLogs | lib/agent-compaction/repository.ts:656-793 | commands without a lease leave the status alone or log one legal edge |
| JobCommands.LeasedLogs | lib/agent-compaction/repository.ts:996-1277 | so do the commands of a lease holder |
| JobCommands.CreatedOk | lib/agent-compaction/repository.ts:429-466 | a created job is queued, holds its barrier and has logged that status |
| JobCommands.ClaimKeeps | lib/agent-compaction/repository.ts:803-841 | a claim keeps the job well-formed and clears its guard |
| JobCommands.CommandKeeps | lib/agent-compaction/repository.ts:1716-1986 | no command of another actor breaks a job, or changes a leased one without ending it |
| JobCommands.LeasedKeeps | lib/agent-compaction/repository.ts:996-1694 | commands of an informed lease holder keep the job well-formed; the ending ones drop the lease |
| JobGuarantees.ReachableJobs | lib/agent-compaction/models.ts:62-70 | one barrier per context, one job per trigger key, a barrier key exactly on active jobs, no lease or guard on terminal ones, and outbox revisions 1, 2, 3 along legal edges |
| JobGuarantees.TerminalRefusesLeases | lib/agent-compaction/repository.ts:1612-1654 | release and fail, which filter on the lease alone, can never move a terminal job |
| JobGuarantees.WrittenAtMostOnce | lib/agent-compaction/repository.ts:1019-1251 | whoever races, one action of the whole run writes a job's summary, one its merge context, one its replacement |
| JobGuarantees.OfferWritesSummary | lib/agent-compaction/repository.ts:1804-1823 | an accepted offer is the action that writes the summary, for exactly the frozen prefix of an unleased job |
| JobGuarantees.OnlyTheGuardHolderMoves | lib/agent-compaction/repository.ts:299-326 | while an actor sees the guard live, no claim, activation, offer or termination changes the job except through the guard's own token |
| JobGuarantees.ClaimedIsDurablyOwned | lib/agent-compaction/repository.ts:1716-1986 | once claimed, only a cancellation before merge preparation changes more than a job's keys or availability |
| JobGuarantees.ActivationMakesClaimable | lib/agent-compaction/repository.ts:1716-1779 | an activated, unleased job is claimable at once |
| JobGuarantees.ClaimWaits | lib/agent-compaction/repository.ts:795-841 | over any run no claim takes a job with a clock below its availability, unless an activation, an offer or a release came between |
| JobGuarantees.ReleasedWaits | lib/agent-compaction/repository.ts:1612-1633 | a job released with a delay is not claimed before the delay has passed |
| JobGuarantees.RetriesBounded | lib/agent-compaction/service.ts:196-213 | however often a job is claimed, crashed and taken over, the error path makes it retryable fewer than maxAttempts times |
| JobGuarantees.SettlementTakesNewerEpoch | lib/agent-compaction/repository.ts:1389-1426 | a settlement leaves the greater of both epochs, resets the counters and raises the version by one |
| JobGuarantees.MergeEpochIsFresh | lib/agent-compaction/repository.ts:1150-1168 | the merge context has the content of the newer of the two contexts, the runtime's on a tie, under an epoch above both and with the projection read |
| MergeContexts.MergeContextSucceeds | lib/agent-compaction/repository.ts:1132-1202 | over any run a job's merge context comes from one read for it: the content of whichever of its own and the runtime's context was newer then, under a greater epoch |
| JobGuarantees.EpochNeverFalls | lib/agent-compaction/repository.ts:1408-1426 | no access of the protocol lowers a runtime's context epoch: it falls exactly when another writer replaces the context by an older one |
| JobGuarantees.PinnedSettledAtMostOnce | lib/agent-compaction/repository.ts:1460-1487 | in particular it does not repeat in a run where every settlement acts on the last applied job |
| JobGuarantees.SettledAgainExactlyWhen | lib/agent-compaction/repository.ts:1460-1487 | a Conversation's job is settled again exactly when another job of the Conversation was settled in between |
| FenceLease.RunTimely | lib/agent-compaction/repository.ts:795-994 | at every point of every run a merging worker holds its lease on a prepared job or was taken over; with its own clocks in order its deadlines are within its lease, or past for the claim that took over |
| FenceLease.FenceWithinLease | lib/agent-compaction/repository.ts:908-994 | a fence never expires after the lease its token holds, if that worker's own clocks come in order |
| FenceLease.HeartbeatExtends | lib/agent-compaction/repository.ts:954-994 | a heartbeat moves the lease, and the fence if the context still carries it, to one period after its clock, and changes nothing else of either |
| FenceLease.SwapIsLateExactlyWhen | lib/agent-compaction/repository.ts:1326-1366 | a swap's worker has lost the lease exactly when another claim took the job over, and then one whose clock was at or past the fence's deadline |
| FenceLease.SwapperHoldsLease | lib/agent-compaction/repository.ts:1326-1366 | on one clock whoever swaps holds a live lease on a prepared job |
| Counterexamples.LateSwap | lib/agent-compaction/repository.ts:1326-1330 | with clocks that disagree a swap can follow the job's cancellation |
| FenceResidue.CarriesExactlyWhen | lib/agent-compaction/repository.ts:908-952 | at any point of any run a context carries a job's fence exactly when some claim's write of it still stands |
| FenceResidue.MergedKeepsFenceExactlyWhen | lib/agent-compaction/repository.ts:1545-1577 | a merged job's context carries its fence exactly when a claim installed it after the swap and it was not cleared, reaped or replaced since |
| FenceWitnesses.MergedWithFence | lib/agent-compaction/repository.ts:1570-1575 | a run in which that happens |
| FenceWitnesses.StrandedByFence | lib/agent-compaction/repository.ts:1612-1633 | a run after which an intact job is claimable and no claim merges it until the fence expires |
| SettlementTwice.ConversationSettledTwice | lib/agent-compaction/repository.ts:1460-1487 | one Conversation job's settlement takes effect at two points of one run |
| ServiceSteps.EffectLasts | lib/agent-compaction/repository.ts:122-142 | what a lease-filtered write stored is still there at the end of any run |
| CompactionService.ClaimedCompaction.Transition | lib/agent-compaction/repository.ts:31-144 | the status loop, retrying after a failed compare-and-set, reports success exactly when its own write took effect |
| CompactionService.ClaimedCompaction.ClearOwnerFence | lib/agent-compaction/repository.ts:1590-1610 | only this claim's fence is dropped |
| CompactionService.ClaimedCompaction.Establish | lib/agent-compaction/repository.ts:908-952 | undisturbed, the fence is installed exactly when the lease is live at the read and, at the write, the context exists and its fence is reusable |
| CompactionService.ClaimedCompaction.BeginSummary | lib/agent-compaction/repository.ts:996-1017 | a queued, retryable or already summarizing job is summarizing afterwards |
| CompactionService.ClaimedCompaction.SaveSummary | lib/agent-compaction/repository.ts:1019-1047 | a non-blank summary of a summarizing job is stored with one logged transition |
| CompactionService.ClaimedCompaction.PrepareContext | lib/agent-compaction/repository.ts:1132-1202 | the merge context is frozen once; the job returned is never ahead of the stored one; undisturbed, what it freezes is the content of the newer of the job's and the runtime's context under an epoch above both |
| CompactionService.ClaimedCompaction.PrepareMerge | lib/agent-compaction/repository.ts:1204-1251 | success means that this replacement is the stored one |
| CompactionService.ClaimedCompaction.Swap | lib/agent-compaction/repository.ts:1326-1373 | the owner update takes effect exactly when revision, job and live fence token match, and is reported as such |
| CompactionService.ClaimedCompaction.ApplyToOwner | lib/agent-compaction/repository.ts:1285-1387 | under any interference it reports merged exactly when its own update replaced the prefix, already merged only of a swapped job, and gives up only for what one of its reads saw or after eight updates that missed; against appends alone in up to seven of its awaits it always merges and keeps every message appended |
| CompactionService.ClaimedCompaction.Settle | lib/agent-compaction/repository.ts:1439-1542 | success is never reported for an unmarked job; undisturbed, the runtime gets the one settlement its marker allows |
| CompactionService.ClaimedCompaction.Finalize | lib/agent-compaction/repository.ts:1545-1577 | it reports a merge only of a merged job |
| CompactionService.ClaimedCompaction.ApplyPrepared | lib/agent-compaction/repository.ts:1579-1588 | undisturbed, it merges exactly a context that takes the job, whichever of the three phases had been reached |
| CompactionService.ClaimedCompaction.ReleaseForRetry | lib/agent-compaction/repository.ts:1612-1633 | the job is retryable without lease, guard or this claim's fence |
| CompactionService.ClaimedCompaction.FailJob | lib/agent-compaction/repository.ts:1635-1654 | the job is failed without lease, guard, barrier or this claim's fence |
| CompactionService.ClaimedCompaction.FailForMissingOwner | lib/agent-compaction/repository.ts:1661-1694 | an orphaned job is ended even after its lease expired, one with a context never |
| CompactionService.ClaimedCompaction.EnsureSummary | lib/agent-compaction/service.ts:144-161 | a saved summary is reused, otherwise the new one is saved |
| CompactionService.ClaimedCompaction.EnsureReplacement | lib/agent-compaction/service.ts:163-180 | a saved replacement is reused, otherwise built from the frozen merge context |
| CompactionService.ClaimedCompaction.Process | lib/agent-compaction/service.ts:118-215 | under any interference a merge is reported only of a merged job; undisturbed, the stored result of every case |
| CompactionService.ReplayToMerge | lib/agent-compaction/service.ts:114-195 | from every state any run reaches, one undisturbed fresh claim that takes less time than its lease merges the job if and only if a summary exists or is made, no other fence is live at the fence write and the context takes it; saved work is reused, the prefix is replaced once by what is built from the frozen merge context, and the runtime is settled with the newer context; every other case ends exactly as stated |
| JobCommandCalls.CompactionJobs.TransitionStatus | lib/agent-compaction/repository.ts:31-144 | one effective write of its own when it reports a change, none otherwise; a failed compare-and-set is tried again; undisturbed, it changes exactly a job that takes the command |
| JobCommandCalls.CompactionJobs.OfferSummary | lib/agent-compaction/repository.ts:1785-1835 | accepted or already offered means that this is the stored summary; every other answer wrote nothing; undisturbed, the answer of every case |
| JobCommandCalls.CompactionJobs.Terminate | lib/agent-compaction/repository.ts:1919-1955 | a terminated job keeps neither lease, guard nor barrier, for good |
| JobCommandCalls.CompactionJobs.AcquireGuard | lib/agent-compaction/repository.ts:656-741 | the token returned guards the queued, unleased job; a replay by the same turn gets its own live guard back; undisturbed, the answer of every case |
| CompactionIntake.Enqueue | lib/agent-compaction/repository.ts:351-480 | it succeeds only with the one job the trigger key is attached to, and fails exactly for a missing owner or a prefix the context does not have; if nothing stands in the way of the insert it creates exactly the job asked for, freezing the requested prefix at the revision read |
| CompactionIntake.JoinWinner | lib/agent-compaction/repository.ts:467-479 | a key that lost the insert is attached to the job that stands there, which is left as it was otherwise; the call fails only if no such job stands or another one has the key |
| CompactionIntake.KeyIsStable | lib/agent-compaction/models.ts:62-63 | once attached, a trigger key names the same job of its context in every later state |
| CompactionIntake.Handoff | lib/agent-compaction/handoff.ts:99-154 | accepted only by the job created for exactly this intent; while another job holds the barrier, only by one already merged; if delayed, only by a queued, unleased job available exactly then; a first handoff with nothing in its way is accepted, and a repeated one exactly if the job takes it |
| CompactionIntake.DelayedWaits | lib/agent-compaction/handoff.ts:141-153 | the job of a delayed handoff is not claimed before its time, unless an activation, an offer or a release came between |
| CompactionIntake.OneHandoffHolds | lib/agent-compaction/handoff.ts:111-154 | of two handoffs accepted in one run only one can hold the barrier: while the first does, the second was accepted by a job already merged |
| CompactionIntake.Inspect | lib/agent-runtime/compaction-barrier.ts:144-218 | a Run is let through only if no job held the barrier at the first lookup, and is sent to repair exactly by a failed newest job |
| WorkerSchedule.WorkerInvariant | lib/agent-compaction/worker.ts:84-216 | at every moment of every run: while not stopped exactly one of timer armed and pumping, the timer immediate or that of the poll, at most 8 running claims, every claim started or given back, shutdown waits for all |
| WorkerSchedule.WakeIsServed | lib/agent-compaction/worker.ts:99-123 | after a wake-up a pump has begun, or one is due without waiting for the poll, or the worker was stopped |
| WorkerSchedule.PumpEndsOnlyWhenDone | lib/agent-compaction/worker.ts:152-195 | a pump ends only if the worker was stopped, every slot is taken, its flush or reap failed, or a claim found nothing; after its reap, and after every claim started, it asks for another |
| WorkerSchedule.WakeIsAnswered | lib/agent-compaction/worker.ts:99-195 | after a wake-up a pump begun since asks for a claim, unless it found every slot taken or its flush or reap failed; until then one is on its way or due without waiting for the poll, or the worker was stopped |
| WorkerSchedule.StoppedOnlyDrains | lib/agent-compaction/worker.ts:166-216 | after stop begins no claim starts and every event leaves less outstanding |
| WorkerSchedule.OutstandingCanMove | lib/agent-compaction/worker.ts:212-214 | no shutdown waits on something that cannot end |
| WorkerSchedule.ReturnedIsFinal | lib/agent-compaction/worker.ts:202-215 | when stop has returned nothing runs or pumps, every claim was started or given back, and nothing changes any more |
| CompactionWorker.MaintenanceWorker.Schedule | lib/agent-compaction/worker.ts:99-123 | the timer and wake flag are those of the specification |
| CompactionWorker.MaintenanceWorker.TimerCallback | lib/agent-compaction/worker.ts:115-121 | refines the specification's timer event |
| CompactionWorker.MaintenanceWorker.AfterReap | lib/agent-compaction/worker.ts:158-164 | refines the end of the reap: the claim loop is entered, or the pump ends |
| CompactionWorker.MaintenanceWorker.EndPump | lib/agent-compaction/worker.ts:186-195 | a remembered wake-up becomes a zero-delay timer when the pump ends |
| CompactionWorker.MaintenanceWorker.AfterClaim | lib/agent-compaction/worker.ts:161-183 | refines the claim event: a claim obtained after stop is given back, not started |
| CompactionWorker.MaintenanceWorker.TaskFinally | lib/agent-compaction/worker.ts:139-149 | refines the end of a task: its slot is refilled at once |
| CompactionWorker.MaintenanceWorker.StopWorker | lib/agent-compaction/worker.ts:202-215 | refines the start of a shutdown |
| CompactionWorker.MaintenanceWorker.StopAgain | lib/agent-compaction/worker.ts:212-214 | refines its next look at what is outstanding |
| RepairPrefix.SafeSplit | scripts/repair-durable-compaction-operator.ts:300-345 | in a well-formed history a cut is safe exactly when no use before it has its result after it, and exactly when both sides are well-formed |
| RepairPrefix.MessageToolIds | scripts/repair-durable-compaction-operator.ts:286-297 | the non-empty tool IDs of a message, in order |
| RepairPrefix.CheckToolHistory | scripts/repair-durable-compaction-operator.ts:324-345 | it throws on exactly the histories with a repeated use or result, a result before its use, or an open use |
| RepairPrefix.IsSafeBoundary | scripts/repair-durable-compaction-operator.ts:300-322 | true on exactly the safe cuts |
| RepairPrefix.LargestFitting | scripts/repair-durable-compaction-operator.ts:420-435 | the binary search finds the longest proper prefix that fits |
| RepairPrefix.FitsShorter | scripts/repair-durable-compaction-operator.ts:389-401 | if a prefix fits the request, so does every shorter one, rounding included |
| RepairPrefix.SelectPrefix | scripts/repair-durable-compaction-operator.ts:403-456 | the longest safe prefix that fits, or the error that applies, and then no such prefix exists |
| CheckpointRecovery.RecoverReplacesPrefixOnly | lib/agent-runtime/compaction-recovery.ts:99-211 | only an applied recovery touches the messages, replaces exactly the frozen prefix, and says when it applies |
| CheckpointRecovery.RecoveredMessage | lib/agent-runtime/compaction-recovery.ts:159-209 | the message in place of the prefix is the saved replacement, or composed of the checkpoint's summary and of the projection and context saved with it; the projection is the frozen context's, else the checkpoint's, else the live one |
| CheckpointRecovery.EpochAdvancesOnCapture | lib/agent-runtime/compaction-recovery.ts:59-89 | a frozen context is never re-versioned; a captured one advances by one |
| CheckpointRecovery.RecoveryIsIdempotent | lib/agent-runtime/compaction-recovery.ts:121-209 | once one recovery's checkpoint is saved, any number of further ones, crashing anywhere, give its message list |
| CheckpointRecovery.ContextIsCapturedOnce | lib/agent-runtime/compaction-recovery.ts:176-189 | from any start, what one point of a run of retries has frozen every later point still has |
| CheckpointRecovery.AppendsSurvive | lib/agent-runtime/compaction-recovery.ts:139-169 | messages after a named boundary are kept |
| CheckpointRecovery.AppendsSwallowedExactlyWhen | lib/agent-runtime/compaction-recovery.ts:121-169 | when appended messages are swallowed, when they make the recovery invalid and when they are kept, each exactly |
| CheckpointRecovery.UnnamedBoundarySwallowsAppends | lib/agent-runtime/compaction-recovery.ts:139-141 | a checkpoint that swallows them |
| FigureClusters.HastParent.TransformParent | components/workspace/rehype-scientific-figures.ts:93-123 | the loops compute the specified grouping |
| FigureClusters.CollectRun | components/workspace/rehype-scientific-figures.ts:106-114 | a run is all image paragraphs with nothing but white space between |
| FigureClusters.TransformKeepsOrder | components/workspace/rehype-scientific-figures.ts:43-123 | all pictures and every other node that is not white space or malformed survive in order |
| FigureClusters.ClusterShapes | components/workspace/rehype-scientific-figures.ts:69-118 | n images become ceil(n / 7) clusters, full ones first, numbered from 1 |
| FigureClusters.RunIsMaximal | components/workspace/rehype-scientific-figures.ts:106-114 | a run ends only at a node that is neither white space nor more images |
| FigureClusters.TransformKeepsRunsApart | components/workspace/rehype-scientific-figures.ts:98-120 | two neighbouring clusters belong to one run: the first is full |
| FigureClusters.TransformIsIdempotent | components/workspace/rehype-scientific-figures.ts:93-133 | transforming again changes nothing |
| WorkspacePaths.NormalizeIsCanonical | components/workspace/workspace-file-tree-model.ts:62-74 | whatever a path is normalized to is canonical |
| WorkspacePaths.JoinIsInjective | components/workspace/workspace-file-tree-model.ts:62-74 | different canonical paths have different strings |
| WorkspacePaths.NormalizeAgain | components/workspace/workspace-file-tree-model.ts:62-74 | normalizing a canonical path gives it back exactly when it is stable |
| WorkspacePaths.PrefixIsDropped | components/workspace/workspace-file-tree-model.ts:62-74 | one leading `workspace/` is dropped, so any canonical path without white space at its end is some artifact's |
| WorkspacePaths.AncestorsArePrefixes | components/workspace/workspace-file-tree-model.ts:190-193 | the ancestors are exactly the strict non-empty prefixes |
| WorkspaceBuilder.BuildWorkspaceTree | components/workspace/workspace-file-tree-model.ts:137-187 | it throws exactly for an invalid path or a path that is a folder of another, otherwise it gives the tree of the canonical map |
| WorkspaceBuilder.InsertAll | components/workspace/workspace-file-tree-model.ts:145-182 | the insertion loop fails exactly on a path that is both a file and a folder, and otherwise inserts every artifact in order |
| WorkspaceBuilder.InsertHolds | components/workspace/workspace-file-tree-model.ts:151-181 | inserting one file adds exactly it to the nested folders, in place of one at the same path |
| WorkspaceBuilder.FinishIsFinalized | components/workspace/workspace-file-tree-model.ts:113-131 | sorting the children of every folder from insertion order gives the tree of the files it holds |
| WorkspaceBuilder.BuiltIsTree | components/workspace/workspace-file-tree-model.ts:137-187 | insertion into nested folders and sorting give the tree of the map of canonical paths |
| WorkspaceTree.TreeIsExact | components/workspace/workspace-file-tree-model.ts:113-187 | the leaves are exactly the canonical paths once each, folders are non-empty, count their files and are sorted |
| WorkspaceBuilder.ShapeIgnoresOrder | components/workspace/workspace-file-tree-model.ts:133-187 | the tree built has the same nodes in the same order whatever order the artifacts come in |
| WorkspaceBuilder.TreeIgnoresOrder | components/workspace/workspace-file-tree-model.ts:133-187 | and the same files, when no two artifacts at one path differ |
| WorkspaceTree.OrderIrrelevant | components/workspace/workspace-file-tree-model.ts:138-142 | the map of canonical paths does not depend on the order then |
| WorkspaceNavigation.FlattenVisibleTree | components/workspace/workspace-file-tree-model.ts:229-256 | the walk pushes the specified rows |
| WorkspaceNavigation.FindTreeNode | components/workspace/workspace-file-tree-model.ts:207-227 | the node at the normalized path |
| WorkspaceNavigation.VisibleIff | components/workspace/workspace-file-tree-model.ts:229-256 | a node is listed exactly when it is in the tree and all its ancestors are expanded |
| WorkspaceNavigation.RowsAreDistinct | components/workspace/workspace-file-tree-model.ts:229-256 | no two rows show one path |
| WorkspaceNavigation.NextUndoesPrevious | components/workspace/workspace-file-tree-model.ts:287-291 | next and previous undo each other |
| WorkspaceNavigation.FindsItself | components/workspace/workspace-file-tree-model.ts:207-227 | a node is found by its own path exactly when that path is stable |
| WorkspaceNavigation.FirstChildIsNext | components/workspace/workspace-file-tree-model.ts:276-291 | on an expanded visible folder first-child is next exactly when the path is stable |
| NestedWorkspace.FirstChildIsLost | components/workspace/workspace-file-tree-model.ts:264-291 | a tree built from one artifact on which they differ |
| WorkspaceNavigation.ParentIsPrefix | components/workspace/workspace-file-tree-model.ts:258-261 | on a stable path the parent is the path without its last segment |

## Left out

- FenceLease.FenceWithinLease: assumes that the worker's own claim and heartbeats read their clock in order; a heartbeat on a clock set back would shorten the lease behind the fence.
- JobGuarantees.PinnedSettledAtMostOnce: one direction only; `SettledAgainExactlyWhen` is the exact condition.
- JobGuarantees.EpochNeverFalls: other writers of a runtime replace it freely, as `updateRuntimeProjectContextSnapshot` does, but are taken to leave the settlement marker alone; `inheritPreviousMemberGeneration` copies the marker of the previous generation's session into a session that is still empty.
- ContextHistory.NoMessageLost: assumes that other writers append; a rewrite of the active context is in the machine, and every other theorem covers it.
- CompactionService.ReplayToMerge: a claim that outlasts one lease period by its heartbeats is covered by the machine and by what `Process` promises under interference, not by the convergence result.
- CompactionService.ClaimedCompaction.Process: the summarizer returns a string and the replacement builder is a function; their failures are exceptions at awaits. That appends never make a merge give up is stated for `ApplyToOwner`, not again for the whole claim.
- CompactionService.ClaimedCompaction.Swap: like the other methods of its class it evaluates its filter on the clock at the write; in the machine an access may also carry a clock value read earlier.
- WorkspaceNavigation.VisibleIff: paths are sequences of segments; `JoinIsInjective` relates them to the strings the source compares.
- Fields that no decision reads: the lease owner's name beside its token, heartbeat times, error texts, summary usage, the audit copy of the context revision at merge, and the attempt, reason and delivery state of outbox entries.
- `freezeClaimedCompactionModelResolution` and the model alias checks of enqueue and handoff: they do not touch the protocol's state.
- Jobs are never deleted and a deleted context is not created again under its ID; the source deletes jobs only with their Conversation.
- `claimNextCompactionJob` takes the oldest claimable job; the machine lets any claimable job be taken.
- The checks `closeFailedCompactionAfterSynchronousRepair` makes before its compare-and-set; the transition itself is in the machine.
- The heartbeat timer's flags in the service: a lost lease reaches the driver as the exception it throws.
- Backoff and recheck delays, TeamEvent delivery, the summarizing call itself, the classification of its errors and the HTTP routes.
- The token estimate's fallbacks for malformed blocks, and binary floating point in its division by 3.5.
- White space is the four ASCII characters space, tab, line feed and carriage return, wherever the source trims.
- WorkspaceBuilder.InsertHolds: the nested folders under construction are values, rebuilt along a path, where the source changes them in place; sorting is by insertion.
- Image class names and properties beyond source, alternative text, title and index.
