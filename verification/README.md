# The V2 task protocol, verified

This project models the task-execution core of the backend (`backend/v2`) and
proves what its transactions guarantee together. It also models three smaller
engines that the core leans on: idempotency, rate limiting, and the line
assembler of the container transport.

## What is modelled

A task owns rounds, reservations, files, messages and events. Rounds run under
a lease `(lease_owner, lease_epoch)`; reservations are mirrored by per-user
counters, one platform storage row and a table of slots. About 25 kinds of
transaction change this state, and most take their arguments from an earlier
read without locks.

- **The protocol** (`Protocol.dfy`): the database as a value, `State`, and every
  transaction as one step. An `Action` carries its arguments as they come, so a
  candidate may be arbitrarily old; `Run` is any sequence of actions from an
  empty database.
- **The invariant** (`Invariant.dfy`) and its preservation by every action
  (`Steps`, `Preservation`, `LedgerPreservation`, `MassPreservation`, `Runs`).
- **The effects** (`Effects.dfy`): for every transaction its refusals in their
  order, and after a commit the columns, rows, events and releases in plain
  values, with nothing else changed.
- **The theorems over whole runs**: `Ledgers`, `Quotas`, `Leaks`, `Fencing`,
  `History`, `EndedTasks`, `Turns`, `Intent`, `Endings`, `Progress`, `Liveness`,
  `Overlap`, and
  `TwoPhase` for the jobs that read candidates in one transaction and act on
  them in a later one.
- **The code's own form**: `Session.dfy` is one open transaction with its
  statements and rowcounts; `TaskRelease`, `TaskDispatcher`, `TaskExecutor`,
  `TaskService`, `TaskArtifacts`, `TaskFileService` and `ProviderService` issue
  those statements in the code's order with the code's checks; `Database.dfy`,
  `MassTransactions.dfy` and `Jobs.dfy` commit or roll back and walk candidate
  lists. Each method is proved to compute exactly the protocol's step, so the
  theorems hold of the statements.
- **The engines**: `Idempotency.dfy`, `RateLimit.dfy`, `LineAssembler.dfy`. Each
  has a function for what a call does, a history or stream that the answer
  should depend on, and a class proved against the function.

`Inv` names everything that holds of every reachable database. Three parts of
the state exist only in the model: `unrefunded` (bytes still charged although
nothing holds them), and `ended` and `drained` (candidate lists that two jobs
carry from a read without locks into a transaction that does not look again).

## What came out

- Revoking a provider leaks storage. `_release_task_holdings` in
  `provider_service.py` releases the byte-carrying reservations without a
  refund, and its comment leaves the bytes to the account-deletion hook; but
  every refund is gated by rows that are still held, so no later release finds
  them. `RevokeLeaks` gives the amount and the exact condition,
  `OnlyRevocationLeaks` shows that no other transaction does it, `LeakHappens`
  is a run, and `AccountGone` shows that deleting the account leaves the debt.
- The transition table has one edge too few: a reclaim moves a running task
  back to queued. `StatusEdges` shows that this is the only step outside it.
- The terminal sweep and the reconciler act on candidates without checking
  again what made them candidates. Both are safe: over any run in between, an
  ended task stays ended until it is gone (`EndedForever`) and no round of a
  drained task opens again (`DrainedForever`). So for every job, acting on an old
  candidate commits exactly if a fresh read would list it (`StaleCandidate`).
- Open rounds can outnumber the slots. Deleting a running task frees its slot at
  once while its round is still cancelling, so the next claim runs beside it.
  `RoundsOutnumberSlots` is a run with one slot and `BusyCount` the exact count.
  `OverrunStep` gives the exact condition, which the claim could check: a free
  slot is safe to claim if and only if there are more free slots than rounds
  left cancelling by deletions. `NeverOutnumber` says so of whole runs.
- No slot or counter is ever lost: where the system's own steps come to rest
  nothing runs, and a task is queued only if its quota or the slot table is
  empty (`RestIsIdle`); from every reachable state they do come to rest
  (`ComesToRest`).
- The rate limiter's bound does not need times in order, but it does need that
  no clean-up takes an event that is still inside a later call's window
  (`WindowBound`). The clean-up is the scope's and the lock is not, so the code
  does not ensure this. `TableExact` says exactly when the table has lost
  something, `BoundStep` and `BoundExactly` exactly when that breaks the bound,
  and `BurstBound` for which times three steps are enough, with another
  subject's clean-up or the subject's own.
- Every message of the user's opens exactly one round and every round answers
  one, in order (`EveryMessageItsRound`), and an accepted abort or completion is
  what the task ends with (`EndsAsAsked`).
- What the code guards against and calls unreachable is unreachable: the second
  rowcount checks, the half-written returns of the deadline and of the kill
  switch, the reconciler's `deleted` intent, every account-short error, and a
  violation of any unique index on rounds or live reservations.
- The event log does give a task's status and reason, with one reading rule: a
  `deleted` event carries no reason and leaves the last one standing, as the row
  does.
- The line assembler depends on the chunking exactly from lines of more than
  twice the limit on (`ChunkIndependence`); a last line without a newline has
  one byte more.

## Model

| member | source | states |
|---|---|---|
| `Runs.StepOk` | backend/v2/task_dispatcher.py:174-417 | Every transaction, with any arguments, keeps the whole invariant, moves each task only as a step may, and changes nothing unless it commits |
| `TwoPhase.StaleCandidate` | backend/v2/task_dispatcher.py:132-171 | For every job and any run between the read and the turn: it commits exactly if the read would list the candidate again (for a claim: and quota and slot are left), otherwise nothing changes |
| `Runs.InitOk` | backend/alembic_v2/versions/0001_initial_schema_and_rls.py:50-75 | The empty database satisfies the invariant, for any number of slots and any platform maximum |
| `Runs.ReachableOk` | backend/v2/task_release.py:1-17 | The invariant holds of every database a run reaches |
| `Conservation.PutOk` | backend/v2/task_release.py:131-160 | One task's transaction whose books balance keeps every ledger equation, slot and list of the database |
| `TwoPhase.EndedForever` | backend/v2/task_dispatcher.py:476-523 | Whatever runs between the sweep's read and its turn, the task is gone or ended; the sweep commits exactly if it is there and leaves no log, round or hold |
| `TwoPhase.DrainedForever` | backend/v2/task_executor.py:1606-1638 | Whatever runs between the reconciler's read and its turn, no round of the task is open again; the turn commits exactly if the task still runs, and ends it by the intent that was read |
| `Ledgers.LedgersAgree` | backend/v2/task_release.py:31-160 | Counters equal what the user's held reservations say, storage up to the unrefunded bytes; platform bytes are the sum over users and within the maximum |
| `Ledgers.ReleasesCompose` | backend/v2/task_release.py:31-47 | Two releases of any kinds in any order are one release of the union: nothing is paid back twice |
| `Holdings.ReleasedStays` | backend/v2/task_release.py:31-47 | A second release returns no rows |
| `Ledgers.AlwaysFunded` | backend/v2/task_release.py:50-128 | Before any release every counter covers what the task's reservations hold, so the lower bounds never refuse |
| `Ledgers.AccountGone` | backend/v2/task_executor.py:1567-1598 | After the hook the user's active and running counts are zero, storage is the unrefunded debt, and no row or slot of the user's is left |
| `Ledgers.SlotBound` | backend/v2/task_dispatcher.py:114-129 | Tasks with a round running, or cancelling under a running task, hold one slot each and never outnumber the slots |
| `Overlap.BusyCount` | backend/v2/task_service.py:636-705 | Rounds that may have a container are those of executing tasks plus those left cancelling by a deletion; together with the free slots they are the slots and the lingering rounds |
| `Overlap.BusyStep` | backend/v2/task_dispatcher.py:174-226 | Only a committed claim adds a round that may have a container, and it adds its own |
| `Overlap.OverrunStep` | backend/v2/task_dispatcher.py:92-129 | A step keeps such rounds within the slots if and only if it is not a claim with candidate, quota and slot while lingering rounds are as many as free slots |
| `Overlap.NeverOutnumber` | backend/v2/task_service.py:649-663 | Over any run from such a database they stay within the slots if and only if no claim of the run is of that kind |
| `Overlap.RoundsOutnumberSlots` | backend/v2/task_service.py:649-663 | A reachable database with one slot and two such rounds |
| `Quotas.CountersCount` | backend/v2/task_service.py:181-192 | The active count is the number of the user's live tasks, the running count the number of executing ones |
| `Quotas.QuotaKept` | backend/v2/task_service.py:156-192 | A step keeps use within all four quotas (daily, active, running, storage) if and only if it is not an administrator setting one of them below the use there is |
| `Quotas.QuotaBoundsTasks` | backend/v2/task_dispatcher.py:114-118 | Over runs without such a setting, live tasks, executing tasks and retained bytes with the unrefunded ones stay within the user's quota |
| `Leaks.RevokeLeaks` | backend/v2/provider_service.py:341-367 | A revocation leaks exactly the bytes its unstarted tasks hold, and refunds in full if and only if they hold none |
| `Leaks.OnlyRevocationLeaks` | backend/v2/task_release.py:77-128 | No other transaction opens or closes a gap between charges and holdings |
| `Leaks.LeakHappens` | backend/v2/provider_service.py:370-435 | A run of four transactions that leaves a byte charged with nothing to give it back |
| `Fencing.NeverAgain` | backend/v2/task_artifacts.py:79-85 | Once a step has taken a round out of an epoch, no write with that epoch changes anything in any continuation |
| `Fencing.FencedOut` | backend/v2/task_dispatcher.py:244-265 | A committed reclaim, abort, complete, delete, kill, suspension, settle or deadline is such a step, renewed lease or not |
| `Fencing.ClaimOpensEpoch` | backend/v2/task_dispatcher.py:101-108 | A claim makes its epoch live and every earlier one of the round dead for good |
| `Fencing.EpochsIncrease` | backend/v2/task_dispatcher.py:101-108 | Two claims of one round, anywhere in a run: the later one has the strictly larger epoch |
| `History.LogRefinesState` | backend/v2/task_service.py:99-133 | Sequences are a gap-free interval ending at event_sequence; messages and message_saved events correspond one to one; replay gives status and reason |
| `EndedTasks.LogFromTheStart` | README.md:44-46 | Until a task is listed for the sweep its sequences are 1, 2, ... and replay gives its status and reason |
| `EndedTasks.EndedSteps` | backend/v2/task_state.py:30-33 | An ended task is changed only by its deletion, the collection of a cancelling round, and the retention sweep |
| `History.HistoryKept` | backend/v2/task_service.py:363-412 | Over any run a task's log keeps its events while it lives, its end is final up to deletion, and committed inputs never change |
| `History.FileLedger` | backend/v2/task_file_service.py:155-189 | Limits and distinct names of every task's files; retained bytes are none before the commit and after a deletion, and for queued, running and ready tasks exactly the live files' bytes |
| `LedgerPreservation.RegisteringStore` | backend/v2/task_artifacts.py:160-221 | An overwrite takes the old artifact's bytes off the ledger and puts the new one's on, copy by copy |
| `Effects.RefusingTask` | backend/v2/task_service.py:257-360 | Gates, the day's count, the active count and the tools refuse a creation, in that order |
| `Effects.CreatingTask` | backend/v2/task_service.py:257-360 | A new task uploads, with its first message, its active reservation, and one more for user and day; nothing else moves |
| `Effects.Committing` | backend/v2/task_service.py:363-485 | Refused by visibility, status, either storage limit; else inputs frozen and charged and the first round answers the initial message |
| `Effects.Sending` | backend/v2/task_service.py:750-881 | Refused by visibility, an open round, status, text; else the user's message and a round that answers it |
| `Effects.StagingFiles` | backend/v2/task_file_service.py:192-281 | A batch is refused by names, ten files, 5 MB a file or 10 MB a task, counted with the batch |
| `Effects.StagedFiles` | backend/v2/task_file_service.py:192-281 | An accepted batch adds its rows in order and changes nothing else |
| `Effects.NameRule` | backend/v2/task_file_service.py:73-100 | A file name is one path component of at most 255 characters without control characters |
| `Effects.DeletingFile` | backend/v2/task_file_service.py:284-321 | The staged input becomes a tombstone, if there is one |
| `Effects.AskingToEnd` | backend/v2/task_service.py:493-633 | An abort or completion is refused by visibility and status; a running task's round turns cancelling and remembers which was asked |
| `Effects.EndingAtOnce` | backend/v2/task_service.py:523-633 | A queued or ready task ends at once: Aborted by its user, or Completed |
| `Effects.Deleting` | backend/v2/task_service.py:636-705 | Any visible task is deleted, keeps its reason, drops its round and gives every reservation back |
| `Effects.Claiming` | backend/v2/task_dispatcher.py:174-226 | Commits exactly for the newest pending round with quota and a slot; then running under the instance, with the lowest free slot |
| `Effects.Reclaiming` | backend/v2/task_dispatcher.py:332-391 | Below three attempts the same round waits again at the same attempt and the task is queued; from three on both have failed |
| `Effects.Collecting` | backend/v2/task_dispatcher.py:394-417 | The cancelling round is cancelled and the task keeps its status and intent |
| `Effects.ExpiringUpload` | backend/v2/task_dispatcher.py:451-466 | An uploading task fails as expired |
| `Effects.SweepingEnded` | backend/v2/task_dispatcher.py:503-513 | Events, messages, rounds and holds go; the row, its sequence and its files stay |
| `Effects.SavingFact` | backend/v2/task_executor.py:970-1017 | Exactly under its lease: one message and its event, nothing else |
| `Effects.Settling` | backend/v2/task_executor.py:1021-1112 | Exactly under its lease: the answer still missing is saved, the round reported, and the task ready, or aborted if its key is gone |
| `Effects.FailingDeadline` | backend/v2/task_executor.py:1173-1239 | Exactly under its lease: round and task fail whatever the attempt |
| `Effects.Reconciling` | backend/v2/task_executor.py:1619-1638 | An abort that was asked for ends in Aborted by the user, a completion in Completed |
| `Effects.Stopping` | backend/v2/task_executor.py:1382-1428 | Exactly queued and running tasks are aborted, with the kill's reason or the suspension's |
| `Effects.RefusingArtifact` | backend/v2/task_artifacts.py:266-318 | Refused by visibility, fence, name, 5 MB, 10 MB and both accounts, all net of the live artifact of that name |
| `Effects.RegisteringArtifact` | backend/v2/task_artifacts.py:266-318 | The replaced artifact becomes a tombstone without its copy, the new row has one, and both accounts move by the difference |
| `Effects.Revoking` | backend/v2/provider_service.py:370-435 | Every task of the owner and provider that has not started fails with the key's reason, no other changes, and none that could start is left |
| `Effects.DeletingAccount` | backend/v2/task_executor.py:1567-1598 | The user's tasks go and nobody else's |
| `Effects.SettingQuota` | backend/v2/admin_user_service.py:229-283 | Refused if nothing is given or something is negative; else the given dimensions over the row or the defaults |
| `Intent.Elsewhere` | backend/v2/task_service.py:240-249 | A transaction leaves every task alone that it does not name; a revocation all but the provider's unstarted tasks |
| `Intent.RunningSteps` | backend/v2/task_executor.py:146-151 | All that can happen to a running task in one step, by the step that does it |
| `Intent.IntentKept` | backend/v2/task_service.py:493-520 | While an intent stands, the next status is the latest one asked for, or the task is killed, suspended or deleted; settle, reclaim, claim, deadline, facts and artifacts do not touch it |
| `Intent.NeverRevived` | backend/v2/task_executor.py:1606-1638 | Over any run a task that was asked to end never goes back to ready or queued and never fails |
| `Intent.NeverReconcilesDeleted` | backend/v2/task_executor.py:222-232 | The reconciler never finds a deleted intent |
| `Intent.StatusEdges` | backend/v2/task_state.py:25-34 | Every status change is in the table, except running to queued, which only a reclaim takes |
| `Progress.Coupling` | backend/alembic_v2/versions/0001_initial_schema_and_rls.py:850-910 | One pending round iff queued; a running round only under a running task without intent; one active reservation iff live; no partial unique index can fire |
| `Progress.NoZombies` | backend/v2/task_dispatcher.py:92-129 | Every uploading, queued or running task has a next system step that commits; a claim exactly if there is quota and a free slot |
| `Progress.DrainedEnds` | backend/v2/task_executor.py:1606-1638 | A running task with no open round has an intent, and listing and reconciling it reach that end |
| `Progress.WorkRunsOut` | backend/v2/task_dispatcher.py:332-362 | Without new tasks, commits or messages, only boundedly many claims, reclaims, cancellations, settles, deadlines, sweeps and kills commit |
| `Progress.TotalFalls` | backend/v2/task_dispatcher.py:345-362 | The measure rises only with new user work and falls with every committed step that drives a task on |
| `Progress.AtMostThreeClaims` | backend/v2/task_dispatcher.py:68-68 | No round is claimed more than three times in any run; attempt and epoch stay equal and at most three |
| `Progress.RoundEndsAbsorb` | backend/v2/task_dispatcher.py:246-272 | Settled, failed and cancelled rounds never change state again |
| `Liveness.RestIsIdle` | backend/v2/task_dispatcher.py:92-129 | Where no task has a next system step that commits, nothing uploads or runs, and a task is queued only if its running quota is zero or there are no slots |
| `Liveness.ComesToRest` | backend/v2/task_dispatcher.py:332-417 | From every reachable database a schedule of claims, reclaims, collections, expiries and reconciliations leads to rest |
| `Endings.EndsAsAsked` | backend/v2/task_service.py:493-633 | After an accepted abort or completion, whatever runs in between short of a new request, a deletion or an administrator's stop, the task still runs with the request on it or is Aborted by its user or Completed, as was asked |
| `Endings.TheWayToTheEnd` | backend/v2/task_executor.py:1606-1638 | Collecting the round, listing and reconciling all commit and leave a task Aborted after an abort and Completed after a completion |
| `Endings.RetryClaims` | backend/v2/task_dispatcher.py:332-391 | A round that lost its lease before the third attempt can be claimed again at once, at the next epoch and attempt |
| `Endings.ThreeAttempts` | backend/v2/task_dispatcher.py:68-68 | A run in which one round is claimed three times |
| `Turns.EveryMessageItsRound` | backend/v2/task_service.py:750-881 | In every reachable database the rounds of a committed task answer the user's messages in its log, one each and in order; before the commit there is the initial message alone |
| `Sessions.Session.AllocateEventSequence` | backend/v2/task_service.py:99-109 | The counter moves by the count and the first number of the batch comes back |
| `Sessions.Session.LeaseSlot` | backend/v2/task_dispatcher.py:121-129 | The lowest free slot is leased to the task; none free leaves the table alone |
| `Sessions.Session.ChargeStorage` | backend/v2/task_artifacts.py:87-96 | Both accounts are charged exactly if both stay within their limits |
| `TaskRelease.RefundStorage` | backend/v2/task_release.py:50-74 | Each account is paid back in full or, if short, left alone and logged |
| `TaskRelease.ApplyReleaseAccounting` | backend/v2/task_release.py:77-128 | Counters, slots and bytes move by what the returned rows say, short accounts excepted |
| `TaskRelease.ReleaseTaskHoldings` | backend/v2/task_release.py:131-160 | On funded books the tier of the status in place is released and paid back in full, without an alarm |
| `TaskDispatcher.ClaimRound` | backend/v2/task_dispatcher.py:174-226 | Dropped exactly if the round is not pending, the running quota is used or no slot is free; otherwise the claim's rows, counter, slot and events |
| `TaskDispatcher.ReclaimExpiredRound` | backend/v2/task_dispatcher.py:332-391 | Dropped exactly if owner or epoch has moved on; otherwise requeued, or failed at the third attempt, and released |
| `TaskDispatcher.CancelCancellingRound` | backend/v2/task_dispatcher.py:394-417 | Dropped exactly if the round is not cancelling; otherwise cancelled and released |
| `TaskDispatcher.ExpireUpload` | backend/v2/task_dispatcher.py:451-466 | Dropped exactly if the task is not uploading; otherwise failed and released |
| `TaskDispatcher.CleanTerminal` | backend/v2/task_dispatcher.py:503-513 | Events, rounds and messages go and everything still held is released and refunded |
| `TaskExecutor.RoundLive` | backend/api/internal.py:194-210 | The callback fence accepts exactly the running round at its current epoch |
| `TaskExecutor.PersistFact` | backend/v2/task_executor.py:970-1017 | A message and its event under one sequence, exactly if owner and epoch still hold the running round |
| `TaskExecutor.Settle` | backend/v2/task_executor.py:1021-1112 | Settles exactly under its fence: round, late message, events, ready or aborted, release |
| `TaskExecutor.EnforceRoundDeadline` | backend/v2/task_executor.py:1173-1239 | Fails round and task exactly under its fence; the half-written return never happens |
| `TaskExecutor.StopTask` | backend/v2/task_executor.py:1382-1428 | Kill and suspension: aborts exactly queued and running tasks with their round; never half-written |
| `TaskExecutor.ReconcileOne` | backend/v2/task_executor.py:1619-1638 | Ends the task as intended, exactly if it runs with that intent |
| `TaskService.CommitInput` | backend/v2/task_service.py:363-485 | Refused exactly by status or by either storage limit; otherwise frozen files, charge, first round and events |
| `TaskService.RequestTerminalWhileRunning` | backend/v2/task_service.py:493-520 | The round cancels and the intent is set, exactly if a round is open |
| `TaskService.TerminalizeQueued` | backend/v2/task_service.py:523-565 | The pending round is cancelled, the task ended and released |
| `TaskService.FinalizeTerminal` | backend/v2/task_service.py:568-593 | Ends the task exactly if the table allows the edge |
| `TaskService.FinishTask` | backend/v2/task_service.py:596-633 | Abort and complete, by the status found under the lock |
| `TaskService.DeleteTask` | backend/v2/task_service.py:636-705 | Always deletes: the round cancels or is cancelled, everything is released and refunded |
| `TaskService.SendMessage` | backend/v2/task_service.py:750-881 | Refused exactly by an open round, a status that is not ready or a bad text; otherwise message, round and events |
| `TaskArtifacts.RetireOldRow` | backend/v2/task_artifacts.py:160-189 | The old row is a tombstone, its copy released and its exact size refunded |
| `TaskArtifacts.RegisterOutput` | backend/v2/task_artifacts.py:266-318 | Refused exactly by fence, name, limits or storage, all net of the replaced artifact; otherwise the new row, copy and charge |
| `TaskFileService.UniqueNames` | backend/v2/task_file_service.py:155-163 | Counting the batch's names and intersecting them with the live inputs' holds exactly if no two of them would share a name |
| `TaskFileService.UploadFiles` | backend/v2/task_file_service.py:192-281 | Refused exactly by status, shape, names or limits; otherwise the staged rows |
| `TaskFileService.DeleteFile` | backend/v2/task_file_service.py:284-321 | A live staged input becomes a tombstone; otherwise the exact refusal |
| `ProviderService.FailUnstarted` | backend/v2/provider_service.py:396-434 | The task fails, its pending round is cancelled and all is released; only the active count is paid back |
| `Databases.Database.ChargeCreationQuota` | backend/v2/task_service.py:156-192 | Refused exactly by the day's count or the active count; otherwise both go up by one |
| `Databases.Database.CreateTask` | backend/v2/task_service.py:257-360 | The creation step: gates in order, quota, then the task with its first message, event and reservation |
| `Databases.Database.SetQuota` | backend/v2/admin_user_service.py:242-283 | The given dimensions over the row, or over the defaults if there is none, and nothing else; refused if none is given or one is negative |
| `MassTransactions.FailUnstartedTasks` | backend/v2/provider_service.py:370-435 | Task by task the revocation is the protocol's step |
| `MassTransactions.TerminateTasksHook` | backend/v2/task_executor.py:1567-1598 | Close, flip, release and delete end where the protocol's step says, without an alarm |
| `Jobs.Execute` | backend/v2/task_dispatcher.py:132-523 | Every action of the protocol is computed exactly by a method of the database, and no account is ever short |
| `Jobs.DispatchOnce` | backend/v2/task_dispatcher.py:132-171 | Any candidate list is the run of its claims, and the count is how many committed |
| `Jobs.ReclaimOnce` | backend/v2/task_dispatcher.py:274-329 | Any candidate list is the run of its reclaims and collections |
| `Jobs.SweepUploadTtl` | backend/v2/task_dispatcher.py:436-469 | Any candidate list is the run of its expiries |
| `Jobs.SweepTerminalCleanup` | backend/v2/task_dispatcher.py:484-523 | Any candidate list is the run of its cleanups, and the count is how many had something left |
| `Jobs.ReconcilePendingTerminal` | backend/v2/task_executor.py:1606-1645 | Any candidate list is the run of its reconciliations |
| `Jobs.RunSuspensionCascade` | backend/v2/admin_user_service.py:512-598 | The task side of the cascade is the run of its suspensions |
| `Jobs.ClaimsAre` | backend/v2/task_dispatcher.py:132-171 | A dispatch is one claim for each candidate, in their order |
| `Jobs.ReconciliationsAre` | backend/v2/task_executor.py:1606-1645 | A reconciliation run is one transaction for each candidate, with the intent that was read |
| `Jobs.OnEachTask` | backend/v2/task_dispatcher.py:436-523 | The sweeps and the cascade are one transaction for each task, in their order |
| `Jobs.ReclaimsAre` | backend/v2/task_dispatcher.py:274-329 | A cancelling round is collected if its container is dead and left alone if not; any other candidate is reclaimed; nothing else is done |
| `Jobs.DirtyIs` | backend/v2/task_dispatcher.py:484-523 | A cleanup counts unless no event, message, round or held reservation is left |
| `Idempotency.EffectsApart` | backend/v2/idempotency.py:156-197 | However lookups and stores interleave, committed effects of one key are at least 24 hours apart |
| `Idempotency.BeginAnswers` | backend/v2/idempotency.py:120-153 | A lookup within a day of an effect of its key replays it or refuses another body, and misses otherwise; deleted rows are never missed |
| `Idempotency.StoreAnswers` | backend/v2/idempotency.py:156-197 | A store commits exactly if every effect of its key is a day old; an expired row never blocks it |
| `Idempotency.ReplayStable` | backend/v2/idempotency.py:96-153 | Inside its window an effect stays the one that is replayed, in every continuation |
| `Idempotency.RowsLeft` | backend/v2/idempotency.py:120-197 | A miss takes every expired row and no other, a store writes its row for a day, and nothing else changes a row |
| `Idempotency.RedactionForgets` | backend/v2/idempotency.py:63-83 | Two payloads digest alike exactly if they differ only in the values of credentials that are given in both |
| `Idempotency.Engine.Lookup` | backend/v2/idempotency.py:120-153 | The lookup's answer and the rows it leaves |
| `Idempotency.Engine.CommitWith` | backend/v2/idempotency.py:156-197 | The store's answer and the rows it leaves; a refusal leaves them as they were |
| `RateLimit.TableExact` | backend/v2/rate_limit.py:72-84 | In any run the table counts at most what the log of all admitted events does, and the same if and only if no clean-up took an event of the subject out of the window |
| `RateLimit.CleanupUnseen` | backend/v2/rate_limit.py:81-84 | Unless a clean-up took an event out of the call's own window, the cleaned table and a log never cleaned give the same verdict, Retry-After included |
| `RateLimit.WindowBound` | backend/v2/rate_limit.py:117-161 | In any order of times: if no clean-up takes a subject's event from a later call's window, no half-open window of the scope's length, wherever it lies, holds more admitted events of the subject than the limit |
| `RateLimit.InTimeBound` | backend/v2/rate_limit.py:117-161 | Where times do not go back, the bound holds of every run |
| `RateLimit.BoundStep` | backend/v2/rate_limit.py:139-160 | A call keeps the bound if and only if it is not admitted by the table while a window around its time is full in the log |
| `RateLimit.BoundExactly` | backend/v2/rate_limit.py:117-161 | A run keeps the bound if and only if no call of it is of that kind |
| `RateLimit.OverfillsTaken` | backend/v2/rate_limit.py:81-84 | A call of that kind comes only after a clean-up took an event of the subject from the call's own window |
| `RateLimit.BurstBound` | backend/v2/rate_limit.py:72-84 | A full burst, a call of the same or another subject and one call more, at any times, break the bound if and only if the second clock is a window ahead of the burst and the third less than a window away from it |
| `RateLimit.KeptExactly` | backend/v2/rate_limit.py:81-84 | The sweep takes every event of the scope that has left its window, and no other |
| `RateLimit.RetryAfterSuffices` | backend/v2/rate_limit.py:140-151 | Where times do not go back, a single refused subject that waits as told is admitted |
| `RateLimit.RetryAfterIsLeast` | backend/v2/rate_limit.py:140-151 | In any order of times, a single refused subject that asks more than a second earlier than told is refused again |
| `RateLimit.RulingCases` | backend/v2/rate_limit.py:128-151 | An unregistered scope and an empty list are refused as such; else a call is admitted exactly if every subject has room |
| `RateLimit.Promises` | backend/v2/rate_limit.py:46-68 | Which scopes there are and how many calls each allows |
| `RateLimit.PromisedWindows` | backend/v2/rate_limit.py:46-68 | A quarter of an hour for sign-ins and codes, a day for reports and new tasks, an hour for the rest |
| `RateLimit.Enforcer.Enforce` | backend/v2/rate_limit.py:117-161 | The verdict of the one-sided count and the oldest event, and the events left after count, insert and cleanup |
| `LineAssembling.ChunkIndependence` | backend/engine/docker_transport.py:140-199 | All chunkings of a stream give its lines if and only if no line outgrows the hard cap |
| `LineAssembling.LinesRoundTrip` | backend/engine/docker_transport.py:140-175 | Clean lines that were sent come back as they were, in whatever chunks |
| `LineAssembling.AnyLinesRoundTrip` | backend/engine/docker_transport.py:152-199 | In whatever chunks, lines up to the hard cap come back without their carriage returns at the end, oversized ones empty, and a tail without newline as it is |
| `LineAssembling.ReadConsumes` | backend/engine/docker_transport.py:152-199 | Every line returned uses up bytes, so reading ends |
| `LineAssembling.LineAssembler.Readline` | backend/engine/docker_transport.py:152-175 | The line, buffer and rest of the stream; the buffer stays within the hard cap and one chunk |
| `LineAssembling.LineAssembler.DropOversizeLine` | backend/engine/docker_transport.py:177-199 | What is dropped, and what is left |

## Left out

- Time in the task protocol: lease expiry, the upload deadline, the round deadline and the retention period (counted from `created_at`) decide when a step is tried, not what it does; here every step may be tried at any time, and lease renewal, which only moves `lease_expires_at` and `leased_until`, changes nothing that is modelled.
- Row locks, `SKIP LOCKED` and `READ COMMITTED`: each transaction is one atomic step, and of several free slots the lowest is leased.
- Row-level security and the two database roles: a transaction sees its owner's rows and another owner's task looks missing. A round or reservation is looked up inside its task, as the candidates pair a round with its own task.
- Gates that are foreign to the task state (message text, published revision, MCP references, tool switches, the provider check of a settle) are boolean arguments; the order in which they refuse is kept.
- File contents, hashes, storage keys, physical files and their clean-up; only the rows are modelled. Names are taken in NFC form.
- Message contents, SSE frames, stream queues, executor notification, containers and `stop_round`; whether a container was found dead is an argument.
- The session and token side of the suspension cascade, and the outbox.
- The candidate queries and loops of the two kill switches, which stop tasks one by one as the suspension cascade does.
- The reservation state `consumed`, which the partial unique indexes name and no transaction sets.
- `validate_abort_reason` and the manifest hash, which no step depends on.
- In the idempotency engine the key-length check and the digest itself; two bodies digest alike here if and only if they are equal.
- RateLimit.WindowBound: calls take effect one at a time, as the lock makes those with one subject set; calls whose subject sets overlap without being equal may count before either has written, and no bound is claimed for them. The subjects of one call are distinct, as its callers pass them.
- RateLimit.RetryAfterSuffices: for one subject, as the code reports the oldest event of all subjects.
- Decoding lines from UTF-8, which raises on a malformed terminated line.
- Content publishing, sessions, login, MFA, invitations, prompts, extension templates, configuration and the first engine generation.
