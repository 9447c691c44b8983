# The DEMO control plane, as step systems

This project models the parts of the store platform in which several actors share
state: approved commands that lead to at most one provider effect, the outbox
between them, purchase orders waiting for approvals, the platform budget, the
leased job queue with its crash-resumable pipeline, the order bridge, settlement,
the audit chain, and the control pool's retry budgets. `dafny verify dfyconfig.toml`
checks all of it.

Two forms appear side by side. Transactions are functions from a state to
`Commit(state, value)` or `Abort(failure)` (`Common.dfy`); the classes carry the
repository's objects with the same branches as loops and assignments, and every
method is proved to leave exactly what its transaction leaves, the rollback
included. Theorems are then about runs: sequences of steps of any length, in any
interleaving, with time an integer given to each step, and with crashes, lost
replies, expired leases and other tenants as steps of their own.

| area | files |
|---|---|
| shared vocabulary | `Common.dfy`, `Domain.dfy`, `Text.dfy` |
| approvals and the gate | `ControlPlane.dfy`, `StoreControlPlane.dfy`, `ApprovalExpiry.dfy`, `ApprovalOutcomes.dfy` |
| attempts, provider, worker | `Execution.dfy`, `SyntheticProvider.dfy`, `ToolGateway.dfy`, `DemoExecution.dfy`, `ToolWorker.dfy`, `DemoPlatform.dfy`, `PollOutcomes.dfy` |
| the protocol over all runs | `ExecutionSafety.dfy`, `ExactlyOnce.dfy`, `EffectTheorems.dfy`, `LateEffects.dfy`, `LeaseTheorems.dfy`, `DispatchOutcomes.dfy` |
| outbox and transactions | `Outbox.dfy`, `OutboxForms.dfy`, `Transactions.dfy` |
| orders and purchase orders | `Routing.dfy`, `PurchaseOrders.dfy`, `PurchaseSafety.dfy`, `PurchaseLifecycle.dfy`, `PurchaseTheorems.dfy`, `PurchaseOutcomes.dfy`, `PurchaseService.dfy` |
| budget | `Budget.dfy` |
| queue and pipeline | `JobQueue.dfy`, `DevPipeline.dfy`, `PipelineOutcomes.dfy` |
| bridge, settlement | `OrderBridge.dfy`, `BridgeCrossing.dfy`, `Settlement.dfy` |
| audit, time text, control pool | `AuditChain.dfy`, `IsoTime.dfy`, `ControlPool.dfy`, `PoolOutcomes.dfy` |

The central result is in `EffectTheorems.dfy`. The effect and its record are two
separate commits, and a worker may stop, be slow, or lose its lease between them;
its result is kept in the modelled state until it is recorded. Over every run an
approval leads to at most one effect, each effect has a passed gate behind it, and
a verdict is true and final. `ToolWorker.dfy` then shows that one poll of the worker
object, however it fails, is a fixed script of those steps, and `DemoPlatform.dfy`
that its callers' requests, decisions and stops are steps too, so that the live
objects keep what the runs keep.

## Where the code does not keep what one might expect

Each of these is proved, with an input that shows it and, where only some inputs do,
the exact condition.

- With codex switched off, which is the default, a development job is marked done at
  whatever stage it is in, no test run (`DevPipeline.DoneUnverified`, `CompletionExact`).
- An effect may follow MANUAL_REVIEW: exactly while some worker is still in a dispatch
  call for that attempt (`LateEffects.ReviewReached`, `LateEffectExact`).
- An event claimed by name may overtake its predecessor, exactly when an earlier event
  of its aggregate is not terminal (`Outbox.NamedClaimOvertakes`, `NamedClaimExact`, `RunInOrder`).
- The in-memory outbox never counts attempts, claims a retry by name before it is due, and
  lets a holder claim its own live lease again (`OutboxForms.NeverGivenUp`, `BothCasesOccur`, `ClaimsDifferExactly`).
- A claim made for another lane than the worker's own overruns the worker's lane, exactly
  when that lane has no free slot (`ControlPool.ForeignLaneOverruns`, `ClaimWithinExact`).
- Approve, let expire, renew: the renewed purchase order verifies, but no approval
  of it ever succeeds, because its outbox key `po:{id}:approved` is taken
  (`PurchaseTheorems.RenewedButStuck`, `StuckRunExists`, `DecidableExact`).
- The command keys of purchase orders are ordinary text. A caller who used one for
  another request blocks that routing or renewal (`PurchaseTheorems.TakenKeyBlocksRouting`,
  `ProposableExact`, `RenewableExact`).
- An interrupt that is not an `Exception` leaves the SQLite form's blocks open: nothing
  on that connection commits again (`Transactions.FormsAgreeExactly`, `NothingCommitsAgain`).
- Timestamps with a `Z` suffix compare wrongly when just one of two instants in the
  same second has a fraction (`IsoTime.ZuluOrderExact`).
- The audit chain does not show a truncated tail (`AuditChain.PrefixPasses`).

## Model

| member | source | states |
|---|---|---|
| `ControlPlane.GateExact` | packages/store_core/execution.py:24-30 | The gate opens exactly when no stop covers the connection, the command has an unstopped control, command and approval are approved and in time, intent digest and both versions are unchanged, and caller and approver are active members with the capability (a first preparation also needs its outbox key free) |
| `StoreService.StoreControlPlane.CreateCommand` | packages/store_core/service.py:575-615 | The stored tables move exactly as the create transaction says: a key reused for other content conflicts, a replay adds nothing |
| `StoreService.StoreControlPlane.RequestApproval` | packages/store_core/service.py:411-432 | Command, pending approval, intent and outbox event appear together or not at all |
| `StoreService.StoreControlPlane.Decide` | packages/store_core/service.py:644-681 | Only a pending command is decided; past its expiry the decision turns into an expiry |
| `StoreService.StoreControlPlane.Supersede` | packages/store_core/service.py:683-708 | The old command ends as superseded and a new one takes its place, or neither |
| `StoreService.StoreControlPlane.ExpireDue` | packages/store_core/approvals.py:154-176 | The sweeper expires one due pending approval with its command and event, and leaves the others |
| `StoreService.StoreControlPlane.PrepareExecution` | packages/store_core/service.py:434-466 | One preparation per approved, unchanged, unexpired intent; a second call finds the first |
| `StoreService.StoreControlPlane.Gate` | packages/store_core/execution.py:24-30 | The gate as a method leaves exactly the tables its transaction leaves, also when it refuses |
| `ApprovalOutcomes.RequestOutcome` | packages/store_core/service.py:411-432 | What a request leaves: under a new key a command, its approval for a day and an intent with the digest of exactly this request; under a used one at most the intent that was missing |
| `ApprovalOutcomes.DecideOutcome` | packages/store_core/service.py:644-681 | A decision is taken exactly on a pending approval by somebody entitled to its kind; in time it is that member's, from the expiry on it is an expiry; one row and one event change |
| `ApprovalOutcomes.SupersedeOutcome` | packages/store_core/service.py:683-708 | Exactly when an approval is superseded, what becomes of it, and which command takes its place |
| `ApprovalOutcomes.ExpireOutcome` | packages/store_core/approvals.py:154-176 | The sweeper never fails and ends exactly a pending approval that is due |
| `ApprovalOutcomes.PrepareOutcome` | packages/store_core/service.py:434-466 | Exactly when an execution is prepared: once, by the caller, of the approved digest |
| `ExecutionSafety.RequestApprovalKeeps` | packages/store_core/service.py:411-432 | A request keeps every command bound to its one intent and only adds facts |
| `ExecutionSafety.DecideKeeps` | packages/store_core/service.py:644-681 | A decision keeps the binding of commands, approvals, intents and preparations |
| `ExecutionSafety.SupersedeKeeps` | packages/store_core/service.py:683-708 | Superseding keeps the binding of commands, approvals, intents and preparations |
| `ExecutionSafety.ExpireDueKeeps` | packages/store_core/approvals.py:154-176 | The sweeper keeps the binding of commands, approvals, intents and preparations |
| `ExecutionSafety.PrepareExecutionKeeps` | packages/store_core/service.py:434-466 | A preparation carries the digest of its command's intent, and repeating it changes nothing |
| `ExecutionSafety.PrepareAttemptKeeps` | packages/store_core/execution.py:37-56 | Preparing yields the one attempt of the command: found again, or new, prepared, with token 0, no other attempt touched |
| `ExecutionSafety.PrepareAttemptExact` | packages/store_core/execution.py:37-56 | Exactly when an attempt is prepared (administrator, open gate, approved versions, matching adapter, the same one as before), and the row that is found or left |
| `ExecutionSafety.ClaimKeeps` | packages/store_core/execution.py:68-93 | A claim never takes over a live lease; it raises the fencing token by one and turns a crashed dispatch or lookup into UNKNOWN, and nothing else |
| `ExecutionSafety.ClaimExact` | packages/store_core/execution.py:68-93 | An attempt is claimed exactly by an administrator, for 1 to 300 seconds, at its current version, while it is not terminal, its lease is over and its next check is due; the lease is then that worker's alone, under the new token, until its last second |
| `ExecutionSafety.BeginDispatchKeeps` | packages/store_core/execution.py:102-116 | A dispatch begins only from PREPARED, under the held lease, through the gate, with a matching manifest |
| `ExecutionSafety.BeginDispatchExact` | packages/store_core/execution.py:102-116 | And begins whenever all of that holds for an administrator: no stored event is ever in the way |
| `ExecutionSafety.BeginReconciliationKeeps` | packages/store_core/execution.py:118-128 | A lookup begins only from UNKNOWN under the held lease |
| `ExecutionSafety.BeginReconciliationExact` | packages/store_core/execution.py:118-128 | And begins whenever that holds for an administrator |
| `ExecutionSafety.ResolveTotal` | packages/store_core/execution.py:146-160 | For an existing attempt every observation resolves: the repeated gate can refuse but never fail |
| `ExecutionSafety.RecordExact` | packages/store_core/execution.py:130-172 | An observation is accepted exactly for the current administrator holding the lease of a dispatch or a lookup, absence only in a lookup; it then leaves the state its kind and the count of earlier observations demand, gives the lease up, and puts the next check 30, 60, 120 or 240 seconds off |
| `ExecutionSafety.SubmitKeeps` | packages/store_core/gateway.py:187-220 | A submitted tool command keeps one accepted command per approval, each with its own outbox event |
| `ExecutionSafety.ValidateKeeps` | packages/store_core/gateway.py:72-91 | A validated approval covers exactly the submitted tool, target, input and policy version, and no other command uses it |
| `ExecutionSafety.PrepareForEventKeeps` | packages/store_core/tool_worker.py:65-83 | The attempt prepared for an event belongs to the command the event's tool command was approved for |
| `ExecutionSafety.PrepareForEventExact` | packages/store_core/tool_worker.py:65-83 | Exactly when the worker gets an attempt for an event: its binding checks never stop a queued one |
| `ApprovalExpiry.ExpireDueApprovals` | packages/store_core/approvals.py:154-175 | The tables move exactly as one sweep says; a failure on the way takes the whole batch back |
| `ApprovalExpiry.DueApprovals` | packages/store_core/repository.py:779-782 | The list is exactly the sweep's batch |
| `ApprovalExpiry.BatchExact` | packages/store_core/repository.py:779-782 | A batch holds the earliest due approvals, by expiry and then identifier, each once, as many as the limit allows; every due one left out comes later |
| `ApprovalExpiry.SweepExact` | packages/store_core/approvals.py:154-175 | A sweep succeeds exactly for an allowed limit, expires and announces exactly its batch with its commands, touches nothing else, and leaves exactly the rest, in order, to the next sweep |
| `ApprovalExpiry.SweepIsExpiries` | packages/store_core/approvals.py:163-173 | A sweep is a run of single expiry steps, so every theorem about runs covers it |
| `ApprovalExpiry.SweepNeverFails` | packages/store_core/approvals.py:163-173 | Over every run of the approval tables an allowed sweep never rolls back |
| `ApprovalExpiry.OutcomeIsFinal` | packages/store_core/service.py:644-708 | Over every run, racing decisions and sweeps included, an approval leaves PENDING once, and afterwards only an approved one moves, to superseded |
| `SyntheticProvider.ExecuteOnce` | packages/store_core/synthetic_provider.py:69-94 | Execution adds at most the row of its own key, in every mode but one, as a failure exactly when the provider refuses; it never changes an existing row, conflicts exactly on another intent, answers truthfully and never reports absence; repeating it adds nothing |
| `SyntheticProvider.LookupReadsOnly` | packages/store_core/synthetic_provider.py:96-117 | A lookup in any mode creates no effect, answers truthfully, and reports absence only while there is no row |
| `SyntheticProvider.HiddenRunsOut` | packages/store_core/synthetic_provider.py:96-117 | A delayed outcome stays hidden for exactly its number of lookups and is then reported |
| `SyntheticProvider.DurableSyntheticProvider.ExecuteCall` | packages/store_core/synthetic_provider.py:69-94 | The stored ledger and the reply are those of the specified execution |
| `SyntheticProvider.DurableSyntheticProvider.LookupCall` | packages/store_core/synthetic_provider.py:96-117 | The stored ledger and the reply are those of the specified lookup |
| `ExactlyOnce.StepKeeps` | packages/store_core/execution.py:37-203 | Every step of any worker, caller, crash or other tenant keeps the protocol invariant, and versions, tokens and terminal states only grow |
| `ExactlyOnce.NoBindingConflict` | packages/store_core/synthetic_provider.py:59-67 | In no reachable state is an attempt's key bound to another intent: the provider's conflict branch is dead for this tenant |
| `ExactlyOnce.RunKeeps` | packages/store_core/execution.py:37-203 | The protocol invariant (true verdicts, one caller per lease, one attempt per command, effects bound to approved intents) holds after every run |
| `EffectTheorems.EffectAtMostOnce` | packages/store_core/synthetic_provider.py:69-94 | Over every run an operation key is inserted at most once, and exactly once if its effect is there |
| `EffectTheorems.OneEffectPerApproval` | packages/store_core/gateway.py:83-86 | Over every run: one accepted tool command per approval, one attempt per approved command, one effect per key, carrying the approved intent |
| `EffectTheorems.VerdictTrueAndFinal` | packages/store_core/execution.py:130-172 | A verdict reached at any point is true of the ledger then and at every later point, and the attempt never changes again |
| `EffectTheorems.ReplyAccepted` | packages/store_core/execution.py:185-203 | Any reply any provider mode can give is accepted in the state it arrives in while the lease holds, and is stored as one observation |
| `EffectTheorems.StaleTokenIsPowerless` | packages/store_core/execution.py:95-100 | Once the lease was taken over, the old token can neither begin nor record, now or later |
| `EffectTheorems.CallPassedGate` | packages/store_core/execution.py:102-116 | Whoever is in a dispatch call passed the gate for that operation earlier in the run |
| `EffectTheorems.NoEffectWithoutGate` | packages/store_core/execution.py:102-116 | Each inserted effect has an earlier PREPARED to DISPATCHING step by the same process at which the gate stood open for that operation |
| `EffectTheorems.CompletedEventIsSettled` | packages/store_core/tool_worker.py:94-102 | A completed outbox event stands for an accepted command whose one attempt is terminal and carries the approved digest |
| `EffectTheorems.ObservationsBounded` | packages/store_core/execution.py:143-172 | An attempt records at most 5 observations without authoritative absence, at most 6 plus the recovered calls with it, whatever crashes occur |
| `EffectTheorems.RunGrows` | packages/store_core/execution.py:68-93 | Along every run versions and fencing tokens only grow, operations stay fixed and terminal attempts absorb |
| `LeaseTheorems.LeaseExcludes` | packages/store_core/execution.py:68-100 | Over any continuation of any run in which nobody claims later than the lease's end and its holder does nothing, the attempt stands exactly as it is |
| `LeaseTheorems.SubmitExact` | packages/store_core/gateway.py:187-220 | Exactly how a submission under a new key is answered: a stop blocks it, what changes nothing or has a standing approval is accepted, an approval is asked for where none is given; what is accepted on an approval is queued, nothing else is |
| `LeaseTheorems.ResubmitExact` | packages/store_core/gateway.py:187-220 | A used key answers exactly the request it was saved with, adding and queueing nothing |
| `LeaseTheorems.AcceptedIsQueued` | packages/store_core/gateway.py:213-220 | Over every run each accepted command on an approval is queued by exactly one outbox event |
| `DispatchOutcomes.FirstDispatch` | packages/store_core/synthetic_provider.py:69-94 | Begin, call and record of a first dispatch, in every mode: the row that is left and the state of the attempt; a refusal ends as a verified failure, five modes leave the caller without a verdict, one of them without an effect |
| `DispatchOutcomes.Redispatch` | packages/store_core/synthetic_provider.py:69-94 | A dispatch that finds its effect already there changes nothing and reports that effect, or nothing, by mode |
| `DispatchOutcomes.LookedUp` | packages/store_core/synthetic_provider.py:96-117 | Begin, lookup and record, in every mode: an effect is reported as it is, a hidden one after as many lookups, absence leads back to PREPARED only on authority and through the gate, an unavailable provider decides nothing |
| `LateEffects.LateEffectExact` | packages/store_core/execution.py:148-160 | An attempt in MANUAL_REVIEW without an effect can still get one if and only if some process is in a dispatch call for it; without one no continuation of the run, however long, inserts it |
| `LateEffects.ReviewReached` | packages/store_core/execution.py:68-172 | A concrete run of two workers from the empty world reaches that state: a stalled dispatch, an expired lease, a recovery and an absent lookup |
| `LateEffects.LateEffectHappens` | packages/store_core/execution.py:148-160 | In a continuation of that run the effect follows the review |
| `DemoExecution.DemoExecutionControlPlane.PrepareAttempt` | packages/store_core/execution.py:37-56 | The objects hold what the specified transaction leaves, including the rollback on failure |
| `DemoExecution.DemoExecutionControlPlane.ClaimAttempt` | packages/store_core/execution.py:68-93 | The objects hold what the specified claim leaves |
| `DemoExecution.DemoExecutionControlPlane.BeginDispatch` | packages/store_core/execution.py:102-116 | The objects hold what the specified dispatch begin leaves |
| `DemoExecution.DemoExecutionControlPlane.BeginReconciliation` | packages/store_core/execution.py:118-128 | The objects hold what the specified lookup begin leaves |
| `DemoExecution.DemoExecutionControlPlane.RecordObservation` | packages/store_core/execution.py:130-172 | The objects hold what the specified recording leaves |
| `DemoExecution.DemoExecutionControlPlane.DispatchDemo` | packages/store_core/execution.py:174-193 | An adapter of another version or with the service's own database is refused before anything begins; otherwise begin, call and record compose, a verdict rests on a ledger row of that kind with the attempt's intent, and no other key gains a row |
| `DemoExecution.DemoExecutionControlPlane.ReconcileAttempt` | packages/store_core/execution.py:174-203 | The same check, then begin, lookup and record compose without creating any effect, and a verdict rests on a ledger row |
| `ToolWorker.BeginOnce` | packages/store_core/tool_worker.py:84-93 | Of dispatching and reconciling only the one the attempt's state allows takes effect |
| `ToolWorker.CallIsSteps` | packages/store_core/execution.py:185-203 | A provider call between two commits is exactly three protocol steps |
| `ToolWorker.DemoToolCommandWorker.ProcessNext` | packages/store_core/tool_worker.py:41-63 | One poll is exactly a fixed script of protocol steps, whatever fails on the way and whatever the clock reads, so all run theorems hold of the worker |
| `ToolWorker.DemoToolCommandWorker.ProcessNamed` | packages/store_core/tool_worker.py:32-39 | A named event is driven by the same steps; a failure leaves the event leased, like a crash |
| `PollOutcomes.PollDelivers` | packages/store_core/tool_worker.py:41-102 | From any reachable state and beside whatever else is in flight, one undisturbed poll of a queued command whose approval stands leaves its attempt verified, its effect in the ledger and its event completed, a refusal verified as one; where the provider does not tell, the attempt is UNKNOWN and the event leased for a later poll |
| `ToolWorker.DemoToolCommandWorker.SubmitTool` | packages/store_core/gateway.py:187-220 | Submission as a method is one protocol step and leaves the specified stores |
| `ToolWorker.UsedByAnother` | packages/store_core/gateway.py:83-86 | The scan finds exactly whether another accepted command uses the approval |
| `ToolWorker.PreparedVersion` | packages/store_core/tool_worker.py:80-83 | The attempt a worker prepares is always one its provider's version may serve |
| `DemoPlatform.ObjectsKeepTheLaw` | packages/store_core/gateway.py:83-86 | Whatever calls were made on the live objects, in any order, their ledger holds for the tenant only effects inserted once, of the requested intents, with one accepted command per approval and one attempt per command |
| `DemoPlatform.Platform.RequestApproval` | packages/store_core/service.py:411-432 | A request on the objects a worker shares is one protocol step and the specified transaction |
| `DemoPlatform.Platform.Decide` | packages/store_core/service.py:644-681 | A decision on the objects a worker shares is one protocol step and the specified transaction |
| `Outbox.ScanForClaim` | packages/store_core/repository.py:703-715 | The one-pass scan with a blocked set finds exactly the first ready event without an earlier unfinished one of its aggregate, the NOT EXISTS form |
| `Outbox.SqliteOutbox.ClaimOutbox` | packages/store_core/sqlite_repository.py:1460-1473 | A named claim changes exactly one row, or none when the event is terminal, not due or leased |
| `Outbox.SqliteOutbox.ClaimNextOutbox` | packages/store_core/sqlite_repository.py:1475-1483 | The row the query picks is claimed, and nothing happens without one |
| `Outbox.SqliteOutbox.CheckpointOutbox` | packages/store_core/sqlite_repository.py:1485-1495 | Only the current lease holder completes or keeps its event |
| `Outbox.SqliteOutbox.FailOutbox` | packages/store_core/sqlite_repository.py:1497-1510 | Only the current lease holder gives up its event, for a retry or for good at the limit |
| `Outbox.RunAccounts` | packages/store_core/sqlite_repository.py:1460-1510 | Over every run attempts, fencing token and number of claims are one number; an event fails at most `limit` times and completes at most once |
| `Outbox.ClaimExact` | packages/store_core/sqlite_repository.py:1460-1473 | A claim by name is accepted exactly for an open event that waits for no retry and is under no live lease; until the lease ends only that worker can finish or fail it, from then on, and not before, anyone can claim it |
| `Outbox.NewEventExact` | packages/store_core/sqlite_repository.py:1475-1483 | A new event is held by nobody and can be claimed from its creation on, once the earlier ones of its aggregate are closed |
| `Outbox.CheckpointExact` | packages/store_core/sqlite_repository.py:1485-1495 | A completing checkpoint closes the event for every later operation, any other leaves it as it was |
| `Outbox.FailExact` | packages/store_core/sqlite_repository.py:1497-1510 | A failure below the limit leaves an event that nobody holds and that can be claimed again from the end of the wait on and not before; at the limit it closes the event |
| `Outbox.BackoffDoubles` | packages/store_core/sqlite_repository.py:1504-1506 | The wait is half a minute after the first failure and doubles up to an hour |
| `Outbox.DeadWasTried` | packages/store_core/sqlite_repository.py:1497-1510 | Over every run a dead event was claimed at least as often as the smallest limit of the run demands |
| `Outbox.TerminalAbsorbs` | packages/store_core/sqlite_repository.py:1460-1510 | COMPLETED and DEAD events absorb every later step |
| `Outbox.ClaimNextNeverConflicts` | packages/store_core/sqlite_repository.py:1475-1483 | In every reachable state the claim accepts the row the query picked |
| `Outbox.NamedClaimExact` | packages/store_core/sqlite_repository.py:1460-1473 | An accepted claim by name keeps every aggregate in order if and only if all earlier events of its aggregate are terminal |
| `Outbox.RunInOrder` | packages/store_core/sqlite_repository.py:1460-1483 | A run keeps each aggregate as a terminal prefix, at most one touched event, then untouched ones, at every point, if and only if each accepted claim by name met that condition; claim_next alone always keeps it |
| `Outbox.NamedClaimOvertakes` | packages/store_core/sqlite_repository.py:1460-1473 | A concrete run in which a claim by name overtakes an open event |
| `OutboxForms.ClaimsDifferExactly` | packages/store_core/repository.py:686-701 | On the rows any in-memory run holds the two named claims agree except when a retry is not yet due or the holder's own lease still lives; there only the in-memory one claims |
| `OutboxForms.BothCasesOccur` | packages/store_core/repository.py:686-726 | Concrete in-memory runs reach both cases |
| `OutboxForms.MemoryRunInOrder` | packages/store_core/repository.py:686-726 | The in-memory form keeps the order within aggregates, at every point of a run, under exactly the same condition as the SQLite form |
| `OutboxForms.ChosenRowsAgree` | packages/store_core/repository.py:703-715 | For a row the scan chose both forms claim, up to the attempts they count |
| `OutboxForms.NeverGivenUp` | packages/store_core/repository.py:717-726 | In memory attempts stay at zero and no event ever dies, over every run |
| `OutboxForms.MemoryFailExact` | packages/store_core/repository.py:717-726 | In every in-memory run a failure puts the event back for claim_next to take a second later, never for good |
| `OutboxForms.MemoryNextExact` | packages/store_core/repository.py:703-715 | In every in-memory run claim_next leases the first event that is ready and not blocked, and nothing exactly when there is none |
| `OutboxForms.InMemoryOutbox.ClaimNextOutbox` | packages/store_core/repository.py:703-715 | The in-memory claim takes exactly the row the SQL query would pick |
| `Transactions.InMemoryRepository.Run` | packages/store_core/repository.py:388-408 | Any nesting with any exception, caught or not, leaves what the all-or-nothing reference leaves |
| `Transactions.InMemoryRepository.RestoreRows` | packages/store_core/repository.py:397-404 | The deleting and reassigning loops put a dictionary back exactly |
| `Transactions.SqliteRepository.Run` | packages/store_core/sqlite_repository.py:1317-1340 | Depth, frames and tables after any program are as specified, and frames opened outside stay as they were |
| `Transactions.LeavingIsReference` | packages/store_core/sqlite_repository.py:1317-1340 | Without an interrupt the savepoint form is the reference with nothing left open; with one, the oldest frame left protects the reference's result |
| `Transactions.Serve` | packages/store_core/sqlite_repository.py:1317-1340 | A connection serves a whole session of units as stated, its depth counting the frames left open |
| `Transactions.CleanSession` | packages/store_core/sqlite_repository.py:1317-1340 | A session without an interrupt inside a block commits exactly what the reference commits |
| `Transactions.InterruptedUnit` | packages/store_core/sqlite_repository.py:1326-1333 | After an interrupt what survives losing the connection is exactly the reference |
| `Transactions.NothingCommitsAgain` | packages/store_core/sqlite_repository.py:1320-1324 | A connection with a frame left open never commits anything again |
| `Transactions.DepthExact` | packages/store_core/sqlite_repository.py:1325-1340 | The depth is off by exactly the number of blocks an interrupt passed through |
| `Transactions.FormsAgreeExactly` | packages/store_core/sqlite_repository.py:1326-1333 | Both repositories' forms agree on a unit if and only if no interrupt passes through a block |
| `Transactions.FormsDiffer` | packages/store_core/sqlite_repository.py:1326-1333 | One write and an interrupt inside a block separates the two forms |
| `Budget.BudgetRepository.RecordDemoAgentRun` | packages/store_core/gateway.py:123-184 | Ledger, runs and receipts move exactly as the decision says, in one transaction |
| `Budget.BudgetRepository.ReserveBudgetEntry` | packages/store_core/budget.py:51-60 | The cap is checked where the entry is written; a key reserves once |
| `Budget.NewRun` | packages/store_core/gateway.py:139-184 | Exactly which requests are recorded, and that a run is charged exactly when it is accepted |
| `Budget.AcceptanceExact` | packages/store_core/gateway.py:152-177 | A run is accepted exactly within the tenant's four limits (day, month, runs of the day, runs ever), below the hard cap and, for growth work, below the warning line; telemetry never blocks |
| `Budget.OutcomeExact` | packages/store_core/gateway.py:152-177 | Each outcome has its own reason, the hard cap before the warning line before the tenant's limits |
| `Budget.ReserveExact` | packages/store_core/budget.py:51-60 | An entry is reserved exactly below the cap, alone and with its month; the same again changes nothing, anything else under its key conflicts |
| `Budget.KeyedIs` | packages/store_core/budget.py:51-60 | The entry found under a key is the first the tenant made under it, and none is found exactly when there is none |
| `Budget.CountIs` | packages/store_core/gateway.py:147-154 | The daily count is the number of the tenant's entries of that day |
| `Budget.RunsOfIs` | packages/store_core/gateway.py:147-154 | The run count is the number of the tenant's runs, of whatever outcome |
| `Budget.PolicyExact` | packages/store_core/gateway.py:105-120 | A policy is taken exactly with limits in range, as the tenant's next version, and a request that names another version is refused |
| `Budget.AcceptedIsReserved` | packages/store_core/gateway.py:181-182 | An accepted decision never fails in the reservation |
| `Budget.CapHolds` | packages/store_core/budget.py:41-60 | Over all tenants, interleavings and clock readings no month's ledger reaches 30000 |
| `Budget.LedgerIsCharges` | packages/store_core/gateway.py:177-182 | The ledger's sum is what accepted runs were charged, plus entries reserved without a run |
| `Budget.ReplayChangesNothing` | packages/store_core/budget.py:29-39 | Repeating a request under its key after any run changes nothing and returns the same run; another request under it conflicts |
| `Budget.TenantWithinLimits` | packages/store_core/gateway.py:147-154 | Under an unchanged policy a tenant's day, month and daily count never exceed its limits by new runs |
| `Budget.GrowthStopsAtWarning` | packages/store_core/gateway.py:168-176 | Growth work was only ever reserved while the month, itself included, stayed below 24000 |
| `Routing.BestIsBest` | packages/store_core/orders.py:104-110 | The chosen quote is the least feasible one by cost, then supplier, and missing exactly when none is feasible |
| `Routing.BestExact` | packages/store_core/orders.py:104-110 | The choice in plain terms: enough of it at a price, and whoever else has enough asks more, or the same under a name that does not sort before |
| `Routing.SelectExact` | packages/store_core/orders.py:97-119 | Routing succeeds exactly when every line has a feasible quote, and each line then gets a least one |
| `Routing.RoutableExact` | packages/store_core/orders.py:97-119 | An order routes exactly when each line's SKU is offered by somebody at a price and in its quantity |
| `Routing.DraftsPartition` | packages/store_core/orders.py:120-148 | The purchase orders partition the lines, and their costs add up to the lines' least costs |
| `Routing.EveryLinePlacedOnce` | packages/store_core/orders.py:120-148 | Every order line is in exactly one purchase order |
| `Routing.Cheapest` | packages/store_core/orders.py:104-110 | The minimum over the candidates is the specified best quote |
| `Routing.Choose` | packages/store_core/orders.py:100-119 | The loop over the lines selects all-or-nothing as specified |
| `Routing.GroupBySupplier` | packages/store_core/orders.py:120-132 | The dictionary of groups read in key order is the specified list of drafts |
| `PurchaseLifecycle.ApproveKeeps` | packages/store_core/order02.py:57-77 | An approval step keeps the purchase-order invariant |
| `PurchaseLifecycle.RegenerateKeeps` | packages/store_core/order02.py:91-127 | A renewal keeps the purchase-order invariant |
| `PurchaseLifecycle.RenewalIsFresh` | packages/store_core/order02.py:91-127 | A renewal binds a command to the same lines at the order's current version; it is one nobody has seen before, pending and good for another day, if and only if its key was free, and otherwise the command that took the key |
| `PurchaseSafety.RequestExact` | packages/store_core/service.py:411-432 | A request succeeds exactly for a caller with the capability whose key is free or bound to the very same request |
| `PurchaseLifecycle.SubmitKeeps` | packages/store_core/order02.py:130-151 | A submission keeps the purchase-order invariant, preparation included |
| `PurchaseLifecycle.ReconcileKeeps` | packages/store_core/order02.py:154-187 | A supplier response keeps the purchase-order invariant |
| `PurchaseLifecycle.CancelKeeps` | packages/store_core/order03.py:23-52 | A cancellation keeps the purchase-order invariant over all purchase orders of the order |
| `PurchaseLifecycle.CancelExact` | packages/store_core/order03.py:23-52 | A cancellation succeeds exactly for the current version of a waiting order, or as a replay: no outbox key is ever in the way |
| `PurchaseLifecycle.ProposeKeeps` | packages/store_core/orders.py:89-148 | Routing an order keeps the purchase-order invariant over all new purchase orders |
| `PurchaseTheorems.RunKeeps` | packages/store_core/order02.py:57-187 | The purchase-order invariant holds after every run, interleaved with anything other callers do to the approval tables, command keys of the same text included |
| `PurchaseTheorems.PendingMatchesOrder` | packages/store_core/order02.py:23-54 | While an order waits, each purchase order's intent targets exactly the order's version, and its payload is what the routing supports today |
| `PurchaseTheorems.SentWasPrepared` | packages/store_core/order02.py:130-151 | Whatever was sent has an execution preparation with its intent's digest, for exactly its lines |
| `PurchaseTheorems.CancelledIsFrozen` | packages/store_core/order03.py:28-52 | A cancelled order stays cancelled and its purchase orders stay CANCELLED, CANCEL_REQUESTED or EXCEPTION, unchanged, for good |
| `PurchaseTheorems.ProposableExact` | packages/store_core/orders.py:89-148 | Exactly when an order can be routed in a reachable state, replays included: among others the command key of each draft must be free or bound to the same request |
| `PurchaseTheorems.TakenKeyBlocksRouting` | packages/store_core/orders.py:136-148 | A concrete run in which another caller takes such a key first, and an order that could be routed no longer can |
| `PurchaseTheorems.DecidableExact` | packages/store_core/order02.py:57-77 | Exactly when a purchase order can be decided, among others that it was never before decided the same way |
| `PurchaseTheorems.RenewableExact` | packages/store_core/order02.py:80-127 | Exactly when an approval can be renewed: the routing never stands in the way, a renewal key taken for another request does |
| `PurchaseOutcomes.SubmittableExact` | packages/store_core/order02.py:130-151 | Exactly when a purchase order can be sent: approved, waiting, under a standing approval in time, no stop on its channel, caller and approver still entitled; no event or version is ever in the way |
| `PurchaseOutcomes.SentUnstopped` | packages/store_core/order02.py:130-151 | Over every run a purchase order becomes SUBMITTED only by its own submission under exactly those conditions, so never under a stop |
| `PurchaseOutcomes.ReconcileExact` | packages/store_core/order02.py:154-187 | Exactly which supplier responses are taken, and what each means: acknowledgement and refusal lead to their own status, an unknown one changes nothing, the first that says anything is kept for good |
| `PurchaseOutcomes.StepMoves` | packages/store_core/order02.py:57-187 | Every way a step can move the status of a purchase order, with what it takes |
| `PurchaseOutcomes.CancelMoves` | packages/store_core/order03.py:23-52 | A cancellation withdraws what was not sent and asks for the return of what was, each announced, and touches no other order |
| `PurchaseOutcomes.ProposeAdds` | packages/store_core/orders.py:89-148 | What routing leaves: the purchase orders there are, or an order in exception, or one purchase order per draft with exactly the chosen lines decided and routed |
| `PurchaseTheorems.DecidedOnce` | packages/store_core/order02.py:71-74 | A purchase order is approved at most once and rejected at most once, however often it is renewed |
| `PurchaseTheorems.RenewedButStuck` | packages/store_core/order02.py:71-74 | Approved and then renewed, no approval of it ever succeeds again; under a free key it verifies and its new approval is pending all the same |
| `PurchaseTheorems.StuckRunExists` | packages/store_core/order02.py:71-127 | A concrete run reaches that state |
| `PurchaseService.PurchaseDesk.ProposeRouting` | packages/store_core/orders.py:89-148 | The tables move exactly as the routing transaction says, rolled back on failure |
| `PurchaseService.PurchaseDesk.ApprovePo` | packages/store_core/order02.py:57-77 | The tables move exactly as the decision says, rolled back on a duplicate event |
| `PurchaseService.PurchaseDesk.RegeneratePo` | packages/store_core/order02.py:91-127 | The tables move exactly as the renewal says |
| `PurchaseService.PurchaseDesk.SubmitPo` | packages/store_core/order02.py:130-151 | The tables move exactly as the submission says |
| `PurchaseService.PurchaseDesk.ReconcilePo` | packages/store_core/order02.py:154-187 | The tables move exactly as the response says, a repeated response adds nothing |
| `PurchaseService.PurchaseDesk.RequestCancel` | packages/store_core/order03.py:23-52 | The loop over the purchase orders leaves exactly the specified statuses and events, or everything as it was |
| `JobQueue.StoreDB.ClaimJob` | smart_store_aios/db.py:76-105 | The recursive claim terminates and leaves the specified rows |
| `JobQueue.StoreDB.Fail` | smart_store_aios/db.py:164-188 | Only the owner fails a job, which is queued again or dead as the attempts say |
| `JobQueue.StoreDB.CompleteJob` | smart_store_aios/db.py:149-162 | Only the owner completes a job, with one audit row |
| `JobQueue.StoreDB.DeferJob` | smart_store_aios/db.py:128-137 | Only the owner hands a job back, without spending the attempt |
| `JobQueue.RunOnce` | smart_store_aios/worker.py:26-64 | One poll claims one job and settles it as its dispatch ended |
| `JobQueue.ClaimExact` | smart_store_aios/db.py:76-105 | A claim returns the lowest-id decodable claimable job and dead-letters exactly the corrupt claimable ones before it |
| `JobQueue.ClaimSafe` | smart_store_aios/db.py:76-105 | However the clock moves during the recursion, only corrupt rows are buried and the returned row was claimable |
| `JobQueue.RunAccounts` | smart_store_aios/db.py:76-188 | Over every run attempts are claims less defers and never negative; at most `max_attempts` accepted failures; at most one completion |
| `JobQueue.TerminalAbsorbs` | smart_store_aios/db.py:128-188 | Done and dead jobs absorb every step |
| `JobQueue.LeaseExact` | smart_store_aios/db.py:76-105 | A new job waits for its time only; a leased one is its worker's alone until the lease ends and anyone's to claim once it has ended; a buried one nobody's for ever |
| `JobQueue.OwnerExact` | smart_store_aios/db.py:107-188 | Heartbeat, checkpoint, defer, complete and fail are the owner's alone, and leave the job held for longer, with new progress, waiting until its stated time, or closed, as each says |
| `JobQueue.SettleExact` | smart_store_aios/worker.py:26-64 | A poll's end finishes the job, hands it back without spending the attempt, or fails it; with the lease lost it changes nothing |
| `JobQueue.DelayDoubles` | smart_store_aios/db.py:164-188 | The wait after a failure doubles from two seconds up to a minute |
| `JobQueue.StepsAreOperations` | smart_store_aios/db.py:76-188 | The counted steps of a run do to the rows exactly what the queue's operations do |
| `JobQueue.LeaseExcludes` | smart_store_aios/db.py:139-147 | Until its lease runs out nobody but the owner changes a running job |
| `JobQueue.ClaimableOrOwned` | smart_store_aios/db.py:78-85 | No job is claimable and owned at one instant; at the instant the lease ends it is neither |
| `DevPipeline.RunKeeps` | smart_store_aios/dev_pipeline.py:176-192 | The pipeline invariant holds over all resumes, crashes, lost leases and overlapping workers |
| `DevPipeline.FixBudgetHolds` | smart_store_aios/dev_pipeline.py:236-261 | Over every run one job's fix calls carry different round numbers and never exceed its own limit, or, where its payload leaves that open, the largest limit of any worker's settings |
| `DevPipeline.PublishedWasVerified` | smart_store_aios/dev_pipeline.py:236-261 | Publishing is entered, and the end of the pipeline reached, only after passing tests and no unreferenced criterion |
| `DevPipeline.CompletionExact` | smart_store_aios/dev_pipeline.py:176-185 | Over every run a completion leaves a published, passed checkpoint if and only if codex was on for the completing worker or the checkpoint was at its end already |
| `DevPipeline.DoneIsDelivered` | smart_store_aios/dev_pipeline.py:176-185 | While codex is on for every worker, a done job was published after a passed verification |
| `DevPipeline.DoneUnverified` | smart_store_aios/dev_pipeline.py:177-178 | A concrete run with codex off, its default, leaves a job done at its first stage with no test run |
| `DevPipeline.ResumesForward` | smart_store_aios/dev_pipeline.py:190-192 | A resumed job never goes back a stage, and spent rounds stay spent |
| `PipelineOutcomes.WorkTurn` | smart_store_aios/dev_pipeline.py:176-192 | Under a held lease a turn at spec, implement or publish saves the stage after it |
| `PipelineOutcomes.VerifyExact` | smart_store_aios/dev_pipeline.py:236-261 | A verification under a held lease: passing tests lead to publishing; failing ones get one saved and counted fix call exactly while rounds are left and the last fix changed something; otherwise the attempt ends without one |
| `PipelineOutcomes.LostLeaseIsHarmless` | smart_store_aios/dev_pipeline.py:187-192 | A pipeline whose lease ran out or went to another worker changes no job |
| `PipelineOutcomes.LeavingExact` | smart_store_aios/worker.py:26-64 | A pipeline leaves its job done, waiting or dead with its checkpoint kept |
| `DevPipeline.Pipeline.StageVerify` | smart_store_aios/dev_pipeline.py:236-261 | Verification either moves to publishing with passed tests, spends one fix round, or ends the attempt |
| `DevPipeline.Pipeline.OneTurn` | smart_store_aios/dev_pipeline.py:176-185 | Each turn reaches a later stage or leaves fewer fix rounds |
| `DevPipeline.Pipeline.Run` | smart_store_aios/dev_pipeline.py:176-185 | An uninterrupted run ends; with codex on its success means finished and passed, with codex off it succeeds at once and leaves the job as it was |
| `DevPipeline.Pipeline.RunJob` | smart_store_aios/worker.py:26-64 | A job the worker around the pipeline marks done is delivered if and only if codex was on or its checkpoint was at the end before |
| `OrderBridge.ParseNaverDetails` | packages/store_core/channel_order_contracts.py:114-148 | Rows parse exactly when identifiers, states, quantities and amounts are right, no line repeats and the lines are those requested; one snapshot per row in order |
| `OrderBridge.ParseCoupangDayPage` | packages/store_core/channel_order_contracts.py:160-200 | Shipments parse exactly when numbers, states, sequences, counts and prices are right and no shipment line repeats; one snapshot per line in order |
| `OrderBridge.NormalizeDemoOrder` | packages/store_core/ingestion.py:95-158 | A KRW item at revision 1 is accepted exactly when identifiers, quantities, prices, line keys, the added-up amount and the payload's size are right |
| `BridgeCrossing.NormalExact` | packages/store_core/ingestion.py:95-158 | What is accepted, clause by clause: identifiers, 1 to 100 lines of positive quantity and price, no key twice, the sum and 64 KiB |
| `OrderBridge.BridgeIsCanonical` | packages/store_core/contract_demo_bridge.py:41-76 | Any permutation of the page's rows yields the same items |
| `OrderBridge.BridgeConserves` | packages/store_core/contract_demo_bridge.py:41-76 | The items' totals are the page's prices times quantities, and there are as many item lines as channel lines |
| `OrderBridge.LineIsPlaced` | packages/store_core/contract_demo_bridge.py:41-76 | Each channel line is a line of its own order's item, with its quantity and price |
| `OrderBridge.LinePlacedOnce` | packages/store_core/contract_demo_bridge.py:41-76 | No channel line is placed twice |
| `BridgeCrossing.AmountNeverDisputed` | packages/store_core/ingestion.py:117-155 | An item the bridge builds is refused only for identifiers or the number of lines; neither the amount check nor the size limit can ever fail |
| `BridgeCrossing.BridgeExact` | packages/store_core/contract_demo_bridge.py:22-76 | Exactly which parsed pages cross the bridge, said of the page itself: complete, every row an undisputed sale of a bound product, at most 100 orders of at most 100 lines, no SKU twice in an order |
| `BridgeCrossing.NaverSaleExact` | packages/store_core/channel_order_contracts.py:114-148 | Parser and bridge together let exactly those Naver rows through that are paid in full at their unit price, unclaimed and undelivered, of a bound product, each as a line of its own quantity and price |
| `BridgeCrossing.CoupangSaleExact` | packages/store_core/channel_order_contracts.py:160-200 | And exactly those Coupang shipments that are instructed, without discount or shipping charge, nothing of them cancelled or held, every product bound |
| `BridgeCrossing.AdaptNaver` | packages/store_core/contract_demo_bridge.py:22-76 | End to end: exactly which Naver rows become orders, and which |
| `BridgeCrossing.AdaptCoupang` | packages/store_core/contract_demo_bridge.py:22-76 | End to end: exactly which Coupang shipments become orders, and which, no claim being open |
| `OrderBridge.Group` | packages/store_core/contract_demo_bridge.py:41-62 | The dictionary of groups holds each order's rows, its keys read in order |
| `OrderBridge.Load` | packages/store_core/contract_demo_bridge.py:22-76 | The constructor's loops build exactly the specified items |
| `Settlement.ReconciledBalances` | packages/store_core/finance01.py:46-72 | A reconciled batch accounts for everything: each row's order is known in its currency, its sales sum to its total, and the realized amounts sum to all rows |
| `Settlement.ReconciledExact` | packages/store_core/finance01.py:46-72 | A batch reconciles exactly when each row's order is known in its currency and the sales of that order add up to its total |
| `Settlement.ProfitExact` | packages/store_core/finance01.py:55-68 | What a batch says of each order: reconciled exactly when its sales add up to its total and all its rows are in its currency, with what was then realized and projected |
| `Settlement.ImportExact` | packages/store_core/finance01.py:24-44 | Exactly which imports are taken: some rows, each source once, identifiers and currencies well formed, the rows its key was used for |
| `Settlement.SumExact` | packages/store_core/finance01.py:57-62 | The sums over lines are sums: of single lines of the order, added up over parts |
| `Settlement.MatchRows` | packages/store_core/finance01.py:46-62 | The loop groups every matched line with its order and clears the flag exactly when some row does not match |
| `Settlement.SettlementRepository.ImportDemoSettlement` | packages/store_core/finance01.py:24-76 | The stored batches move exactly as the import says: malformed rows and a key used for other rows conflict, a replay adds nothing |
| `Settlement.KeyIsOneBatch` | packages/store_core/repository.py:568-573 | Over every run of imports a key yields the very batch it first made, whatever has become of the orders since, and refuses other rows |
| `AuditChain.AuditLog.Audit` | packages/store_core/service.py:728-741 | Auditing appends one event linked to the last hash |
| `AuditChain.AuditLog.VerifyAuditChain` | packages/store_core/service.py:714-726 | The loop passes exactly the logs whose every event is linked |
| `AuditChain.BuiltPasses` | packages/store_core/service.py:714-741 | Every log built by auditing passes, with its entries in order |
| `AuditChain.LastHashDeterminesLog` | packages/store_core/service.py:714-741 | With an injective digest two passing logs ending in one hash are identical, length included |
| `AuditChain.PrefixPasses` | packages/store_core/service.py:714-726 | A truncated log still passes: verification alone does not see a missing tail |
| `AuditChain.AlterationIsSeen` | packages/store_core/service.py:714-726 | With an injective digest any altered entry makes verification fail |
| `IsoTime.TextOrderIsTimeOrder` | packages/store_core/sqlite_repository.py:1475-1483 | Comparing isoformat() text compares the instants, fraction present or absent, so the SQL predicates decide as datetimes do |
| `IsoTime.SameTextIsSameTime` | smart_store_aios/db.py:78-85 | Equal text is the same instant, so `<=` and `<` agree on both sides |
| `IsoTime.ZuluOrderExact` | smart_store_control/pm.py:61-62 | With a Z suffix the text order is right exactly unless two instants share a second and just one lacks a fraction |
| `IsoTime.ZuluReverses` | smart_store_control/pm.py:61-62 | A concrete pair where the Z form reverses the order |
| `ControlPool.PickIsBest` | smart_store_control/pm.py:157-186 | The chosen task is wanted, of highest priority, and the earliest of those; none exactly when none is wanted |
| `ControlPool.LaneOfNumbered` | smart_store_control/pm.py:121-123 | A numbered worker belongs to the lane its name starts with |
| `PoolOutcomes.LaneOfExact` | smart_store_control/pm.py:121-123 | Exactly which names are numbered; any other name is a lane of its own |
| `ControlPool.TaskLedger.Claim` | smart_store_control/pm.py:157-186 | The ledger moves exactly as the claim says, within the lane's slots |
| `ControlPool.TaskLedger.ClaimReview` | smart_store_control/pm.py:382-396 | The ledger moves exactly as the review claim says |
| `ControlPool.TaskLedger.RequeueStale` | smart_store_control/pm.py:315-347 | Exactly the held tasks judged stale are recovered |
| `ControlPool.TaskLedger.RequeueBlocked` | smart_store_control/pm.py:478-505 | The loop reopens exactly the specified tasks, at most `limit` of them |
| `ControlPool.TaskLedger.RunTriage` | smart_store_control/triage.py:107-170 | The triage loop leaves exactly the specified ledger |
| `ControlPool.GuardSpends` | smart_store_control/loopguard.py:127-165 | A remedy gives a fresh budget only to a task that never had one |
| `PoolOutcomes.PoolClaimExact` | smart_store_control/pm.py:157-186 | A claim succeeds exactly while the lane has a free slot and a task is open to it, gives the first of those and touches no other |
| `PoolOutcomes.ReviewClaimExact` | smart_store_control/pm.py:382-396 | A review is claimed exactly while work and reviews leave a local slot free |
| `PoolOutcomes.VerdictExact` | smart_store_control/loopguard.py:127-165 | When a task is stopped (three hours of work, a relapse, an incurable loop), when it gets its one remedy (any other loop), and that nothing else is ever a verdict |
| `PoolOutcomes.TriageExact` | smart_store_control/triage.py:107-170 | One triage of one task by what it finds: remedied, handed on, requeued at no cost, landed, taken back, or left alone |
| `PoolOutcomes.NothingStuck` | smart_store_control/triage.py:107-170 | After a triage every blocked task still has retries, has been to Codex, or waits for Claude Code |
| `PoolOutcomes.EndingsExact` | smart_store_control/pm.py:189-204 | What the end of an implementation, a review, a landing or a heartbeat leaves, the last twenty failures remembered |
| `PoolOutcomes.NewTaskExact` | smart_store_control/pm.py:416-422 | A new task is ready, nobody's, with its whole budget and no history |
| `PoolOutcomes.RequeueExact` | smart_store_control/pm.py:478-505 | A pass reopens exactly the first `limit` candidates, or all when there are fewer, each at the cost of one retry, and touches no other task |
| `ControlPool.ReopenedAtMostSixTimes` | smart_store_control/pm.py:478-505 | In every operator-free run requeue_blocked reopens a task at most six times |
| `ControlPool.ClaimWithinExact` | smart_store_control/pm.py:157-186 | A successful claim keeps every lane within its slots if and only if it was made for the worker's own lane or that lane has a free slot |
| `ControlPool.LanesWithinSlots` | smart_store_control/pm.py:157-186 | With constant capacity no lane ever exceeds its slots, local work and reviews together included, if and only if every claim of the run met that condition |
| `ControlPool.OwnLanesWithinSlots` | smart_store_control/pm.py:157-186 | Workers that claim for their own lane never overrun one |
| `ControlPool.StepsAreOperations` | smart_store_control/pm.py:478-505 | The counted steps of a run do to the tasks exactly what the ledger's operations do |
| `ControlPool.ForeignClaim` | smart_store_control/pm.py:157-186 | A claim made for another lane is charged to the worker's own lane, whose slots nobody checked |
| `ControlPool.ForeignLaneOverruns` | smart_store_control/pm.py:157-186 | A concrete run from the empty ledger, with one slot everywhere, in which claims for another lane leave a lane two tasks |

## Left out

- Tenants: each store is that of one tenant; other tenants appear as rows in the provider's ledger and the budget ledger that change at any time.
- Identifiers: random ids are row numbers, so a fresh id is never taken.
- Digests: a digest is the value that is hashed, which makes it injective; only the audit chain keeps a digest function and asks for injectivity where it is needed.
- Time: the clock is read once per transaction; the worker's poll takes one reading per step.
- Audit rows of the control plane, and outbox events other than `tool.command`, are kept only as their idempotency keys; the worker would claim and fail such events.
- Command keys: `Named` stands for any text that is not the key of a purchase order; those have constructors of their own, which any caller may use.
- Reasons, goals, email addresses and the format of identifiers in the control plane; the bridge and the normaliser do check theirs.
- PollOutcomes.PollDelivers: progress is promised for an undisturbed poll only; the worker leaves DISPATCHING and RECONCILING attempts as they are, so nothing is promised about progress after a crash.
- EffectTheorems.VerdictTrueAndFinal: MANUAL_REVIEW says nothing about the ledger, because an effect may follow it.
- ToolWorker.DemoToolCommandWorker.ProcessNext: a worker is built with a provider whose ledger is another file than the service's; with the same file every call is refused (`DemoExecution.Admitted`).
- ExactlyOnce.RunKeeps: changes of membership, stops, controls and manifests are unrestricted steps, not the operations that make them.
- Outbox.RunAccounts: the bound on failures is stated for the SQLite form, because the in-memory form counts none.
- Outbox.SqliteOutbox: checkpoint contents and stored error texts.
- Transactions: table rows are integers under string keys, and the lock of the in-memory form serialises its callers.
- Budget.BudgetRepository.RecordDemoAgentRun: the administrator's right and the format of the request's texts are checked before, outside the model.
- Budget: tokens and model tiers, the text of a run; a cost that would not fit a column is refused before.
- Budget.TenantWithinLimits: a policy change in between starts a new count, and the total number of runs is not bounded by it.
- Routing: malformed quote objects; a quote is a supplier, a cost and an available quantity.
- PurchaseOrders: tracking, order-line versions, replay of an order by its external key, and the body of a supplier response beyond its kind and digest.
- JobQueue: payload contents; a row that cannot be decoded is marked corrupt, and its burial is one step with the claim, with `ClaimThenDie` for a worker lost in between.
- DevPipeline: the model, git, tests and the security scan are results a turn is given; worktrees, prompts and path guards; retry times are delays a caller chooses.
- OrderBridge.ParseNaverDetails: the types of JSON values and the size of the whole page.
- OrderBridge.ParseCoupangDayPage: the same, with response code, currency and cursor text; whether a further page follows is given to `BridgeCrossing.AdaptCoupang`, as is the parsed claim page.
- OrderBridge.NormalizeDemoOrder: currency, revision and event id, which the bridge writes itself, and unknown or missing fields.
- OrderBridge: timestamps and hashes of a page, and the freshness check at reading time.
- Settlement.SettlementRepository.ImportDemoSettlement: the administrator's right, the format of channel, period and key, and audit and outbox rows; the computation of purchase costs, which an order is given with.
- IsoTime: years are four digits and every instant is in UTC, as the code writes them.
- ControlPool.TaskLedger.RunTriage: what a task's note says is a reading, and the phase `needs_operator` of a task waiting for a decision is not kept.
- ControlPool: note classification and baseline failures are readings a step is given; operator actions; lane pauses; the workflow that enqueues tasks.
- ControlPool.LanesWithinSlots: `finish` does not ask who holds the task, and capacity is assumed constant.
- Storage and surroundings: SQL schema, migrations and triggers, JSON encoding, SHA-256, regular expressions, HTTP, dashboards, command lines, files and subprocesses.
- Fixture validators, catalog, inventory, notifications, claims, readiness reports, backups and the economics of offers: they check one document at a time, or report and compute from rows without changing any state modelled here.
