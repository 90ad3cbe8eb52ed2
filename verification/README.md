# Verification of the Box's effect boundary

The Box lets agents act on the outside world only through protected external operations. This project models that
boundary and everything it commits with, and proves what the Box promises about it, in Dafny 4.11. Check it with
`dafny verify dfyconfig.toml`.

## What is modelled

**The boundary.** A database holds tasks, attempts, failure records, completions, budget envelopes and reservations,
approval requests, effect slots and external operations (`Execution`, `Resources`, `Approvals`, `Operations`). Each
transaction is a function from the whole database to a new one or to an error; an error rolls everything back. `World`
adds a clock that never runs backwards, the dispatch calls under way, and the log of calls that reached a provider.
Its events are single transactions, single provider calls and crashes, so a run is any interleaving of any number of
processes, and policy decisions and provider answers are arbitrary. `Leases`, `Staleness`, `Retries`, `Delegation`,
`Lockstep` and `Transactions` show what each transaction keeps, `Runs` carries that over all runs, and `Effects`,
`Guards`, `Stranded`, `Replay` and `Guarantees` read off the promises.

**Read off the rows.** What each call needs in order to go through, and what it leaves behind, is stated a second time
without the functions that compute it: `Terms` (authority, enforcement, decisions, signers), `Preparing`, `Endings`,
`Requests`, `Assessing`, `Undisturbed`, `Publication`, and the lemmas named `...When` and `...Means` elsewhere. `Histories`
and `Origins` trace what is on record back, over every run, to the event that put it there: each task, attempt,
completion, success, operation, signature and outcome.

**The services.** `Box` is the same database as one object whose tables are rewritten in place. `ResourceService`,
`ApprovalService`, `ExecutionService`, `OperationService`, `DispatchService`, `Sessions` and `Worker` follow the Go
code step by step on it, with rollback where a transaction fails half way, and are proved equal to the transaction
functions. The calls that are not one transaction (dispatch, reconciliation, the worker's step) let arbitrary events
of other processes happen between their steps and return a trace: each is shown to be a run of `World`, and what it
comes to when nobody else acts is stated exactly. `Recovery` is the loop that reconciles what a crash left open, and
`Senders` reads off such traces who reaches a provider.

**On top of it.** `Cases`, `CaseRuns` and `CaseService` are the workflow-case ledger; `Materialise` turns its work
into tasks and `Casework` runs both sets of tables together; `Publisher` builds and binds the effects of a review
decision, and `Publishing` publishes them through the operations service, once and again on later attempts; `Verdicts`
and `FinalVerifier` are the verifiers that race to close a case. `Scheduler` and `Evaluator` are the two algorithmic
cores.

## Where the code is weaker than one would hope

*A slot's second provider call.* One would expect a slot to be called again only after its previous sent operation
settled without effect. The code does not guarantee it: a dispatcher may stall after its commit and before its
provider call; another process then reconciles that operation, truthfully learns that there was no effect, prepares
and sends a new operation, and the stalled dispatcher wakes up and calls too. `Overtaking.OvertakenDispatcherSends` is
such a run. `Effects.JustifiedUnlessOvertaken` gives the exact condition at the moment of a call, and
`Effects.RepeatedCallExplained` what does hold of every run. `Guards` answers what a dispatcher could check:
`Effects.RecheckSuffices` shows that looking at its own operation would do, `Guards.UnpassedSuffices` gives the
weakest check of the database that does, and `Guards.UnpassedWeakest` shows that there is none weaker. Either check
must be made in one step with the provider call: a dispatcher that re-reads its row and stalls after that can still be
overtaken. Each single operation is still sent at most once.

*An approval that has run out.* An operation's approval request ends with the lease held when the operation was
prepared. Renewing the lease does not prolong it, and a repeated prepare call does not look at its expiry: it goes on
answering with an operation that can never be committed (`Stranded.StrandedRun`, `Stranded.StrandedForGood`), until
the dispatch policy refuses it or the call changes. `Stranded.AnswerUsable` gives the exact condition under which an
answer can still go out.

*Intent revisions.* The architecture decisions (section "Intent mismatch" of
docs/superpowers/architecture/2026-09-14-mvc-architecture-decisions.md) foresee that a prepared operation's slot may
receive a revised intent. The code has no such path: a changed intent under an existing key is always refused, and a
slot's revision stays 1. The model follows the code.

*Expired approvals.* The code marks an overdue request expired and then returns an error, which rolls the mark back,
so on record an overdue request stays pending (`ApprovalService.DecideOn`, `Guarantees.EveryoneSigned`).

## Model

| member | source | states |
|---|---|---|
| Effects.AtMostOnce | internal/operations/service.go:353-443 | over every interleaving of prepare, dispatch, reconciliation, lease changes and crashes, an operation reaches its provider at most once, and only after a commit made it dispatched |
| Effects.EarlierSpent | internal/operations/service.go:147-184 | of two operations of one slot the earlier has the lower sequence number and is cancelled if it was never dispatched, otherwise settled without effect |
| Effects.OneEffectPerSlot | internal/operations/service.go:147-184 | in every reachable state a slot holds at most one confirmed effect, and it belongs to the newest operation |
| Effects.JustifiedUnlessOvertaken | internal/operations/service.go:436-443 | the exact condition under which a provider call about to be made is preceded by no-effect settlements of all other sent operations of its slot: unless the slot's newest operation is already out with an outcome other than no effect |
| Effects.RecheckSuffices | internal/operations/service.go:436-443 | a dispatcher whose own operation is not settled without effect at the instant of the call cannot have been overtaken |
| Guards.UnpassedSuffices | internal/operations/service.go:436-443 | a check of the database alone, made in the same instant as the call, that makes the call justified: the slot's newest operation is the caller's own, not dispatched, or settled without effect |
| Guards.UnpassedIsSound | internal/operations/service.go:436-443 | so that check admits only justified calls, over all runs |
| Guards.PassedUnjustified | internal/operations/service.go:436-443 | whenever that check fails in a run, another run leads to the same database, the same clock and the same call about to be made, and there the call is not justified |
| Guards.UnpassedWeakest | internal/operations/service.go:436-443 | so every check of the database that admits only justified calls over all runs is at least as strict |
| Effects.FindMoment | internal/operations/service.go:443-443 | every entry of the provider log stems from one call event of the run, made when the log was exactly the entries before it |
| Effects.RepeatedCallExplained | internal/operations/service.go:147-184 | over every run, when a slot's provider is called again, the operation called earlier had settled without effect by then, or the later caller's own operation had and its dispatcher was overtaken |
| Overtaking.OvertakenDispatcherSends | internal/operations/service.go:436-443 | a concrete run in which a slot's first operation is sent while its second is at the provider with an open outcome: the stronger ordering does not hold of the code |
| Overtaking.OvertakeRuns | internal/operations/service.go:523-569 | the counterexample is a genuine run: a second process reconciles the stalled operation to no effect, prepares, commits and sends its own |
| Effects.CommitAuthorised | internal/operations/approval_gate.go:237-280 | a dispatch commit succeeds only for the attempt that prepared the operation, holding the current fence under an unexpired active lease; with the provider's capability in the task's authority and its enforcement at least the task's; under a complete decision of the active profile, made for this call, that allows it; and with every caller-named and policy-named approver on record as approving |
| Effects.DispatchAuthorised | internal/operations/service.go:355-431 | over every run, each dispatched operation has exactly one commit in its past, made under those conditions against the registry of that commit, and its approval is consumed from then on with all signatures in place |
| Effects.CommitsOnce | internal/operations/service.go:414-431 | two dispatch commits of one operation cannot both succeed in a run |
| Effects.FirstOutcomeStands | internal/operations/service.go:468-521 | operation states only move forward over every run; once confirmed or cancelled, state, cost and reference never change |
| Effects.LateReport | internal/operations/service.go:485-498 | a late report on a settled operation is accepted exactly when state, cost and trimmed reference repeat what is stored, changes nothing either way, and doubt about a settled operation changes nothing |
| Effects.SettlementRecords | internal/operations/service.go:500-513 | an accepted settlement leaves exactly its own outcome, cost and trimmed reference on that operation, and touches no other operation, attempt, approval or slot |
| Senders.ReconcilersSendNothing | internal/operations/service.go:523-569 | whatever happens around it, a call whose own steps only conclude operations, as reconciling one or all pending operations is, reaches no provider: each provider call logged meanwhile stems from another process |
| Replay.SlotIsForever | internal/operations/service.go:233-282 | a task's slot key, once bound, stays bound to the same slot with the same intent in every later world |
| Replay.ChangedIntentRefused | internal/operations/service.go:255-258 | under an existing slot key a different provider, descriptor or fingerprint never changes the world, and with all else in order the answer is an intent conflict |
| Replay.ReplayFindsSlot | internal/operations/service.go:233-282 | two successful prepare calls for one task and key, through whatever attempts and however far apart, use one slot and the same intent fingerprint |
| Replay.NoSecondOperation | internal/operations/service.go:147-184 | while an operation of a slot is dispatched and not settled without effect, no event of any process adds an operation to that slot |
| Replay.ReplayAnswersWithOpen | internal/operations/service.go:151-154 | a replayed prepare is then answered with that very operation and leaves the world as it was |
| Replay.PrepareBinds | internal/operations/service.go:141-145 | a successful prepare leaves the key bound to a slot with the requested intent and an operation in it |
| Lockstep.TouchKeepsDb | internal/operations/service.go:500-513 | changing one operation together with its own reservation and approval keeps the invariant over all operations, reservations, approvals, slots and leases |
| Transactions.PrepareInSlotShape | internal/operations/service.go:147-231 | a prepare either is answered by the slot's latest operation with nothing changed, or withdraws a prepared one that no longer fits and adds exactly one prepared operation, which becomes the latest |
| Transactions.InsertedRows | internal/operations/service.go:186-225 | a new operation comes with a reservation of the declared exposure on the task's envelope and, if one is due, a pending approval bound to its digest and exact approvers |
| Transactions.LatestIsNewest | internal/operations/service.go:821-840 | the operation with the highest sequence number is the last one inserted for its slot, and all before it are spent |
| Transactions.PrepareKeepsDb | internal/operations/service.go:120-231 | prepare keeps the joint invariant, moves records only forward and leaves the execution tables alone |
| Transactions.CommitKeepsDb | internal/operations/service.go:353-441 | the dispatch commit keeps the joint invariant and moves records only forward |
| Transactions.SettleKeepsDb | internal/operations/service.go:468-521 | settlement keeps the joint invariant and moves records only forward |
| Transactions.MarkUnknownKeepsDb | internal/operations/service.go:571-600 | classifying an outcome as unknown keeps the joint invariant and moves records only forward |
| Transactions.CancelKeepsDb | internal/operations/service.go:602-626 | withdrawing a prepared operation always succeeds, releases its reservation and keeps the joint invariant |
| Stranded.CommitWhen | internal/operations/approval_gate.go:237-280 | in every reachable state, the exact condition under which a dispatch commit goes through; the approval must be complete, exact and not run out |
| Stranded.AnswerUsable | internal/operations/approval_gate.go:184-235 | a prepare call answered with a prepared operation: that operation can still go out under some decision exactly if its approval, if it has one, is complete and has not run out, which the call does not test |
| Stranded.NeverOut | internal/approvals/service.go:209-250 | once the approval of a prepared operation has run out the operation is never dispatched, in no later world |
| Stranded.StrandedForGood | internal/operations/approval_gate.go:184-235 | until it is withdrawn it stays the newest of its slot, and the same call is answered with it and changes nothing |
| Stranded.StrandedRun | internal/operations/service.go:147-231 | a concrete run that gets there: prepared, approved by everyone in time, and then the lease renewed past the end of the approval; the attempt is in good standing |
| World.TxKeepsData | internal/state/sqlite/store.go:86-106 | every transaction of every service, committed or not, keeps leases, budget, approvals, slots, operations, retries and delegation sound together |
| Runs.OnlyCommitsDispatch | internal/operations/service.go:414-431 | no event other than a dispatch commit turns an operation into a dispatched one |
| Runs.FollowsKeepsSends | internal/operations/service.go:443-443 | the provider log stays free of repetitions and holds only dispatched operations, each with a call of its own |
| Runs.StepKeepsInv | internal/operations/service.go:284-466 | one event of any process keeps the whole invariant and only advances the world |
| Runs.RunKeepsInv | internal/operations/service.go:284-466 | so does every run, from every reachable world |
| Guarantees.ReservationsInLockstep | internal/resources/service.go:105-211 | in every reachable state operation and reservation states go together one to one: prepared or dispatched is held, unknown is unresolved, confirmed is settled at the recorded cost, cancelled is released |
| Guarantees.BudgetHolds | internal/resources/service.go:75-94 | in every reachable state settled, held and unresolved exposure is at most the hard limit plus overruns, hence within the limit when every cost stayed within its reservation |
| Guarantees.ConsumedWithDispatch | internal/operations/approval_gate.go:276-279 | an operation's approval is bound to it alone and is consumed exactly when the operation has been dispatched |
| Resources.ExposureBounded | internal/resources/service.go:227-246 | the budget invariant bounds exposure by the limit plus the overruns |
| Resources.LimitHolds | internal/resources/service.go:126-131 | without overruns on an envelope its hard limit holds |
| Resources.ReserveTakes | internal/resources/service.go:59-94 | a reservation takes exactly its amount from its own envelope, never below zero, and nothing from any other |
| Resources.SettlementsReturn | internal/resources/service.go:105-211 | first settlement returns the reserved amount less the cost, unresolved and repeats return nothing, first release returns everything; other envelopes are untouched |
| Resources.ReserveKeepsBudget | internal/resources/service.go:75-94 | reserving within what is available keeps the budget bound on every envelope |
| Resources.UpdateKeepsBudget | internal/resources/service.go:105-211 | settling, unresolving or releasing a held row keeps the budget bound, charging only its own overrun |
| ResourceService.AvailableIn | internal/resources/service.go:227-246 | one pass over the rows computes limit less settled, held and unresolved amounts of the envelope |
| ResourceService.ReserveInTx | internal/resources/service.go:59-94 | in-place reservation equals its specification, errors leaving the rows alone |
| ResourceService.SettleInTx | internal/resources/service.go:105-135 | in-place settlement equals its specification, replay included |
| ResourceService.MarkUnresolvedInTx | internal/resources/service.go:146-173 | in-place move to unresolved equals its specification |
| ResourceService.ReleaseInTx | internal/resources/service.go:184-211 | in-place release equals its specification |
| Guarantees.EveryoneSigned | internal/approvals/service.go:266-328 | in every reachable state a request is approved or consumed only if exactly the required principals approved and none rejected; it is rejected exactly if someone rejected; it is never expired on record |
| Approvals.ExcessUnreachable | internal/approvals/service.go:314-328 | only required principals decide, so the approvals never outnumber the required and equal counts mean equal sets: the excess branch is dead |
| Approvals.DecisionTakesEffect | internal/approvals/service.go:299-328 | an accepted decision is on record, touches no other request, approves exactly when all required principals have approved, and rejects on any rejection |
| Approvals.DecideKeepsApprovals | internal/approvals/service.go:266-328 | decisions keep the all-must-sign invariant and never rewrite an earlier verdict |
| Approvals.ConsumeKeepsApprovals | internal/approvals/service.go:209-250 | consumption keeps the invariant and only moves an approved request |
| Approvals.CreateKeepsApprovals | internal/approvals/service.go:50-96 | filing keeps the invariant and every existing row |
| ApprovalService.DecideOn | internal/approvals/service.go:252-329 | the decision is committed or rolled back as a whole, exactly as specified: the expired mark made before the error does not survive |
| ApprovalService.DecideInTx | internal/approvals/service.go:266-329 | the transaction body agrees with the specification whenever it succeeds and fails with its error |
| ApprovalService.CreateInTx | internal/approvals/service.go:50-96 | filing in place equals its specification, replay and conflict included |
| ApprovalService.ConsumeInTx | internal/approvals/service.go:209-250 | consumption in place equals its specification |
| Strings.Normalise | internal/approvals/service.go:387-401 | the normalised list is ascending, without repetition, and holds exactly the trimmed non-blank entries |
| Strings.AscendingUnique | internal/operations/approval_gate.go:88-100 | a set has one ascending listing, so comparing normalised lists entry by entry compares the sets |
| Strings.TrimTight | internal/approvals/service.go:412-416 | trimming leaves no blank at either end and changes nothing that has none |
| Approvals.ExcessNeverReported | internal/approvals/service.go:287-328 | the error for an excess of decisions reaches only principals who are not required |
| Guarantees.ChildGroundedLater | internal/execution/service.go:86-166 | a child checked against its parent before the transaction still attenuates the parent when it is inserted, whatever happened in between |
| Guarantees.SingleLiveLease | internal/execution/service.go:188-237 | in every reachable state a task has at most one active attempt, executes exactly while its current attempt is active, and its attempts hold each fence from 1 to the current one exactly once, the current attempt the largest |
| Guarantees.StaleForever | internal/execution/service.go:293-337 | once the fence check rejects an existing attempt it rejects it in every later world |
| Guarantees.StaleAttemptsAreInert | internal/execution/service.go:339-350 | no later renew, fail, complete, prepare, cancel or dispatch commit through a rejected attempt changes anything, ever |
| Guarantees.OthersAreStale | internal/execution/service.go:322-324 | while one attempt of a task passes the check every other attempt of it is rejected |
| Staleness.StaleMeans | internal/execution/service.go:322-335 | an attempt is rejected exactly when its lease is no longer active or its time has run out |
| Staleness.ApplyAdvances | internal/execution/service.go:168-440 | no execution transaction revives an attempt, reopens a parked task, or rewrites a specification or failure record |
| Leases.ApplyKeepsLeases | internal/execution/service.go:188-237 | every execution transaction keeps the lease and fence invariant |
| Leases.StartKeepsLeases | internal/execution/service.go:188-237 | leasing a task hands out the next fence and keeps all earlier ones distinct |
| Leases.DropKeepsLeases | internal/execution/service.go:375-388 | ending a live attempt together with its task's executing state keeps the invariant |
| Leases.RecoverKeepsLeases | internal/wake/service.go:242-284 | recovery keeps the invariant |
| LeaseEffects.StartGrants | internal/execution/service.go:168-242 | a new attempt passes the check exactly until its lease ends, all earlier attempts of the task are shut out, other tasks see no change |
| LeaseEffects.RenewExtends | internal/execution/service.go:244-256 | a renewed attempt passes exactly until the renewed lease ends; no other attempt is affected |
| LeaseEffects.EndingsShutOut | internal/execution/service.go:258-440 | revoking, failing, completing or challenging shuts the attempt out for good and no attempt of another task notices |
| LeaseEffects.RecoveryIsInvisible | internal/wake/service.go:200-284 | recovery changes no answer the fence check could give from then on |
| LeaseEffects.RecoveryFrees | internal/wake/service.go:261-268 | after recovery no task executes under an overdue lease, freed tasks are eligible, others untouched |
| Guarantees.RetriesEnd | internal/execution/service.go:362-392 | a task's failures never exceed its distinct signatures by more than one, and a repeated signature leaves it parked |
| Guarantees.ParkedForever | internal/execution/service.go:375-392 | a parked task can never be leased again in any later world |
| Guarantees.WorkerRetriesEnd | internal/scheduler/worker.go:189-193 | over any run in which only workers fail a task, k executor kinds record at most 2k + 1 failures, whatever happens to the leases in between |
| Retries.FailMoves | internal/execution/service.go:371-388 | a failure adds one record and blocks the task exactly when its signature had failed before, touching no other task |
| Retries.ApplyKeepsRetries | internal/execution/service.go:362-392 | every execution transaction keeps the retry bound |
| Retries.FailuresBounded | internal/execution/service.go:371-376 | the bound on failure records and the parking on the first repetition |
| Retries.WorkerFailuresBounded | internal/scheduler/worker.go:189-193 | the worker has two signatures per executor kind, so at most 2k + 1 records |
| Guarantees.DelegationHolds | internal/execution/service.go:86-166 | in every reachable state any descendant stays inside every ancestor: authority, enforcement, purpose, envelope and time window |
| Delegation.DelegationAttenuates | internal/execution/service.go:86-166 | attenuation from parent to child carries over any number of generations |
| Delegation.RootAbove | internal/execution/service.go:86-92 | every task is a root or has a root above it |
| Delegation.InsertKeepsSpecs | internal/execution/service.go:526-573 | insertion or replay keeps attenuation and one task per idempotency key |
| Execution.ChildGrounded | internal/execution/service.go:86-166 | an admitted child request attenuates its parent and requires no more than its own authority |
| Execution.RootGrounded | internal/execution/service.go:641-671 | an admitted root request requires no more than its authority and has a sound window |
| ExecutionService.NormaliseRoot | internal/execution/service.go:641-671 | the loops over criteria, capabilities and authority equal the specification |
| ExecutionService.NormaliseChild | internal/execution/service.go:93-163 | inheritance and containment checks in the code's order equal the specification |
| ExecutionService.NormaliseAuthority | internal/execution/service.go:105-128 | what a child requires and may use is accepted exactly when contained in its parent's authority and its own |
| ExecutionService.NormaliseWindow | internal/execution/service.go:148-163 | the child's window is accepted exactly when inside its parent's |
| ExecutionService.CreateTask | internal/execution/service.go:75-84 | creation commits or is rolled back as specified, and with an admissible request is one step of the transition system |
| ExecutionService.CreateChildTask | internal/execution/service.go:86-166 | child creation commits or is rolled back as specified, and with an admissible request is one step of the transition system |
| ExecutionService.InsertTaskInTx | internal/execution/service.go:526-573 | guard, insert or replay by idempotency key, purpose check, as specified |
| ExecutionService.Lease | internal/execution/service.go:168-242 | leasing in place equals its specification |
| ExecutionService.Renew | internal/execution/service.go:244-256 | renewal in place equals its specification |
| ExecutionService.Revoke | internal/execution/service.go:258-291 | revocation in place equals its specification |
| ExecutionService.Fail | internal/execution/service.go:352-394 | failing in place equals its specification, counting repeats after the insertion |
| ExecutionService.CountFailures | internal/execution/service.go:371-376 | one pass counts the records of a task with a signature |
| ExecutionService.Challenge | internal/execution/service.go:396-442 | challenging in place equals its specification |
| ExecutionService.Complete | internal/verification/service.go:62-120 | completion in place equals its specification (`Endings.CompleteLeaves`) |
| ExecutionService.Accept | internal/verification/service.go:122-224 | acceptance in place equals its specification |
| ExecutionService.RecoverExpiredLeases | internal/wake/service.go:200-284 | the two loops lapse every overdue lease at once and free its task, and the answer is their number |
| OperationService.Prepare | internal/operations/service.go:72-231 | the whole call commits exactly when specified (`Preparing.PrepareWhen`) and answers with the latest operation of the slot of its key, or nothing of it remains |
| OperationService.PrepareInSlotInTx | internal/operations/service.go:147-225 | reuse, withdraw and re-prepare, or insert, step by step as specified |
| OperationService.InsertInTx | internal/operations/service.go:186-225 | reservation, approval request and operation row in the code's order, as specified |
| OperationService.ResolveSlotInTx | internal/operations/service.go:233-282 | slot resolution in place equals its specification |
| OperationService.Commit | internal/operations/service.go:353-441 | the dispatch transaction commits exactly when specified (`Stranded.CommitWhen`) or is rolled back |
| OperationService.ConsumeApprovalInTx | internal/operations/approval_gate.go:237-280 | the approval gate at dispatch equals its specification |
| OperationService.CancelPrepared | internal/operations/service.go:602-626 | withdrawal in place equals its specification, rolled back on error |
| OperationService.SettleOutcome | internal/operations/service.go:468-521 | settlement in place equals its specification and answers with the operation on record |
| OperationService.MarkUnknown | internal/operations/service.go:571-600 | classification in place equals its specification and answers with the operation on record |
| DispatchService.Dispatch | internal/operations/service.go:284-466 | the multi-step call, with any other processes acting between its steps, is a run of the transition system. What it finds decides its own steps: an operation prepared by this attempt is committed first of all exactly if the decision is complete, made for this call and allows it and the task was granted the provider, and is withdrawn if not; one that is out is only asked about; anything else is left alone. Undisturbed, it comes to what `Undisturbed.Delivers` and `Undisturbed.Withdraws` say. A reported success is a confirmed outcome on record, and the operation returned beside an error is the record as it stood during the call |
| DispatchService.Reconcile | internal/operations/service.go:523-569 | reconciliation is a run whose own steps never send; success is a confirmed outcome on record, and success or unknown leaves the operation no longer dispatched |
| Recovery.ReconcilePending | internal/operations/reconciler.go:34-72 | a return without error leaves no operation of the snapshot dispatched; its own steps never send; undisturbed, it fails exactly if some operation's provider is missing or states a negative cost, and otherwise every operation that was out is as its lookup said and no other has changed |
| DispatchService.Inquire | internal/operations/service.go:300-304 | dispatching an operation that is already out only asks for its outcome |
| DispatchService.SendOut | internal/operations/service.go:353-466 | commit, provider call and record, each possibly preceded by others' work or cut off by a crash |
| DispatchService.Withdraw | internal/operations/service.go:342-351 | a refused dispatch only withdraws the operation and reports an error |
| Sessions.StaleSessionIsDead | internal/capabilities/session.go:147-182 | once its attempt is rejected a session admits no call in any later world |
| Sessions.SessionEndsWithFirstLease | internal/capabilities/session.go:155-157 | a session ends with the lease it was opened under: renewal does not prolong it |
| Sessions.SessionsStayOk | internal/capabilities/session.go:152-154 | the task and fence a session was opened with stay those of its attempt, so the mismatch branch needs a foreign session |
| Sessions.SessionStore.OpenSession | internal/capabilities/session.go:40-97 | opens exactly when the attempt passes the check and every named capability is active and usable, binding fence, lease end and definitions |
| Sessions.SessionStore.Call | internal/capabilities/session.go:125-187 | two reads of the session, with others acting on the Box, revoking and opening sessions in between: admitted exactly when the second read admits; nothing the first read refuses would be admitted then |
| Sessions.SessionStore.Revoke | internal/capabilities/session.go:99-123 | revocation is permanent and touches no other session |
| Worker.StepOnce | internal/scheduler/worker.go:75-121 | a step is a run of at most one lease and one ending of the very attempt leased, by completion or by a failure under the worker's own signature, and reports exactly what these transactions told it; an error-free step that was not idle leaves that attempt rejected by the fence check, whatever others did to the lease; completed means the attempt is completed on record |
| Worker.Finish | internal/scheduler/worker.go:163-204 | completion exactly if the execution succeeded with evidence, and otherwise failure under the signature of its kind; losing the lease meanwhile counts as failed, any other error comes through |
| Scheduler.BeforeTransitive | internal/scheduler/service.go:263-285 | the candidate order is transitive |
| Scheduler.BeforeTotal | internal/scheduler/service.go:263-285 | the candidate order decides any two candidates with different identifiers |
| Scheduler.BeforeAsymmetric | internal/scheduler/service.go:263-285 | the candidate order is asymmetric |
| Scheduler.Next | internal/scheduler/service.go:61-106 | the result is the candidate before all others among the rows passing the time, purpose, dependency, capacity, authority and budget filters; nothing exactly when none passes; an error exactly from a row that could not be assessed |
| Scheduler.OrderIrrelevant | internal/scheduler/service.go:71-106 | two readings of the same rows in different orders choose the same candidate or both fail |
| Scheduler.SortStable | internal/scheduler/service.go:104-105 | the sorted list is an ordered permutation of the candidates |
| Scheduler.CapacityEligible | internal/scheduler/service.go:240-248 | the capacity loop accepts exactly when every required capability is accessible and sufficiently enforced |
| Scheduler.AuthorityEligible | internal/scheduler/service.go:250-261 | the authority loop accepts exactly when requirements lie within authority |
| Scheduler.ChooseExecutor | internal/scheduler/service.go:108-145 | the first eligible kind by name, or the eligible preference; an ineligible preference is an error |
| Evaluator.AcceptanceGap | internal/experience/evaluator.go:182-188 | with samples on both sides: not regressed bounds the true acceptance gap below (maxBps + 1)/10000, regressed puts it above maxBps/10000 |
| Evaluator.WithoutBaseline | internal/experience/evaluator.go:184-185 | without a baseline a preference is regressed exactly when some sample was not accepted |
| Evaluator.AloneRegressed | internal/experience/evaluator.go:182-188 | on the code's own tallies: if nobody but the preferred executor has outcomes on record, the preference is regressed exactly when some outcome was not accepted, whatever the tolerance |
| Evaluator.CostGap | internal/experience/evaluator.go:189-195 | with costs on both sides and a positive rounded baseline: not regressed bounds the true mean cost by the true baseline mean times 1 + (maxBps + 1)/10000 plus one; regressed puts it above the baseline mean less one times that factor |
| Evaluator.GapBounds | internal/experience/evaluator.go:183-187 | how far rounded rates can lie from true ones |
| Evaluator.Baseline | internal/experience/evaluator.go:30-32 | merging the map entries in any order gives the tally of all outcomes by other executors |
| Evaluator.OutcomeStats | internal/experience/evaluator.go:161-180 | one entry per executor, each the tally of its outcomes |
| Evaluator.TallyAdds | internal/experience/evaluator.go:196-196 | merging adds tallies of disjoint executors |
| Evaluator.RuleBook.Evaluate | internal/experience/evaluator.go:22-92 | with any evaluations of others in between, the call is one more evaluation of the run: the next version is chosen from what was read before the transaction, and if another version was inserted meanwhile the insertion fails and nothing is written |
| Evaluator.EvaluationsKeep | internal/experience/evaluator.go:22-92 | every interleaving of evaluations, however stale what each has read, keeps the rule's versions a proper history and only adds to them |
| Evaluator.StatesOnlyAdvance | internal/experience/evaluator.go:34-50 | over every run of evaluations from the empty table versions grow by one, active never returns to shadow, rolled back is final and comes only after active |
| Evaluator.InsertWhenCurrent | internal/state/sqlite/migrations/00010_field_feedback.sql:211-211 | under the uniqueness of versions an insertion succeeds exactly when the rule read was still the latest |
| Evaluator.ActivationBounds | internal/experience/evaluator.go:182-195 | an activation against a baseline bounds the true acceptance gap and the true mean cost |
| CaseRuns.CaseBounds | internal/workflowcase/assessment.go:67-105 | in every reachable ledger steps equal the stored assessments and stay within the maximum, the budget is within the opening one, and an active case has a step and budget left and a proposal within its grant |
| CaseRuns.CasesMove | internal/workflowcase/assessment.go:67-105 | over every run the budget never rises, steps never fall, and a blocked or closed case never changes |
| CaseRuns.AssessmentReplays | internal/workflowcase/assessment.go:41-50 | repeating an assessment at any later time finds the stored answer and changes nothing; a different request for the work is refused |
| CaseRuns.OneVerdict | internal/state/sqlite/migrations/00015_workflow_verifications.sql:43-43 | over every run a case has at most one verdict, closed and rejected exclude each other, and the verdict is never replaced |
| CaseRuns.DecisionBounds | internal/workflow/decision.go:82-104 | a decision to continue implies steps and budget left and a proposal contained in the grant |
| CaseRuns.AssessKeepsLedger | internal/workflowcase/assessment.go:40-118 | assessment keeps the ledger invariant and only advances cases |
| CaseRuns.EnsureKeepsLedger | internal/workflowcase/service.go:494-521 | observing keeps the ledger invariant and one case per observed revision |
| CaseRuns.EndKeepsLedger | internal/workflowcase/service.go:276-305 | recording a verdict and ending its case together keeps the invariant |
| CaseRuns.CaseRunKeeps | internal/workflowcase/service.go:227-540 | every run of the ledger keeps the invariant |
| CaseService.IsSubset | internal/workflow/decision.go:110-121 | the set-filling loop decides containment |
| CaseService.DecideWork | internal/workflow/decision.go:63-108 | the decision procedure with its loops equals the specification (`Assessing.AssessWhen`) |
| CaseService.CaseStore.Observe | internal/workflowcase/service.go:448-540 | insert unless known, then compare with the stored request, as specified |
| CaseService.CaseStore.AssessWork | internal/workflowcase/assessment.go:28-118 | replay or decide and record, exactly as specified (`Assessing.AssessWhen`), and the answer is the stored one |
| CaseService.CaseStore.CloseOnce | internal/workflowcase/service.go:243-306 | the closing transaction equals its specification and answers with the verdict on record |
| CaseService.CaseStore.CloseCase | internal/workflowcase/service.go:227-352 | the retry loop comes to what its last attempt comes to, with whatever others did before; an aborted attempt replays a verdict found meanwhile; it gives up only after twenty aborted attempts |
| CaseService.CaseStore.RejectCase | internal/workflowcase/service.go:363-436 | rejection equals its specification |
| CaseService.CaseStore.EvidenceKnown | internal/workflowcase/service.go:605-616 | the loop decides whether all evidence exists |
| CaseRuns.ObservationReplays | internal/workflowcase/service.go:494-521 | observing a revision again at any later time leads to the same case and changes nothing; any difference is refused |
| Verdicts.VerdictAgreement | internal/adoreview/verify.go:469-575 | any number of final verifiers under identities of their own, with all lookups confirmed and the mission active, racing on one case and interleaved with any other work, rejections of this case included: each that ends and has not given up on a busy database ends with what the one verdict on record means, the verdict itself if the case was closed, even where each stored a snapshot of its own, and an intent conflict exactly if it was rejected |
| Verdicts.NobodyGivesUp | internal/workflowcase/service.go:227-352 | a verifier ends with the busy error only if one of its own closes was aborted |
| FinalVerifier.RunsItsProgram | internal/adoreview/verify.go:469-514 | in every race each verifier runs the program of its own code, one step per turn, with the other verifiers and everyone else as the others acting in between |
| Verdicts.ClosingWithSeal | internal/workflowcase/service.go:243-352 | closing with a snapshot of one's own records the verdict, replays it, or conflicts exactly when the record is a rejection or was closed with another copy; only an aborted close can find no verdict |
| Verdicts.SealRecovered | internal/adoreview/verify.go:564-575 | the verdict on record yields back the very copy it was closed with, and a rejection is a conflict |
| Verdicts.AdvanceKeeps | internal/adoreview/verify.go:469-575 | each step of a verifier keeps what the race relies on |
| Verdicts.PlayKeeps | internal/adoreview/verify.go:469-575 | so does every interleaving |
| Verdicts.AdvanceEnds | internal/adoreview/verify.go:469-575 | a verifier is finished after at most six steps of its own |
| FinalVerifier.CloseFinal | internal/adoreview/verify.go:469-514 | the code's close, with others acting before each of its steps and the database aborting closing attempts, is the program the race is about |
| FinalVerifier.ChooseSeal | internal/adoreview/verify.go:530-562 | the evidence to close with: the record's, an earlier copy, or a new one |
| FinalVerifier.ReadRecord | internal/adoreview/verify.go:564-575 | the scan of the record's evidence finds its snapshot copy |
| FinalVerifier.FindByContent | internal/evidence/store.go:140-165 | the first object with the content is found |
| FinalVerifier.LookUpSlots | internal/adoreview/verify.go:415-445 | closable exactly when every slot is confirmed; otherwise the first open slot decides: an error if it cannot be asked about, waiting if its outcome is unknown, and refusal with its state if not |
| FinalVerifier.FinaliseTask | internal/adoreview/verify.go:447-467 | proceeding means the task succeeded, whoever accepted it; a task that awaits verification is accepted in one step of the transition system, and any other is left alone |
| Materialise.MaterialisedWithinGrant | internal/workflowcase/materialize.go:16-67 | although the case was read before the transaction, a committed task embodies the proposal attached to that work while the case is active, within the case's grant up to trimming |
| Materialise.OneTaskPerWork | internal/state/sqlite/migrations/00014_task_intent.sql:6-6 | tasks made from work and work identifiers go together one to one: the same task exactly if the same work |
| Materialise.MaterialiseReplays | internal/execution/service.go:551-573 | materialising a work again adds nothing and succeeds only with the same specification |
| Materialise.WorkNeverReused | internal/workflowcase/assessment.go:85-92 | over every run a work identifier never passes to another case or another proposal |
| Materialise.SpecEmbodies | internal/workflowcase/materialize.go:30-42 | class, requirements and authority of the task come from the proposal alone |
| Materialise.MaterialiseIsStep | internal/workflowcase/materialize.go:16-67 | materialisation is a step of the transition system, with the same outcome and errors, so that what holds of its runs holds of materialised tasks |
| Casework.TasksAreCasework | internal/workflowcase/materialize.go:16-67 | over every joint run of case ledger and Box in which nothing else makes up work keys: a task under a work's key was made from a case that had this work; whenever a case has it, it is that case, active, and the task is what its proposal asks for; the task's authority stays within that case's grant for good |
| Casework.AttachedOnce | internal/workflowcase/assessment.go:85-92 | over every joint run a work is attached to one case and one proposal only |
| MaterialiseService.MaterialiseTask | internal/workflowcase/materialize.go:16-67 | stale read, guard inside the transaction, insert or replay; it succeeds exactly when the transaction does on the tables of that moment |
| MaterialiseService.EnsureAndMaterialise | internal/workflowcase/ensure_materialize.go:31-48 | case and first task are committed together, exactly when both can be, or not at all |
| Publisher.SlotsDistinct | internal/adoreview/publish.go:205-239 | no two intents of a decision share a slot |
| Publisher.IntentsDetermined | internal/adoreview/publish.go:205-239 | the same payload and decision always give the same intents and slots |
| Publisher.SlotsTight | internal/adoreview/publish.go:191-200 | slots of a decoded payload have no blanks at either end |
| Publisher.BuildIntents | internal/adoreview/publish.go:205-261 | succeeds exactly on a valid decision and yields one intent per comment in order, or the one vote |
| Publishing.Start | internal/adoreview/publish.go:93-177 | a hold is only recorded, an invalid decision fails before anything is prepared, and otherwise the intents are published in order |
| Publishing.Publish | internal/adoreview/publish.go:129-176 | the publishing loop on the operations service itself, with others acting throughout, is a run that prepares nothing but its intents; entries are an in-order prefix of the intents, without an error all of them or up to the first unknown outcome, all before settled or passed over; each names the newest operation of its key's slot with a state that was on record. Undisturbed, each intent in turn is left out or published alone, and an error is that of the next intent |
| Publishing.PublishOne | internal/adoreview/publish.go:143-174 | prepare and dispatch of one intent, the operation returned beside an error read as the code reads it; undisturbed, it comes to what `Publication.PublishesAlone` says |
| Publishing.HoldsStill | internal/adoreview/publish.go:171-173 | what an entry says of the records holds in every later world |
| Publishing.Republished | internal/operations/service.go:147-184 | publishing the same decision of the same payload on two attempts of one task, as two stretches of one run that may overlap: intent by intent both use one slot, of two operations the earlier is spent, at most one effect is reported and final reports agree word for word; what the first had put on the books before the second began is found again |
| Publishing.RepublishedAfter | internal/operations/service.go:147-184 | when the first run is over before the second begins: an effect that is out and not known to be without effect gets no second operation, and a confirmed effect is reported again entry for entry |
| Publisher.BindEntries | internal/adoreview/verify.go:383-413 | binding succeeds exactly when no entry is skipped or merely recorded and the trimmed slots are a permutation of the intended ones |
| Publisher.VerifyEntries | internal/adoreview/driver.go:371-409 | the driver's check succeeds exactly when the entries bind and every effect is confirmed |
| Publisher.EncodeEntries | internal/adoreview/publish.go:271-284 | the evidence text is the encoded entries joined by newlines |
| Publisher.DecodeEntries | internal/adoreview/driver.go:446-471 | decoding succeeds exactly when there is a message and every line of every message reads as an entry |
| Publisher.SplitJoined | internal/adoreview/driver.go:449-449 | splitting at newlines undoes joining |
| Publisher.EvidenceRoundTrip | internal/adoreview/publish.go:271-284 | what is written is read back entry by entry, and as nothing else |
| Publisher.CompleteRunBinds | internal/adoreview/verify.go:383-413 | the entries of a complete publish-all run bind to its intents |
| Publisher.StoreAndBind | internal/adoreview/verify.go:383-413 | written out, read back and bound, each intent gets its own entry |
| Publishing.PublishAndBind | internal/adoreview/publish.go:129-176 | a publish-all run in which everything settled binds to its intents |
| Decimals.DecimalInjective | internal/adoreview/publish.go:217-217 | different indexes print differently |
| Origins.SignedForItself | internal/approvals/service.go:266-328 | over every run, whoever had to sign for a dispatched operation, by the caller's wish or the dispatch-time policy's, did so before its commit, by an event that carried the operation's own provider, descriptor, slot, fingerprint, revision and canonical intent, while the request was pending, had not run out and required them |
| Origins.VerdictOrigin | internal/approvals/service.go:266-328 | over every run, each verdict on record was given by its own principal, required to decide, while the request was pending and had not run out, with the digest of that very request |
| Origins.OperationOrigin | internal/operations/service.go:72-231 | over every run, each operation was put on the books by one prepare call of a live attempt, within the authority and enforcement of its task and under a complete decision that allowed it; the columns it was inserted with never change |
| Origins.OutcomeOrigin | internal/operations/service.go:436-521 | over every run, the outcome an operation is confirmed with was acknowledged by its provider, in answer to the operation's own call or to a lookup, and is on record with that state, cost and trimmed reference |
| Preparing.PrepareWhen | internal/operations/service.go:72-231 | in every reachable state, the exact condition under which a prepare call goes through: a whole request, a complete decision made for this call that allows it, a live attempt, the provider's capability in the task's authority at sufficient enforcement, no other intent under the key, and either a newest operation that answers the call or room on the envelope under the active profile |
| Preparing.PrepareAdds | internal/operations/service.go:186-231 | a prepare call that adds an operation adds just that: prepared, bound to task, attempt, slot and intent, with a reservation of the declared exposure and, if somebody has to sign, a pending request for its own material that ends with the attempt's lease |
| Terms.TermsMean | internal/operations/approval_gate.go:12-100 | the gate's own tests, in terms of authority, enforcement levels, decision and signers |
| Undisturbed.Delivers | internal/operations/service.go:353-466 | a permitted dispatch that nobody disturbs calls the provider exactly once, for its own operation, exactly if lease, profile, approvers and approval are in order at its commit; then the acknowledged outcome is on record and returned, or the operation is in doubt and the outcome reported unknown; otherwise nothing changes |
| Undisturbed.Withdraws | internal/operations/service.go:342-351 | a refused dispatch that nobody disturbs sends nothing: under a live lease the operation is cancelled, its exposure released and the answer is that policy denied it; otherwise nothing changes |
| Undisturbed.Reconciles | internal/operations/service.go:523-569 | reconciliation that nobody disturbs sends nothing and leaves an operation that was out with the outcome its provider's lookup established, or in doubt; no other operation changes |
| Undisturbed.SettleLeaves | internal/operations/service.go:468-521 | the exact condition for a settlement and the exact rows it leaves: an operation that is out takes any confirmed outcome of nonnegative cost, a settled one only the same again |
| Undisturbed.DoubtLeaves | internal/operations/service.go:571-600 | the exact condition for classifying an outcome as unknown and the exact rows it leaves |
| Undisturbed.CancelLeaves | internal/operations/service.go:602-626 | the exact condition for a withdrawal and the exact rows it leaves |
| Undisturbed.CommitLeaves | internal/operations/service.go:414-441 | a commit marks the operation with its decision and consumes its approval, and changes nothing else |
| DispatchService.DispatchFound | internal/operations/service.go:306-351 | an operation found prepared is committed first of all exactly if attempt, provider, decision and authority are in order, withdrawn if only decision or authority is not, and left alone otherwise |
| Resources.ReserveWhen | internal/resources/service.go:59-94 | the exact condition for a reservation and the row it adds |
| Resources.SettleWhen | internal/resources/service.go:105-135 | the exact condition for a settlement of a reservation and the row it leaves |
| Resources.UnresolveWhen | internal/resources/service.go:146-173 | the exact condition for a move to unresolved and the row it leaves |
| Resources.ReleaseWhen | internal/resources/service.go:184-211 | the exact condition for a release and the row it leaves |
| Resources.AvailableMeans | internal/resources/service.go:227-246 | what is available is the limit less the amounts of held and unresolved reservations and the actual costs of settled ones |
| Approvals.DecideWhen | internal/approvals/service.go:266-328 | in every reachable state a decision is accepted exactly if the digest given is the request's own, the request is pending and has not run out, the principal is required, and has not decided otherwise before |
| Approvals.CreateWhen | internal/approvals/service.go:50-96 | the exact condition for filing: a whole request that has not run out, and no different one on record for the same subject and digest |
| Approvals.ConsumeWhen | internal/approvals/service.go:209-250 | consumption needs an approved request that has not run out and its own digest |
| Histories.SuccessOrigin | internal/verification/service.go:62-224 | over every run, a task has succeeded only if an acceptance with evidence found it awaiting verification, after its current attempt had completed with evidence under a live lease |
| Histories.CompletionOrigin | internal/verification/service.go:62-120 | over every run, a completion on record was brought with evidence by its own attempt while its lease was live |
| Histories.AttemptOrigin | internal/execution/service.go:168-242 | over every run, each attempt was leased on a task that was eligible at that moment, for a named executor kind and a positive time, under the fence after the task's last |
| Histories.TaskOrigin | internal/execution/service.go:526-573 | over every run, each task was created under a guard that held and a valid purpose, under a key no earlier task had, requiring no more than its authority and inside what its parent was granted |
| Endings.StartLeaves | internal/execution/service.go:168-242 | the exact condition for a lease, and the attempt and task rows it leaves |
| Endings.RenewLeaves | internal/execution/service.go:244-256 | the exact condition for a renewal, and the row it leaves |
| Endings.RevokeLeaves | internal/execution/service.go:258-291 | revocation of an active lease cancels the attempt and makes the task eligible if it executes under it; any other changes nothing |
| Endings.FailLeaves | internal/execution/service.go:352-394 | the exact condition for a failure; the task is blocked exactly if the signature was on record for it, and eligible otherwise |
| Endings.ChallengeLeaves | internal/execution/service.go:396-442 | any task can be challenged for a reason; an attempt that holds it is cancelled with it |
| Endings.CompleteLeaves | internal/verification/service.go:62-120 | the exact condition for a completion; the task awaits verification afterwards and the attempt is completed |
| Endings.AcceptLeaves | internal/verification/service.go:122-224 | the exact condition for acceptance: evidence, and a task awaiting verification whose current attempt completed; only then has it succeeded |
| Endings.RecoverLeaves | internal/wake/service.go:200-284 | recovery ends exactly the attempts whose active lease ran out and frees exactly the tasks executing under them |
| Endings.CreateLeaves | internal/execution/service.go:526-573 | the exact condition for inserting a task or finding the holder of its key |
| Requests.RootMeans | internal/execution/service.go:641-671 | the exact condition for a root request, and each column of the task it becomes |
| Requests.ChildMeans | internal/execution/service.go:93-163 | the exact condition for a child request against its parent |
| Requests.ChildInherits | internal/execution/service.go:93-166 | each column of the child: its own where the request has one, and its parent's where it may be inherited |
| Sessions.AdmittedWhen | internal/capabilities/session.go:125-187 | in every reachable state the exact condition for a call through a session, and the definition it goes to |
| Sessions.OfferedMeans | internal/capabilities/session.go:189-211 | the exact condition under which a capability is offered to a task |
| Worker.WorksAlone | internal/scheduler/worker.go:75-204 | left alone with an eligible task, a worker leaves it awaiting verification with a completion, or with one failure record more and eligible, or blocked if it had failed the same way before |
| Scheduler.NeverPassedOver | internal/scheduler/service.go:263-285 | whatever is chosen is a row that passes all filters, and no other such row has an earlier deadline, or with the same deadline unlocks more, or then has a higher priority, more budget, greater age or a smaller identifier |
| Scheduler.AssessMeans | internal/scheduler/service.go:71-103 | the exact condition under which a row becomes a candidate |
| Scheduler.FailureMeans | internal/scheduler/service.go:71-103 | a selection fails only on a question that was due and could not be answered |
| Strings.LessMeans | internal/scheduler/service.go:284-284 | the order of identifiers is that of the first character in which they differ, or of length |
| Strings.TrimCuts | internal/approvals/service.go:412-416 | trimming removes nothing but blanks, at both ends |
| Evaluator.WantedWhen | internal/experience/evaluator.go:34-60 | the exact state an evaluation comes to, and when it writes a version |
| Evaluator.WithoutGap | internal/experience/evaluator.go:182-195 | where one side has no samples or no costs, or the baseline averages less than one unit |
| Evaluator.TallyMeans | internal/experience/evaluator.go:161-180 | each outcome adds one sample to its executor's tally, one acceptance if it was accepted, and its cost if it has one |
| Assessing.AssessWhen | internal/workflowcase/assessment.go:28-118 | the exact condition for an assessment and its exact effect: Ready leaves the case ready, Unknown blocks it, Continue lets it go on with a fresh work, or blocks it if steps, budget or progress are exhausted; work assessed before takes only the same request again |
| Assessing.EnsureWhen | internal/workflowcase/service.go:448-540 | the exact condition for opening a case, or finding the one of the same revision |
| Assessing.CloseWhen | internal/workflowcase/service.go:243-306 | the exact condition for closing a case, or for replaying its verdict |
| Assessing.RejectWhen | internal/workflowcase/service.go:363-436 | the exact condition for rejecting a case |
| Assessing.ReadyAsAssessed | internal/workflowcase/assessment.go:67-118 | over every run, a case is ready or closed, or has any verdict, exactly if the last stored assessment of it said Ready, and it is ready exactly as long as it has no verdict then |
| Materialise.SpecWhen | internal/workflowcase/materialize.go:31-44 | what a template has to bring for a work to become a task, and the columns it decides |
| Materialise.MaterialiseWhen | internal/workflowcase/materialize.go:46-67 | the exact condition under which a task is made or found for a work |
| Publication.PublishableWhen | internal/adoreview/publish.go:243-261 | the exact condition under which a review decision can be published |
| Publication.IntentsMean | internal/adoreview/publish.go:205-239 | the slot, effect and marker of every comment, and the one vote of an approval |
| Publication.RequestMeans | internal/adoreview/publish.go:137-150 | the request made for an effect: provider, key, owners' approval, and one technically capped unit of exposure |
| Publication.WrittenMeans | internal/adoreview/publish.go:129-176 | what the entries of a run say, mode by mode |
| Publication.PublishesAlone | internal/adoreview/publish.go:143-174 | undisturbed, an effect that can be prepared is sent out exactly once if nothing stands in its way, and reported with the outcome the provider acknowledged or as unknown; one that is out or settled already is reported as it is found, and nothing is sent |
| Decimals.DecimalReads | internal/adoreview/publish.go:217-217 | what is printed reads back as the number, without leading zeros |
| Requests.CriteriaInOrder | internal/execution/service.go:641-671 | the criteria kept are the entries that are not blank, trimmed, in their order |
| Scheduler.NothingToDo | internal/scheduler/service.go:71-106 | nothing is chosen only if no row passes all filters |
| Strings.BlankCharacters | internal/approvals/service.go:412-416 | the characters that count as blank, one by one |
| Worker.LosesLease | internal/scheduler/worker.go:163-204 | a step whose lease has ended by the time the attempt is to be ended counts as failed and changes nothing more |
| Sessions.RevokedIsDead | internal/capabilities/session.go:99-182 | a session revoked before a call or while it is under way admits it in no case, and nothing else about sessions changes meanwhile |

## Left out

- Identifiers are row numbers (task and executor names are strings): random identifiers are taken to be distinct.
- Amounts, times, sequence numbers and versions are unbounded integers; 64-bit overflow is not modelled.
- SHA-256 digests, hashes and canonical JSON stand as the material they are computed from, that is, as injective encodings; intent fingerprints keep provider and descriptor names apart although the approval digest trims them.
- Payload JSON is kept as text: its validation and normalisation, and the difference between null and an empty list in the stored request, are not modelled.
- A transaction happens at one instant of the clock; clock readings taken before it are parameters.
- Reads before a transaction of columns that no transaction updates (a task's specification, an operation's provider and slot) are made inside it.
- Error values are classes of errors; where a call can fail for several reasons before its transaction, the model reports one of them.
- The cancel-requested flag of operations is read but never set by the code, and is left out.
- The dispatcher-claim column is represented by the presence of the dispatch decision.
- Envelopes are added and never changed, and reservations are made and settled only on behalf of operations; the public reserve, settle and release calls have no other caller in the repository.
- Approval requests for external operations are filed and consumed only by the operations service; the public calls are modelled for all other subjects.
- Policy evaluation, provider calls and lookups, intent canonicalisation and cost profiles are arbitrary inputs.
- SQLITE_BUSY is modelled only in the closing of a case, where the code retries it.
- Comparisons of timestamps as text in SQL are not modelled; where a query orders by creation time the model uses row order.
- Task dependencies are a fixed input of the scheduler; promotion of waiting tasks on acceptance is not modelled.
- Capability definitions and assessments are a given catalogue; registration, probing and token hashing are not modelled.
- The latest outcome per task is a given row of the evaluator; the ranking query, the audit entry, and the lookup of active preferences are not modelled.
- The final verifier's discovery of the producing assessment, its payload and task identity checks, and the driver's handling of terminal tasks are not modelled: given them, all verifiers of a case work from the same inputs, each under its own identity.
- Evidence blobs, execution events, challenge records, verification-work rows, manifests and provenance recorders are not modelled.
- Execution timeouts and panics of executors appear only as the outcome of an execution.
- The publisher's payload arrives decoded: the JSON reading of it is not modelled, and where slots are concerned its fields are trimmed and not blank.
- HTTP control, CLI, MCP adapters, GitHub and Azure DevOps transport, telemetry, memory, field feedback and issue parsing are not modelled.
- DispatchService.Dispatch: reports a crash of its own process as an error result, because a method must return; the operation is left as the crash left it.
