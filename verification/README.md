# VeriMat: verified models

VeriMat lets a language model propose and a deterministic core decide.  This project models that
core in Dafny and proves what its documentation and tests promise of it:

- **The event ledger** (`EventLedger`, `KeyedLog`): an append-only, hash-chained log with idempotency
  keys.  Its head fixes its contents; an append is idempotent.
- **The execution protocol** (`JobStore`, `ExecutionProtocol`, `ExecutionInvariant`,
  `ExecutionSafety`, `ExecutionProgress`, `Leases`, `AttemptOutcomes`, `StaleWorkers`, `ExecutionWorker`): workers lease a job, run
  seven stages, append events, book charges and commit checkpoints.  It is a step system in which every transaction
  and every append is one step and workers may crash, raise, lose their lease or be cancelled between
  any two.  The ledger is always a prefix of the crash-free one, a job that succeeded is complete, and
  a worker left alone recovers any job whose lease can be had, and nobody else gets a job while its lease is
  live.  `run_once` itself is a class whose
  every call is proved to be one run of that system.
- **Paid operations** (`PaidOperations`, `PaidRequests`, `CircuitBreaker`): an uncertain external call behind a
  reservation row, a circuit breaker and an operator.  It goes out at most once, plus once per
  authorised retry, and from every reachable state of the breaker calls get through again.
- **The decision graph** (`EvidenceGraph`, `GraphEvents`, `UnstatedBoundary`, `GraphSlices`,
  `BaselineCompiler`, `PublishedGraph`, `BaselineJob`, `BaselineHandlers`): the projection of a log into claims and their evidence,
  non-interference between claims, the compiler of model decisions, and the exact condition under which
  the two agree; put together with the protocol and the idempotency keys of the stage handlers, a task
  that succeeded has published a justified decision.
- **Delayed credit** (`PolicyOutbox`, `PolicyMemory`, `PolicyAudit`, `WilsonBound`): a transactional
  outbox made exactly-once by the ledger, from the policy operation to the audit event, and a promotion
  rule that is a function of independent outcomes.
- **Search and statistics** (`ParetoMcts`, `ParetoFront`, `Composition`, `FormulaSpelling`, `Calibration`, `Holm`,
  `SignTest`, `RateLimiter`, with `Rational`, `Decimal` and `Wrappers` beside them).

State that the program updates in place is a class here; each method is proved against a function of
the old state, and the properties are lemmas about that function.  SHA-256, rendered JSON, clocks,
identifiers, model and retriever answers, square roots and rounding are parameters, so the results
hold for any choice of them.  Arithmetic is over exact integers, reals and rationals.

Proving the properties brought out some behaviour that a reader may not expect.  The code is modelled
as it is, and a lemma states each:

- `pareto_front` with a tolerance strictly between zero and one, its default among them, can return an
  empty archive for a non-empty input (`ParetoFront.CircleArchiveIsEmpty`).
- `refresh_statuses` called with varying thresholds is rolled back exactly when a strategy that is due to
  move made the same move before on the same counts (`PolicyMemory.RolledBackExactly`), which happens
  (`PolicyMemory.JamWitness`) and ends with the next outcome that counts for that strategy
  (`PolicyMemory.NewCreditUnblocks`).
- Status changes are not guarded by the lease: the failure of an overtaken worker moves a job that another
  worker holds (`StaleWorkers.StaleFailureMovesTheJob`, with the exact condition in
  `StaleWorkers.FailureSparesTheRowExactly`).
- A job whose worker died in VALIDATING is not given to anybody as it is.  Only a worker that was overtaken
  before can bring it back (`StaleWorkers.LeasedAgainExactly`, `StaleWorkers.OvertakenWorkerRevives`); with
  no worker left it stays in VALIDATING until it is cancelled (`StaleWorkers.AbandonedInValidating`).
- `append` does not check an explicit event id; a repeated one makes the file stop verifying
  (`EventLedger.AppendKeepsLedger`).
- The boundary checks of SURVIVED and NARROWED look at the rendering of the field: null, numbers, booleans,
  lists and objects pass as the texts they render to, so a decided claim has a stated boundary exactly when
  the field was a text (`EvidenceGraph.BoundaryIsStatedExactly`, `UnstatedBoundary.UnstatedIsPublished`).
- A paid answer is dropped, and its row left to the operator, when the circuit opens while the call is out,
  or is then waiting for the probe of another call (`PaidOperations.RefusedSuccessStaysPending`, `PaidOperations.PaidAnswerIsLost`).
- Holm's adjustment and the step-down procedure agree at all levels below one and at no other
  (`Holm.AgreeExactlyBelowOne`).
- A formula with a zero amount keeps the element in its normal form
  (`Composition.ZeroAmountBreaksInvariance`), and one with nothing but zero amounts fails with a
  division by zero rather than with the declared error (`Composition.ZeroExactly`).
- The rate limiter reads its clock outside the lock; a late reading is credited twice, and the bound of a
  window survives no positive delay (`RateLimiter.OnlyOrderIsTolerated`).

`dafny verify dfyconfig.toml` checks the whole project.

## Model

| member | source | states |
|---|---|---|
| EventLedger.HeadFixesLedger | src/evidence/ledger.py:57-89 | two ledgers that verify and end in the same hash are equal event for event, or two of their own events differ and have one digest, with the same events after them; nothing is assumed of the digest |
| EventLedger.AppendKeepsLedger | src/evidence/ledger.py:91-148 | the old file is a prefix of the new one, a refused append changes nothing, and the result verifies exactly when nothing was written or the event id was fresh, which append does not check |
| EventLedger.AppendIsPut | src/evidence/ledger.py:112-148 | abstractly a successful append is the idempotent put; it is a key conflict exactly when the key is taken with another meaning |
| EventLedger.AppendReplay | src/evidence/ledger.py:112-125 | repeating a successful append, under any id, time and expected head, returns the stored event and writes nothing exactly when the first call wrote nothing or its event id was fresh |
| EventLedger.AppendAnswers | src/evidence/ledger.py:112-148 | case by case: a used key returns its event or conflicts; under a new key an expected head that differs is refused, and otherwise the event with the next number, the given id and time and the current head is written if it is valid |
| EventLedger.ChainedExactly | src/evidence/ledger.py:57-89 | a ledger verifies exactly when every event is valid, numbered by its place and linked to the hash before it, and no event id or key comes twice |
| EventLedger.ValidExactly | src/core/events.py:90-113 | an event is valid exactly with every identifier stated, a stated and zoned time, a durable payload, a number from one, an empty or hexadecimal hash before it and its own digest |
| EventLedger.VerifiesPrefix | src/evidence/ledger.py:57-89 | every prefix of a ledger that verifies verifies |
| EventLedger.VerifiesSnoc | src/evidence/ledger.py:61-88 | one more line keeps the ledger verifying exactly when it is blank or a valid event linked to the end |
| EventLedger.FirstBadIs | src/evidence/ledger.py:60-88 | the reported line is the one and only first line at which the file stops verifying |
| EventLedger.LedgerFile.Load | src/evidence/ledger.py:57-89 | the reading loop returns all events in order when the file verifies and otherwise the number of the first bad line |
| EventLedger.LedgerFile.Append | src/evidence/ledger.py:91-148 | the outcome and the new file are those of the append specification, error cases included |
| EventLedger.LedgerFile.Verify | src/evidence/ledger.py:158-169 | ok exactly when the file verifies, with the count and the head of its events |
| KeyedLog.WriteStep | src/evidence/ledger.py:112-148 | one idempotent write by a writer that has done m rows is not refused and keeps the log between the first m + 1 rows and the same upper bound, whatever other writers of these rows did |
| KeyedLog.WrittenOfDistinct | src/evidence/ledger.py:112-148 | with distinct keys an uninterrupted writer drops nothing and is refused nothing |
| KeyedLog.ClashPersists | src/evidence/ledger.py:113-124 | a row refused on a log is refused on every longer one |
| JobStore.OperationKeeps | src/orchestration/job_store.py:240-426 | every store operation keeps the books balanced and within budget, usage keys unique, the stage the highest checkpointed one, identity fields and a growing version |
| JobStore.SaveKeepsStage | src/orchestration/job_store.py:288-335 | a checkpoint that is accepted leaves the stage column at the highest checkpointed stage |
| JobStore.ChargeKeepsTotal | src/orchestration/job_store.py:337-393 | a charge that is accepted keeps the used amounts equal to the sum of the usage rows and within the maxima |
| JobStore.Store.CreateJob | src/orchestration/job_store.py:190-238 | one job per tenant and key: a repeat returns the stored job, a different request under the key is refused, otherwise a fresh row |
| JobStore.Store.AcquireLease | src/orchestration/job_store.py:240-270 | commits the leased row or rolls back with the error, other jobs untouched |
| JobStore.Store.Heartbeat | src/orchestration/job_store.py:272-286 | extends a live lease of the same worker and nothing else |
| JobStore.Store.SaveCheckpoint | src/orchestration/job_store.py:288-335 | commits a checkpoint of a lease holder that does not step back and does not contradict the stored one |
| JobStore.Store.ChargeUsage | src/orchestration/job_store.py:337-393 | books a new charge within the budget, ignores a repeated one, refuses a key with different usage |
| JobStore.Store.Transition | src/orchestration/job_store.py:395-426 | moves the status along the allowed table, SUCCEEDED only from the VALIDATE stage |
| Leases.ClaimIsGrantedExactly | src/orchestration/job_store.py:247-258 | a claim is granted exactly when the job is QUEUED, RUNNING or RETRY_WAIT and no other worker has an unexpired lease; a refused one says so |
| Leases.ClaimedRow | src/orchestration/job_store.py:258-266 | a granted claim leaves the job RUNNING under the new lease with one attempt more, and nothing else changed |
| Leases.OnlyTheHolderWrites | src/orchestration/job_store.py:272-309 | heartbeat and checkpoint of anybody but the owner of a RUNNING job with an unexpired lease are refused |
| Leases.HolderExtends | src/orchestration/job_store.py:272-286 | the owner of a RUNNING job with an unexpired lease has it extended from now |
| Leases.CheckpointIsCommittedExactly | src/orchestration/job_store.py:305-333 | a checkpoint is committed exactly for the holder, at no earlier stage, and without contradicting a stored one |
| Leases.ChargeIsBookedExactly | src/orchestration/job_store.py:341-391 | a charge is accepted exactly when it repeats a booked one, or has a new key, is not negative and stays within the budget |
| Leases.TransitionIsAllowedExactly | src/orchestration/job_store.py:395-426 | a transition is accepted exactly for an expected version, along the listed pairs of statuses, and into SUCCEEDED from stage VALIDATE |
| Leases.LiveLeaseExcludes | src/orchestration/job_store.py:240-335 | over every run whose clock stays below the expiry of a lease: the job stays with its holder, and no claim, heartbeat or checkpoint of another worker is accepted, unless its status is moved in between |
| Leases.GrantedClaimExcludes | src/orchestration/job_store.py:240-335 | in particular from a granted claim on |
| ExecutionInvariant.StageWrite | src/orchestration/worker.py:167-170 | one planned row of a stage that is not ahead of the committed ones keeps the log between those stages and the next one |
| ExecutionInvariant.ReceiptKeeps | src/orchestration/runtime.py:83-97 | when all rows of the first open stage are written, the head and length read for its checkpoint are those of the crash-free ledger |
| ExecutionInvariant.FrontierSteps | src/orchestration/worker.py:171-177 | committing the first open stage moves the frontier by exactly one and keeps every checkpoint the crash-free one |
| ExecutionInvariant.DoKeeps | src/orchestration/worker.py:133-224 | the inductive invariant of the protocol survives every lease, step, exception, crash, heartbeat, cancellation and outside charge |
| ExecutionSafety.EveryRunIsSafe | src/orchestration/worker.py:133-224 | the invariant holds in every state reachable under any schedule of workers |
| ExecutionSafety.LedgerIsCrashFreePrefix | src/orchestration/worker.py:133-224 | under any schedule the event ledger is a prefix of the one a single crash-free worker writes |
| ExecutionSafety.BooksBalance | src/orchestration/job_store.py:288-393 | in every reachable state used amounts are the sum of the usage rows and within the maxima, no key is counted twice, the stage is the highest checkpointed one |
| ExecutionSafety.SucceededMeansComplete | src/orchestration/runtime.py:140-190 | a SUCCEEDED job has the complete crash-free ledger, accepted by the validator, every checkpoint, and each planned charge exactly once |
| ExecutionSafety.TerminalIsFinal | src/orchestration/job_store.py:62-75 | no run of actions leaves a terminal status |
| ExecutionSafety.SchedulesAgree | src/orchestration/worker.py:133-224 | the ledgers of any two schedules of one job are comparable: one is a prefix of the other |
| StaleWorkers.FailureSparesTheRowExactly | src/orchestration/worker.py:122-131 | the failure of an attempt leaves the row as it was exactly when the job is terminal, QUEUED, or in RETRY_WAIT with a retry asked for and an attempt left; the lease plays no part |
| StaleWorkers.StaleFailureMovesTheJob | src/orchestration/worker.py:122-131 | in every job there is a reachable state in which another worker holds a live lease and the worker it overtook in its first stage has just failed: two steps of that worker move the job and release the lease |
| ExecutionProgress.ChargeAccepted | src/orchestration/job_store.py:337-393 | the due charge of the stage in hand is never refused while the plan is affordable, and leaves it affordable |
| ExecutionProgress.SaveAccepted | src/orchestration/job_store.py:288-335 | a lease holder at the first open stage is never refused its checkpoint |
| ExecutionProgress.StepAdvances | src/orchestration/worker.py:133-183 | a worker left alone stays on course and comes strictly nearer the end with every step |
| ExecutionProgress.RecoverySucceeds | src/orchestration/worker.py:133-183 | from every reachable state in which the lease can be had, a worker that takes it and is left alone ends in SUCCEEDED within a fixed number of steps, with the complete ledger and charges |
| StaleWorkers.LeasedAgainExactly | src/orchestration/worker.py:122-131 | a job in VALIDATING is leased again in some continuation exactly when a worker is about to put it into RETRY_WAIT, or an attempt is left and some worker is neither idle, nor failing for good, nor already writing its verdict |
| StaleWorkers.AbandonedInValidating | src/orchestration/job_store.py:252-254 | with every worker idle, a job in VALIDATING stays there under all continuations unless it is cancelled, and its ledger stays as it is |
| StaleWorkers.OvertakenWorkerRevives | src/orchestration/worker.py:122-131 | for every doable and affordable job with three attempts there is a run in which the worker that was finishing the job dies in VALIDATING and the worker it overtook in its first stage fails and takes the job again |
| StaleWorkers.PassesThroughValidating | src/orchestration/runtime.py:175-190 | an undisturbed attempt that ends in success was in VALIDATING at some step before |
| AttemptOutcomes.FailureEnds | src/orchestration/worker.py:122-131 | the failure of an attempt leaves a RUNNING job to a retry exactly when it is retryable and attempts are left, and fails it otherwise; ledger, checkpoints and charges stay |
| AttemptOutcomes.RejectionIsFinal | src/orchestration/runtime.py:140-172 | a ledger that the validator rejects fails the job, whatever attempts are left |
| AttemptOutcomes.ExceededBudgetIsFinal | src/orchestration/worker.py:191-196 | a due charge beyond the budget is not booked and fails the job, whatever attempts are left |
| AttemptOutcomes.ConflictIsFinal | src/orchestration/worker.py:197-205 | an event whose key the ledger holds with another meaning is not written and fails the job |
| AttemptOutcomes.CancelledStops | src/orchestration/worker.py:151-157 | a worker that finds the job cancelled before its next stage stops and changes nothing |
| AttemptOutcomes.LostLeaseCommitsNothing | src/orchestration/worker.py:206-217 | a worker without the lease commits no checkpoint, and its attempt ends like a retryable failure while the job is RUNNING |
| AttemptOutcomes.NewJobIsOpen | src/orchestration/job_store.py:226-234 | a new job is QUEUED at stage PLAN, unowned and unused, and any worker can have it |
| ExecutionWorker.Worker.Fail | src/orchestration/worker.py:122-131 | performs the two steps of a failing attempt: RETRY_WAIT if retryable with attempts left, otherwise FAILED; a second RETRY_WAIT escapes |
| ExecutionWorker.Worker.WriteEvents | src/orchestration/worker.py:167-168 | appends the events of a stage one atomic step at a time, stopping at a conflict |
| ExecutionWorker.Worker.WriteCharges | src/orchestration/worker.py:169-170 | books the charges of a stage one atomic step at a time, stopping at a refusal |
| ExecutionWorker.Worker.RunStage | src/orchestration/worker.py:160-177 | handler, events, charges and checkpoint of one stage are a run of the step system |
| ExecutionWorker.Worker.RunStages | src/orchestration/worker.py:148-177 | the stage loop skips committed stages and ends saved, stopped, lease lost or cancelled |
| ExecutionWorker.Worker.Finalize | src/orchestration/runtime.py:140-190 | SUCCEEDED if the validator accepts the ledger, FAILED if not, through the final checkpoint and VALIDATING |
| ExecutionWorker.Worker.RunOnce | src/orchestration/worker.py:133-224 | an uninterrupted call is one run of the step system, uses up one attempt when it gets the lease and reports the status it leaves |
| ExecutionWorker.Worker.RunTask | src/evaluation/baseline_runner.py:731-735 | the resume loop ends after at most the allowed attempts, never with a job in RETRY_WAIT that it could resume, and is one run of the step system |
| CircuitBreaker.ApplyLogs | src/evaluation/circuit_breaker.py:72-212 | a call writes at most one event, stamped with its own time and linked to the row before and after it |
| CircuitBreaker.LogIsFaithful | src/evaluation/circuit_breaker.py:92-212 | folding the event log reproduces phase, consecutive failures, opening time and probe; the log is linked; a closed circuit is below its threshold |
| CircuitBreaker.ProbesCool | src/evaluation/circuit_breaker.py:119-146 | every admitted probe comes a full recovery time after the event that opened the circuit |
| CircuitBreaker.ProbesArePaced | src/evaluation/circuit_breaker.py:92-212 | on a clock that does not run backwards k admitted probes span at least k - 1 recovery times, whatever happened in between |
| CircuitBreaker.OpenCircuitRecovers | src/evaluation/circuit_breaker.py:125-146 | on every reachable open circuit: before the recovery time a call is refused and nothing changes; from then on a valid one is admitted as the recorded probe, whose success restores the initial row and whose failure opens the circuit for another recovery time |
| CircuitBreaker.ProbeExpires | src/evaluation/circuit_breaker.py:102-123 | while a probe is out no other call is admitted; a call after its timeout opens the circuit from that time on, and a recovery time later a new probe is admitted |
| CircuitBreaker.ClosedCircuitCounts | src/evaluation/circuit_breaker.py:177-212 | a closed circuit admits every call, its failures count one by one and open it exactly at the threshold, and a success resets the count |
| CircuitBreaker.EveryCircuitRecovers | src/evaluation/circuit_breaker.py:92-212 | from every reachable state waiting and one operation that works bring the circuit back to its initial row |
| CircuitBreaker.Breaker.BeforeCall | src/evaluation/circuit_breaker.py:92-146 | admits a call or leases the single probe exactly as specified, on the row and the log |
| CircuitBreaker.Breaker.RecordSuccess | src/evaluation/circuit_breaker.py:148-175 | closes the circuit or refuses a success of the wrong call, on the row and the log |
| CircuitBreaker.Breaker.RecordFailure | src/evaluation/circuit_breaker.py:177-212 | counts a failure and opens the circuit at the threshold or from a probe, on the row and the log |
| PaidOperations.DoKeeps | src/evaluation/claude_code_transport.py:136-195 | the accounting of reservations and the agreement of answers survive every step, crash, operator verdict and outside breaker call |
| PaidOperations.TransmittedAtMost | src/evaluation/operation_recovery.py:125-213 | in every run an operation goes out at most once plus once per recorded retry authorisation |
| PaidOperations.SameResponse | src/evaluation/claude_code_transport.py:359-416 | any two calls that return give the same response, and it is the stored one |
| PaidOperations.SettledIsFinal | src/evaluation/operation_recovery.py:125-213 | COMPLETED and ABANDONED rows never change, and nothing is sent after them but reservations already handed out |
| PaidOperations.CompletedIsEarned | src/evaluation/claude_code_transport.py:388-416 | in every run a COMPLETED row holds an answer that the operator attested, or that the external call gave to a process which had sent the request and whose success the breaker then accepted |
| PaidOperations.OrphanedStaysPending | src/evaluation/claude_code_transport.py:136-195 | a PENDING row that no process is working for stays as it is and is never sent again until the operator acts |
| PaidOperations.RefusedSuccessStaysPending | src/evaluation/claude_code_transport.py:388-416 | the answer of the only process working for a PENDING row: with the circuit open, or half-open for another call, the row is PENDING and unsent from then on until the operator acts; otherwise the process completes it |
| PaidOperations.PaidAnswerIsLost | src/evaluation/claude_code_transport.py:388-416 | for any settings there is a run from the start in which the request is out and answered while other calls open the circuit, so that the row stays PENDING |
| PaidRequests.OneRequestForever | src/evaluation/claude_code_transport.py:136-195 | over every run an operation id stands for one request: its hash never changes, and nothing is sent, stored, returned or attested for another |
| PaidRequests.OperatorDecidesExactly | src/evaluation/operation_recovery.py:125-213 | the operator decides exactly on a PENDING row with the attested hash; the row then has the status and answer of the verdict and the audit one record more, otherwise nothing changes |
| PaidRequests.StoredAnswerIsServed | src/evaluation/claude_code_transport.py:136-154 | a COMPLETED row is served to callers of its request without consulting the circuit or sending |
| PaidRequests.OthersAreRefused | src/evaluation/claude_code_transport.py:136-154 | another request under the id, and any call of a PENDING or ABANDONED row, is refused and changes nothing |
| PaidRequests.AuthorisedCallGoesOut | src/evaluation/claude_code_transport.py:156-195 | on a closed circuit a new request and one with an authorised retry go out exactly once; the row ends COMPLETED with the answer, or PENDING without one |
| PaidRequests.LateAnswerIsServed | src/evaluation/claude_code_transport.py:359-392 | a process past the breaker that finds the answer stored by another credits the breaker and returns it without sending |
| PaidRequests.LateCallFails | src/evaluation/claude_code_transport.py:359-392 | one that finds the row taken by another request, PENDING or ABANDONED sends nothing and counts as a failure |
| PaidRequests.RetryRecovers | src/evaluation/operation_recovery.py:125-213 | in every run: the authorised retry of a PENDING row completes it with the next answer, which later callers get without another transmission |
| PaidOperations.OutwardSends | src/evaluation/claude_code_transport.py:359-392 | up to the transmission an undisturbed call has ended without one, as the lookup or the breaker decided, or the request is out once behind a PENDING row, on a closed circuit or as a probe |
| PaidOperations.HomewardStores | src/evaluation/literature_retriever.py:143-187 | the answer of an undisturbed call is stored and returned exactly when there is one and the breaker accepts its success, and the circuit is credited or charged |
| PaidOperations.CompleteIsARun | src/evaluation/opencode_transport.py:199-311 | one uninterrupted call of either kind is a run of the step system: same row, circuit, transmission and returned answer, whether cached, refused, failed, a probe or a success |
| PaidOperations.Operations.Complete | src/evaluation/opencode_transport.py:199-311 | performs that call on the row of its operation and the breaker, and touches no other row |
| PaidOperations.Operations.ReconcileOperation | src/evaluation/operation_recovery.py:125-213 | one PENDING row with the attested hash changes and one audit row is written, or neither |
| EvidenceGraph.ApplyKeeps | src/evidence/graph.py:106-242 | an applied event keeps every edge anchored and distinct and every claim earned, and moves claims only forward |
| EvidenceGraph.ProjectionKeeps | src/evidence/graph.py:93-119 | any continuation of a sound graph is sound, with queries, passages and edges only growing |
| EvidenceGraph.DecisionsAreEarned | src/evidence/graph.py:208-242 | in every projected graph SURVIVED has a SUPPORTS edge, a counter-query and a boundary, NARROWED a BOUNDS edge, a counter-query and a boundary, REFUTED contradicting or precedent evidence; versions are at most 4 |
| EvidenceGraph.DecidedClaimIsFinal | src/evidence/graph.py:39-45 | whatever is projected later, a claim in a terminal state is never touched again |
| EvidenceGraph.PublicationReduces | src/evidence/graph.py:244-253 | no boundary issue can arise; the issues are empty exactly when there are claims and all are terminal |
| EvidenceGraph.RedeliveryChangesNothing | src/evidence/graph.py:106-119 | delivering applied events again, in any order and number, changes nothing |
| EvidenceGraph.BoundaryIsStatedExactly | src/evidence/graph.py:225-241 | a SURVIVED or NARROWED claim of any log was given its boundary by the event that decided it, and that event states a boundary, a text that is not blank, exactly when the field is a text |
| EvidenceGraph.RenderingDecides | src/evidence/graph.py:225-241 | in any graph a boundary of any kind is treated as the text it renders to |
| GraphEvents.TransitionTakenExactly | src/evidence/graph.py:208-242 | a claim moves exactly along the nine listed pairs of states, with the edges and counter-query that the new state calls for and a stated boundary for SURVIVED and NARROWED; the record after it is given in full |
| GraphEvents.UnresolvedIsAlwaysOpen | src/evidence/graph.py:208-242 | a claim that is not decided can always be left UNRESOLVED |
| GraphEvents.LinkTakenExactly | src/evidence/graph.py:170-197 | a passage is linked exactly when it was retrieved for that claim, is cited with a relation that its query allows, and not so linked before |
| GraphEvents.PassagesAreLocated | src/evidence/graph.py:130-168 | in every projected graph each passage has a place, none negative, and a digest of 64 hexadecimal digits, and no query a negative number of hits |
| UnstatedBoundary.UnstatedIsPublished | src/evidence/graph.py:225-253 | for SURVIVED and for NARROWED, and any JSON value as boundary, a log decided on it projects exactly when the value does not render as blank text, which null, numbers and booleans never do; the claim is published with the rendering as its boundary, and the boundary is stated exactly for texts |
| EvidenceGraph.DecisionGraph.ProposeClaim | src/evidence/graph.py:121-128 | the specified new claim, or the refusal and no change |
| EvidenceGraph.DecisionGraph.ExecuteQuery | src/evidence/graph.py:130-146 | the specified new query, or the refusal and no change |
| EvidenceGraph.DecisionGraph.ObservePassage | src/evidence/graph.py:148-168 | the specified new passage, or the refusal and no change |
| EvidenceGraph.DecisionGraph.LinkEvidence | src/evidence/graph.py:170-197 | the specified new edge, or the refusal and no change |
| EvidenceGraph.DecisionGraph.TransitionClaim | src/evidence/graph.py:208-242 | the specified move of one claim, or the refusal and no change |
| EvidenceGraph.DecisionGraph.Apply | src/evidence/graph.py:106-119 | the graph stays sound and evolves; a refused event leaves it unchanged |
| EvidenceGraph.DecisionGraph.FromEvents | src/evidence/graph.py:93-98 | the loop over the log yields the projection, or the first refusal |
| EvidenceGraph.DecisionGraph.PublicationIssues | src/evidence/graph.py:244-253 | the loop collects exactly the issues of the claims |
| GraphSlices.OwnEvent | src/evidence/graph.py:106-242 | an event of a claim does to the part of the graph about that claim exactly what it does to the whole |
| GraphSlices.OtherEvent | src/evidence/graph.py:106-242 | an event of another claim leaves that part as it is |
| GraphSlices.ClaimsDoNotInterfere | src/evidence/graph.py:93-242 | the events of one claim, through query and passage ownership, project on their own to the same record, queries, passages and edges |
| GraphSlices.InterleavingIsIrrelevant | src/evidence/graph.py:93-242 | two logs with the same events of a claim agree on it, however the rest is interleaved |
| GraphSlices.VerifiedLedgerHasDistinctIds | src/evidence/ledger.py:71-79 | a ledger that verifies has the distinct event ids that non-interference needs |
| BaselineCompiler.RetrievalFolds | src/evaluation/baseline_runner.py:380-445 | a retrieval stage is accepted by the graph exactly when it brings back no passage already observed |
| BaselineCompiler.LinksFold | src/evaluation/baseline_runner.py:518-528 | the links of a decision are accepted exactly when every relation fits the query of its passage |
| BaselineCompiler.TransitionsFold | src/evaluation/baseline_runner.py:529-544 | with counter-retrieval the transitions are accepted exactly when the decision has the relation it rests on |
| BaselineCompiler.ControlTransitionsFold | src/evaluation/baseline_runner.py:529-544 | without counter-retrieval they are accepted exactly for UNRESOLVED |
| BaselineCompiler.CompilerAgreesWithGraph | src/evaluation/baseline_runner.py:319-555 | a validated decision compiles to a stream that projects and publishes exactly when support and counter passages are disjoint, relations fit their queries and the decision has its relation |
| BaselineCompiler.ControlPublishesOnlyUnresolved | src/evaluation/baseline_runner.py:474-555 | without counter-retrieval only an unresolved decision with fitting relations is ever published |
| PublishedGraph.PublishedAsDecided | src/evaluation/baseline_runner.py:319-571 | with counter-retrieval, whenever the stream of a compiled decision projects: the one claim has the prompt and scope of the task, the state, reason and boundary of the decision and one version per transition; the edges are its selections in order; passages and queries are those of the two stages, digests those of the texts |
| PublishedGraph.ControlPublishedAsDecided | src/evaluation/baseline_runner.py:319-571 | without counter-retrieval likewise, with the one stage there is |
| PublishedGraph.RetrievalTakenExactly | src/evaluation/baseline_runner.py:380-445 | a retrieval stage goes through exactly when every passage is sound and answers its own query and no identifier comes twice, and then has all of them in order |
| PublishedGraph.DecisionTakenExactly | src/evaluation/baseline_runner.py:188-212 | a decision is compiled exactly when it is one of the four terminal states with a probability, a reason, retrieved evidence cited once each under a known relation, a boundary where one is called for and, if SURVIVED, support |
| BaselineCompiler.FoldIsProjection | src/evidence/graph.py:93-119 | with distinct identifiers the projection depends on the events alone |
| BaselineCompiler.ValidateResult | src/evaluation/baseline_runner.py:150-157 | the validation loop reports the first invalid or repeated passage |
| BaselineCompiler.MergeResult | src/evaluation/baseline_runner.py:420-440 | the inner loop takes over the passages of one result or reports the first mismatch or repetition |
| BaselineCompiler.RetrieveQueries | src/evaluation/baseline_runner.py:380-445 | the two loops compute the specified passages and events, or the specified error |
| BaselineCompiler.Decide | src/evaluation/baseline_runner.py:474-555 | the handler computes the specified events, or the specified error |
| BaselineJob.GateAsksForJustification | src/orchestration/runtime.py:131-138 | the publication gate accepts the full ledger of a baseline job exactly when the decision is justified |
| BaselineJob.SucceededJobIsJustified | src/evaluation/baseline_runner.py:692-743 | whatever the schedule, a baseline job that ended in SUCCEEDED has published a justified decision |
| BaselineJob.JustifiedJobIsDoable | src/evaluation/baseline_runner.py:692-743 | a justified decision with sound charges is a plan that recovery brings to SUCCEEDED |
| BaselineHandlers.RetrievalKeysDistinct | src/evaluation/baseline_runner.py:388-441 | the keys of the query and passage rows of a retrieval stage are distinct |
| BaselineHandlers.CompiledIsASheet | src/evaluation/baseline_runner.py:319-661 | over all seven stages of a task the idempotency keys are distinct and the rows, in stage order, read as the compiled stream |
| BaselineHandlers.CompiledPerforms | src/evaluation/baseline_runner.py:711-735 | the handlers of a task whose stages returned make a job to which the results about baseline jobs apply |
| BaselineHandlers.SucceededTaskIsJustified | src/evaluation/baseline_runner.py:692-743 | whatever the schedule, a task that ended in SUCCEEDED has published a justified decision, with its complete ledger |
| BaselineHandlers.JustifiedTaskIsDoable | src/evaluation/baseline_runner.py:692-743 | a task with a justified decision and sound charges is one that recovery brings to SUCCEEDED |
| BaselineHandlers.OpenCasePerforms | src/evaluation/baseline_runner.py:319-555 | there is such a task, with a justified decision |
| PolicyOutbox.NeverRefused | src/learning/audit.py:42-51 | the ledger never refuses an outbox row |
| PolicyOutbox.DoKeeps | src/learning/audit.py:31-62 | every enqueue, step and crash keeps the outbox and the ledger in agreement |
| PolicyOutbox.EachNoticeExactlyOnce | src/learning/audit.py:18-24 | over any schedule each key is in the ledger at most once, every dispatched row is in it, and nothing else is |
| PolicyOutbox.AppendIsNeverRefused | src/learning/audit.py:42-53 | in no reachable state is a flusher stopped by a key conflict |
| PolicyOutbox.FinishedFlushDeliveredAll | src/learning/audit.py:38-62 | a flush that finishes with nothing newly enqueued has delivered every row, those left by crashed flushers included |
| PolicyOutbox.FlushFinishes | src/learning/audit.py:31-62 | in every state that keeps the invariant a flush that is left alone, with a batch for all that is undispatched, finishes |
| PolicyOutbox.MarkFirst | src/learning/policy_store.py:589-596 | acknowledging the first undispatched row takes exactly it off the queue |
| PolicyOutbox.PolicyAuditBridge.Dispatch | src/learning/audit.py:43-53 | one append and one acknowledgement; a row that reached the ledger before a crash is not appended twice |
| PolicyOutbox.PolicyAuditBridge.Flush | src/learning/audit.py:31-62 | the batch loop ends, delivers every undispatched row in order whatever the batch size and counts them |
| PolicyAudit.OutboxesAgree | src/learning/policy_store.py:120-132 | in every joint run of policy operations, flushers and crashes, under a rendering that tells the committed notices apart, the rows of the bridge are the notices that the operations committed, each exactly once |
| PolicyAudit.EveryNoticeIsAudited | src/learning/audit.py:31-62 | after any such run a flush that finishes with no operation in between leaves a ledger with the event of every committed notice, once, and nothing else |
| PolicyAudit.AuditRecovers | src/learning/audit.py:31-62 | after any such run, whatever crashed flushes left behind, a flusher that starts over and is left alone brings the ledger there |
| PolicyAudit.EveryRunCanBeAudited | src/learning/audit.py:31-62 | for every joint run there is a rendering that tells its notices apart, and under it they are all audited |
| PolicyAudit.PromotionIsAudited | src/learning/policy_store.py:344-391 | a run from the empty store to a promotion commits eight notices, the change of status last, and they are audited |
| WilsonBound.WilsonBounds | src/learning/policy_store.py:69-78 | the bound lies between zero and the observed rate, and is never cut off |
| WilsonBound.WilsonGrows | src/learning/policy_store.py:69-78 | for fixed trials the bound does not decrease with successes |
| WilsonBound.WilsonIsLowerRoot | src/learning/policy_store.py:69-78 | the bound is the least rate from which the observed rate lies z standard deviations away: the lower root of the score equation |
| WilsonBound.WilsonOfPerfect | src/learning/policy_store.py:69-78 | with nothing but successes the bound is 1 / (1 + z^2 / n) |
| PolicyMemory.StatusFollowsCredit | src/learning/policy_store.py:344-391 | after a refresh the status is a function of the cross-family outcomes: ACTIVE exactly with enough of them and the bound at the activation threshold, SUSPENDED exactly with enough of them and the bound below the suspension threshold |
| PolicyMemory.RefreshIsIdempotent | src/learning/policy_store.py:344-391 | a second refresh with the same thresholds changes no row and enqueues nothing |
| PolicyMemory.OutcomeGrowsCredit | src/learning/policy_store.py:242-304 | an outcome is never taken back or rewritten; it adds at most itself to the credit of a strategy |
| PolicyMemory.OwnFamilyEarnsNothing | src/learning/policy_store.py:315-329 | an outcome in the strategy's own task family moves no score |
| PolicyMemory.OutcomeScores | src/learning/policy_store.py:315-329 | a first outcome of an application to another task family adds one evaluation to its strategy, and one success exactly if it was one; it adds nothing to any other strategy |
| PolicyMemory.FailuresAreSuspended | src/learning/policy_store.py:344-391 | under the Wilson rule a strategy none of whose counted outcomes succeeded is not ACTIVE for a positive activation bound, and for a positive suspension bound SUSPENDED exactly when evaluated often enough |
| PolicyMemory.RecordIsSound | src/learning/policy_store.py:139-304 | in every run strategy keys and application keys are unique, and every outcome is of a recorded application, by an independent evaluator, with costs that are not negative and evidence |
| PolicyMemory.ProposalIsRecordedExactly | src/learning/policy_store.py:139-177 | in every run: which proposals are accepted; a known key changes nothing, a new one adds exactly a CANDIDATE and its notice |
| PolicyMemory.ApplicationIsRecordedExactly | src/learning/policy_store.py:179-240 | in every run: which applications are accepted; a repeated one changes nothing, a new one adds exactly itself and its notice |
| PolicyMemory.OutcomeIsRecordedExactly | src/learning/policy_store.py:242-304 | in every run: which outcomes are accepted; a repeated one changes nothing, a new one adds exactly itself and its notice |
| PolicyMemory.MoreSuccessesNeverDemote | src/learning/policy_store.py:355-364 | under a bound that grows with successes, more successes in as many evaluations never demote a strategy |
| PolicyMemory.WilsonRuleGrows | src/learning/policy_store.py:69-78 | the rounded Wilson bound is such a bound |
| PolicyMemory.DueMovesAreNew | src/learning/policy_store.py:380-390 | as long as the thresholds stay the same, a status change that is due never repeats the key of an earlier one |
| PolicyMemory.FixedThresholdsNeverJam | src/learning/policy_store.py:344-391 | in no run whose refreshes share their thresholds is a refresh with these rolled back for a repeated outbox key |
| PolicyMemory.RolledBackExactly | src/learning/policy_store.py:344-391 | in every run, with thresholds that vary from refresh to refresh, a refresh is rolled back exactly when some strategy that is due to move made the same move before on the same counts |
| PolicyMemory.NoticesAreUnique | src/learning/policy_store.py:120-132 | in every run, whatever the thresholds, no outbox key is enqueued twice |
| PolicyMemory.NewCreditUnblocks | src/learning/policy_store.py:315-391 | a new counted outcome unblocks its strategy, whatever the thresholds |
| PolicyMemory.ChangedThresholdsJam | src/learning/policy_store.py:344-391 | promoted under one rule, demoted under another and due again, a strategy repeats its first key and the refresh is rolled back |
| PolicyMemory.RunJams | src/learning/policy_store.py:344-391 | it happens in a run from the empty store: proposal, three applications and outcomes, activation at 0.2 and at 0.9, and then at 0.2 again, where the bound of three successes in three lies between |
| PolicyMemory.JamWitness | src/learning/policy_store.py:344-391 | the rounded Wilson bound lies there |
| PolicyMemory.PolicyStore.ProposeStrategy | src/learning/policy_store.py:139-177 | commits the specified state or leaves everything as it was |
| PolicyMemory.PolicyStore.RecordApplication | src/learning/policy_store.py:179-240 | commits the specified state or leaves everything as it was |
| PolicyMemory.PolicyStore.RecordOutcome | src/learning/policy_store.py:242-304 | commits the specified state or leaves everything as it was |
| PolicyMemory.PolicyStore.ScoreRows | src/learning/policy_store.py:315-342 | one score per strategy from its cross-family outcomes |
| PolicyMemory.PolicyStore.RefreshStatuses | src/learning/policy_store.py:344-391 | the loop commits the specified statuses and notices, or rolls everything back |
| ParetoFront.ReplacesExactly | src/discovery/pareto_mcts.py:125-132 | with tolerance zero the fold replaces exactly on a greater objective tuple, so the tie-break never overrules domination |
| ParetoFront.DominatesExactly | src/discovery/pareto_mcts.py:113-118 | with tolerance zero a vector dominates exactly when it is nowhere worse and not the same |
| ParetoFront.LexByFirstDifference | src/discovery/pareto_mcts.py:131-132 | tuples compare by their first difference |
| ParetoFront.BestIsFirstGreatest | src/discovery/pareto_mcts.py:121-132 | the fold keeps, per hypothesis, the first result with the greatest objective tuple |
| ParetoFront.ArrivalOrderIsIrrelevant | src/discovery/pareto_mcts.py:121-132 | the objectives kept do not depend on the order of arrival |
| ParetoFront.ArchiveIgnoresArrivalOrder | src/discovery/pareto_mcts.py:113-139 | with tolerance zero the archive has the same hypotheses with the same objectives whatever the order of arrival |
| ParetoFront.LeftOutIsDominated | src/discovery/pareto_mcts.py:133-139 | with tolerance zero whatever is left out is dominated by a member |
| ParetoFront.ExactArchive | src/discovery/pareto_mcts.py:113-139 | with tolerance zero the archive is mutually non-dominated, empty only for an empty input, and dominates what it leaves out |
| ParetoFront.SeparatedArchiveIsExact | src/discovery/pareto_mcts.py:113-139 | where no two values of an objective lie within the tolerance, the archive is the exact one |
| ParetoFront.CircleArchiveIsEmpty | src/discovery/pareto_mcts.py:113-139 | for every tolerance strictly between zero and one three normalised results dominate each other in a circle and the archive is empty |
| ParetoFront.NeverEmptyExactlyAtTheEnds | src/discovery/pareto_mcts.py:113-139 | non-empty inputs always have a non-empty archive exactly when the tolerance is zero or at least one |
| ParetoFront.ComputeFront | src/discovery/pareto_mcts.py:121-139 | the two loops compute the archive |
| ParetoMcts.DescentIsAbove | src/discovery/pareto_mcts.py:232-237 | the selection loop follows the way from the root to a childless node |
| ParetoMcts.DescentIsShort | src/discovery/pareto_mcts.py:232-237 | it ends after at most max_depth turns |
| ParetoMcts.ExpansionKeeps | src/discovery/pareto_mcts.py:292-333 | expanding a node that is due for it keeps every account of the tree |
| ParetoMcts.PathChildren | src/discovery/pareto_mcts.py:345-350 | a path to a childless node goes through exactly one child of each earlier node and no child of any other |
| ParetoMcts.BackpropagationKeeps | src/discovery/pareto_mcts.py:345-350 | passing a reward up such a path keeps every account of the tree |
| ParetoMcts.IterationKeeps | src/discovery/pareto_mcts.py:229-281 | one iteration of the search keeps the whole invariant |
| ParetoMcts.SearchIsAccounted | src/discovery/pareto_mcts.py:219-290 | after any number of iterations visits are 1 plus those of the children, the root has one per iteration, value sums are the rewards earned at or below and lie in [0, visits], depth is bounded, accepted plus rejected is the number of iterations |
| ParetoMcts.ArchiveIsVetted | src/discovery/pareto_mcts.py:248-284 | an archived result is the verdict of one iteration on the node its path ends in: that node's hypothesis and objectives, which both gates let pass and which were passed up, and the actions leading to it |
| ParetoMcts.EveryVerdictCounts | src/discovery/pareto_mcts.py:255-277 | no verdict is lost: an iteration whose node both gates let pass earns its objectives and yields exactly one candidate, any other earns nothing and yields none, and the plausibility count is exact |
| ParetoMcts.AdmittedExactly | src/discovery/pareto_mcts.py:292-325 | the children are exactly the proposals that are admitted and the first with their digest, in order |
| ParetoMcts.WeightsAreNormalised | src/discovery/pareto_mcts.py:352-355 | the weights of every iteration are positive and sum to one |
| ParetoMcts.MeanIsAverage | src/discovery/pareto_mcts.py:178-182 | the mean of a node times its visits is what it earned, and zero without visits |
| ParetoMcts.ExplorationDecides | src/discovery/pareto_mcts.py:335-344 | of children with the same scalarised mean the one with more prior per visit scores higher, and without exploration the greater mean does |
| ParetoMcts.BestIsFirstGreatestChild | src/discovery/pareto_mcts.py:335-343 | no child scores higher than the selected one, and none before it as high |
| ParetoMcts.TreeSearch.SelectChild | src/discovery/pareto_mcts.py:335-343 | selects that child |
| ParetoMcts.TreeSearch.Expand | src/discovery/pareto_mcts.py:292-333 | the specified children, in order, without repeated digests and pruned proposals |
| ParetoMcts.TreeSearch.Backpropagate | src/discovery/pareto_mcts.py:345-350 | adds one visit and the reward to every node of the path and to no other |
| ParetoMcts.TreeSearch.Descend | src/discovery/pareto_mcts.py:230-237 | the loop takes the specified descent and ends |
| ParetoMcts.TreeSearch.Choose | src/discovery/pareto_mcts.py:230-246 | the specified tree and path |
| ParetoMcts.TreeSearch.Evaluate | src/discovery/pareto_mcts.py:248-281 | the specified accounts |
| ParetoMcts.TreeSearch.Iterate | src/discovery/pareto_mcts.py:229-281 | one specified iteration, keeping the invariant |
| ParetoMcts.TreeSearch.Run | src/discovery/pareto_mcts.py:219-290 | the state after the given iterations and the archive of its candidates |
| Composition.PrintParse | src/materials/cross_validation.py:74-95 | what is printed reads back as exactly the same elements and counts |
| Composition.PrintedFormIsFixed | src/materials/cross_validation.py:68-95 | a normal form normalises to itself |
| Composition.NormaliseIsIdempotent | src/materials/cross_validation.py:68-95 | normalising twice equals normalising once |
| Composition.TotalsAre | src/materials/cross_validation.py:84-86 | the dictionary holds, in ascending order, the total of every element mentioned |
| Composition.FormIsPrimitive | src/materials/cross_validation.py:87-92 | each count is its total times one positive multiplier, and the counts have no common factor |
| Composition.NormalFormIsCompleteInvariant | src/materials/cross_validation.py:68-95 | two formulas with a normal form have the same one exactly when they mention the same elements and their totals are proportional |
| Composition.PositiveFormulasAgreeExactly | src/materials/cross_validation.py:68-95 | for positive amounts equal normal forms mean proportional totals and nothing else |
| Composition.ZeroExactly | src/materials/cross_validation.py:88-92 | there is no normal form exactly when every total is zero: the division by zero escapes |
| Composition.ZeroAmountBreaksInvariance | src/materials/cross_validation.py:84-95 | a zero amount counts for nothing in the totals but stays in the normal form: H0O and O differ |
| FormulaSpelling.AmountIsWorth | src/materials/cross_validation.py:76-80 | an amount is the value of its digits in the decimal system, and one without digits |
| FormulaSpelling.SpelledIsRead | src/materials/cross_validation.py:74-83 | a string of elements with optional decimal amounts is read as exactly these |
| FormulaSpelling.ReadIsSpelled | src/materials/cross_validation.py:74-83 | whatever is read is such a string |
| FormulaSpelling.SpaceDoesNotMatter | src/materials/cross_validation.py:71-71 | white space anywhere changes nothing |
| FormulaSpelling.NormaliseAnswers | src/materials/cross_validation.py:68-95 | a blank string is missing, one with brackets or charges is not flat, only one that spells no formula is a bad token, and a spelled one is normalised from its elements with their decimal amounts |
| FormulaSpelling.NormalisedIsSpelled | src/materials/cross_validation.py:74-83 | only spelled formulas are normalised or fail for their amounts |
| Composition.NormaliseComposition | src/materials/cross_validation.py:68-95 | the loops compute the specified string or error |
| Rational.PrimitiveIsUnique | src/materials/cross_validation.py:87-92 | two coprime vectors with the same ratios are equal |
| Rational.GcdAllScales | src/materials/cross_validation.py:89-89 | the greatest common divisor of a scaled vector is the scaled one |
| Rational.LcmAllIsMultiple | src/materials/cross_validation.py:87-88 | the common denominator is a multiple of every denominator |
| Rational.PlusValue | src/materials/cross_validation.py:85-86 | adding fractions in lowest terms adds their values |
| Calibration.BinsAgree | src/experiments/scoring.py:107-109 | choosing a bin by truncation and by half-open interval agree on every confidence in [0, 1] |
| Calibration.EceWithinMae | src/evaluation/challenge.py:391-405 | the calibration error is at most the mean absolute error |
| Calibration.EceSquaredWithinBrier | src/experiments/scoring.py:101-110 | its square is at most the Brier score |
| Calibration.ErrorsAdd | src/evaluation/challenge.py:391-405 | over samples with no interval in common the errors add up with the weights of the samples |
| Calibration.OneBinIsExact | src/evaluation/challenge.py:391-405 | within one interval the error is the distance of mean confidence and mean outcome |
| Calibration.EceAtLeastBias | src/evaluation/challenge.py:391-405 | the error is at least the distance of the overall means |
| Calibration.EceOfBins | src/experiments/scoring.py:107-110 | the dictionary of bins gives the calibration error |
| Calibration.EceOfIntervals | src/evaluation/challenge.py:391-405 | the ten scanned intervals give the same calibration error |
| Holm.RunningIsHolm | src/experiments/scoring.py:151-161 | the running maximum is the greatest contribution of a p-value up to this one, without mention of the order |
| Holm.HolmBounds | src/experiments/scoring.py:151-161 | adjusted values are at least the raw ones, at most one, and grow with them |
| Holm.AdjustedMatchesStepDown | src/experiments/scoring.py:151-161 | below level one an adjusted value is within the level exactly when the step-down procedure rejects |
| Holm.AgreeExactlyBelowOne | src/experiments/scoring.py:151-161 | for a level that is not negative the two agree on all p-values, orders and ranks exactly when the level is below one |
| Holm.TrueNullsAreSpared | src/experiments/scoring.py:151-161 | family-wise error control: if none of a set of hypotheses has a p-value within its equal share of the level, none of them is adjusted to within the level |
| Holm.AtMostBonferroni | src/experiments/scoring.py:151-161 | an adjusted value is at most the raw one times the number of hypotheses |
| Holm.ImplementationsAgree | src/evaluation/statistics.py:125-132 | ties may be sorted either way and either implementation may run: the values are the same |
| Holm.Adjust | src/experiments/scoring.py:151-161 | the loop fills in the Holm value of every hypothesis |
| Holm.AdjustInPlace | src/evaluation/statistics.py:125-132 | the in-place loop writes the Holm value of every row and leaves the raw values |
| SignTest.PValueOfFlipped | src/evaluation/statistics.py:102-114 | against any signs of the differences the statistic is ranked in one and the same list |
| SignTest.PValueBounds | src/evaluation/statistics.py:107-114 | a p-value is at least one pattern's share and at most one |
| SignTest.PValueCountsSigns | src/evaluation/statistics.py:102-114 | the p-value is two-sided: the share of the 2^n sign vectors under which the mean has at least the magnitude of the observed one, up to 1e-15 |
| SignTest.PValueIsTwoSided | src/evaluation/statistics.py:105-111 | flipping all signs leaves the p-value as it is |
| SignTest.SmallerSumLargerPValue | src/evaluation/statistics.py:105-111 | among data that differ in signs alone, a sum of smaller magnitude has a p-value at least as large |
| SignTest.SignificantMeansPValue | src/evaluation/statistics.py:107-114 | a pattern is counted significant exactly when the data with these signs has such a p-value |
| SignTest.ExactTestIsValid | src/evaluation/statistics.py:102-114 | at most a share alpha of the equally likely sign patterns has a p-value of alpha or less |
| SignTest.PairedSignPValue | src/evaluation/statistics.py:107-114 | the enumeration computes that p-value and the number of patterns |
| RateLimiter.TokensAreConserved | src/service/rate_limit.py:33-48 | in whatever order readings arrive, tokens left plus calls allowed never exceed the burst plus what their forward steps refill |
| RateLimiter.CallsArePaid | src/service/rate_limit.py:33-50 | so the calls allowed are bounded by the burst and the forward steps, for all readings |
| RateLimiter.TokensAreExact | src/service/rate_limit.py:33-48 | the bound is attained: from some call on, tokens left plus calls allowed are the burst plus the refill |
| RateLimiter.RefusalIsNecessary | src/service/rate_limit.py:44-50 | no call is refused in vain: allowing it would put a stretch of calls ending in it beyond the burst and the forward steps |
| RateLimiter.BurstIsGranted | src/service/rate_limit.py:38-47 | a new principal gets its whole burst, whatever the readings |
| RateLimiter.PacedCallsAreAllowed | src/service/rate_limit.py:33-50 | calls 60 seconds over the rate apart are never refused |
| RateLimiter.MinuteIsBounded | src/service/rate_limit.py:33-50 | with readings in order a minute holds at most the burst plus the calls of a minute |
| RateLimiter.WindowIsBounded | src/service/rate_limit.py:33-50 | with readings in order any window holds at most burst plus rate times length allowed calls |
| RateLimiter.OnlyOrderIsTolerated | src/service/rate_limit.py:35-45 | for any valid limits, all windows of all sequences whose steps back are at most delta keep their bound exactly when delta is zero |
| RateLimiter.StaleReadingBreaksWindow | src/service/rate_limit.py:35-45 | for any positive delta, the sequence that breaks it: a reading taken before the lock and used late sets the bucket back and the next call is credited twice |
| RateLimiter.RetryAfterIsExact | src/service/rate_limit.py:46-50 | after the promised wait a call is allowed, after any fewer whole seconds it is refused |
| RateLimiter.PrincipalsAreIndependent | src/service/rate_limit.py:34-40 | a principal's bucket is what it would be if nobody else called |
| RateLimiter.PrincipalRateLimiter.Create | src/service/rate_limit.py:20-31 | refuses a rate or burst below one |
| RateLimiter.PrincipalRateLimiter.Allow | src/service/rate_limit.py:33-50 | the specified verdict and bucket, other principals untouched |

## Left out

- ExecutionSafety.SucceededMeansComplete: charges that a handler books on its own while it runs (call reservations) are outside actions under unplanned keys; only the charges a handler returns are counted.
- ExecutionWorker.Worker.RunOnce: the method is one uninterrupted call by one worker; interleaving, crashes and expiry between its steps are covered by the step system it is tied to.
- ExecutionProgress.RecoverySucceeds: the worker must be left alone; under continued interference nothing is promised, and the code promises nothing.
- EventLedger.LedgerFile.Append: file locks, fsync and the text of a line are not modelled; an append is atomic, and lines that are not JSON appear as garbled lines.
- GraphSlices.ClaimsDoNotInterfere: the set of applied event ids is that of the slice, not of the whole log.
- EvidenceGraph.DecisionGraph.FromEvents: the order of dictionary entries is not modelled, so publication issues are a set.
- BaselineCompiler.CompilerAgreesWithGraph: charges, artifacts and strategy candidates of the handlers take no part in the graph and are not modelled, nor are the aggregate fields of the compiled events.
- PublishedGraph.DecisionTakenExactly: the usage and the strategy candidates of a decision, which `validate` also checks, are not modelled.
- BaselineJob.SucceededJobIsJustified: that the rows of the job read as the compiled stream, with distinct keys, is a hypothesis here; `BaselineHandlers.CompiledPerforms` discharges it for the tasks of the runner.
- BaselineHandlers.JustifiedTaskIsDoable: charges are a parameter, so that their keys are distinct and their amounts not negative is a hypothesis; so is that the rows of the task can be read back from their rendering.
- BaselineHandlers.CompiledPerforms: the commitment event of the last stage hashes the used calls and tokens, so a charge from outside between two executions of that stage changes its row, and the repeated append is then a key conflict; the handlers are modelled as functions of the task.
- PolicyOutbox.EachNoticeExactlyOnce: one tenant and one audit job; the ledger is its idempotent log, of which `EventLedger.AppendIsPut` is the justification.
- PolicyMemory.PolicyStore.RecordOutcome: foreign keys, timestamps and the rendered payloads of outbox rows are not modelled; keys are values rather than digests.
- PolicyMemory.FixedThresholdsNeverJam: ordered interventions enqueue under keys of their own and are not modelled.
- ParetoMcts.SearchIsAccounted: nodes are indices into an arena instead of objects, the sort of the proposals is a parameter, and of the trace only the evaluations are kept.
- ParetoFront.ComputeFront: the archive is keyed by hypothesis; its listing in sorted order is not modelled.
- Composition.NormaliseComposition: the dictionary of totals is kept sorted instead of being sorted at the end; the Unicode digits that a pattern may match are not modelled.
- Holm.Adjust: the library sort is a parameter, any ascending order.
- SignTest.ExactTestIsValid: the Monte Carlo branch beyond twenty differences is random and not modelled.
- RateLimiter.WindowIsBounded: the limiter is one atomic call per reading; threads and the lock are not modelled.
- The HTTP service, TLS, authentication, metrics and tracing: I/O and presentation.
- Network and subprocess transports, prompts, schemas and response decoding: an external call is an outcome.
- SQLite, backup, migrations, retention and artifact storage: transactions are serialisable and the store durable.
- Numeric matching of observations (`compare_observations`, `_metrics`) and bootstrap intervals: greedy matching and averages would add only easy members.
- Survey reports, corpus building, demos, plots and experiment scripts.
