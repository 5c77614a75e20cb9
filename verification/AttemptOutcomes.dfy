/**
 How an attempt of `src/orchestration/worker.py` ends, by what stopped it: which failures are final,
 which leave the job to a retry, and that a stopped attempt commits nothing more.
 */
module AttemptOutcomes {
  import opened Wrappers
  import opened KeyedLog
  import opened JobStore
  import opened ExecutionProtocol
  import StaleWorkers

  /** The job is over: FAILED, without an owner, with what it had written and checkpointed. */
  ghost predicate FailedForGood(s: State, t: State, worker: string) {
    && t.PcOf(worker) == Idle && t.rec.row.status == Status.Failed
    && t.rec.row.leaseOwner == None && t.rec.row.leaseExpiresAt == None
    && t.ledger == s.ledger && t.rec.checkpoints == s.rec.checkpoints && t.rec.usage == s.rec.usage
  }

  /** The job waits for its next attempt. */
  ghost predicate LeftToRetry(s: State, t: State, worker: string) {
    && t.PcOf(worker) == Idle && t.rec.row.status == RetryWait
    && t.rec.row.leaseOwner == None && t.rec.row.leaseExpiresAt == None
    && t.ledger == s.ledger && t.rec.checkpoints == s.rec.checkpoints && t.rec.usage == s.rec.usage
  }

  /** A running job whose attempt fails: a retry only if the failure allows it and attempts are left. */
  lemma FailureEnds(job: Job, s: State, worker: string, retryable: bool, now: real, later: real)
    requires WellFormed(job) && s.PcOf(worker) == Failing(retryable) && s.rec.row.status == Running
    ensures var t := StaleWorkers.Failed(job, s, worker, now, later);
      if retryable && s.rec.row.attempts < job.maxAttempts then LeftToRetry(s, t, worker) else FailedForGood(s, t, worker)
  {
    hide Run;
    StaleWorkers.FailedIs(job, s, worker, now, later);
  }

  /** A ledger that the validator rejects fails the job, whatever attempts are left. */
  lemma RejectionIsFinal(job: Job, s: State, worker: string, now: real, later: real)
    requires WellFormed(job) && s.PcOf(worker) == Judging && s.rec.row.status == Running && !job.accepts(s.ledger)
    ensures FailedForGood(s, Step(job, Step(job, s, worker, now), worker, later), worker)
  {
  }

  /** A due charge that would go beyond the budget is not booked and fails the job, whatever attempts are left. */
  lemma ExceededBudgetIsFinal(job: Job, s: State, worker: string, done: set<nat>, i: nat, k: nat,
                              at: real, now: real, later: real)
    requires WellFormed(job) && i < STAGES && s.PcOf(worker) == Working(done, i, k) && s.rec.row.status == Running
    requires |job.stages[i].events| <= k < |job.stages[i].events| + |job.stages[i].charges|
    requires var due, row := job.stages[i].charges[k - |job.stages[i].events|], s.rec.row;
      && 0 <= due.body.usage.calls && 0 <= due.body.usage.tokens && 0 <= due.body.usage.cost
      && (forall j | 0 <= j < |s.rec.usage| :: s.rec.usage[j].key != due.key)
      && (row.used.calls + due.body.usage.calls > row.budget.calls
          || row.used.tokens + due.body.usage.tokens > row.budget.tokens
          || row.used.cost + due.body.usage.cost > row.budget.cost)
    ensures FailedForGood(s, StaleWorkers.Failed(job, Step(job, s, worker, at), worker, now, later), worker)
  {
    hide Run, StaleWorkers.Failed;
    var t := Step(job, s, worker, at);
    DueCharge(job, s, worker, done, i, k, at);
    FailureEnds(job, t, worker, false, now, later);
  }

  lemma DueCharge(job: Job, s: State, worker: string, done: set<nat>, i: nat, k: nat, at: real)
    requires WellFormed(job) && i < STAGES && s.PcOf(worker) == Working(done, i, k)
    requires |job.stages[i].events| <= k < |job.stages[i].events| + |job.stages[i].charges|
    requires AfterCharge(s.rec, job.stages[i].charges[k - |job.stages[i].events|]) == Failure(BudgetExceeded)
    ensures Step(job, s, worker, at) == s.At(worker, Failing(false))
  {
    hide AfterCharge;
  }

  /** An event whose key the ledger holds with another meaning is not written and fails the job. */
  lemma ConflictIsFinal(job: Job, s: State, worker: string, done: set<nat>, i: nat, k: nat,
                        held: EventRow, at: real, now: real, later: real)
    requires WellFormed(job) && i < STAGES && s.PcOf(worker) == Working(done, i, k) && s.rec.row.status == Running
    requires k < |job.stages[i].events| && held in s.ledger
    requires held.key == job.stages[i].events[k].key && held != job.stages[i].events[k]
    ensures FailedForGood(s, StaleWorkers.Failed(job, Step(job, s, worker, at), worker, now, later), worker)
  {
    hide Run, StaleWorkers.Failed;
    var j :| 0 <= j < |s.ledger| && s.ledger[j] == held;
    assert Clash(s.ledger, job.stages[i].events[k]);
    FailureEnds(job, Step(job, s, worker, at), worker, false, now, later);
  }

  /** A worker that finds the job cancelled before its next stage stops and changes nothing. */
  lemma CancelledStops(job: Job, s: State, worker: string, done: set<nat>, i: nat, now: real)
    requires WellFormed(job) && i < STAGES && i !in done && s.PcOf(worker) == Gate(done, i)
    requires s.rec.row.status == Cancelled
    ensures Step(job, s, worker, now) == s.At(worker, Idle)
  {
  }

  /**
   A worker whose lease is gone commits no checkpoint.  Where the job is still RUNNING, its attempt ends like a
   retryable failure.
   */
  lemma LostLeaseCommitsNothing(job: Job, s: State, worker: string, done: set<nat>, i: nat, receipt: seq<EventRow>,
                                at: real, meanwhile: real, now: real, later: real)
    requires WellFormed(job) && i < STAGES && s.PcOf(worker) == Saving(done, i, receipt) && s.rec.row.status == Running
    requires s.rec.row.leaseOwner != Some(worker) || s.rec.row.leaseExpiresAt.None? || s.rec.row.leaseExpiresAt.value < at
    ensures var lost := Step(job, s, worker, at); var t := StaleWorkers.Failed(job, Step(job, lost, worker, meanwhile), worker, now, later);
      && lost.rec == s.rec && lost.ledger == s.ledger
      && if s.rec.row.attempts < job.maxAttempts then LeftToRetry(s, t, worker) else FailedForGood(s, t, worker)
  {
    hide Run, StaleWorkers.Failed;
    var lost := Step(job, s, worker, at);
    assert lost == s.At(worker, LeaseLost);
    FailureEnds(job, Step(job, lost, worker, meanwhile), worker, true, now, later);
  }

  /** What a new job starts from, and that any worker can have it. */
  lemma NewJobIsOpen(tenantId: string, key: string, task: string, budget: Usage, worker: string, seconds: real, now: real)
    ensures var rec := NewRecord(tenantId, key, task, budget);
      && rec.row.status == Queued && rec.row.stage == Plan && rec.row.leaseOwner == None && rec.row.lastError == None
      && rec.row.used == Usage(0, 0, 0) && rec.row.attempts == 0 && rec.row.version == 1
      && rec.checkpoints == map[] && rec.usage == []
      && AfterLease(rec, worker, seconds, now).Success?
      && AfterLease(rec, worker, seconds, now).value.row.attempts == 1
  {
  }
}
