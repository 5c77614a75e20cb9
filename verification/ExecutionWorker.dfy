/**
 `ExecutionWorker.run_once` as a program over the shared record and ledger.  Left uninterrupted it
 performs one run of the step system, so every result about runs applies to it.
 */
module ExecutionWorker {
  import opened Wrappers
  import opened KeyedLog
  import opened JobStore
  import opened ExecutionProtocol

  datatype ErrorCode =
    | NoError | RetryableStage | BudgetRefused | FatalStage | LeaseWasLost | EvidenceInvalid | Unhandled

  /** `status` is the last status read; `escaped` marks an exception that `run_once` lets through. */
  datatype Report = Report(claimed: bool, status: Status, stagesCommitted: seq<Stage>, error: ErrorCode, escaped: bool)

  /** How the body of the stage loop ends. */
  datatype StageEnd = StageSaved | StageStopped(retryable: bool, error: ErrorCode) | StageLeaseLost

  lemma Interrupted(job: Job, start: State, past: seq<Action>, worker: string, retryable: bool)
    requires WellFormed(job)
    ensures Run(job, start, past + [Raise(worker, retryable)])
         == Thrown(Run(job, start, past), worker, retryable)
  {
    assert (past + [Raise(worker, retryable)])[..|past|] == past;
  }

  lemma Claimed(job: Job, start: State, worker: string, seconds: real, now: real)
    requires WellFormed(job)
    ensures Run(job, start, [Claim(worker, seconds, now)]) == Do(job, start, Claim(worker, seconds, now))
    ensures Run(job, start, []) == start
  {
    assert [Claim(worker, seconds, now)][..0] == [];
  }

  lemma Advanced(job: Job, start: State, past: seq<Action>, worker: string, now: real)
    requires WellFormed(job)
    ensures Run(job, start, past + [Advance(worker, now)]) == Step(job, Run(job, start, past), worker, now)
  {
    assert (past + [Advance(worker, now)])[..|past|] == past;
  }

  lemma ChargeKeepsAttempts(rec: Record, charge: ChargeRow)
    ensures AfterCharge(rec, charge).Success? ==> AfterCharge(rec, charge).value.row.attempts == rec.row.attempts
  {
  }

  lemma SaveKeepsAttempts(rec: Record, worker: string, stage: Stage, key: string, payload: string, now: real)
    ensures var r := AfterCheckpoint(rec, worker, stage, key, payload, now);
      r.Success? ==> r.value.row.attempts == rec.row.attempts
  {
  }

  lemma LeaseCountsAttempt(rec: Record, worker: string, seconds: real, now: real)
    ensures var r := AfterLease(rec, worker, seconds, now);
      r.Success? ==> r.value.row.attempts == rec.row.attempts + 1
  {
  }

  lemma {:induction false} RunsJoin(job: Job, start: State, a: seq<Action>, b: seq<Action>)
    requires WellFormed(job)
    ensures Run(job, Run(job, start, a), b) == Run(job, start, a + b)
  {
    hide Do;
    if b == [] {
      assert a + b == a;
    } else {
      RunsJoin(job, start, a, b[..|b| - 1]);
      assert (a + b)[..|a + b| - 1] == a + b[..|b| - 1];
    }
  }

  // The next step, by where the worker stands.

  lemma AtLoading(job: Job, s: State, worker: string, now: real)
    requires WellFormed(job) && s.PcOf(worker).Loading?
    ensures Step(job, s, worker, now) == s.At(worker, Gate(CheckpointedStages(s.rec), 0))
  {
  }

  lemma AtGate(job: Job, s: State, worker: string, now: real)
    requires WellFormed(job) && s.PcOf(worker).Gate?
    ensures Step(job, s, worker, now) == StepGate(s, worker, s.PcOf(worker))
  {
  }

  lemma NextEvent(job: Job, s: State, worker: string, now: real)
    requires WellFormed(job) && s.PcOf(worker).Working? && s.PcOf(worker).i < STAGES
    requires s.PcOf(worker).k < |job.stages[s.PcOf(worker).i].events|
    ensures var pc := s.PcOf(worker);
      Step(job, s, worker, now) == Write(s, worker, job.stages[pc.i].events[pc.k], pc.(k := pc.k + 1))
  {
  }

  lemma NextCharge(job: Job, s: State, worker: string, now: real)
    requires WellFormed(job) && s.PcOf(worker).Working? && s.PcOf(worker).i < STAGES
    requires var pc, r := s.PcOf(worker), job.stages[s.PcOf(worker).i];
      |r.events| <= pc.k < |r.events| + |r.charges|
    ensures var pc, r := s.PcOf(worker), job.stages[s.PcOf(worker).i];
      Step(job, s, worker, now) == Pay(s, worker, r.charges[pc.k - |r.events|], pc.(k := pc.k + 1))
  {
  }

  lemma RowsWritten(job: Job, s: State, worker: string, now: real)
    requires WellFormed(job) && s.PcOf(worker).Working? && s.PcOf(worker).i < STAGES
    requires var pc, r := s.PcOf(worker), job.stages[s.PcOf(worker).i]; pc.k == |r.events| + |r.charges|
    ensures var pc := s.PcOf(worker);
      Step(job, s, worker, now) == s.At(worker, Saving(pc.done, pc.i, s.ledger))
  {
  }

  lemma AtSaving(job: Job, s: State, worker: string, now: real)
    requires WellFormed(job) && s.PcOf(worker).Saving? && s.PcOf(worker).i < STAGES
    ensures var pc := s.PcOf(worker);
      Step(job, s, worker, now) ==
        Save(s, worker, StageAt(pc.i), StageKey(pc.i), job.payload(StageAt(pc.i), pc.receipt), now, Gate(pc.done, pc.i + 1))
  {
  }

  lemma AtLeaseLost(job: Job, s: State, worker: string, now: real)
    requires WellFormed(job) && s.PcOf(worker).LeaseLost?
    ensures Step(job, s, worker, now) == s.At(worker, if s.rec.row.status.Cancelled? then Idle else Failing(true))
  {
  }

  class Worker {
    const job: Job
    const id: string
    const leaseSeconds: real
    var rec: Record
    var ledger: seq<EventRow>

    constructor (job: Job, id: string, leaseSeconds: real, rec: Record, ledger: seq<EventRow>)
      requires WellFormed(job) && !Blank(id) && leaseSeconds > 0.0
      ensures this.job == job && this.id == id && this.leaseSeconds == leaseSeconds
      ensures this.rec == rec && this.ledger == ledger
    {
      this.job, this.id, this.leaseSeconds, this.rec, this.ledger := job, id, leaseSeconds, rec, ledger;
    }

    /** `s` is the shared state now, with this worker about to do the step named by `pc`. */
    ghost predicate Mirrors(s: State, pc: Pc)
      reads this
    {
      s.rec == rec && s.ledger == ledger && s.PcOf(id) == pc
    }

    /** `history`, run from `start`, is how the present state came about. */
    ghost predicate Reached(start: State, history: seq<Action>, pc: Pc)
      requires WellFormed(job)
      reads this
    {
      Mirrors(Run(job, start, history), pc)
    }

    /** `_fail`. */
    method Fail(retryable: bool, now: real, ghost start: State, ghost past: seq<Action>)
      returns (escaped: bool, ghost history: seq<Action>)
      requires WellFormed(job) && Reached(start, past, Failing(retryable))
      modifies this`rec
      ensures rec.row.attempts == old(rec.row.attempts)
      ensures Reached(start, history, Idle)
      ensures !escaped && !old(Terminal(rec.row.status)) ==>
        rec.row.status == if retryable && old(rec).row.attempts < job.maxAttempts then RetryWait else Status.Failed
      ensures !escaped && rec.row.status.RetryWait? ==> rec.row.attempts < job.maxAttempts
    {
      hide Run;
      Advanced(job, start, past, id, now);
      history := past + [Advance(id, now)];
      if Terminal(rec.row.status) {
        return false, history;
      }
      var target := if retryable && rec.row.attempts < job.maxAttempts then RetryWait else Status.Failed;
      Advanced(job, start, history, id, now);
      history := history + [Advance(id, now)];
      var moved := AfterTransition(rec, target, None, None, true);
      escaped := moved.Failure?;
      if moved.Success? {
        rec := moved.value;
      }
    }

    /** Append the stage's events, one by one. */
    method WriteEvents(done: set<nat>, i: nat, now: real, ghost start: State, ghost past: seq<Action>)
      returns (end: StageEnd, ghost history: seq<Action>)
      requires WellFormed(job) && i < STAGES && Reached(start, past, Working(done, i, 0))
      modifies this`ledger
      ensures end.StageSaved? ==> Reached(start, history, Working(done, i, |job.stages[i].events|))
      ensures end.StageStopped? ==> Reached(start, history, Failing(end.retryable)) && !end.error.NoError?
      ensures !end.StageLeaseLost?
    {
      hide Run, Step, Clash, Put;
      history := past;
      var events := job.stages[i].events;
      for k := 0 to |events|
        invariant Reached(start, history, Working(done, i, k))
      {
        NextEvent(job, Run(job, start, history), id, now);
        Advanced(job, start, history, id, now);
        history := history + [Advance(id, now)];
        if Clash(ledger, events[k]) {
          return StageStopped(false, FatalStage), history;
        }
        ledger := Put(ledger, events[k]);
      }
      end := StageSaved;
    }

    /** Book the stage's charges, one by one. */
    method WriteCharges(done: set<nat>, i: nat, now: real, ghost start: State, ghost past: seq<Action>)
      returns (end: StageEnd, ghost history: seq<Action>)
      requires WellFormed(job) && i < STAGES && Reached(start, past, Working(done, i, |job.stages[i].events|))
      modifies this`rec
      ensures rec.row.attempts == old(rec.row.attempts)
      ensures end.StageSaved? ==>
        Reached(start, history, Working(done, i, |job.stages[i].events| + |job.stages[i].charges|))
      ensures end.StageStopped? ==> Reached(start, history, Failing(end.retryable)) && !end.error.NoError?
      ensures !end.StageLeaseLost?
    {
      hide Run, Step, AfterCharge;
      history := past;
      var charges := job.stages[i].charges;
      for k := 0 to |charges|
        invariant Reached(start, history, Working(done, i, |job.stages[i].events| + k))
        invariant rec.row.attempts == old(rec.row.attempts)
      {
        NextCharge(job, Run(job, start, history), id, now);
        Advanced(job, start, history, id, now);
        history := history + [Advance(id, now)];
        var charged := AfterCharge(rec, charges[k]);
        if charged.Failure? {
          end := match charged.error
            case BudgetExceeded => StageStopped(false, BudgetRefused)
            case Invalid => StageStopped(true, Unhandled)
            case _ => StageStopped(false, FatalStage);
          return;
        }
        ChargeKeepsAttempts(rec, charges[k]);
        rec := charged.value;
      }
      end := StageSaved;
    }

    /** One turn of the stage loop after the status check: handler, events, charges, checkpoint. */
    method RunStage(done: set<nat>, i: nat, raised: Option<bool>, now: real,
                    ghost start: State, ghost past: seq<Action>)
      returns (end: StageEnd, ghost history: seq<Action>)
      requires WellFormed(job) && i < STAGES && Reached(start, past, Working(done, i, 0))
      modifies this`rec, this`ledger
      ensures rec.row.attempts == old(rec.row.attempts)
      ensures end.StageSaved? ==> Reached(start, history, Gate(done, i + 1))
      ensures end.StageStopped? ==> Reached(start, history, Failing(end.retryable)) && !end.error.NoError?
      ensures end.StageLeaseLost? ==> Reached(start, history, LeaseLost)
    {
      hide Run, Step, AfterCheckpoint, StageKey, StageAt;
      if raised.Some? {
        Interrupted(job, start, past, id, raised.value);
        history := past + [Raise(id, raised.value)];
        return StageStopped(raised.value, if raised.value then RetryableStage else FatalStage), history;
      }
      end, history := WriteEvents(done, i, now, start, past);
      if end.StageStopped? {
        return;
      }
      end, history := WriteCharges(done, i, now, start, history);
      if end.StageStopped? {
        return;
      }
      var receipt := ledger;
      RowsWritten(job, Run(job, start, history), id, now);
      Advanced(job, start, history, id, now);
      history := history + [Advance(id, now)];
      AtSaving(job, Run(job, start, history), id, now);
      var saved := AfterCheckpoint(rec, id, StageAt(i), StageKey(i), job.payload(StageAt(i), receipt), now);
      Advanced(job, start, history, id, now);
      history := history + [Advance(id, now)];
      SaveKeepsAttempts(rec, id, StageAt(i), StageKey(i), job.payload(StageAt(i), receipt), now);
      match saved
      case Success(r) => rec := r;
      case Failure(e) => end := if e.LeaseConflict? then StageLeaseLost else StageStopped(false, FatalStage);
    }

    /** `finalize_with_validator`. */
    method Finalize(now: real, ghost start: State, ghost past: seq<Action>)
      returns (end: StageEnd, accepted: bool, ghost history: seq<Action>)
      requires WellFormed(job) && Reached(start, past, Judging)
      modifies this`rec
      ensures rec.row.attempts == old(rec.row.attempts)
      ensures end.StageSaved? ==> Reached(start, history, Idle)
      ensures end.StageSaved? ==> rec.row.status == if accepted then Succeeded else Status.Failed
      ensures accepted == job.accepts(ledger)
      ensures end.StageStopped? ==> Reached(start, history, Failing(end.retryable)) && !end.error.NoError?
      ensures end.StageLeaseLost? ==> Reached(start, history, LeaseLost)
    {
      hide Run;
      Advanced(job, start, past, id, now);
      history := past + [Advance(id, now)];
      accepted := job.accepts(ledger);
      if !accepted {
        Advanced(job, start, history, id, now);
        history := history + [Advance(id, now)];
        var rejected := AfterTransition(rec, Status.Failed, None, None, true);
        if rejected.Failure? {
          return StageStopped(false, FatalStage), accepted, history;
        }
        rec := rejected.value;
        return StageSaved, accepted, history;
      }
      var receipt := ledger;
      Advanced(job, start, history, id, now);
      history := history + [Advance(id, now)];
      var saved := AfterCheckpoint(rec, id, Validate, FINAL_KEY, job.payload(Validate, receipt), now);
      Advanced(job, start, history, id, now);
      history := history + [Advance(id, now)];
      if saved.Failure? {
        end := if saved.error.LeaseConflict? then StageLeaseLost else StageStopped(false, FatalStage);
        return;
      }
      rec := saved.value;
      var promoted := AfterTransition(rec, Validating, None, None, false);
      Advanced(job, start, history, id, now);
      history := history + [Advance(id, now)];
      if promoted.Failure? {
        return StageStopped(false, FatalStage), accepted, history;
      }
      rec := promoted.value;
      var concluded := AfterTransition(rec, Succeeded, None, None, true);
      Advanced(job, start, history, id, now);
      history := history + [Advance(id, now)];
      if concluded.Failure? {
        return StageStopped(false, FatalStage), accepted, history;
      }
      rec := concluded.value;
      end := StageSaved;
    }

    /** The loop over the stages; no result means that the job was found cancelled. */
    method RunStages(done: set<nat>, raised: nat -> Option<bool>, now: real, ghost start: State, ghost past: seq<Action>)
      returns (end: Option<StageEnd>, committed: seq<Stage>, ghost history: seq<Action>)
      requires WellFormed(job) && Reached(start, past, Gate(done, 0))
      modifies this`rec, this`ledger
      ensures rec.row.attempts == old(rec.row.attempts)
      ensures end.None? ==> Reached(start, history, Idle) && rec.row.status.Cancelled?
      ensures end.Some? ==> match end.value
        case StageSaved => Reached(start, history, Gate(done, STAGES))
        case StageStopped(retryable, error) => Reached(start, history, Failing(retryable)) && !error.NoError?
        case StageLeaseLost => Reached(start, history, LeaseLost)
    {
      hide Run, Step;
      history := past;
      committed := [];
      var i := 0;
      while i < STAGES
        invariant i <= STAGES && Reached(start, history, Gate(done, i))
        invariant rec.row.attempts == old(rec.row.attempts)
      {
        AtGate(job, Run(job, start, history), id, now);
        Advanced(job, start, history, id, now);
        history := history + [Advance(id, now)];
        if i in done {
          i := i + 1;
        } else if rec.row.status.Cancelled? {
          return None, committed, history;
        } else if !rec.row.status.Running? {
          return Some(StageStopped(false, FatalStage)), committed, history;
        } else {
          var turn;
          turn, history := RunStage(done, i, raised(i), now, start, history);
          if !turn.StageSaved? {
            return Some(turn), committed, history;
          }
          committed := committed + [StageAt(i)];
          i := i + 1;
        }
      }
      end := Some(StageSaved);
    }

    /**
     `run_once`.  `raised(i)` says whether the handler of stage `i` raises, and if so whether the
     error is retryable.  The call is one run of the step system and leaves the worker idle.
     */
    method RunOnce(now: real, raised: nat -> Option<bool>, ghost start: State)
      returns (report: Report, ghost history: seq<Action>)
      requires WellFormed(job) && Mirrors(start, Idle)
      modifies this`rec, this`ledger
      ensures Reached(start, history, Idle)
      ensures report.claimed <==> AfterLease(old(rec), id, leaseSeconds, now).Success?
      ensures !report.claimed ==> rec == old(rec) && ledger == old(ledger)
      ensures report.claimed && !report.escaped ==> report.status == rec.row.status
      ensures report.claimed ==> rec.row.attempts == old(rec.row.attempts) + 1
      ensures report.claimed && !report.escaped && report.status.RetryWait? ==> rec.row.attempts < job.maxAttempts
      ensures report.claimed && report.error.NoError? ==> report.status.Succeeded? || report.status.Cancelled?
    {
      hide Run, Step, AfterLease;
      var leased := AfterLease(rec, id, leaseSeconds, now);
      Claimed(job, start, id, leaseSeconds, now);
      if leased.Failure? {
        return Report(false, rec.row.status, [], NoError, false), [];
      }
      LeaseCountsAttempt(rec, id, leaseSeconds, now);
      rec := leased.value;
      history := [Claim(id, leaseSeconds, now)];
      var done := CheckpointedStages(rec);
      AtLoading(job, Run(job, start, history), id, now);
      Advanced(job, start, history, id, now);
      history := history + [Advance(id, now)];
      var end, committed;
      end, committed, history := RunStages(done, raised, now, start, history);
      if end.None? {
        return Report(true, Cancelled, committed, NoError, false), history;
      }
      var ended := end.value;
      if ended.StageSaved? {
        AtGate(job, Run(job, start, history), id, now);
        Advanced(job, start, history, id, now);
        history := history + [Advance(id, now)];
        var accepted;
        ended, accepted, history := Finalize(now, start, history);
        if ended.StageSaved? {
          return Report(true, rec.row.status, committed, if accepted then NoError else EvidenceInvalid, false), history;
        }
      }
      var retryable, error := false, LeaseWasLost;
      if ended.StageLeaseLost? {
        AtLeaseLost(job, Run(job, start, history), id, now);
        Advanced(job, start, history, id, now);
        history := history + [Advance(id, now)];
        if rec.row.status.Cancelled? {
          return Report(true, Cancelled, committed, NoError, false), history;
        }
        retryable := true;
      } else {
        retryable, error := ended.retryable, ended.error;
      }
      var escaped;
      escaped, history := Fail(retryable, now, start, history);
      report := Report(true, rec.row.status, committed, error, escaped);
    }

    /**
     The resume loop of `run_task`: run again as long as the last attempt ended in RETRY_WAIT.  Every
     turn uses up an attempt, so it ends, and it too is one run of the step system.
     */
    method RunTask(clock: nat -> real, raised: nat -> nat -> Option<bool>, ghost start: State)
      returns (report: Report, turns: nat, ghost history: seq<Action>)
      requires WellFormed(job) && Mirrors(start, Idle)
      modifies this`rec, this`ledger
      ensures Reached(start, history, Idle)
      ensures !(report.claimed && !report.escaped && report.status.RetryWait?)
      ensures turns >= 1 && (turns > 1 ==> old(rec.row.attempts) + turns <= job.maxAttempts + 1)
    {
      hide Run, AfterLease;
      report, history := RunOnce(clock(0), raised(0), start);
      turns := 1;
      while report.claimed && !report.escaped && report.status.RetryWait?
        invariant turns >= 1 && Reached(start, history, Idle)
        invariant report.claimed ==> rec.row.attempts == old(rec.row.attempts) + turns
        invariant !report.claimed ==> rec.row.attempts == old(rec.row.attempts) + turns - 1
        invariant report.claimed && !report.escaped && report.status.RetryWait? ==> rec.row.attempts < job.maxAttempts
        invariant turns > 1 ==> old(rec.row.attempts) + turns <= job.maxAttempts + 1
        decreases report.claimed, job.maxAttempts - rec.row.attempts
      {
        ghost var so := Run(job, start, history);
        ghost var more;
        report, more := RunOnce(clock(turns), raised(turns), so);
        RunsJoin(job, start, history, more);
        history := history + more;
        turns := turns + 1;
      }
    }
  }
}
