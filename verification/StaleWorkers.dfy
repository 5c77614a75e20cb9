/**
 Where the protocol is not guarded by the lease.  The failure path of `run_once` writes the status of
 the job whoever holds it, so a worker whose lease ran out can take the job from its holder, and can
 bring a job back whose worker died in VALIDATING.  Both are stated with their exact conditions.
 */
module StaleWorkers {
  import opened Wrappers
  import opened KeyedLog
  import opened JobStore
  import opened ExecutionProtocol
  import opened ExecutionInvariant
  import opened ExecutionSafety
  import opened ExecutionProgress

  lemma RunSnoc(job: Job, s: State, actions: seq<Action>, a: Action)
    requires WellFormed(job)
    ensures Run(job, s, actions + [a]) == Do(job, Run(job, s, actions), a)
  {
    hide Do;
    assert (actions + [a])[..|actions|] == actions;
  }

  lemma {:induction false} RunOver(job: Job, s: State, before: seq<Action>, after: seq<Action>)
    requires WellFormed(job)
    ensures Run(job, s, before + after) == Run(job, Run(job, s, before), after)
  {
    hide Do;
    if after == [] {
      assert before + after == before;
    } else {
      var n := |after| - 1;
      RunOver(job, s, before, after[..n]);
      RunSnoc(job, s, before + after[..n], after[n]);
      assert before + after == before + after[..n] + [after[n]];
    }
  }

  lemma RunOne(job: Job, s: State, a: Action)
    requires WellFormed(job)
    ensures Run(job, s, [a]) == Do(job, s, a)
  {
    hide Do;
    RunSnoc(job, s, [], a);
  }

  lemma RunCons(job: Job, s: State, a: Action, rest: seq<Action>)
    requires WellFormed(job)
    ensures Run(job, s, [a] + rest) == Run(job, Do(job, s, a), rest)
  {
    hide Run, Do;
    RunOver(job, s, [a], rest);
    RunOne(job, s, a);
  }

  // ---------------------------------------------------------------- a failing worker and the row

  /** `_fail`: two steps of a worker whose attempt failed. */
  function Failed(job: Job, s: State, worker: string, now: real, later: real): State
    requires WellFormed(job)
  {
    Run(job, s, [Advance(worker, now), Advance(worker, later)])
  }

  lemma FailedIs(job: Job, s: State, worker: string, now: real, later: real)
    requires WellFormed(job)
    ensures Failed(job, s, worker, now, later) == Step(job, Step(job, s, worker, now), worker, later)
  {
    hide Run, Step;
    RunCons(job, s, Advance(worker, now), [Advance(worker, later)]);
    RunOne(job, Step(job, s, worker, now), Advance(worker, later));
    assert [Advance(worker, now)] + [Advance(worker, later)] == [Advance(worker, now), Advance(worker, later)];
  }

  /**
   The failure of an attempt leaves the row as it was exactly when the job is terminal, not started, or
   waits for the very retry that the failure asks for.  Neither the owner of the lease nor its expiry
   plays a part.
   */
  lemma FailureSparesTheRowExactly(job: Job, s: State, worker: string, retryable: bool, now: real, later: real)
    requires WellFormed(job) && s.PcOf(worker) == Failing(retryable)
    ensures var row := s.rec.row; var retry := retryable && row.attempts < job.maxAttempts;
      var t := Failed(job, s, worker, now, later);
      && t.PcOf(worker).Idle? && t.ledger == s.ledger
      && (t.rec.row == row <==> Terminal(row.status) || row.status.Queued? || (row.status.RetryWait? && retry))
      && (t.rec.row != row ==>
            t.rec.row.status == (if retry then RetryWait else Status.Failed) && t.rec.row.leaseOwner == None)
  {
    FailedIs(job, s, worker, now, later);
  }

  /** The lease of `stale` runs out in the first stage, and `holder` takes the job. */
  function Takeover(stale: string, holder: string): seq<Action> {
    [Claim(stale, 1.0, 0.0), Advance(stale, 0.0), Advance(stale, 0.0), Claim(holder, 1.0, 2.0)]
  }

  /** Then the handler of `stale` raises. */
  function Overtaken(stale: string, holder: string, retryable: bool): seq<Action> {
    Takeover(stale, holder) + [Raise(stale, retryable)]
  }

  /** Where `stale` is before it is overtaken. */
  function InFirstStage(job: Job, tenantId: string, key: string, task: string, budget: Usage, stale: string): State
    requires WellFormed(job)
  {
    var s := Do(job, Start(NewRecord(tenantId, key, task, budget)), Claim(stale, 1.0, 0.0));
    s.At(stale, Gate({}, 0)).At(stale, Working({}, 0, 0))
  }

  lemma TakeoverIs(job: Job, tenantId: string, key: string, task: string, budget: Usage, stale: string, holder: string)
    requires WellFormed(job)
    ensures After(job, tenantId, key, task, budget, Takeover(stale, holder))
         == Do(job, InFirstStage(job, tenantId, key, task, budget, stale), Claim(holder, 1.0, 2.0))
  {
    var start := Start(NewRecord(tenantId, key, task, budget));
    var a, b, c := Claim(stale, 1.0, 0.0), Advance(stale, 0.0), Claim(holder, 1.0, 2.0);
    var s := Do(job, start, a);
    assert CheckpointedStages(s.rec) == {};
    assert Step(job, s, stale, 0.0) == s.At(stale, Gate({}, 0));
    assert Step(job, s.At(stale, Gate({}, 0)), stale, 0.0) == InFirstStage(job, tenantId, key, task, budget, stale);
    hide Run, Step;
    assert Takeover(stale, holder) == [a] + ([b] + ([b] + [c]));
    RunCons(job, start, a, [b] + ([b] + [c]));
    RunCons(job, s, b, [b] + [c]);
    RunCons(job, s.At(stale, Gate({}, 0)), b, [c]);
    RunOne(job, InFirstStage(job, tenantId, key, task, budget, stale), c);
  }

  lemma OvertakenState(job: Job, tenantId: string, key: string, task: string, budget: Usage, stale: string,
                       holder: string, retryable: bool)
    requires WellFormed(job) && stale != holder
    ensures var s := After(job, tenantId, key, task, budget, Overtaken(stale, holder, retryable));
      && HoldsLease(s.rec.row, holder, 2.0) && s.rec.row.attempts == 2
      && s.PcOf(stale) == Failing(retryable) && s.PcOf(holder) == Loading
  {
    hide Run;
    TakeoverIs(job, tenantId, key, task, budget, stale, holder);
    RunSnoc(job, Start(NewRecord(tenantId, key, task, budget)), Takeover(stale, holder), Raise(stale, retryable));
  }

  /**
   Any job can be taken from a worker that holds it: in a reachable state in which `holder` holds the
   lease, two steps of the worker it overtook move the job and release that lease.
   */
  lemma StaleFailureMovesTheJob(job: Job, tenantId: string, key: string, task: string, budget: Usage,
                                stale: string, holder: string, retryable: bool)
    requires WellFormed(job) && stale != holder
    ensures var s := After(job, tenantId, key, task, budget, Overtaken(stale, holder, retryable));
      var t := Failed(job, s, stale, 2.0, 2.0);
      && HoldsLease(s.rec.row, holder, 2.0)
      && !HoldsLease(t.rec.row, holder, 2.0) && t.PcOf(holder) == Loading
      && t.rec.row.status == if retryable && 2 < job.maxAttempts then RetryWait else Status.Failed
  {
    var s := After(job, tenantId, key, task, budget, Overtaken(stale, holder, retryable));
    OvertakenState(job, tenantId, key, task, budget, stale, holder, retryable);
    FailedIs(job, s, stale, 2.0, 2.0);
  }

  // ---------------------------------------------------------------- a job in VALIDATING

  /** This worker can still ask for a retry. */
  predicate MayAskForRetry(pc: Pc) {
    !pc.Idle? && pc != Failing(false) && !pc.FailingTo?
  }

  /** Somebody is about to put the job back, or can still decide to. */
  ghost predicate Revivable(job: Job, s: State) {
    || (exists w | w in s.workers :: s.workers[w] == FailingTo(RetryWait))
    || (s.rec.row.attempts < job.maxAttempts && exists w | w in s.workers :: MayAskForRetry(s.workers[w]))
  }

  /** The job is over, or in VALIDATING with nobody who can put it back. */
  ghost predicate NeverAgain(job: Job, s: State) {
    Terminal(s.rec.row.status) || (s.rec.row.status.Validating? && !Revivable(job, s))
  }

  lemma StepIsOwn(job: Job, s: State, worker: string, now: real, other: string)
    requires WellFormed(job) && worker != other
    ensures Step(job, s, worker, now).PcOf(other) == s.PcOf(other)
  {
    hide Clash, Put, Has, AfterCharge, AfterCheckpoint, AfterTransition;
  }

  lemma StepKeepsAttempts(job: Job, s: State, worker: string, now: real)
    requires WellFormed(job)
    ensures Step(job, s, worker, now).rec.row.attempts == s.rec.row.attempts
  {
    hide Clash, Put, Has, Allowed;
  }

  /** One of its actions leaves a worker in `pc` where it was in `before`: no nearer to a retry. */
  predicate NoNearer(job: Job, attempts: nat, before: Pc, pc: Pc) {
    && (MayAskForRetry(pc) ==> MayAskForRetry(before))
    && (pc == FailingTo(RetryWait) ==>
          before == FailingTo(RetryWait) || (MayAskForRetry(before) && attempts < job.maxAttempts))
  }

  lemma StepFromValidating(job: Job, s: State, worker: string, now: real)
    requires WellFormed(job) && s.rec.row.status.Validating? && s.PcOf(worker) != FailingTo(RetryWait)
    ensures var t := Step(job, s, worker, now);
      && (t.rec.row.status.Validating? || Terminal(t.rec.row.status))
      && NoNearer(job, s.rec.row.attempts, s.PcOf(worker), t.PcOf(worker))
  {
    hide Clash, Put, Has;
  }

  /** An action on a job in VALIDATING: who can move it, and where it leaves the workers. */
  lemma FromValidating(job: Job, s: State, a: Action)
    requires WellFormed(job) && s.rec.row.status.Validating?
    requires forall w | w in s.workers :: s.workers[w] != FailingTo(RetryWait)
    ensures var t := Do(job, s, a);
      && t.rec.row.attempts == s.rec.row.attempts
      && (t.rec.row.status.Validating? || Terminal(t.rec.row.status))
      && forall w :: NoNearer(job, s.rec.row.attempts, s.PcOf(w), t.PcOf(w))
  {
    if a.Advance? {
      hide Step, NoNearer;
      StepFromValidating(job, s, a.worker, a.now);
      var t := Step(job, s, a.worker, a.now);
      forall w
        ensures NoNearer(job, s.rec.row.attempts, s.PcOf(w), t.PcOf(w))
      {
        if w != a.worker {
          StepIsOwn(job, s, a.worker, a.now, w);
          NoNearerThanItself(job, s.rec.row.attempts, s.PcOf(w));
        }
      }
      StepKeepsAttempts(job, s, a.worker, a.now);
    } else {
      hide Clash, Has;
    }
  }

  lemma NoNearerThanItself(job: Job, attempts: nat, pc: Pc)
    requires pc != FailingTo(RetryWait)
    ensures NoNearer(job, attempts, pc, pc)
  {
  }

  /** No action revives such a job. */
  lemma NeverAgainStays(job: Job, s: State, a: Action)
    requires WellFormed(job) && NeverAgain(job, s)
    ensures NeverAgain(job, Do(job, s, a))
  {
    hide Do, MayAskForRetry, NoNearer;
    if Terminal(s.rec.row.status) {
      TerminalStays(job, s, a);
    } else {
      FromValidating(job, s, a);
      var t := Do(job, s, a);
      forall w | w in t.workers
        ensures t.workers[w] != FailingTo(RetryWait)
        ensures MayAskForRetry(t.workers[w]) ==> s.rec.row.attempts >= job.maxAttempts
      {
        NotRevived(job, s, t, w);
      }
    }
  }

  lemma NotRevived(job: Job, s: State, t: State, w: string)
    requires !Revivable(job, s) && w in t.workers && NoNearer(job, s.rec.row.attempts, s.PcOf(w), t.PcOf(w))
    ensures t.workers[w] != FailingTo(RetryWait)
    ensures MayAskForRetry(t.workers[w]) ==> s.rec.row.attempts >= job.maxAttempts
  {
    assert t.PcOf(w) == t.workers[w];
  }

  lemma {:induction false} NeverAgainRuns(job: Job, s: State, actions: seq<Action>)
    requires WellFormed(job) && NeverAgain(job, s)
    ensures NeverAgain(job, Run(job, s, actions))
  {
    hide Do, NeverAgain;
    if actions != [] {
      var n := |actions| - 1;
      NeverAgainRuns(job, s, actions[..n]);
      NeverAgainStays(job, Run(job, s, actions[..n]), actions[n]);
    }
  }

  /** The worker that puts the job back has released the lease and may take it at once. */
  lemma ReleasedIsLeased(job: Job, s: State, worker: string, now: real)
    requires WellFormed(job) && s.PcOf(worker) == FailingTo(RetryWait) && s.rec.row.status.Validating?
    ensures Run(job, s, [Advance(worker, now), Claim(worker, 1.0, now)]).rec.row.status.Running?
  {
    var t := Step(job, s, worker, now);
    RunCons(job, s, Advance(worker, now), [Claim(worker, 1.0, now)]);
    RunOne(job, t, Claim(worker, 1.0, now));
    assert [Advance(worker, now)] + [Claim(worker, 1.0, now)] == [Advance(worker, now), Claim(worker, 1.0, now)];
  }

  /** What a worker does to ask for a retry: a lost lease does, and so does whatever its stage raises. */
  function Asking(pc: Pc, worker: string): seq<Action> {
    match pc
    case Failing(_) => []
    case LeaseLost => [Advance(worker, 0.0)]
    case Loading => [Advance(worker, 0.0), Raise(worker, true)]
    case _ => [Raise(worker, true)]
  }

  /** What a worker does to put the job back and take it. */
  function Revival(pc: Pc, worker: string): seq<Action> {
    (if MayAskForRetry(pc) then Asking(pc, worker) + [Advance(worker, 0.0)] else [])
    + [Advance(worker, 0.0), Claim(worker, 1.0, 0.0)]
  }

  lemma AskingFails(job: Job, s: State, worker: string)
    requires WellFormed(job) && s.rec.row.status.Validating? && MayAskForRetry(s.PcOf(worker))
    ensures var t := Run(job, s, Asking(s.PcOf(worker), worker));
      t.PcOf(worker) == Failing(true) && t.rec == s.rec
  {
    hide Run;
    match s.PcOf(worker) {
      case Failing(_) => RunNone(job, s);
      case LeaseLost => RunOne(job, s, Advance(worker, 0.0));
      case Loading =>
        assert [Advance(worker, 0.0)] + [Raise(worker, true)] == [Advance(worker, 0.0), Raise(worker, true)];
        RunCons(job, s, Advance(worker, 0.0), [Raise(worker, true)]);
        RunOne(job, Do(job, s, Advance(worker, 0.0)), Raise(worker, true));
      case _ => RunOne(job, s, Raise(worker, true));
    }
  }

  lemma RunNone(job: Job, s: State)
    requires WellFormed(job)
    ensures Run(job, s, []) == s
  {
  }

  lemma RevivalLeases(job: Job, s: State, worker: string)
    requires WellFormed(job) && s.rec.row.status.Validating?
    requires s.PcOf(worker) == FailingTo(RetryWait)
             || (MayAskForRetry(s.PcOf(worker)) && s.rec.row.attempts < job.maxAttempts)
    ensures Run(job, s, Revival(s.PcOf(worker), worker)).rec.row.status.Running?
  {
    hide Run, Asking;
    var pc, last := s.PcOf(worker), [Advance(worker, 0.0), Claim(worker, 1.0, 0.0)];
    if MayAskForRetry(pc) {
      var asked := Run(job, s, Asking(pc, worker));
      AskingFails(job, s, worker);
      assert Revival(pc, worker) == Asking(pc, worker) + ([Advance(worker, 0.0)] + last);
      RunOver(job, s, Asking(pc, worker), [Advance(worker, 0.0)] + last);
      RunCons(job, asked, Advance(worker, 0.0), last);
      ReleasedIsLeased(job, Do(job, asked, Advance(worker, 0.0)), worker, 0.0);
    } else {
      assert Revival(pc, worker) == last;
      ReleasedIsLeased(job, s, worker, 0.0);
    }
  }

  /**
   A job in VALIDATING is leased again in some continuation exactly when a worker is about to put it into
   RETRY_WAIT, or an attempt is left and some worker has not yet ended its own: with the worker that was
   finishing it dead, only an overtaken one can bring the job back.
   */
  lemma LeasedAgainExactly(job: Job, s: State)
    requires WellFormed(job) && s.rec.row.status.Validating?
    ensures (exists actions :: Run(job, s, actions).rec.row.status.Running?) <==> Revivable(job, s)
  {
    hide Run, MayAskForRetry;
    if Revivable(job, s) {
      var w :| w in s.workers && (s.workers[w] == FailingTo(RetryWait)
                                  || (MayAskForRetry(s.workers[w]) && s.rec.row.attempts < job.maxAttempts));
      assert s.PcOf(w) == s.workers[w];
      RevivalLeases(job, s, w);
    }
    if actions :| Run(job, s, actions).rec.row.status.Running? {
      if !Revivable(job, s) {
        NeverAgainRuns(job, s, actions);
      }
    }
  }

  /** With every worker gone, a job in VALIDATING stays there for good unless it is cancelled. */
  lemma {:induction false} AbandonedInValidating(job: Job, s: State, actions: seq<Action>)
    requires WellFormed(job) && s.rec.row.status.Validating? && forall w | w in s.workers :: s.workers[w].Idle?
    ensures var t := Run(job, s, actions);
      && (t.rec.row.status.Validating? || t.rec.row.status.Cancelled?) && t.ledger == s.ledger
      && forall w | w in t.workers :: t.workers[w].Idle?
  {
    hide Clash, Has;
    if actions != [] {
      var n := |actions| - 1;
      AbandonedInValidating(job, s, actions[..n]);
      var before := Run(job, s, actions[..n]);
      assert forall w :: before.PcOf(w).Idle?;
    }
  }

  // ---------------------------------------------------------------- how a run gets there

  lemma {:induction false} AloneIsOwn(job: Job, s: State, worker: string, clock: nat -> real, n: nat, other: string)
    requires WellFormed(job) && worker != other
    ensures var t := Run(job, s, Alone(worker, clock, n));
      t.PcOf(other) == s.PcOf(other) && t.rec.row.attempts == s.rec.row.attempts
  {
    hide Step;
    if n > 0 {
      AloneIsOwn(job, s, worker, clock, n - 1, other);
      var t := Run(job, s, Alone(worker, clock, n - 1));
      RunSnoc(job, s, Alone(worker, clock, n - 1), Advance(worker, clock(n - 1)));
      StepIsOwn(job, t, worker, clock(n - 1), other);
      StepKeepsAttempts(job, t, worker, clock(n - 1));
    }
  }

  /** Only the last step of an attempt ends it in success. */
  lemma OnlyConcludingSucceeds(job: Job, s: State, worker: string, expiry: real, d: nat, now: real)
    requires WellFormed(job) && OnCourse(job, s, worker, expiry, d) && !s.PcOf(worker).Idle?
    requires Step(job, s, worker, now).rec.row.status.Succeeded?
    ensures s.PcOf(worker).Concluding? && s.rec.row.status.Validating?
  {
    hide Clash, Put, Has, Frontier, FirstOnes;
  }

  lemma NothingRun(job: Job, s: State, worker: string, clock: nat -> real)
    requires WellFormed(job)
    ensures Run(job, s, Alone(worker, clock, 0)) == s
  {
  }

  /** On its way from the lease to success an undisturbed worker leaves the job in VALIDATING for a while. */
  lemma {:induction false} PassesThroughValidating(job: Job, s: State, worker: string, expiry: real, d: nat,
                                                   clock: nat -> real, n: nat) returns (m: nat)
    requires Doable(job) && WellFormed(job) && Inv(job, s) && d <= STAGES
    requires forall k: nat | k < n :: clock(k) <= expiry
    requires OnCourse(job, s, worker, expiry, d) && Affordable(job, s.rec.usage, s.rec.row.budget)
    requires !s.PcOf(worker).Idle? && Run(job, s, Alone(worker, clock, n)).PcOf(worker).Idle?
    ensures m < n
    ensures var t := Run(job, s, Alone(worker, clock, m)); t.PcOf(worker).Concluding? && t.rec.row.status.Validating?
  {
    hide Inv, OnCourse, Affordable, Doable, Step, Run, StepsLeft;
    assert n > 0 by { NothingRun(job, s, worker, clock); }
    var t := Run(job, s, Alone(worker, clock, n - 1));
    if t.PcOf(worker).Idle? {
      m := PassesThroughValidating(job, s, worker, expiry, d, clock, n - 1);
    } else {
      m := n - 1;
      AloneAdvances(job, s, worker, expiry, d, clock, n - 1);
      AloneAdvances(job, s, worker, expiry, d, clock, n);
      RunSnoc(job, s, Alone(worker, clock, n - 1), Advance(worker, clock(n - 1)));
      IdleMeansSucceeded(job, Run(job, s, Alone(worker, clock, n)), worker, expiry, d);
      OnlyConcludingSucceeds(job, t, worker, expiry, d, clock(n - 1));
    }
  }

  const LATE: nat -> real := (k: nat) => 2.0

  /** `holder` overtakes `stale`, makes `m` steps and dies. */
  function DiedAfter(stale: string, holder: string, m: nat): seq<Action> {
    Takeover(stale, holder) + Alone(holder, LATE, m) + [Crash(holder)]
  }

  lemma TakeoverIsOnCourse(job: Job, tenantId: string, key: string, task: string, budget: Usage, stale: string,
                           holder: string)
    requires Doable(job) && WellFormed(job) && budget.NonNegative() && stale != holder && Affordable(job, [], budget)
    ensures var s := After(job, tenantId, key, task, budget, Takeover(stale, holder));
      && OnCourse(job, s, holder, 3.0, Frontier(s.rec)) && s.PcOf(holder).Loading? && s.PcOf(stale) == Working({}, 0, 0)
      && Affordable(job, s.rec.usage, s.rec.row.budget) && s.rec.row.attempts == 2
  {
    hide Doable, OnCourse, Affordable, Frontier, Run;
    TakeoverIs(job, tenantId, key, task, budget, stale, holder);
    var s := InFirstStage(job, tenantId, key, task, budget, stale);
    ClaimIsOnCourse(job, s, holder, 1.0, 2.0);
    FrontierOfClaim(job, s, holder, 1.0, 2.0);
  }

  lemma FrontierOfClaim(job: Job, s: State, worker: string, seconds: real, now: real)
    requires WellFormed(job)
    ensures Frontier(Do(job, s, Claim(worker, seconds, now)).rec) == Frontier(s.rec)
  {
    hide Leading;
  }

  /**
   A job whose worker died in VALIDATING can be leased again: whatever the planned work, there is a run in
   which the worker that was finishing the job dies in VALIDATING, and the worker it had overtaken, if a
   third attempt is allowed, puts the job into RETRY_WAIT and takes it.
   */
  lemma OvertakenWorkerRevives(job: Job, tenantId: string, key: string, task: string, budget: Usage,
                               stale: string, holder: string) returns (m: nat)
    requires Doable(job) && WellFormed(job) && budget.NonNegative() && Affordable(job, [], budget)
    requires stale != holder && 2 < job.maxAttempts
    ensures var s := After(job, tenantId, key, task, budget, DiedAfter(stale, holder, m));
      && s.rec.row.status.Validating? && s.PcOf(holder).Idle? && s.PcOf(stale) == Working({}, 0, 0)
      && Run(job, s, Revival(s.PcOf(stale), stale)).rec.row.status.Running?
  {
    hide Doable, OnCourse, Affordable, Inv, Run, Revival, Takeover, Alone, AttemptLength, Frontier;
    var start, claims := Start(NewRecord(tenantId, key, task, budget)), Takeover(stale, holder);
    var s := Run(job, start, claims);
    var d := Frontier(s.rec);
    TakeoverIsOnCourse(job, tenantId, key, task, budget, stale, holder);
    EveryRunIsSafe(job, tenantId, key, task, budget, claims);
    FrontierWithin(s.rec);
    AttemptEnds(job, s, holder, 3.0, d, LATE);
    m := PassesThroughValidating(job, s, holder, 3.0, d, LATE, AttemptLength(job));
    AloneIsOwn(job, s, holder, LATE, m, stale);
    var t := Run(job, s, Alone(holder, LATE, m));
    RunOver(job, start, claims, Alone(holder, LATE, m));
    RunSnoc(job, start, claims + Alone(holder, LATE, m), Crash(holder));
    RevivalLeases(job, Do(job, t, Crash(holder)), stale);
  }

  lemma FrontierWithin(rec: Record)
    ensures Frontier(rec) <= STAGES
  {
  }
}
