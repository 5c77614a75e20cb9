/**
 What a lease is worth.  A live lease keeps every other worker from claiming the job and from committing
 checkpoints, for as long as nobody moves the status of the job; a lease that is free, one's own or run
 out can be had in every status that allows it.
 */
module Leases {
  import opened Wrappers
  import opened KeyedLog
  import opened JobStore
  import opened ExecutionProtocol

  /** The statuses in which a job waits for a worker or has one. */
  predicate Leasable(status: Status) {
    status == Queued || status == Running || status == RetryWait
  }

  /** The job belongs to `owner` until `expiry`. */
  predicate Belongs(row: Row, owner: string, expiry: real) {
    row.leaseOwner == Some(owner) && owner != "" && row.leaseExpiresAt.Some? && row.leaseExpiresAt.value >= expiry
  }

  /** A claim is granted exactly when the status allows it and no other worker's lease is live. */
  lemma ClaimIsGrantedExactly(rec: Record, worker: string, seconds: real, now: real)
    ensures AfterLease(rec, worker, seconds, now).Success? <==>
      && Leasable(rec.row.status)
      && forall owner, expiry | Belongs(rec.row, owner, expiry) && expiry > now :: owner == worker
    ensures !AfterLease(rec, worker, seconds, now).Success? ==>
      AfterLease(rec, worker, seconds, now) == Failure(LeaseConflict)
  {
    if rec.row.leaseOwner.Some? && rec.row.leaseExpiresAt.Some? && rec.row.leaseExpiresAt.value > now
       && rec.row.leaseOwner.value != "" {
      assert Belongs(rec.row, rec.row.leaseOwner.value, rec.row.leaseExpiresAt.value);
    }
  }

  /** What a granted claim leaves: the job runs under the new lease, one attempt more is used, all else stays. */
  lemma ClaimedRow(rec: Record, worker: string, seconds: real, now: real)
    requires AfterLease(rec, worker, seconds, now).Success? && worker != ""
    ensures var after := AfterLease(rec, worker, seconds, now).value;
      && after.row.status.Running? && Belongs(after.row, worker, now + seconds)
      && after.row.leaseExpiresAt == Some(now + seconds)
      && after.row.attempts == rec.row.attempts + 1
      && after.checkpoints == rec.checkpoints && after.usage == rec.usage
      && after.row.stage == rec.row.stage && after.row.used == rec.row.used && after.row.budget == rec.row.budget
  {
  }

  /** A heartbeat and a checkpoint are refused to whoever does not hold the running job, and to a run-out lease. */
  lemma OnlyTheHolderWrites(rec: Record, worker: string, seconds: real, stage: Stage, key: string, payload: string, now: real)
    requires !(rec.row.status.Running? && rec.row.leaseOwner == Some(worker)
               && rec.row.leaseExpiresAt.Some? && now <= rec.row.leaseExpiresAt.value)
    ensures AfterHeartbeat(rec, worker, seconds, now) == Failure(LeaseConflict)
    ensures AfterCheckpoint(rec, worker, stage, key, payload, now) == Failure(LeaseConflict)
  {
  }

  /** The holder extends its lease to `seconds` from now. */
  lemma HolderExtends(rec: Record, worker: string, seconds: real, now: real)
    requires rec.row.status.Running? && rec.row.leaseOwner == Some(worker)
    requires rec.row.leaseExpiresAt.Some? && now <= rec.row.leaseExpiresAt.value
    ensures var r := AfterHeartbeat(rec, worker, seconds, now);
      && r.Success? && r.value.row.leaseOwner == Some(worker) && r.value.row.leaseExpiresAt == Some(now + seconds)
      && r.value.row.status.Running? && r.value.checkpoints == rec.checkpoints && r.value.usage == rec.usage
      && r.value.row.attempts == rec.row.attempts
  {
  }

  /** A checkpoint is committed exactly for the holder, going forward, and without contradicting a stored one. */
  lemma CheckpointIsCommittedExactly(rec: Record, worker: string, stage: Stage, key: string, payload: string, now: real)
    ensures var r := AfterCheckpoint(rec, worker, stage, key, payload, now);
      && (r.Success? <==>
            && rec.row.status.Running? && rec.row.leaseOwner == Some(worker)
            && rec.row.leaseExpiresAt.Some? && now <= rec.row.leaseExpiresAt.value
            && StageRank(rec.row.stage) <= StageRank(stage)
            && (key in rec.checkpoints ==> rec.checkpoints[key] == Checkpoint(stage, payload)))
      && (r.Success? ==>
            && key in r.value.checkpoints && r.value.checkpoints[key] == Checkpoint(stage, payload)
            && (forall other | other != key ::
                  (other in r.value.checkpoints <==> other in rec.checkpoints)
                  && (other in rec.checkpoints ==> r.value.checkpoints[other] == rec.checkpoints[other]))
            && r.value.row.stage == stage && r.value.usage == rec.usage)
  {
  }

  /** A charge is accepted exactly when it repeats a booked one, or is new, not negative and within the budget. */
  lemma ChargeIsBookedExactly(rec: Record, charge: Entry<Charge>)
    ensures var r := AfterCharge(rec, charge);
      var known := exists i :: 0 <= i < |rec.usage| && rec.usage[i].key == charge.key;
      var used, budget, more := rec.row.used, rec.row.budget, charge.body.usage;
      && (r.Success? <==>
            && more.calls >= 0 && more.tokens >= 0 && more.cost >= 0
            && (if known then forall i | 0 <= i < |rec.usage| && rec.usage[i].key == charge.key :: rec.usage[i] == charge
                else used.calls + more.calls <= budget.calls && used.tokens + more.tokens <= budget.tokens
                     && used.cost + more.cost <= budget.cost))
      && (r.Success? && known ==> r.value == rec)
      && (r.Success? && !known ==>
            && r.value.usage == rec.usage + [charge] && r.value.checkpoints == rec.checkpoints
            && r.value.row.used.calls == used.calls + more.calls
            && r.value.row.used.tokens == used.tokens + more.tokens
            && r.value.row.used.cost == used.cost + more.cost)
  {
  }

  // ---------------------------------------------------------------- exclusion over runs

  function Actor(a: Action): Option<string> {
    match a
    case Claim(worker, _, _) => Some(worker)
    case Advance(worker, _) => Some(worker)
    case Raise(worker, _) => Some(worker)
    case Crash(worker) => Some(worker)
    case Beat(worker, _, _) => Some(worker)
    case _ => None
  }

  /** The clock of the action reads less than `expiry`, and `holder` does not shorten its own lease. */
  predicate Before(a: Action, holder: string, expiry: real) {
    match a
    case Claim(worker, seconds, now) => now < expiry && (worker == holder ==> now + seconds >= expiry)
    case Advance(_, now) => now < expiry
    case Beat(worker, seconds, now) => now < expiry && (worker == holder ==> now + seconds >= expiry)
    case _ => true
  }

  /** Whatever another worker does meanwhile: its claim changes nothing, and no checkpoint of it is accepted. */
  ghost predicate ShutOut(job: Job, s: State, a: Action, holder: string)
    requires WellFormed(job)
  {
    Actor(a) != Some(holder) ==>
      && (a.Claim? ==> Do(job, s, a) == s)
      && Do(job, s, a).rec.checkpoints == s.rec.checkpoints
      && Do(job, s, a).rec.row.leaseOwner == s.rec.row.leaseOwner
      && Do(job, s, a).rec.row.leaseExpiresAt == s.rec.row.leaseExpiresAt
  }

  lemma StepKeepsLease(job: Job, s: State, worker: string, now: real, holder: string, expiry: real)
    requires WellFormed(job) && s.rec.row.status.Running? && Belongs(s.rec.row, holder, expiry)
    requires Step(job, s, worker, now).rec.row.status.Running?
    ensures var t := Step(job, s, worker, now);
      && t.rec.row.leaseOwner == s.rec.row.leaseOwner && t.rec.row.leaseExpiresAt == s.rec.row.leaseExpiresAt
      && (worker != holder ==> t.rec.checkpoints == s.rec.checkpoints)
  {
    hide Clash, Has, Put, StageAt, StageKey;
  }

  lemma LeaseStands(job: Job, s: State, a: Action, holder: string, expiry: real)
    requires WellFormed(job) && s.rec.row.status.Running? && Belongs(s.rec.row, holder, expiry) && Before(a, holder, expiry)
    requires Do(job, s, a).rec.row.status.Running?
    ensures Belongs(Do(job, s, a).rec.row, holder, expiry) && ShutOut(job, s, a, holder)
  {
    if a.Advance? {
      hide Step;
      StepKeepsLease(job, s, a.worker, a.now, holder, expiry);
    } else {
      hide Clash, Has, Put, Step;
    }
  }

  /**
   Mutual exclusion: from a state in which the job runs under the lease of `holder`, until the expiry of that
   lease and as long as no action moves the status, every other worker is shut out and the lease stands.
   */
  lemma {:induction false} LiveLeaseExcludes(job: Job, s: State, actions: seq<Action>, holder: string, expiry: real)
    requires WellFormed(job) && Belongs(s.rec.row, holder, expiry)
    requires forall k | 0 <= k < |actions| :: Before(actions[k], holder, expiry)
    requires forall k | 0 <= k <= |actions| :: Run(job, s, actions[..k]).rec.row.status.Running?
    ensures Belongs(Run(job, s, actions).rec.row, holder, expiry)
    ensures forall k | 0 <= k < |actions| :: ShutOut(job, Run(job, s, actions[..k]), actions[k], holder)
  {
    hide Do, ShutOut, Belongs, Before;
    assert actions[..|actions|] == actions;
    if actions != [] {
      var n := |actions| - 1;
      var before := actions[..n];
      forall k | 0 <= k <= n
        ensures before[..k] == actions[..k]
      {
      }
      LiveLeaseExcludes(job, s, before, holder, expiry);
      LeaseStands(job, Run(job, s, before), actions[n], holder, expiry);
    }
  }

  /** In particular after a claim that was granted. */
  lemma GrantedClaimExcludes(job: Job, s: State, holder: string, seconds: real, now: real, actions: seq<Action>)
    requires WellFormed(job) && holder != "" && s.PcOf(holder).Idle? && AfterLease(s.rec, holder, seconds, now).Success?
    requires forall k | 0 <= k < |actions| :: Before(actions[k], holder, now + seconds)
    requires var t := Do(job, s, Claim(holder, seconds, now));
      forall k | 0 <= k <= |actions| :: Run(job, t, actions[..k]).rec.row.status.Running?
    ensures var t := Do(job, s, Claim(holder, seconds, now));
      && Run(job, t, actions).rec.row.leaseOwner == Some(holder)
      && forall k | 0 <= k < |actions| :: ShutOut(job, Run(job, t, actions[..k]), actions[k], holder)
  {
    hide Run, ShutOut, Before, AfterLease;
    ClaimedRow(s.rec, holder, seconds, now);
    LiveLeaseExcludes(job, Do(job, s, Claim(holder, seconds, now)), actions, holder, now + seconds);
  }

  // ---------------------------------------------------------------- the life of a job

  /**
   The ways through the statuses, read backwards: a job runs only out of QUEUED or RETRY_WAIT, validates only
   out of RUNNING, succeeds only out of VALIDATING in its last stage, fails only once it was taken, and can be
   cancelled until it is over.
   */
  lemma TransitionIsAllowedExactly(rec: Record, target: Status, expected: Option<nat>, error: Option<string>, release: bool)
    ensures var from := rec.row.status;
      AfterTransition(rec, target, expected, error, release).Success? <==>
        && (expected.Some? ==> expected.value == rec.row.version)
        && match target
           case Queued => false
           case Running => from in {Queued, RetryWait}
           case Validating => from == Running
           case RetryWait => from in {Running, Validating}
           case Succeeded => from == Validating && rec.row.stage == Validate
           case Failed => from in {Running, RetryWait, Validating}
           case Cancelled => from in {Queued, Running, RetryWait, Validating}
    ensures AfterTransition(rec, target, expected, error, release).Success? ==>
      var row := AfterTransition(rec, target, expected, error, release).value.row;
      && row.status == target && row.lastError == error && row.version == rec.row.version + 1
      && (release ==> row.leaseOwner.None? && row.leaseExpiresAt.None?)
      && (!release ==> row.leaseOwner == rec.row.leaseOwner && row.leaseExpiresAt == rec.row.leaseExpiresAt)
  {
  }
}
