/**
 The control-plane store of `src/orchestration/job_store.py`: one row per job with its
 checkpoints and its usage ledger.  Each operation is one serialisable transaction, given as a
 function on the record of the job and implemented by a method of the store.
 */
module JobStore {
  import opened Wrappers
  import opened KeyedLog

  datatype Status = Queued | Running | Validating | RetryWait | Succeeded | Failed | Cancelled

  datatype Stage = Plan | Retrieve | Read | Propose | Challenge | Decide | Synthesize | Validate

  datatype StoreError =
    | NotFound | Invalid | KeyReused | IllegalTransition | LeaseConflict | BudgetExceeded

  function StageRank(s: Stage): nat {
    match s
    case Plan => 0 case Retrieve => 1 case Read => 2 case Propose => 3
    case Challenge => 4 case Decide => 5 case Synthesize => 6 case Validate => 7
  }

  predicate Terminal(s: Status) {
    s.Succeeded? || s.Failed? || s.Cancelled?
  }

  /** `ALLOWED_STATUS`. */
  predicate Allowed(current: Status, target: Status) {
    match current
    case Queued => target.Running? || target.Cancelled?
    case Running => target.Validating? || target.RetryWait? || target.Failed? || target.Cancelled?
    case RetryWait => target.Running? || target.Failed? || target.Cancelled?
    case Validating => target.Succeeded? || target.RetryWait? || target.Failed? || target.Cancelled?
    case _ => false
  }

  datatype Usage = Usage(calls: int, tokens: int, cost: int) {
    function Plus(other: Usage): Usage {
      Usage(calls + other.calls, tokens + other.tokens, cost + other.cost)
    }

    predicate AtMost(other: Usage) {
      calls <= other.calls && tokens <= other.tokens && cost <= other.cost
    }

    predicate NonNegative() {
      0 <= calls && 0 <= tokens && 0 <= cost
    }
  }

  const NO_USAGE := Usage(0, 0, 0)

  datatype Charge = Charge(provider: string, usage: Usage)

  /** The payload is the rendered JSON text that a repeated save must reproduce. */
  datatype Checkpoint = Checkpoint(stage: Stage, payload: string)

  datatype Row = Row(
    tenantId: string, idempotencyKey: string, task: string,
    status: Status, stage: Stage, version: nat,
    leaseOwner: Option<string>, leaseExpiresAt: Option<real>, attempts: nat,
    budget: Usage, used: Usage, lastError: Option<string>)

  datatype Record = Record(row: Row, checkpoints: map<string, Checkpoint>, usage: seq<Entry<Charge>>)

  function NewRecord(tenantId: string, idempotencyKey: string, task: string, budget: Usage): Record {
    Record(Row(tenantId, idempotencyKey, task, Queued, Plan, 1, None, None, 0, budget, NO_USAGE, None),
           map[], [])
  }

  // ---------------------------------------------------------------- the operations on one job

  function AfterLease(rec: Record, worker: string, seconds: real, now: real): Result<Record, StoreError> {
    var row := rec.row;
    if Terminal(row.status) || row.status.Validating? then Failure(LeaseConflict)
    else if LeasedElsewhere(row, worker, now) then Failure(LeaseConflict)
    else Success(rec.(row := row.(
      status := Running, leaseOwner := Some(worker), leaseExpiresAt := Some(now + seconds),
      attempts := row.attempts + 1, version := row.version + 1)))
  }

  predicate LeasedElsewhere(row: Row, worker: string, now: real) {
    && row.leaseOwner.Some? && row.leaseOwner.value != "" && row.leaseOwner.value != worker
    && row.leaseExpiresAt.Some? && row.leaseExpiresAt.value > now
  }

  predicate HoldsLease(row: Row, worker: string, now: real) {
    && row.status.Running? && row.leaseOwner == Some(worker)
    && row.leaseExpiresAt.Some? && row.leaseExpiresAt.value >= now
  }

  function AfterHeartbeat(rec: Record, worker: string, seconds: real, now: real): Result<Record, StoreError> {
    var row := rec.row;
    if !HoldsLease(row, worker, now) then Failure(LeaseConflict)
    else Success(rec.(row := row.(leaseExpiresAt := Some(now + seconds), version := row.version + 1)))
  }

  function AfterCheckpoint(rec: Record, worker: string, stage: Stage, key: string, payload: string, now: real)
    : Result<Record, StoreError>
  {
    var row := rec.row;
    var saved := Checkpoint(stage, payload);
    if !HoldsLease(row, worker, now) then Failure(LeaseConflict)
    else if StageRank(stage) < StageRank(row.stage) then Failure(IllegalTransition)
    else if key in rec.checkpoints && rec.checkpoints[key] != saved then Failure(KeyReused)
    else Success(rec.(row := row.(stage := stage, version := row.version + 1),
                      checkpoints := rec.checkpoints[key := saved]))
  }

  function AfterCharge(rec: Record, charge: Entry<Charge>): Result<Record, StoreError> {
    var row := rec.row;
    var projected := row.used.Plus(charge.body.usage);
    if !charge.body.usage.NonNegative() then Failure(Invalid)
    else if Clash(rec.usage, charge) then Failure(KeyReused)
    else if Has(rec.usage, charge.key) then Success(rec)
    else if !projected.AtMost(row.budget) then Failure(BudgetExceeded)
    else Success(rec.(row := row.(used := projected, version := row.version + 1),
                      usage := rec.usage + [charge]))
  }

  function AfterTransition(rec: Record, target: Status, expectedVersion: Option<nat>, error: Option<string>,
                      releaseLease: bool): Result<Record, StoreError>
  {
    var row := rec.row;
    if expectedVersion.Some? && expectedVersion.value != row.version then Failure(IllegalTransition)
    else if !Allowed(row.status, target) then Failure(IllegalTransition)
    else if target.Succeeded? && !row.stage.Validate? then Failure(IllegalTransition)
    else Success(rec.(row := row.(
      status := target, lastError := error, version := row.version + 1,
      leaseOwner := if releaseLease then None else row.leaseOwner,
      leaseExpiresAt := if releaseLease then None else row.leaseExpiresAt)))
  }

  // ---------------------------------------------------------------- what they keep

  function Total(usage: seq<Entry<Charge>>): Usage {
    if usage == [] then NO_USAGE
    else Total(usage[..|usage| - 1]).Plus(usage[|usage| - 1].body.usage)
  }

  /** The stage column is the highest checkpointed stage, PLAN when there is none. */
  ghost predicate StageIsHighest(rec: Record) {
    && (forall key | key in rec.checkpoints :: StageRank(rec.checkpoints[key].stage) <= StageRank(rec.row.stage))
    && (rec.row.stage.Plan? || exists key :: key in rec.checkpoints && rec.checkpoints[key].stage == rec.row.stage)
  }

  ghost predicate Consistent(rec: Record) {
    && rec.row.used == Total(rec.usage)
    && rec.row.used.AtMost(rec.row.budget)
    && UniqueKeys(rec.usage)
    && (forall i | 0 <= i < |rec.usage| :: rec.usage[i].body.usage.NonNegative())
    && StageIsHighest(rec)
    && (rec.row.status.Succeeded? ==> rec.row.stage.Validate?)
  }

  /** One operation took `rec` to `rec'`; a refused operation leaves the record alone. */
  ghost predicate Operation(rec: Record, rec': Record) {
    || rec' == rec
    || (exists worker, seconds, now :: AfterLease(rec, worker, seconds, now) == Success(rec'))
    || (exists worker, seconds, now :: AfterHeartbeat(rec, worker, seconds, now) == Success(rec'))
    || (exists worker, stage, key, payload, now ::
          AfterCheckpoint(rec, worker, stage, key, payload, now) == Success(rec'))
    || (exists charge :: AfterCharge(rec, charge) == Success(rec'))
    || (exists target, expected, error, release ::
          AfterTransition(rec, target, expected, error, release) == Success(rec'))
  }

  lemma TotalSnoc(usage: seq<Entry<Charge>>, charge: Entry<Charge>)
    ensures Total(usage + [charge]) == Total(usage).Plus(charge.body.usage)
  {
    assert (usage + [charge])[..|usage|] == usage;
  }

  lemma SaveKeepsStage(rec: Record, worker: string, stage: Stage, key: string, payload: string, now: real)
    requires StageIsHighest(rec) && AfterCheckpoint(rec, worker, stage, key, payload, now).Success?
    ensures StageIsHighest(AfterCheckpoint(rec, worker, stage, key, payload, now).value)
  {
    var rec' := AfterCheckpoint(rec, worker, stage, key, payload, now).value;
    assert key in rec'.checkpoints && rec'.checkpoints[key].stage == rec'.row.stage;
  }

  lemma ChargeKeepsTotal(rec: Record, charge: Entry<Charge>)
    requires Consistent(rec) && AfterCharge(rec, charge).Success?
    ensures Consistent(AfterCharge(rec, charge).value)
  {
    TotalSnoc(rec.usage, charge);
    var rec' := AfterCharge(rec, charge).value;
    forall i, j | 0 <= i < j < |rec'.usage| ensures rec'.usage[i].key != rec'.usage[j].key {
      assert i < |rec.usage|;
    }
    assert StageIsHighest(rec');
  }

  /**
   Whatever operation runs next, by whichever worker at whatever clock reading: the books
   balance and stay within budget, the stage is the highest checkpointed one and never falls,
   checkpoints and charges are only ever added, a terminal status is final, the identity and
   the budget never change, and an unchanged version number means an unchanged record.
   */
  lemma OperationKeeps(rec: Record, rec': Record)
    requires Consistent(rec) && Operation(rec, rec')
    ensures Consistent(rec')
    ensures StageRank(rec.row.stage) <= StageRank(rec'.row.stage)
    ensures rec.usage <= rec'.usage
    ensures forall key | key in rec.checkpoints :: key in rec'.checkpoints && rec'.checkpoints[key] == rec.checkpoints[key]
    ensures Terminal(rec.row.status) ==> rec'.row.status == rec.row.status
    ensures rec'.row.tenantId == rec.row.tenantId && rec'.row.idempotencyKey == rec.row.idempotencyKey
    ensures rec'.row.task == rec.row.task && rec'.row.budget == rec.row.budget
    ensures rec.row.version <= rec'.row.version && (rec'.row.version == rec.row.version ==> rec' == rec)
  {
    hide Total, UniqueKeys;
    if worker, stage, key, payload, now :| AfterCheckpoint(rec, worker, stage, key, payload, now) == Success(rec') {
      SaveKeepsStage(rec, worker, stage, key, payload, now);
    } else if charge :| AfterCharge(rec, charge) == Success(rec') {
      ChargeKeepsTotal(rec, charge);
    } else {
      assert rec'.checkpoints == rec.checkpoints && rec'.row.stage == rec.row.stage;
      assert StageIsHighest(rec');
    }
  }

  // ---------------------------------------------------------------- the store

  /** No two jobs share a tenant and an idempotency key. */
  ghost predicate OneJobPerRequest(jobs: map<string, Record>) {
    forall a, b | a in jobs && b in jobs
      && jobs[a].row.tenantId == jobs[b].row.tenantId
      && jobs[a].row.idempotencyKey == jobs[b].row.idempotencyKey :: a == b
  }

  ghost predicate StoreInvariant(jobs: map<string, Record>) {
    OneJobPerRequest(jobs) && forall id | id in jobs :: Consistent(jobs[id])
  }

  lemma NewIsConsistent(tenantId: string, idempotencyKey: string, task: string, budget: Usage)
    requires budget.NonNegative()
    ensures Consistent(NewRecord(tenantId, idempotencyKey, task, budget))
  {
  }

  lemma UpdateKeepsInvariant(jobs: map<string, Record>, id: string, rec: Record)
    requires StoreInvariant(jobs) && id in jobs && Operation(jobs[id], rec)
    ensures StoreInvariant(jobs[id := rec])
  {
    OperationKeeps(jobs[id], rec);
  }

  lemma KeysOfUsage(jobs: map<string, Record>, id: string)
    requires StoreInvariant(jobs) && id in jobs
    ensures UniqueKeys(jobs[id].usage)
  {
    assert Consistent(jobs[id]);
  }

  lemma ChargeIsOperation(rec: Record, charge: Entry<Charge>)
    requires AfterCharge(rec, charge).Success?
    ensures Operation(rec, AfterCharge(rec, charge).value)
  {
  }

  lemma CheckpointKeepsInvariant(jobs: map<string, Record>, id: string, worker: string, stage: Stage,
                                 key: string, payload: string, now: real)
    requires StoreInvariant(jobs) && id in jobs
    requires AfterCheckpoint(jobs[id], worker, stage, key, payload, now).Success?
    ensures StoreInvariant(jobs[id := AfterCheckpoint(jobs[id], worker, stage, key, payload, now).value])
  {
    var rec := AfterCheckpoint(jobs[id], worker, stage, key, payload, now).value;
    UpdateKeepsInvariant(jobs, id, rec);
  }

  /** A transaction on one job: commit the new record, or roll back and report the error. */
  ghost predicate Committed(before: map<string, Record>, after: map<string, Record>, id: string,
                            op: Record -> Result<Record, StoreError>, r: Result<Row, StoreError>)
  {
    if id !in before then after == before && r == Failure(NotFound)
    else match op(before[id])
      case Success(rec) => after == before[id := rec] && r == Success(rec.row)
      case Failure(e) => after == before && r == Failure(e)
  }

  class Store {
    var jobs: map<string, Record>

    constructor ()
      ensures jobs == map[] && StoreInvariant(jobs)
    {
      jobs := map[];
    }

    /** `create_job`.  `freshId` is the UUID drawn when the caller gives none. */
    method CreateJob(tenantId: string, idempotencyKey: string, task: string, budget: Usage, freshId: string)
      returns (r: Result<string, StoreError>)
      requires StoreInvariant(jobs) && freshId !in jobs
      modifies this
      ensures StoreInvariant(jobs)
      ensures r.Failure? ==> jobs == old(jobs)
      ensures r.Success? ==>
        && r.value in jobs
        && (var row := jobs[r.value].row;
            row.tenantId == tenantId && row.idempotencyKey == idempotencyKey && row.task == task && row.budget == budget)
        && (if r.value in old(jobs) then jobs == old(jobs)
            else jobs == old(jobs)[freshId := NewRecord(tenantId, idempotencyKey, task, budget)])
      ensures r == Failure(KeyReused) <==>
        && !Blank(tenantId) && !Blank(idempotencyKey) && !Blank(task) && budget.NonNegative()
        && exists id :: id in jobs
             && jobs[id].row.tenantId == tenantId && jobs[id].row.idempotencyKey == idempotencyKey
             && (jobs[id].row.task != task || jobs[id].row.budget != budget)
      ensures r == Failure(Invalid) <==>
        Blank(tenantId) || Blank(idempotencyKey) || Blank(task) || !budget.NonNegative()
    {
      hide Consistent;
      if Blank(tenantId) || Blank(idempotencyKey) || Blank(task) || !budget.NonNegative() {
        return Failure(Invalid);
      }
      if id :| id in jobs && jobs[id].row.tenantId == tenantId && jobs[id].row.idempotencyKey == idempotencyKey {
        var existing := jobs[id].row;
        if existing.task != task || existing.budget != budget {
          return Failure(KeyReused);
        }
        return Success(id);
      }
      NewIsConsistent(tenantId, idempotencyKey, task, budget);
      jobs := jobs[freshId := NewRecord(tenantId, idempotencyKey, task, budget)];
      return Success(freshId);
    }

    method AcquireLease(id: string, worker: string, seconds: real, now: real) returns (r: Result<Row, StoreError>)
      requires StoreInvariant(jobs)
      modifies this
      ensures StoreInvariant(jobs)
      ensures if Blank(worker) || seconds <= 0.0 then r == Failure(Invalid) && jobs == old(jobs)
              else Committed(old(jobs), jobs, id, rec => AfterLease(rec, worker, seconds, now), r)
    {
      hide StoreInvariant;
      if Blank(worker) || seconds <= 0.0 {
        return Failure(Invalid);
      }
      if id !in jobs {
        return Failure(NotFound);
      }
      var rec := jobs[id];
      var status, owner, expiry := rec.row.status, rec.row.leaseOwner, rec.row.leaseExpiresAt;
      if Terminal(status) || status.Validating? {
        return Failure(LeaseConflict);
      }
      if owner.Some? && owner.value != "" && owner.value != worker && expiry.Some? && expiry.value > now {
        return Failure(LeaseConflict);
      }
      if status.Queued? || status.RetryWait? {
        status := Running;
      }
      var row := rec.row.(status := status, leaseOwner := Some(worker), leaseExpiresAt := Some(now + seconds),
                          attempts := rec.row.attempts + 1, version := rec.row.version + 1);
      assert AfterLease(rec, worker, seconds, now) == Success(rec.(row := row));
      UpdateKeepsInvariant(jobs, id, rec.(row := row));
      jobs := jobs[id := rec.(row := row)];
      return Success(row);
    }

    method Heartbeat(id: string, worker: string, seconds: real, now: real) returns (r: Result<Row, StoreError>)
      requires StoreInvariant(jobs)
      modifies this
      ensures StoreInvariant(jobs)
      ensures Committed(old(jobs), jobs, id, rec => AfterHeartbeat(rec, worker, seconds, now), r)
           || (id !in old(jobs) && jobs == old(jobs) && r == Failure(LeaseConflict))
    {
      hide StoreInvariant;
      if id !in jobs || !HoldsLease(jobs[id].row, worker, now) {
        return Failure(LeaseConflict);
      }
      var row := jobs[id].row;
      row := row.(leaseExpiresAt := Some(now + seconds), version := row.version + 1);
      assert AfterHeartbeat(jobs[id], worker, seconds, now) == Success(jobs[id].(row := row));
      UpdateKeepsInvariant(jobs, id, jobs[id].(row := row));
      jobs := jobs[id := jobs[id].(row := row)];
      return Success(row);
    }

    /** `save_checkpoint` with a payload that has passed the durable-payload check. */
    method SaveCheckpoint(id: string, worker: string, stage: Stage, key: string, payload: string, now: real)
      returns (r: Result<Row, StoreError>)
      requires StoreInvariant(jobs)
      modifies this
      ensures StoreInvariant(jobs)
      ensures Committed(old(jobs), jobs, id, rec => AfterCheckpoint(rec, worker, stage, key, payload, now), r)
    {
      hide StoreInvariant;
      if id !in jobs {
        return Failure(NotFound);
      }
      var rec := jobs[id];
      if !rec.row.status.Running? || rec.row.leaseOwner != Some(worker) {
        return Failure(LeaseConflict);
      }
      if rec.row.leaseExpiresAt.None? || rec.row.leaseExpiresAt.value < now {
        return Failure(LeaseConflict);
      }
      if StageRank(stage) < StageRank(rec.row.stage) {
        return Failure(IllegalTransition);
      }
      var checkpoints := rec.checkpoints;
      if key in checkpoints {
        if checkpoints[key].payload != payload || checkpoints[key].stage != stage {
          return Failure(KeyReused);
        }
        assert checkpoints == checkpoints[key := Checkpoint(stage, payload)];
      } else {
        checkpoints := checkpoints[key := Checkpoint(stage, payload)];
      }
      var row := rec.row.(stage := stage, version := rec.row.version + 1);
      var rec' := rec.(row := row, checkpoints := checkpoints);
      assert AfterCheckpoint(rec, worker, stage, key, payload, now) == Success(rec');
      CheckpointKeepsInvariant(jobs, id, worker, stage, key, payload, now);
      jobs := jobs[id := rec'];
      return Success(row);
    }

    method ChargeUsage(id: string, charge: Entry<Charge>) returns (r: Result<Row, StoreError>)
      requires StoreInvariant(jobs)
      modifies this
      ensures StoreInvariant(jobs)
      ensures if !charge.body.usage.NonNegative() then r == Failure(Invalid) && jobs == old(jobs)
              else Committed(old(jobs), jobs, id, rec => AfterCharge(rec, charge), r)
    {
      hide StoreInvariant, Operation;
      var usage := charge.body.usage;
      if usage.calls < 0 || usage.tokens < 0 || usage.cost < 0 {
        return Failure(Invalid);
      }
      if id !in jobs {
        return Failure(NotFound);
      }
      var rec := jobs[id];
      KeysOfUsage(jobs, id);
      if k :| 0 <= k < |rec.usage| && rec.usage[k].key == charge.key {
        if rec.usage[k].body != charge.body {
          assert rec.usage[k] != charge;
          return Failure(KeyReused);
        }
        assert forall j | 0 <= j < |rec.usage| && rec.usage[j].key == charge.key :: j == k;
        assert jobs == old(jobs)[id := rec];
        return Success(rec.row);
      }
      var projected := rec.row.used.Plus(usage);
      var budget := rec.row.budget;
      if projected.calls > budget.calls || projected.tokens > budget.tokens || projected.cost > budget.cost {
        return Failure(BudgetExceeded);
      }
      var row := rec.row.(used := projected, version := rec.row.version + 1);
      var rec' := rec.(row := row, usage := rec.usage + [charge]);
      assert AfterCharge(rec, charge) == Success(rec');
      ChargeIsOperation(rec, charge);
      UpdateKeepsInvariant(jobs, id, rec');
      jobs := jobs[id := rec'];
      return Success(row);
    }

    method Transition(id: string, target: Status, expectedVersion: Option<nat>, error: Option<string>,
                      releaseLease: bool) returns (r: Result<Row, StoreError>)
      requires StoreInvariant(jobs)
      modifies this
      ensures StoreInvariant(jobs)
      ensures Committed(old(jobs), jobs, id,
                        rec => AfterTransition(rec, target, expectedVersion, error, releaseLease), r)
    {
      hide StoreInvariant;
      if id !in jobs {
        return Failure(NotFound);
      }
      var row := jobs[id].row;
      if expectedVersion.Some? && row.version != expectedVersion.value {
        return Failure(IllegalTransition);
      }
      if !Allowed(row.status, target) {
        return Failure(IllegalTransition);
      }
      if target.Succeeded? && !row.stage.Validate? {
        return Failure(IllegalTransition);
      }
      var owner := if releaseLease then None else row.leaseOwner;
      var expiry := if releaseLease then None else row.leaseExpiresAt;
      row := row.(status := target, leaseOwner := owner, leaseExpiresAt := expiry, lastError := error,
                  version := row.version + 1);
      assert AfterTransition(jobs[id], target, expectedVersion, error, releaseLease) == Success(jobs[id].(row := row));
      UpdateKeepsInvariant(jobs, id, jobs[id].(row := row));
      jobs := jobs[id := jobs[id].(row := row)];
      return Success(row);
    }
  }
}
