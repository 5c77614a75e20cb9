/**
 Many workers, one job: `ExecutionWorker.run_once` (`src/orchestration/worker.py`) over the store
 and the ledger, as a step system.  Every database transaction and every ledger access is one
 atomic step; between any two steps a worker may crash, raise, lose its lease to another worker
 or find the job cancelled.  Clock readings are arbitrary, so a lease may expire at any moment.
 */
module ExecutionProtocol {
  import opened Wrappers
  import opened KeyedLog
  import opened JobStore
  import EventLedger

  type EventRow = Entry<EventLedger.Semantics<string>>
  type ChargeRow = Entry<Charge>

  const STAGES := 7

  /** What the handler of one execution stage returns. */
  datatype StageResult = StageResult(events: seq<EventRow>, charges: seq<ChargeRow>)

  /**
   The handlers as a fixed function of the stage, the rendering of a checkpoint (it includes the
   head and length of the ledger at that moment), the finalizer's validator, and the retry bound.
   */
  datatype Job = Job(
    stages: seq<StageResult>,
    payload: (Stage, seq<EventRow>) -> string,
    accepts: seq<EventRow> -> bool,
    maxAttempts: nat)

  predicate WellFormed(job: Job) {
    |job.stages| == STAGES
  }

  function StageAt(i: nat): Stage
    requires i < STAGES
  {
    [Plan, Retrieve, Read, Propose, Challenge, Decide, Synthesize][i]
  }

  /** `_checkpoint_key`. */
  function StageKey(i: nat): string
    requires i < STAGES
  {
    ["stage:PLAN:v1", "stage:RETRIEVE:v1", "stage:READ:v1", "stage:PROPOSE:v1",
     "stage:CHALLENGE:v1", "stage:DECIDE:v1", "stage:SYNTHESIZE:v1"][i]
  }

  const FINAL_KEY := "evidence-finalization"

  /** Where a worker is inside `run_once`; each constructor names its next atomic step. */
  datatype Pc =
    | Idle
    | Loading                                       // read the checkpoints table
    | Gate(done: set<nat>, i: nat)                  // head of the stage loop
    | Working(done: set<nat>, i: nat, k: nat)       // k events and charges of stage i are written
    | Saving(done: set<nat>, i: nat, receipt: seq<EventRow>)
    | Judging                                       // run the validator
    | Rejecting
    | Sealing                                       // read the ledger once more
    | SavingFinal(receipt: seq<EventRow>)
    | Promoting                                     // RUNNING -> VALIDATING
    | Concluding                                    // VALIDATING -> SUCCEEDED
    | LeaseLost
    | Failing(retryable: bool)                      // `_fail`: read the row
    | FailingTo(target: Status)                     // `_fail`: write the status

  datatype State = State(rec: Record, ledger: seq<EventRow>, workers: map<string, Pc>) {
    function PcOf(worker: string): Pc {
      if worker in workers then workers[worker] else Idle
    }

    function At(worker: string, pc: Pc): State {
      this.(workers := workers[worker := pc])
    }
  }

  datatype Action =
    | Claim(worker: string, seconds: real, now: real)
    | Advance(worker: string, now: real)
    | Raise(worker: string, retryable: bool)
    | Crash(worker: string)
    | Beat(worker: string, seconds: real, now: real)
    | Cancel
    | External(charge: ChargeRow)

  // ---------------------------------------------------------------- the steps

  function CheckpointedStages(rec: Record): set<nat> {
    set i | 0 <= i < STAGES && StageKey(i) in rec.checkpoints
  }

  function Write(s: State, worker: string, row: EventRow, next: Pc): State {
    if Clash(s.ledger, row) then s.At(worker, Failing(false))
    else s.(ledger := Put(s.ledger, row)).At(worker, next)
  }

  function Pay(s: State, worker: string, row: ChargeRow, next: Pc): State {
    match AfterCharge(s.rec, row)
    case Success(rec) => s.(rec := rec).At(worker, next)
    case Failure(e) => s.At(worker, Failing(e.Invalid?))
  }

  function Save(s: State, worker: string, stage: Stage, key: string, payload: string, now: real, next: Pc): State {
    match AfterCheckpoint(s.rec, worker, stage, key, payload, now)
    case Success(rec) => s.(rec := rec).At(worker, next)
    case Failure(e) => s.At(worker, if e.LeaseConflict? then LeaseLost else Failing(false))
  }

  function Move(s: State, worker: string, target: Status, release: bool, next: Pc, otherwise: Pc): State {
    match AfterTransition(s.rec, target, None, None, release)
    case Success(rec) => s.(rec := rec).At(worker, next)
    case Failure(_) => s.At(worker, otherwise)
  }

  function StepWorking(job: Job, s: State, worker: string, pc: Pc): State
    requires WellFormed(job) && pc.Working? && pc.i < STAGES
  {
    var result := job.stages[pc.i];
    var n := |result.events|;
    if pc.k < n then Write(s, worker, result.events[pc.k], pc.(k := pc.k + 1))
    else if pc.k < n + |result.charges| then Pay(s, worker, result.charges[pc.k - n], pc.(k := pc.k + 1))
    else s.At(worker, Saving(pc.done, pc.i, s.ledger))
  }

  function StepGate(s: State, worker: string, pc: Pc): State
    requires pc.Gate?
  {
    if pc.i >= STAGES then s.At(worker, Judging)
    else if pc.i in pc.done then s.At(worker, Gate(pc.done, pc.i + 1))
    else if s.rec.row.status.Cancelled? then s.At(worker, Idle)
    else if !s.rec.row.status.Running? then s.At(worker, Failing(false))
    else s.At(worker, Working(pc.done, pc.i, 0))
  }

  function StepFailing(job: Job, s: State, worker: string, retryable: bool): State {
    if Terminal(s.rec.row.status) then s.At(worker, Idle)
    else if retryable && s.rec.row.attempts < job.maxAttempts then s.At(worker, FailingTo(RetryWait))
    else s.At(worker, FailingTo(Status.Failed))
  }

  /** The next atomic step of one worker. */
  function Step(job: Job, s: State, worker: string, now: real): State
    requires WellFormed(job)
  {
    match s.PcOf(worker)
    case Idle => s
    case Loading => s.At(worker, Gate(CheckpointedStages(s.rec), 0))
    case Gate(done, i) => StepGate(s, worker, Gate(done, i))
    case Working(done, i, k) =>
      if i < STAGES then StepWorking(job, s, worker, Working(done, i, k)) else s
    case Saving(done, i, receipt) =>
      if i < STAGES then
        Save(s, worker, StageAt(i), StageKey(i), job.payload(StageAt(i), receipt), now, Gate(done, i + 1))
      else s
    case Judging => s.At(worker, if job.accepts(s.ledger) then Sealing else Rejecting)
    case Rejecting => Move(s, worker, Status.Failed, true, Idle, Failing(false))
    case Sealing => s.At(worker, SavingFinal(s.ledger))
    case SavingFinal(receipt) =>
      Save(s, worker, Validate, FINAL_KEY, job.payload(Validate, receipt), now, Promoting)
    case Promoting => Move(s, worker, Validating, false, Concluding, Failing(false))
    case Concluding => Move(s, worker, Succeeded, true, Idle, Failing(false))
    case LeaseLost => s.At(worker, if s.rec.row.status.Cancelled? then Idle else Failing(true))
    case Failing(retryable) => StepFailing(job, s, worker, retryable)
    case FailingTo(target) => Move(s, worker, target, true, Idle, Idle)
  }

  /**
   An exception is raised before the next step.  Inside the `try` of `run_once` it leads to `_fail`; while the
   checkpoints are read, inside the handler of a lost lease and inside `_fail` it escapes, and the call is over.
   */
  function Thrown(s: State, worker: string, retryable: bool): State {
    match s.PcOf(worker)
    case Idle => s
    case Loading => s.At(worker, Idle)
    case LeaseLost => s.At(worker, Idle)
    case Failing(_) => s.At(worker, Idle)
    case FailingTo(_) => s.At(worker, Idle)
    case _ => s.At(worker, Failing(retryable))
  }

  function Do(job: Job, s: State, a: Action): State
    requires WellFormed(job)
  {
    match a
    case Claim(worker, seconds, now) =>
      if !s.PcOf(worker).Idle? then s
      else (match AfterLease(s.rec, worker, seconds, now)
            case Success(rec) => s.(rec := rec).At(worker, Loading)
            case Failure(_) => s)
    case Advance(worker, now) => Step(job, s, worker, now)
    case Raise(worker, retryable) => Thrown(s, worker, retryable)
    case Crash(worker) => s.At(worker, Idle)
    case Beat(worker, seconds, now) => Update(s, AfterHeartbeat(s.rec, worker, seconds, now))
    case Cancel => Update(s, AfterTransition(s.rec, Cancelled, None, None, true))
    case External(charge) =>
      if Planned(job, charge.key) then s else Update(s, AfterCharge(s.rec, charge))
  }

  function Update(s: State, r: Result<Record, StoreError>): State {
    match r
    case Success(rec) => s.(rec := rec)
    case Failure(_) => s
  }

  function Run(job: Job, s: State, actions: seq<Action>): State
    requires WellFormed(job)
  {
    if actions == [] then s
    else Do(job, Run(job, s, actions[..|actions| - 1]), actions[|actions| - 1])
  }

  function Start(rec: Record): State {
    State(rec, [], map[])
  }

  // ---------------------------------------------------------------- the crash-free writer

  function EventsTo(job: Job, n: nat): seq<EventRow>
    requires n <= |job.stages|
  {
    if n == 0 then [] else EventsTo(job, n - 1) + job.stages[n - 1].events
  }

  function ChargesTo(job: Job, n: nat): seq<ChargeRow>
    requires n <= |job.stages|
  {
    if n == 0 then [] else ChargesTo(job, n - 1) + job.stages[n - 1].charges
  }

  function AllEvents(job: Job): seq<EventRow> {
    EventsTo(job, |job.stages|)
  }

  function AllCharges(job: Job): seq<ChargeRow> {
    ChargesTo(job, |job.stages|)
  }

  /** The ledger of one worker that never crashes and is never refused by the budget. */
  function CrashFreeLedger(job: Job): seq<EventRow> {
    Written(AllEvents(job), FirstClash(AllEvents(job), |AllEvents(job)|))
  }

  predicate Planned(job: Job, key: string) {
    Has(AllCharges(job), key)
  }

  /** The usage rows under planned keys; the others were reserved by handlers on their own. */
  function PlannedUsage(job: Job, usage: seq<ChargeRow>): seq<ChargeRow> {
    if usage == [] then []
    else
      var last := usage[|usage| - 1];
      PlannedUsage(job, usage[..|usage| - 1]) + if Planned(job, last.key) then [last] else []
  }
}
