/** The inductive invariant of the execution protocol, and why every action keeps it. */
module ExecutionInvariant {
  import opened Wrappers
  import opened KeyedLog
  import opened JobStore
  import opened ExecutionProtocol
  import EventLedger

  // ---------------------------------------------------------------- one log written in stages

  /** A log's planned rows and where each stage's rows begin. */
  datatype Track<B> = Track(specs: seq<Entry<B>>, cuts: seq<nat>) {
    ghost predicate Good() {
      && |cuts| == STAGES + 1
      && (forall i, j | 0 <= i <= j <= STAGES :: cuts[i] <= cuts[j])
      && cuts[STAGES] == |specs|
    }
  }

  function Limit<B(==)>(t: Track<B>): nat {
    FirstClash(t.specs, |t.specs|)
  }

  /** A writer that is past row `m` has left its rows in the log. */
  predicate Covers<B(==)>(t: Track<B>, m: nat, log: seq<Entry<B>>) {
    m <= Limit(t) && Written(t.specs, m) <= log
  }

  function Ceiling<B(==)>(t: Track<B>, f: nat): (hi: nat)
    requires |t.cuts| == STAGES + 1
    ensures hi <= |t.specs|
  {
    Min(t.cuts[Min(f + 1, STAGES)], Limit(t))
  }

  /** With `f` stages committed, the log holds those stages and at most the next one. */
  predicate LogOk<B(==)>(t: Track<B>, f: nat, log: seq<Entry<B>>)
    requires |t.cuts| == STAGES + 1 && f <= STAGES
  {
    Covers(t, t.cuts[f], log) && log <= Written(t.specs, Ceiling(t, f))
  }

  lemma {:induction false} StageWrite<B>(t: Track<B>, f: nat, log: seq<Entry<B>>, i: nat, m: nat)
    requires t.Good() && f <= STAGES && LogOk(t, f, log)
    requires i < STAGES && i <= f && t.cuts[i] <= m < t.cuts[i + 1]
    requires Covers(t, m, log) && !Clash(log, t.specs[m])
    ensures LogOk(t, f, Put(log, t.specs[m])) && Covers(t, m + 1, Put(log, t.specs[m]))
  {
    if m == Limit(t) {
      assert Refused(t.specs, m);
      ClashPersists(Written(t.specs, m), log, t.specs[m]);
    } else {
      WriteStep(t.specs, m, log, Ceiling(t, f));
    }
  }

  lemma StageDone<B>(t: Track<B>, f: nat, log: seq<Entry<B>>)
    requires t.Good() && f < STAGES && LogOk(t, f, log) && Covers(t, t.cuts[f + 1], log)
    ensures log == Written(t.specs, t.cuts[f + 1])
    ensures LogOk(t, f + 1, log)
  {
    WrittenGrows(t.specs, t.cuts[f + 1], Ceiling(t, f + 1));
  }

  lemma AllDone<B>(t: Track<B>, log: seq<Entry<B>>)
    requires t.Good() && LogOk(t, STAGES, log)
    ensures log == Written(t.specs, |t.specs|) && Limit(t) == |t.specs|
  {
  }

  // ---------------------------------------------------------------- the two logs of a job

  function EventTrack(job: Job): Track<EventLedger.Semantics<string>>
    requires WellFormed(job)
  {
    Track(AllEvents(job), seq(STAGES + 1, i requires 0 <= i <= STAGES => |EventsTo(job, i)|))
  }

  function ChargeTrack(job: Job): Track<Charge>
    requires WellFormed(job)
  {
    Track(AllCharges(job), seq(STAGES + 1, i requires 0 <= i <= STAGES => |ChargesTo(job, i)|))
  }

  lemma {:induction false} EventsPrefix(job: Job, i: nat, j: nat)
    requires i <= j <= |job.stages|
    ensures EventsTo(job, i) <= EventsTo(job, j)
    decreases j
  {
    if i < j {
      EventsPrefix(job, i, j - 1);
    }
  }

  lemma {:induction false} ChargesPrefix(job: Job, i: nat, j: nat)
    requires i <= j <= |job.stages|
    ensures ChargesTo(job, i) <= ChargesTo(job, j)
    decreases j
  {
    if i < j {
      ChargesPrefix(job, i, j - 1);
    }
  }

  lemma TracksGood(job: Job)
    requires WellFormed(job)
    ensures EventTrack(job).Good() && ChargeTrack(job).Good()
  {
    forall i, j | 0 <= i <= j <= STAGES
      ensures EventTrack(job).cuts[i] <= EventTrack(job).cuts[j]
      ensures ChargeTrack(job).cuts[i] <= ChargeTrack(job).cuts[j]
    {
      EventsPrefix(job, i, j);
      ChargesPrefix(job, i, j);
    }
  }

  lemma StageEvents(job: Job, i: nat)
    requires WellFormed(job) && i < STAGES
    ensures var t, rows := EventTrack(job), job.stages[i].events;
      && t.cuts[i + 1] == t.cuts[i] + |rows| <= |t.specs|
      && forall k | 0 <= k < |rows| :: t.specs[t.cuts[i] + k] == rows[k]
  {
    EventsPrefix(job, i + 1, STAGES);
    var before, rows := EventsTo(job, i), job.stages[i].events;
    assert EventsTo(job, i + 1) == before + rows;
    forall k | 0 <= k < |rows| ensures AllEvents(job)[|before| + k] == rows[k] {
      assert (before + rows)[|before| + k] == rows[k];
    }
  }

  lemma StageCharges(job: Job, i: nat)
    requires WellFormed(job) && i < STAGES
    ensures var t, rows := ChargeTrack(job), job.stages[i].charges;
      && t.cuts[i + 1] == t.cuts[i] + |rows| <= |t.specs|
      && forall k | 0 <= k < |rows| :: t.specs[t.cuts[i] + k] == rows[k]
  {
    ChargesPrefix(job, i + 1, STAGES);
    var before, rows := ChargesTo(job, i), job.stages[i].charges;
    assert ChargesTo(job, i + 1) == before + rows;
    forall k | 0 <= k < |rows| ensures AllCharges(job)[|before| + k] == rows[k] {
      assert (before + rows)[|before| + k] == rows[k];
    }
  }

  lemma PlannedSnoc(job: Job, usage: seq<ChargeRow>, row: ChargeRow)
    ensures PlannedUsage(job, usage + [row]) == PlannedUsage(job, usage) + if Planned(job, row.key) then [row] else []
  {
    assert (usage + [row])[..|usage|] == usage;
  }

  /** A planned key is looked up the same way in the whole usage ledger and in its planned part. */
  lemma {:induction false} PlannedLookup(job: Job, usage: seq<ChargeRow>, row: ChargeRow)
    requires Planned(job, row.key)
    ensures Has(usage, row.key) <==> Has(PlannedUsage(job, usage), row.key)
    ensures Clash(usage, row) <==> Clash(PlannedUsage(job, usage), row)
  {
    if usage != [] {
      var shorter, last := usage[..|usage| - 1], usage[|usage| - 1];
      PlannedLookup(job, shorter, row);
      LookupSnoc(shorter, last, row);
      LookupSnoc(PlannedUsage(job, shorter), last, row);
      assert shorter + [last] == usage;
      if Planned(job, last.key) {
        assert PlannedUsage(job, usage) == PlannedUsage(job, shorter) + [last];
      } else {
        assert PlannedUsage(job, usage) == PlannedUsage(job, shorter);
      }
    }
  }

  lemma LookupSnoc<B>(log: seq<Entry<B>>, last: Entry<B>, row: Entry<B>)
    ensures Has(log + [last], row.key) <==> Has(log, row.key) || last.key == row.key
    ensures Clash(log + [last], row) <==> Clash(log, row) || (last.key == row.key && last != row)
  {
    var all := log + [last];
    assert all[|log|] == last;
    if i :| 0 <= i < |log| && log[i].key == row.key {
      assert all[i] == log[i];
    }
    if i :| 0 <= i < |log| && log[i].key == row.key && log[i] != row {
      assert all[i] == log[i];
    }
  }

  // ---------------------------------------------------------------- the invariant

  /** How many leading stages are checkpointed. */
  function Leading(checkpoints: map<string, Checkpoint>, n: nat): (f: nat)
    requires n <= STAGES
    ensures f <= n
    ensures forall i | 0 <= i < f :: StageKey(i) in checkpoints
    ensures f < n ==> StageKey(f) !in checkpoints
  {
    if n == 0 then 0
    else
      var f := Leading(checkpoints, n - 1);
      if f < n - 1 || StageKey(n - 1) !in checkpoints then f else n
  }

  function Frontier(rec: Record): (f: nat)
    ensures f <= STAGES
  {
    Leading(rec.checkpoints, STAGES)
  }

  /** The checkpoint the crash-free worker writes after stage `i`. */
  function StageCheckpoint(job: Job, i: nat): Checkpoint
    requires WellFormed(job) && i < STAGES
  {
    EventsPrefix(job, i + 1, STAGES);
    Checkpoint(StageAt(i), job.payload(StageAt(i), Written(AllEvents(job), |EventsTo(job, i + 1)|)))
  }

  function AllWritten(job: Job): seq<EventRow> {
    Written(AllEvents(job), |AllEvents(job)|)
  }

  function FinalCheckpoint(job: Job): Checkpoint {
    Checkpoint(Validate, job.payload(Validate, AllWritten(job)))
  }

  ghost predicate CheckpointsOk(job: Job, checkpoints: map<string, Checkpoint>)
    requires WellFormed(job)
  {
    && (forall i | 0 <= i < STAGES && StageKey(i) in checkpoints ::
          i < Leading(checkpoints, STAGES) && checkpoints[StageKey(i)] == StageCheckpoint(job, i))
    && (forall key | key in checkpoints ::
          key == FINAL_KEY || exists i :: 0 <= i < STAGES && key == StageKey(i))
    && (FINAL_KEY in checkpoints ==>
          && Leading(checkpoints, STAGES) == STAGES
          && checkpoints[FINAL_KEY] == FinalCheckpoint(job)
          && job.accepts(AllWritten(job)))
  }

  ghost predicate StateOk(job: Job, s: State)
    requires WellFormed(job)
  {
    var f := Frontier(s.rec);
    && Consistent(s.rec)
    && CheckpointsOk(job, s.rec.checkpoints)
    && LogOk(EventTrack(job), f, s.ledger)
    && LogOk(ChargeTrack(job), f, PlannedUsage(job, s.rec.usage))
  }

  /** How many planned events, and charges, a worker at position `k` of stage `i` has behind it. */
  function EventsBehind(job: Job, i: nat, k: nat): nat
    requires WellFormed(job) && i < STAGES
  {
    EventTrack(job).cuts[i] + Min(k, |job.stages[i].events|)
  }

  function ChargesBehind(job: Job, i: nat, k: nat): nat
    requires WellFormed(job) && i < STAGES
  {
    ChargeTrack(job).cuts[i] + if k < |job.stages[i].events| then 0 else k - |job.stages[i].events|
  }

  ghost predicate Behind(job: Job, s: State, i: nat, k: nat)
    requires WellFormed(job) && i < STAGES
  {
    && i <= Frontier(s.rec)
    && k <= |job.stages[i].events| + |job.stages[i].charges|
    && Covers(EventTrack(job), EventsBehind(job, i, k), s.ledger)
    && Covers(ChargeTrack(job), ChargesBehind(job, i, k), PlannedUsage(job, s.rec.usage))
  }

  ghost predicate WorkerOk(job: Job, s: State, pc: Pc)
    requires WellFormed(job)
  {
    var f, all := Frontier(s.rec), AllWritten(job);
    match pc
    case Gate(done, i) => i <= f && forall j | j in done :: j < f
    case Working(done, i, k) => i < STAGES && Behind(job, s, i, k) && forall j | j in done :: j < f
    case Saving(done, i, receipt) =>
      && i < STAGES && i <= f
      && Behind(job, s, i, |job.stages[i].events| + |job.stages[i].charges|)
      && (forall j | j in done :: j < f)
      && (i == f ==> EventTrack(job).cuts[i + 1] <= |AllEvents(job)|
                     && receipt == Written(AllEvents(job), EventTrack(job).cuts[i + 1]))
    case Judging => f == STAGES
    case Sealing => f == STAGES && job.accepts(all)
    case SavingFinal(receipt) => f == STAGES && job.accepts(all) && receipt == all
    case _ => true
  }

  ghost predicate Inv(job: Job, s: State)
    requires WellFormed(job)
  {
    StateOk(job, s) && forall w | w in s.workers :: WorkerOk(job, s, s.workers[w])
  }

  ghost predicate Grows(job: Job, s: State, s': State) {
    && Frontier(s.rec) <= Frontier(s'.rec)
    && s.ledger <= s'.ledger
    && PlannedUsage(job, s.rec.usage) <= PlannedUsage(job, s'.rec.usage)
  }

  lemma BehindStable(job: Job, s: State, s': State, i: nat, k: nat)
    requires WellFormed(job) && i < STAGES && Grows(job, s, s') && Behind(job, s, i, k)
    ensures Behind(job, s', i, k)
  {
  }

  /** What one worker knows stays true whatever the others do. */
  lemma WorkerStable(job: Job, s: State, s': State, pc: Pc)
    requires WellFormed(job) && Grows(job, s, s') && WorkerOk(job, s, pc)
    ensures WorkerOk(job, s', pc)
  {
    hide Behind;
    match pc
    case Working(done, i, k) => BehindStable(job, s, s', i, k);
    case Saving(done, i, receipt) =>
      BehindStable(job, s, s', i, |job.stages[i].events| + |job.stages[i].charges|);
    case _ =>
  }

  /** A step that only moves a program counter. */
  lemma OnlyMoved(job: Job, s: State, s': State)
    requires WellFormed(job) && StateOk(job, s) && s'.rec == s.rec && s'.ledger == s.ledger
    ensures StateOk(job, s') && Grows(job, s, s')
    ensures forall i, k | 0 <= i < STAGES && 0 <= k :: Behind(job, s', i, k) == Behind(job, s, i, k)
  {
  }

  /** One step of `worker`: the others keep what they know. */
  lemma StepCombines(job: Job, s: State, s': State, worker: string, pc: Pc)
    requires WellFormed(job) && Inv(job, s) && StateOk(job, s') && Grows(job, s, s')
    requires s'.workers == s.workers[worker := pc] && WorkerOk(job, s', pc)
    ensures Inv(job, s')
  {
    forall w | w in s'.workers ensures WorkerOk(job, s', s'.workers[w]) {
      if w != worker {
        WorkerStable(job, s, s', s.workers[w]);
      }
    }
  }

  // ---------------------------------------------------------------- the steps keep it

  lemma StageKeysDistinct()
    ensures forall i, j | 0 <= i < j < STAGES :: StageKey(i) != StageKey(j)
    ensures forall i | 0 <= i < STAGES :: StageKey(i) != FINAL_KEY
  {
    forall i, j | 0 <= i < j < STAGES ensures StageKey(i) != StageKey(j) {
      assert StageKey(0)[6] == 'P' && StageKey(0)[7] == 'L';
      assert StageKey(1)[6] == 'R' && StageKey(1)[8] == 'T';
      assert StageKey(2)[6] == 'R' && StageKey(2)[8] == 'A';
      assert StageKey(3)[6] == 'P' && StageKey(3)[7] == 'R';
      assert StageKey(4)[6] == 'C';
      assert StageKey(5)[6] == 'D';
      assert StageKey(6)[6] == 'S';
    }
    forall i | 0 <= i < STAGES ensures StageKey(i) != FINAL_KEY {
      assert StageKey(i)[0] == 's' && FINAL_KEY[0] == 'e';
    }
  }

  lemma FrontierGrows(rec: Record, rec': Record)
    requires forall key | key in rec.checkpoints :: key in rec'.checkpoints
    ensures Frontier(rec) <= Frontier(rec')
  {
  }

  /** A step that touches the row alone: leases, heartbeats and status changes. */
  lemma RowStep(job: Job, s: State, rec: Record)
    requires WellFormed(job) && StateOk(job, s) && Operation(s.rec, rec)
    requires rec.checkpoints == s.rec.checkpoints && rec.usage == s.rec.usage
    ensures StateOk(job, s.(rec := rec)) && Grows(job, s, s.(rec := rec))
  {
    OperationKeeps(s.rec, rec);
  }

  /** A charge under a key that no handler plans leaves the planned part alone. */
  lemma ExternalStep(job: Job, s: State, charge: ChargeRow)
    requires WellFormed(job) && StateOk(job, s) && !Planned(job, charge.key)
    requires AfterCharge(s.rec, charge).Success?
    ensures var s' := s.(rec := AfterCharge(s.rec, charge).value); StateOk(job, s') && Grows(job, s, s')
  {
    hide LogOk, CheckpointsOk, Total, PlannedUsage, Planned, Consistent, Clash, Has, Leading;
    var rec := AfterCharge(s.rec, charge).value;
    assert Consistent(s.rec) && !Planned(job, charge.key);
    ChargeKeepsTotal(s.rec, charge);
    PlannedSnoc(job, s.rec.usage, charge);
    assert PlannedUsage(job, rec.usage) == PlannedUsage(job, s.rec.usage);
  }

  lemma EventLogStep(job: Job, f: nat, ledger: seq<EventRow>, i: nat, k: nat)
    requires WellFormed(job) && i <= f <= STAGES && i < STAGES && k < |job.stages[i].events|
    requires LogOk(EventTrack(job), f, ledger) && Covers(EventTrack(job), EventsBehind(job, i, k), ledger)
    requires !Clash(ledger, job.stages[i].events[k])
    ensures LogOk(EventTrack(job), f, Put(ledger, job.stages[i].events[k]))
    ensures Covers(EventTrack(job), EventsBehind(job, i, k + 1), Put(ledger, job.stages[i].events[k]))
    ensures ChargesBehind(job, i, k + 1) == ChargesBehind(job, i, k)
  {
    hide LogOk, Covers, Refused, Written;
    TracksGood(job);
    StageEvents(job, i);
    var t := EventTrack(job);
    assert EventsBehind(job, i, k) == t.cuts[i] + k && EventsBehind(job, i, k + 1) == t.cuts[i] + k + 1;
    StageWrite(t, f, ledger, i, t.cuts[i] + k);
  }

  lemma ChargeLogStep(job: Job, f: nat, usage: seq<ChargeRow>, i: nat, k: nat)
    requires WellFormed(job) && i <= f <= STAGES && i < STAGES
    requires |job.stages[i].events| <= k < |job.stages[i].events| + |job.stages[i].charges|
    requires LogOk(ChargeTrack(job), f, PlannedUsage(job, usage))
    requires Covers(ChargeTrack(job), ChargesBehind(job, i, k), PlannedUsage(job, usage))
    requires !Clash(usage, job.stages[i].charges[k - |job.stages[i].events|])
    ensures var after := PlannedUsage(job, Put(usage, job.stages[i].charges[k - |job.stages[i].events|]));
      && LogOk(ChargeTrack(job), f, after)
      && Covers(ChargeTrack(job), ChargesBehind(job, i, k + 1), after)
      && PlannedUsage(job, usage) <= after
    ensures EventsBehind(job, i, k + 1) == EventsBehind(job, i, k)
  {
    hide LogOk, Covers, Written;
    TracksGood(job);
    StageCharges(job, i);
    var j := k - |job.stages[i].events|;
    var t, charge := ChargeTrack(job), job.stages[i].charges[j];
    assert ChargesBehind(job, i, k) == t.cuts[i] + j && ChargesBehind(job, i, k + 1) == t.cuts[i] + j + 1;
    assert t.specs[t.cuts[i] + j] == charge;
    assert Planned(job, charge.key);
    PlannedLookup(job, usage, charge);
    PlannedSnoc(job, usage, charge);
    StageWrite(t, f, PlannedUsage(job, usage), i, t.cuts[i] + j);
    assert PlannedUsage(job, Put(usage, charge)) == Put(PlannedUsage(job, usage), charge);
  }

  /** A handler's event: refused on a clash, otherwise the log moves by at most this row. */
  lemma WriteStepKeeps(job: Job, s: State, i: nat, k: nat)
    requires WellFormed(job) && i < STAGES && StateOk(job, s) && Behind(job, s, i, k)
    requires k < |job.stages[i].events| && !Clash(s.ledger, job.stages[i].events[k])
    ensures var s' := s.(ledger := Put(s.ledger, job.stages[i].events[k]));
            StateOk(job, s') && Grows(job, s, s') && Behind(job, s', i, k + 1)
  {
    hide LogOk, Covers, CheckpointsOk, Consistent;
    EventLogStep(job, Frontier(s.rec), s.ledger, i, k);
  }

  /** A handler's charge. */
  lemma PayStepKeeps(job: Job, s: State, i: nat, k: nat)
    requires WellFormed(job) && i < STAGES && StateOk(job, s) && Behind(job, s, i, k)
    requires |job.stages[i].events| <= k < |job.stages[i].events| + |job.stages[i].charges|
    requires AfterCharge(s.rec, job.stages[i].charges[k - |job.stages[i].events|]).Success?
    ensures var s' := s.(rec := AfterCharge(s.rec, job.stages[i].charges[k - |job.stages[i].events|]).value);
            StateOk(job, s') && Grows(job, s, s') && Behind(job, s', i, k + 1)
  {
    hide LogOk, Covers, CheckpointsOk, Total;
    var charge := job.stages[i].charges[k - |job.stages[i].events|];
    var rec := AfterCharge(s.rec, charge).value;
    ChargeLogStep(job, Frontier(s.rec), s.rec.usage, i, k);
    ChargeKeepsTotal(s.rec, charge);
    assert rec.usage == Put(s.rec.usage, charge);
  }

  /** All of a stage is written: the receipt read now is the crash-free one if the stage is open. */
  lemma ReceiptKeeps(job: Job, s: State, i: nat)
    requires WellFormed(job) && i < STAGES && StateOk(job, s)
    requires Behind(job, s, i, |job.stages[i].events| + |job.stages[i].charges|)
    ensures EventTrack(job).cuts[i + 1] <= |AllEvents(job)|
    ensures i == Frontier(s.rec) ==>
      && s.ledger == Written(AllEvents(job), EventTrack(job).cuts[i + 1])
      && LogOk(EventTrack(job), i + 1, s.ledger)
      && LogOk(ChargeTrack(job), i + 1, PlannedUsage(job, s.rec.usage))
  {
    hide LogOk, Covers, PlannedUsage, Consistent, CheckpointsOk, EventsTo, ChargesTo;
    TracksGood(job);
    StageEvents(job, i);
    StageCharges(job, i);
    var k := |job.stages[i].events| + |job.stages[i].charges|;
    assert EventsBehind(job, i, k) == EventTrack(job).cuts[i + 1];
    assert ChargesBehind(job, i, k) == ChargeTrack(job).cuts[i + 1];
    if i == Frontier(s.rec) {
      StageDone(EventTrack(job), i, s.ledger);
      StageDone(ChargeTrack(job), i, PlannedUsage(job, s.rec.usage));
    }
  }

  /** Checkpointing the first open stage moves the frontier by exactly one. */
  lemma FrontierSteps(job: Job, checkpoints: map<string, Checkpoint>, f: nat)
    requires WellFormed(job) && CheckpointsOk(job, checkpoints) && f == Leading(checkpoints, STAGES) < STAGES
    ensures var after := checkpoints[StageKey(f) := StageCheckpoint(job, f)];
            Leading(after, STAGES) == f + 1 && CheckpointsOk(job, after)
  {
    hide StageCheckpoint, FinalCheckpoint;
    StageKeysDistinct();
    var after := checkpoints[StageKey(f) := StageCheckpoint(job, f)];
    assert StageKey(f) !in checkpoints;
    assert f + 1 < STAGES ==> StageKey(f + 1) !in after;
    assert forall i | 0 <= i <= f :: StageKey(i) in after;
  }

  lemma SaveConsistent(rec: Record, worker: string, stage: Stage, key: string, payload: string, now: real)
    requires Consistent(rec) && AfterCheckpoint(rec, worker, stage, key, payload, now).Success?
    ensures Consistent(AfterCheckpoint(rec, worker, stage, key, payload, now).value)
  {
    SaveKeepsStage(rec, worker, stage, key, payload, now);
  }

  lemma StageSaveKeeps(job: Job, s: State, worker: string, i: nat, receipt: seq<EventRow>, now: real)
    requires WellFormed(job) && i < STAGES && StateOk(job, s)
    requires WorkerOk(job, s, Saving({}, i, receipt))
    requires AfterCheckpoint(s.rec, worker, StageAt(i), StageKey(i), job.payload(StageAt(i), receipt), now).Success?
    ensures var rec := AfterCheckpoint(s.rec, worker, StageAt(i), StageKey(i), job.payload(StageAt(i), receipt), now).value;
            StateOk(job, s.(rec := rec)) && Grows(job, s, s.(rec := rec)) && i < Frontier(rec)
  {
    hide LogOk, PlannedUsage, Consistent;
    var payload := job.payload(StageAt(i), receipt);
    var rec := AfterCheckpoint(s.rec, worker, StageAt(i), StageKey(i), payload, now).value;
    SaveConsistent(s.rec, worker, StageAt(i), StageKey(i), payload, now);
    if i < Frontier(s.rec) {
      assert rec.checkpoints == s.rec.checkpoints;
    } else {
      OpenStageSaved(job, s, i, receipt, rec);
    }
  }

  lemma SavedIsStageCheckpoint(job: Job, i: nat)
    requires WellFormed(job) && i < STAGES && EventTrack(job).cuts[i + 1] <= |AllEvents(job)|
    ensures StageCheckpoint(job, i)
         == Checkpoint(StageAt(i), job.payload(StageAt(i), Written(AllEvents(job), EventTrack(job).cuts[i + 1])))
  {
    hide Written, EventsTo;
  }

  lemma OpenStageSaved(job: Job, s: State, i: nat, receipt: seq<EventRow>, rec: Record)
    requires WellFormed(job) && i == Frontier(s.rec) < STAGES && StateOk(job, s)
    requires WorkerOk(job, s, Saving({}, i, receipt)) && Consistent(rec) && rec.usage == s.rec.usage
    requires rec.checkpoints == s.rec.checkpoints[StageKey(i) := Checkpoint(StageAt(i), job.payload(StageAt(i), receipt))]
    ensures StateOk(job, s.(rec := rec)) && Grows(job, s, s.(rec := rec)) && i < Frontier(rec)
  {
    hide LogOk, PlannedUsage, Consistent, Leading, StageCheckpoint, EventsTo, Written, Covers, StageAt, StageKey;
    ReceiptKeeps(job, s, i);
    var saved := Checkpoint(StageAt(i), job.payload(StageAt(i), receipt));
    SavedIsStageCheckpoint(job, i);
    FrontierSteps(job, s.rec.checkpoints, i);
  }

  lemma FinalSaveKeeps(job: Job, s: State, worker: string, receipt: seq<EventRow>, now: real)
    requires WellFormed(job) && StateOk(job, s) && WorkerOk(job, s, SavingFinal(receipt))
    requires AfterCheckpoint(s.rec, worker, Validate, FINAL_KEY, job.payload(Validate, receipt), now).Success?
    ensures var rec := AfterCheckpoint(s.rec, worker, Validate, FINAL_KEY, job.payload(Validate, receipt), now).value;
            StateOk(job, s.(rec := rec)) && Grows(job, s, s.(rec := rec))
  {
    hide LogOk, PlannedUsage, Consistent, EventTrack, ChargeTrack, Written, AllEvents, AllWritten;
    var payload := job.payload(Validate, receipt);
    var rec := AfterCheckpoint(s.rec, worker, Validate, FINAL_KEY, payload, now).value;
    SaveConsistent(s.rec, worker, Validate, FINAL_KEY, payload, now);
    StageKeysDistinct();
    FrontierGrows(s.rec, rec);
    assert CheckpointsOk(job, rec.checkpoints);
  }

  /** When every stage is checkpointed the ledger is complete. */
  lemma CompleteLedger(job: Job, s: State)
    requires WellFormed(job) && StateOk(job, s) && Frontier(s.rec) == STAGES
    ensures s.ledger == AllWritten(job) == CrashFreeLedger(job)
    ensures PlannedUsage(job, s.rec.usage) == Written(AllCharges(job), |AllCharges(job)|)
  {
    TracksGood(job);
    AllDone(EventTrack(job), s.ledger);
    AllDone(ChargeTrack(job), PlannedUsage(job, s.rec.usage));
  }

  // ---------------------------------------------------------------- every action keeps the invariant

  lemma MoveKeeps(job: Job, s: State, worker: string, target: Status, release: bool, next: Pc, otherwise: Pc)
    requires WellFormed(job) && Inv(job, s)
    requires next.Idle? || next.Concluding?
    requires otherwise.Idle? || otherwise.Failing?
    ensures Inv(job, Move(s, worker, target, release, next, otherwise))
  {
    hide Behind, EventTrack, ChargeTrack, Written, LogOk, PlannedUsage, AllEvents, AllWritten;
    var s' := Move(s, worker, target, release, next, otherwise);
    if AfterTransition(s.rec, target, None, None, release).Success? {
      RowStep(job, s, s'.rec);
      StepCombines(job, s, s', worker, next);
    } else {
      StepCombines(job, s, s', worker, otherwise);
    }
  }

  lemma WritingKeeps(job: Job, s: State, worker: string, pc: Pc)
    requires WellFormed(job) && Inv(job, s) && pc.Working? && WorkerOk(job, s, pc)
    requires pc.k < |job.stages[pc.i].events|
    ensures Inv(job, Write(s, worker, job.stages[pc.i].events[pc.k], pc.(k := pc.k + 1)))
  {
    hide StateOk, Grows, Behind;
    var row := job.stages[pc.i].events[pc.k];
    var s' := Write(s, worker, row, pc.(k := pc.k + 1));
    if Clash(s.ledger, row) {
      OnlyMoved(job, s, s');
    } else {
      WriteStepKeeps(job, s, pc.i, pc.k);
      OnlyMoved(job, s.(ledger := s'.ledger), s');
    }
    StepCombines(job, s, s', worker, s'.workers[worker]);
  }

  lemma PayingKeeps(job: Job, s: State, worker: string, pc: Pc)
    requires WellFormed(job) && Inv(job, s) && pc.Working? && WorkerOk(job, s, pc)
    requires |job.stages[pc.i].events| <= pc.k < |job.stages[pc.i].events| + |job.stages[pc.i].charges|
    ensures Inv(job, Pay(s, worker, job.stages[pc.i].charges[pc.k - |job.stages[pc.i].events|], pc.(k := pc.k + 1)))
  {
    hide StateOk, Behind, Frontier, EventTrack, ChargeTrack, Written, LogOk, PlannedUsage, AllEvents, AllWritten;
    var charge := job.stages[pc.i].charges[pc.k - |job.stages[pc.i].events|];
    var s' := Pay(s, worker, charge, pc.(k := pc.k + 1));
    if AfterCharge(s.rec, charge).Success? {
      PayStepKeeps(job, s, pc.i, pc.k);
      OnlyMoved(job, s.(rec := s'.rec), s');
    } else {
      OnlyMoved(job, s, s');
    }
    StepCombines(job, s, s', worker, s'.workers[worker]);
  }

  lemma BehindFrontier(job: Job, s: State, i: nat, k: nat)
    requires WellFormed(job) && i < STAGES && Behind(job, s, i, k)
    ensures i <= Frontier(s.rec)
  {
  }

  /** All rows of the stage are written: the worker takes the receipt. */
  lemma WrittenKeeps(job: Job, s: State, worker: string, pc: Pc)
    requires WellFormed(job) && Inv(job, s) && pc.Working? && WorkerOk(job, s, pc)
    requires pc.k == |job.stages[pc.i].events| + |job.stages[pc.i].charges|
    ensures Inv(job, s.At(worker, Saving(pc.done, pc.i, s.ledger)))
  {
    hide StateOk, Grows, Behind, Frontier, EventTrack, ChargeTrack, Written, LogOk, PlannedUsage, AllEvents, AllWritten;
    BehindFrontier(job, s, pc.i, pc.k);
    ReceiptKeeps(job, s, pc.i);
    var saving := Saving(pc.done, pc.i, s.ledger);
    OnlyMoved(job, s, s.At(worker, saving));
    StepCombines(job, s, s.At(worker, saving), worker, saving);
  }

  /** What a worker in the middle of a stage does next. */
  lemma WorkingStep(job: Job, s: State, worker: string, pc: Pc)
    requires WellFormed(job) && pc.Working? && WorkerOk(job, s, pc)
    ensures pc.i < |job.stages|
    ensures var n := |job.stages[pc.i].events|; var end := n + |job.stages[pc.i].charges|;
      && pc.k <= end
      && (pc.k < n ==>
            StepWorking(job, s, worker, pc) == Write(s, worker, job.stages[pc.i].events[pc.k], pc.(k := pc.k + 1)))
      && (n <= pc.k < end ==>
            StepWorking(job, s, worker, pc) == Pay(s, worker, job.stages[pc.i].charges[pc.k - n], pc.(k := pc.k + 1)))
      && (pc.k == end ==> StepWorking(job, s, worker, pc) == s.At(worker, Saving(pc.done, pc.i, s.ledger)))
  {
    hide Write, Pay, Frontier, EventTrack, ChargeTrack;
  }

  lemma WorkingKeeps(job: Job, s: State, worker: string, pc: Pc)
    requires WellFormed(job) && Inv(job, s) && pc.Working? && WorkerOk(job, s, pc)
    ensures Inv(job, StepWorking(job, s, worker, pc))
  {
    hide *;
    WorkingStep(job, s, worker, pc);
    var n := |job.stages[pc.i].events|;
    if pc.k < n {
      WritingKeeps(job, s, worker, pc);
    } else if pc.k < n + |job.stages[pc.i].charges| {
      PayingKeeps(job, s, worker, pc);
    } else {
      WrittenKeeps(job, s, worker, pc);
    }
  }

  lemma SavingKeeps(job: Job, s: State, worker: string, pc: Pc, now: real)
    requires WellFormed(job) && Inv(job, s) && pc.Saving? && WorkerOk(job, s, pc)
    ensures Inv(job, Save(s, worker, StageAt(pc.i), StageKey(pc.i), job.payload(StageAt(pc.i), pc.receipt), now,
                          Gate(pc.done, pc.i + 1)))
  {
    hide StateOk, Grows, Behind;
    var payload := job.payload(StageAt(pc.i), pc.receipt);
    var s' := Save(s, worker, StageAt(pc.i), StageKey(pc.i), payload, now, Gate(pc.done, pc.i + 1));
    if AfterCheckpoint(s.rec, worker, StageAt(pc.i), StageKey(pc.i), payload, now).Success? {
      StageSaveKeeps(job, s, worker, pc.i, pc.receipt, now);
      OnlyMoved(job, s.(rec := s'.rec), s');
    } else {
      OnlyMoved(job, s, s');
    }
    StepCombines(job, s, s', worker, s'.workers[worker]);
  }

  lemma SavingFinalKeeps(job: Job, s: State, worker: string, pc: Pc, now: real)
    requires WellFormed(job) && Inv(job, s) && pc.SavingFinal? && WorkerOk(job, s, pc)
    ensures Inv(job, Save(s, worker, Validate, FINAL_KEY, job.payload(Validate, pc.receipt), now, Promoting))
  {
    var s' := Save(s, worker, Validate, FINAL_KEY, job.payload(Validate, pc.receipt), now, Promoting);
    if AfterCheckpoint(s.rec, worker, Validate, FINAL_KEY, job.payload(Validate, pc.receipt), now).Success? {
      FinalSaveKeeps(job, s, worker, pc.receipt, now);
    }
    StepCombines(job, s, s', worker, s'.workers[worker]);
  }

  /** A stage that may start has every earlier row in place. */
  lemma StageBegins(job: Job, s: State, i: nat)
    requires WellFormed(job) && StateOk(job, s) && i < STAGES && i <= Frontier(s.rec)
    ensures Behind(job, s, i, 0)
  {
    TracksGood(job);
    WrittenGrows(AllEvents(job), EventTrack(job).cuts[i], EventTrack(job).cuts[Frontier(s.rec)]);
    WrittenGrows(AllCharges(job), ChargeTrack(job).cuts[i], ChargeTrack(job).cuts[Frontier(s.rec)]);
    assert EventsBehind(job, i, 0) == EventTrack(job).cuts[i];
    assert ChargesBehind(job, i, 0) == ChargeTrack(job).cuts[i];
  }

  lemma CommittedBelowFrontier(job: Job, s: State)
    requires WellFormed(job) && StateOk(job, s)
    ensures forall i | i in CheckpointedStages(s.rec) :: i < Frontier(s.rec)
  {
  }

  /** The steps that only read: the next program counter is justified by what was read. */
  lemma ReadingKeeps(job: Job, s: State, worker: string)
    requires WellFormed(job) && Inv(job, s)
    requires var pc := s.PcOf(worker); pc.Loading? || pc.Gate? || pc.Judging? || pc.Sealing? || pc.LeaseLost? || pc.Failing?
    ensures Inv(job, Step(job, s, worker, 0.0))
  {
    hide StateOk, Grows, Behind;
    var s' := Step(job, s, worker, 0.0);
    var pc := s.PcOf(worker);
    OnlyMoved(job, s, s');
    if pc.Judging? || pc.Sealing? {
      CompleteLedger(job, s);
    } else if pc.Loading? {
      CommittedBelowFrontier(job, s);
    } else if pc.Gate? && pc.i < STAGES {
      StageBegins(job, s, pc.i);
    }
    StepCombines(job, s, s', worker, s'.workers[worker]);
  }

  lemma StepKeeps(job: Job, s: State, worker: string, now: real)
    requires WellFormed(job) && Inv(job, s)
    ensures Inv(job, Step(job, s, worker, now))
  {
    hide StateOk, WorkerOk;
    match s.PcOf(worker)
    case Idle =>
    case Working(done, i, k) => WorkingKeeps(job, s, worker, Working(done, i, k));
    case Saving(done, i, receipt) => SavingKeeps(job, s, worker, Saving(done, i, receipt), now);
    case SavingFinal(receipt) => SavingFinalKeeps(job, s, worker, SavingFinal(receipt), now);
    case Rejecting => MoveKeeps(job, s, worker, Status.Failed, true, Idle, Failing(false));
    case Promoting => MoveKeeps(job, s, worker, Validating, false, Concluding, Failing(false));
    case Concluding => MoveKeeps(job, s, worker, Succeeded, true, Idle, Failing(false));
    case FailingTo(target) => MoveKeeps(job, s, worker, target, true, Idle, Idle);
    case _ => ReadingKeeps(job, s, worker);
  }

  lemma UpdateKeeps(job: Job, s: State, r: Result<Record, StoreError>)
    requires WellFormed(job) && Inv(job, s)
    requires r.Success? ==> StateOk(job, s.(rec := r.value)) && Grows(job, s, s.(rec := r.value))
    ensures Inv(job, Update(s, r))
  {
    if r.Success? {
      forall w | w in s.workers ensures WorkerOk(job, Update(s, r), s.workers[w]) {
        WorkerStable(job, s, Update(s, r), s.workers[w]);
      }
    }
  }

  lemma ThrownKeeps(job: Job, s: State, worker: string, retryable: bool)
    requires WellFormed(job) && Inv(job, s)
    ensures Inv(job, Thrown(s, worker, retryable)) && Inv(job, s.At(worker, Idle))
  {
    StepCombines(job, s, s.At(worker, Idle), worker, Idle);
    StepCombines(job, s, s.At(worker, Failing(retryable)), worker, Failing(retryable));
  }

  lemma ClaimKeeps(job: Job, s: State, worker: string, seconds: real, now: real)
    requires WellFormed(job) && Inv(job, s)
    ensures Inv(job, Do(job, s, Claim(worker, seconds, now)))
  {
    var r := AfterLease(s.rec, worker, seconds, now);
    if s.PcOf(worker).Idle? && r.Success? {
      RowStep(job, s, r.value);
      StepCombines(job, s, s.(rec := r.value).At(worker, Loading), worker, Loading);
    }
  }

  lemma DoKeeps(job: Job, s: State, a: Action)
    requires WellFormed(job) && Inv(job, s)
    ensures Inv(job, Do(job, s, a))
  {
    hide StateOk, WorkerOk, Grows;
    match a
    case Claim(worker, seconds, now) => ClaimKeeps(job, s, worker, seconds, now);
    case Advance(worker, now) => StepKeeps(job, s, worker, now);
    case Raise(worker, retryable) => ThrownKeeps(job, s, worker, retryable);
    case Crash(worker) => ThrownKeeps(job, s, worker, false);
    case Beat(worker, seconds, now) =>
      var r := AfterHeartbeat(s.rec, worker, seconds, now);
      if r.Success? {
        RowStep(job, s, r.value);
      }
      UpdateKeeps(job, s, r);
    case Cancel =>
      var r := AfterTransition(s.rec, Cancelled, None, None, true);
      if r.Success? {
        RowStep(job, s, r.value);
      }
      UpdateKeeps(job, s, r);
    case External(charge) =>
      var r := AfterCharge(s.rec, charge);
      if !Planned(job, charge.key) {
        if r.Success? {
          ExternalStep(job, s, charge);
        }
        UpdateKeeps(job, s, r);
      }
  }
}
