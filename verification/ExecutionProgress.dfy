/**
 Recovery, not only safety: from any reachable state, whatever crashes led to it, a worker that
 gets the lease and is then left alone brings the job to SUCCEEDED in a fixed number of steps,
 provided the planned work can be done at all.
 */
module ExecutionProgress {
  import opened Wrappers
  import opened KeyedLog
  import opened JobStore
  import opened ExecutionProtocol
  import opened ExecutionInvariant
  import opened ExecutionSafety

  /** The handlers' plan has no conflicting rows, no negative charge, and the validator accepts it. */
  ghost predicate Doable(job: Job) {
    && WellFormed(job)
    && UniqueKeys(AllEvents(job)) && UniqueKeys(AllCharges(job))
    && (forall i | 0 <= i < |AllCharges(job)| :: AllCharges(job)[i].body.usage.NonNegative())
    && job.accepts(AllEvents(job))
  }

  /** The usage rows that handlers reserved under keys of their own. */
  function Unplanned(job: Job, usage: seq<ChargeRow>): seq<ChargeRow> {
    if usage == [] then []
    else
      var last := usage[|usage| - 1];
      Unplanned(job, usage[..|usage| - 1]) + if Planned(job, last.key) then [] else [last]
  }

  /** The budget covers the whole plan on top of what was reserved besides it. */
  ghost predicate Affordable(job: Job, usage: seq<ChargeRow>, budget: Usage) {
    Total(AllCharges(job)).Plus(Total(Unplanned(job, usage))).AtMost(budget)
  }

  predicate Leased(row: Row, worker: string, expiry: real) {
    row.status.Running? && row.leaseOwner == Some(worker) && row.leaseExpiresAt == Some(expiry)
  }

  /** Exactly the first `d` stages. */
  ghost predicate FirstOnes(done: set<nat>, d: nat) {
    forall j: nat :: j in done <==> j < d
  }

  function Rows(job: Job, i: nat): nat
    requires WellFormed(job) && i < STAGES
  {
    |job.stages[i].events| + |job.stages[i].charges|
  }

  /** `worker`, which found `d` stages committed, is where an undisturbed worker would be. */
  ghost predicate OnCourse(job: Job, s: State, worker: string, expiry: real, d: nat)
    requires WellFormed(job)
  {
    var row, f := s.rec.row, Frontier(s.rec);
    match s.PcOf(worker)
    case Loading => Leased(row, worker, expiry) && f == d
    case Gate(done, i) =>
      Leased(row, worker, expiry) && FirstOnes(done, d) && i <= STAGES && f == if i < d then d else i
    case Working(done, i, k) =>
      Leased(row, worker, expiry) && FirstOnes(done, d) && d <= i < STAGES && f == i && k <= Rows(job, i)
    case Saving(done, i, _) => Leased(row, worker, expiry) && FirstOnes(done, d) && d <= i < STAGES && f == i
    case Judging => Leased(row, worker, expiry)
    case Sealing => Leased(row, worker, expiry)
    case SavingFinal(_) => Leased(row, worker, expiry)
    case Promoting => Leased(row, worker, expiry) && row.stage.Validate?
    case Concluding => row.status.Validating? && row.stage.Validate?
    case Idle => row.status.Succeeded?
    case _ => false
  }

  /** The steps that the stages from `i` on still take. */
  function StepsFrom(job: Job, i: nat): nat
    requires WellFormed(job) && i <= STAGES
    decreases STAGES - i
  {
    if i == STAGES then 0 else Rows(job, i) + 3 + StepsFrom(job, i + 1)
  }

  function StepsLeft(job: Job, pc: Pc): nat
    requires WellFormed(job)
  {
    match pc
    case Loading => StepsFrom(job, 0) + 7
    case Gate(_, i) => if i <= STAGES then StepsFrom(job, i) + 6 else 0
    case Working(_, i, k) =>
      if i < STAGES && k <= Rows(job, i) then Rows(job, i) - k + 2 + StepsFrom(job, i + 1) + 6 else 0
    case Saving(_, i, _) => if i < STAGES then 1 + StepsFrom(job, i + 1) + 6 else 0
    case Judging => 5
    case Sealing => 4
    case SavingFinal(_) => 3
    case Promoting => 2
    case Concluding => 1
    case _ => 0
  }

  // ---------------------------------------------------------------- nothing stands in the way

  lemma DistinctRowsFit<B>(specs: seq<Entry<B>>, log: seq<Entry<B>>, m: nat)
    requires UniqueKeys(specs) && log <= specs && m < |specs|
    ensures !Clash(log, specs[m])
    ensures Has(log, specs[m].key) <==> m < |log|
  {
    if m < |log| {
      assert log[m] == specs[m];
    }
  }

  /** A log between stages is a prefix of the plan. */
  lemma LogIsPrefix<B>(t: Track<B>, f: nat, log: seq<Entry<B>>)
    requires t.Good() && UniqueKeys(t.specs) && f <= STAGES && LogOk(t, f, log)
    ensures log <= t.specs
  {
    WrittenOfDistinct(t.specs, Ceiling(t, f));
  }

  lemma CoveredIsLong<B>(t: Track<B>, m: nat, log: seq<Entry<B>>)
    requires UniqueKeys(t.specs) && Covers(t, m, log)
    ensures m <= |log|
  {
    WrittenOfDistinct(t.specs, m);
  }

  lemma NoEventClash(job: Job, s: State, i: nat, k: nat)
    requires Doable(job) && StateOk(job, s) && i < STAGES && k < |job.stages[i].events|
    ensures !Clash(s.ledger, job.stages[i].events[k])
  {
    hide LogOk, UniqueKeys, Clash, EventsTo, AllEvents;
    TracksGood(job);
    StageEvents(job, i);
    var t := EventTrack(job);
    LogIsPrefix(t, Frontier(s.rec), s.ledger);
    DistinctRowsFit(t.specs, s.ledger, t.cuts[i] + k);
  }

  lemma UnplannedSnoc(job: Job, usage: seq<ChargeRow>, row: ChargeRow)
    ensures Unplanned(job, usage + [row]) == Unplanned(job, usage) + if Planned(job, row.key) then [] else [row]
  {
    assert (usage + [row])[..|usage|] == usage;
  }

  lemma TotalSnoc(usage: seq<ChargeRow>, row: ChargeRow)
    ensures Total(usage + [row]) == Total(usage).Plus(row.body.usage)
  {
    assert (usage + [row])[..|usage|] == usage;
  }

  lemma NothingUsed(job: Job, usage: seq<ChargeRow>)
    requires usage == []
    ensures Total(usage) == Total(PlannedUsage(job, usage)).Plus(Total(Unplanned(job, usage)))
  {
    hide *;
    NoPlanned(job, usage);
    NoUnplanned(job, usage);
    NoTotal(usage);
    NoTotal(PlannedUsage(job, usage));
    NoTotal(Unplanned(job, usage));
    NoPlus();
  }

  lemma NoPlus()
    ensures NO_USAGE.Plus(NO_USAGE) == NO_USAGE
  {
  }

  lemma NoPlanned(job: Job, usage: seq<ChargeRow>)
    requires |usage| == 0
    ensures |PlannedUsage(job, usage)| == 0
  {
  }

  lemma NoUnplanned(job: Job, usage: seq<ChargeRow>)
    requires |usage| == 0
    ensures |Unplanned(job, usage)| == 0
  {
  }

  lemma NoTotal(usage: seq<ChargeRow>)
    requires |usage| == 0
    ensures Total(usage) == NO_USAGE
  {
  }

  lemma {:induction false} TotalSplits(job: Job, usage: seq<ChargeRow>)
    ensures Total(usage) == Total(PlannedUsage(job, usage)).Plus(Total(Unplanned(job, usage)))
  {
    hide Total, PlannedUsage, Unplanned, Planned;
    if usage == [] {
      NothingUsed(job, usage);
    } else {
      var n := |usage| - 1;
      TotalSplits(job, usage[..n]);
      SplitStep(job, usage[..n], usage[n]);
      assert usage[..n] + [usage[n]] == usage;
    }
  }

  lemma Shuffle(p: Usage, u: Usage, r: Usage)
    ensures p.Plus(u).Plus(r) == p.Plus(r).Plus(u) == p.Plus(u.Plus(r))
  {
  }

  lemma SplitStep(job: Job, before: seq<ChargeRow>, row: ChargeRow)
    requires Total(before) == Total(PlannedUsage(job, before)).Plus(Total(Unplanned(job, before)))
    ensures Total(before + [row])
         == Total(PlannedUsage(job, before + [row])).Plus(Total(Unplanned(job, before + [row])))
  {
    hide Total, PlannedUsage, Unplanned, Planned;
    var planned, rest := PlannedUsage(job, before), Unplanned(job, before);
    PlannedSnoc(job, before, row);
    UnplannedSnoc(job, before, row);
    TotalSnoc(before, row);
    Shuffle(Total(planned), Total(rest), row.body.usage);
    if Planned(job, row.key) {
      TotalSnoc(planned, row);
      assert rest + [] == rest;
    } else {
      TotalSnoc(rest, row);
      assert planned + [] == planned;
    }
  }

  lemma {:induction false} TotalGrows(usage: seq<ChargeRow>, m: nat)
    requires m <= |usage| && forall i | 0 <= i < |usage| :: usage[i].body.usage.NonNegative()
    ensures Total(usage[..m]).AtMost(Total(usage))
    decreases |usage|
  {
    if m < |usage| {
      TotalGrows(usage[..|usage| - 1], m);
      assert usage[..|usage| - 1][..m] == usage[..m];
    } else {
      assert usage[..m] == usage;
    }
  }

  /** A charge of the stage in hand is never refused while the plan is affordable. */
  lemma ChargeAccepted(job: Job, s: State, i: nat, k: nat)
    requires Doable(job) && StateOk(job, s) && i < STAGES && Behind(job, s, i, k)
    requires |job.stages[i].events| <= k < Rows(job, i)
    requires Affordable(job, s.rec.usage, s.rec.row.budget)
    ensures AfterCharge(s.rec, job.stages[i].charges[k - |job.stages[i].events|]).Success?
    ensures Planned(job, job.stages[i].charges[k - |job.stages[i].events|].key)
  {
    hide LogOk, Covers, UniqueKeys, Clash, Has, ChargesTo, AllCharges, AllEvents, PlannedUsage, Unplanned, Total,
      CheckpointsOk, Frontier;
    TracksGood(job);
    StageCharges(job, i);
    var t, j := ChargeTrack(job), k - |job.stages[i].events|;
    var m, charge := t.cuts[i] + j, job.stages[i].charges[j];
    assert t.specs[m] == charge && ChargesBehind(job, i, k) == m;
    PlanHas(job, m);
    var planned := PlannedUsage(job, s.rec.usage);
    LogIsPrefix(t, Frontier(s.rec), planned);
    CoveredIsLong(t, m, planned);
    DistinctRowsFit(t.specs, planned, m);
    PlannedLookup(job, s.rec.usage, charge);
    if !Has(s.rec.usage, charge.key) {
      assert planned == t.specs[..m];
      assert Total(s.rec.usage).Plus(charge.body.usage).AtMost(s.rec.row.budget) by {
        var all := AllCharges(job);
        TotalSplits(job, s.rec.usage);
        TotalSnoc(all[..m], all[m]);
        assert all[..m] + [all[m]] == all[..m + 1];
        TotalGrows(all, m + 1);
      }
    }
  }

  /** A planned charge changes nothing but the used amount, and leaves the plan affordable. */
  lemma ChargeKeepsPlan(job: Job, rec: Record, charge: ChargeRow)
    requires Planned(job, charge.key) && AfterCharge(rec, charge).Success?
    requires Affordable(job, rec.usage, rec.row.budget)
    ensures var after := AfterCharge(rec, charge).value;
      && Affordable(job, after.usage, after.row.budget) && after.checkpoints == rec.checkpoints
      && after.row.(used := rec.row.used, version := rec.row.version) == rec.row
  {
    hide Total, AllCharges, Unplanned, Clash, Has;
    UnplannedSnoc(job, rec.usage, charge);
    assert Unplanned(job, rec.usage) + [] == Unplanned(job, rec.usage);
  }

  lemma PlanHas(job: Job, m: nat)
    requires m < |AllCharges(job)|
    ensures Planned(job, AllCharges(job)[m].key)
  {
  }

  // ---------------------------------------------------------------- one undisturbed step

  lemma OwnPc(job: Job, s: State, worker: string)
    requires WellFormed(job) && Inv(job, s) && !s.PcOf(worker).Idle?
    ensures StateOk(job, s) && WorkerOk(job, s, s.PcOf(worker))
  {
  }

  lemma CommittedAreBelow(job: Job, s: State)
    requires WellFormed(job) && StateOk(job, s)
    ensures FirstOnes(CheckpointedStages(s.rec), Frontier(s.rec))
  {
    hide LogOk, Consistent;
  }

  /** Saving the first open stage: accepted, and the frontier moves by one. */
  lemma SaveAccepted(job: Job, s: State, worker: string, expiry: real, i: nat, payload: string, now: real)
    requires WellFormed(job) && StateOk(job, s) && i == Frontier(s.rec) < STAGES
    requires Leased(s.rec.row, worker, expiry) && now <= expiry
    ensures var r := AfterCheckpoint(s.rec, worker, StageAt(i), StageKey(i), payload, now);
      && r.Success? && Frontier(r.value) == i + 1 && Leased(r.value.row, worker, expiry)
      && r.value.usage == s.rec.usage && r.value.row.budget == s.rec.row.budget
  {
    hide LogOk, PlannedUsage, StageCheckpoint, FinalCheckpoint;
    StageBelow(job, s, i);
    FrontierAfter(job, s.rec.checkpoints, i, Checkpoint(StageAt(i), payload));
  }

  lemma StageOf(job: Job, j: nat)
    requires WellFormed(job) && j < STAGES
    ensures StageCheckpoint(job, j).stage == StageAt(j) && StageRank(StageAt(j)) == j
  {
    hide EventsTo, AllEvents, Written;
  }

  lemma StageBelow(job: Job, s: State, i: nat)
    requires WellFormed(job) && StateOk(job, s) && i == Frontier(s.rec) < STAGES
    ensures StageRank(s.rec.row.stage) <= StageRank(StageAt(i)) && StageKey(i) !in s.rec.checkpoints
  {
    hide LogOk, PlannedUsage, FinalCheckpoint, StageCheckpoint, StageAt, StageRank, StageKey, Leading, Total, UniqueKeys;
    StageOf(job, i);
    if s.rec.row.stage.Plan? {
      StageOf(job, 0);
      assert StageAt(0) == Plan by { FirstStage(); }
    } else {
      var key :| key in s.rec.checkpoints && s.rec.checkpoints[key].stage == s.rec.row.stage;
      var j :| 0 <= j < STAGES && key == StageKey(j);
      StageOf(job, j);
    }
  }

  lemma FirstStage()
    ensures StageAt(0) == Plan
  {
  }

  lemma FrontierAfter(job: Job, checkpoints: map<string, Checkpoint>, f: nat, saved: Checkpoint)
    requires WellFormed(job) && CheckpointsOk(job, checkpoints) && f == Leading(checkpoints, STAGES) < STAGES
    ensures Leading(checkpoints[StageKey(f) := saved], STAGES) == f + 1
  {
    hide StageCheckpoint, FinalCheckpoint;
    StageKeysDistinct();
    var after := checkpoints[StageKey(f) := saved];
    assert f + 1 < STAGES ==> StageKey(f + 1) !in after;
    assert forall i | 0 <= i <= f :: StageKey(i) in after;
  }

  lemma FinalSaveAccepted(job: Job, s: State, worker: string, expiry: real, now: real)
    requires WellFormed(job) && StateOk(job, s)
    requires Leased(s.rec.row, worker, expiry) && now <= expiry
    ensures var r := AfterCheckpoint(s.rec, worker, Validate, FINAL_KEY, job.payload(Validate, AllWritten(job)), now);
      && r.Success? && r.value.row.stage.Validate? && Leased(r.value.row, worker, expiry)
      && r.value.usage == s.rec.usage && r.value.row.budget == s.rec.row.budget
  {
    hide LogOk, PlannedUsage, StageCheckpoint;
  }

  lemma PlanIsWritten(job: Job)
    requires Doable(job)
    ensures AllWritten(job) == AllEvents(job)
  {
    WrittenOfDistinct(AllEvents(job), |AllEvents(job)|);
    assert AllEvents(job)[..|AllEvents(job)|] == AllEvents(job);
  }

  /** What one undisturbed step leaves: still on course, still affordable, nearer the end. */
  ghost predicate Advances(job: Job, s: State, t: State, worker: string, expiry: real, d: nat)
    requires WellFormed(job)
  {
    && OnCourse(job, t, worker, expiry, d)
    && Affordable(job, t.rec.usage, t.rec.row.budget)
    && (if s.PcOf(worker).Idle? then t == s else StepsLeft(job, t.PcOf(worker)) < StepsLeft(job, s.PcOf(worker)))
  }

  lemma GateAdvances(job: Job, s: State, worker: string, expiry: real, d: nat, now: real)
    requires WellFormed(job) && OnCourse(job, s, worker, expiry, d) && d <= STAGES
    requires Affordable(job, s.rec.usage, s.rec.row.budget) && s.PcOf(worker).Gate?
    ensures Advances(job, s, Step(job, s, worker, now), worker, expiry, d)
  {
    hide Affordable, Frontier;
  }

  lemma EventAdvances(job: Job, s: State, worker: string, expiry: real, d: nat, now: real)
    requires Doable(job) && StateOk(job, s) && OnCourse(job, s, worker, expiry, d)
    requires Affordable(job, s.rec.usage, s.rec.row.budget) && s.PcOf(worker).Working?
    requires s.PcOf(worker).k < |job.stages[s.PcOf(worker).i].events|
    ensures Advances(job, s, Step(job, s, worker, now), worker, expiry, d)
  {
    hide Affordable, Frontier, Doable, StateOk, Clash, Put;
    assert WellFormed(job) by { DoableIsWellFormed(job); }
    NoEventClash(job, s, s.PcOf(worker).i, s.PcOf(worker).k);
  }

  lemma DoableIsWellFormed(job: Job)
    requires Doable(job)
    ensures WellFormed(job)
  {
  }

  lemma ChargeAdvances(job: Job, s: State, worker: string, expiry: real, d: nat, now: real)
    requires Doable(job) && StateOk(job, s) && WorkerOk(job, s, s.PcOf(worker)) && OnCourse(job, s, worker, expiry, d)
    requires Affordable(job, s.rec.usage, s.rec.row.budget) && s.PcOf(worker).Working?
    requires |job.stages[s.PcOf(worker).i].events| <= s.PcOf(worker).k < Rows(job, s.PcOf(worker).i)
    ensures Advances(job, s, Step(job, s, worker, now), worker, expiry, d)
  {
    hide Affordable, Doable, StateOk, Behind, AfterCharge, Leading;
    DoableIsWellFormed(job);
    var pc := s.PcOf(worker);
    ChargeAccepted(job, s, pc.i, pc.k);
    ChargeKeepsPlan(job, s.rec, job.stages[pc.i].charges[pc.k - |job.stages[pc.i].events|]);
  }

  lemma RowsDoneAdvances(job: Job, s: State, worker: string, expiry: real, d: nat, now: real)
    requires WellFormed(job) && OnCourse(job, s, worker, expiry, d)
    requires Affordable(job, s.rec.usage, s.rec.row.budget) && s.PcOf(worker).Working?
    requires s.PcOf(worker).k == Rows(job, s.PcOf(worker).i)
    ensures Advances(job, s, Step(job, s, worker, now), worker, expiry, d)
  {
    hide Affordable, Frontier;
  }

  lemma SavingAdvances(job: Job, s: State, worker: string, expiry: real, d: nat, now: real)
    requires WellFormed(job) && StateOk(job, s) && OnCourse(job, s, worker, expiry, d) && now <= expiry
    requires Affordable(job, s.rec.usage, s.rec.row.budget) && s.PcOf(worker).Saving?
    ensures Advances(job, s, Step(job, s, worker, now), worker, expiry, d)
  {
    hide Affordable, Frontier, StateOk, AfterCheckpoint, StageAt, StageKey;
    var i := s.PcOf(worker).i;
    SaveAccepted(job, s, worker, expiry, i, job.payload(StageAt(i), s.PcOf(worker).receipt), now);
  }

  lemma ClosingAdvances(job: Job, s: State, worker: string, expiry: real, d: nat, now: real)
    requires Doable(job) && Inv(job, s) && OnCourse(job, s, worker, expiry, d) && now <= expiry
    requires Affordable(job, s.rec.usage, s.rec.row.budget)
    requires var pc := s.PcOf(worker);
      pc.Judging? || pc.Sealing? || pc.SavingFinal? || pc.Promoting? || pc.Concluding?
    ensures Advances(job, s, Step(job, s, worker, now), worker, expiry, d)
  {
    hide Affordable, Frontier, StateOk, AfterCheckpoint, Inv, Doable;
    DoableIsWellFormed(job);
    OwnPc(job, s, worker);
    match s.PcOf(worker) {
      case Judging =>
        CompleteLedger(job, s);
        PlanIsWritten(job);
        PlanIsAccepted(job);
      case SavingFinal(receipt) => FinalSaveAccepted(job, s, worker, expiry, now);
      case _ =>
    }
  }

  lemma PlanIsAccepted(job: Job)
    requires Doable(job)
    ensures job.accepts(AllEvents(job))
  {
  }

  lemma LoadingAdvances(job: Job, s: State, worker: string, expiry: real, d: nat, now: real)
    requires WellFormed(job) && StateOk(job, s) && OnCourse(job, s, worker, expiry, d)
    requires Affordable(job, s.rec.usage, s.rec.row.budget) && s.PcOf(worker).Loading?
    ensures Advances(job, s, Step(job, s, worker, now), worker, expiry, d)
  {
    hide Affordable, Leading, StateOk, CheckpointedStages;
    CommittedAreBelow(job, s);
  }

  /** Left alone, a worker on course stays on course and comes nearer the end. */
  lemma StepAdvances(job: Job, s: State, worker: string, expiry: real, d: nat, now: real)
    requires Doable(job) && WellFormed(job) && Inv(job, s) && d <= STAGES && now <= expiry
    requires OnCourse(job, s, worker, expiry, d) && Affordable(job, s.rec.usage, s.rec.row.budget)
    ensures Advances(job, s, Step(job, s, worker, now), worker, expiry, d)
  {
    hide Affordable, Doable, StateOk, WorkerOk, StepsLeft, Advances, Frontier;
    if s.PcOf(worker).Idle? {
      IdleAdvances(job, s, worker, expiry, d, now);
    } else {
      OwnPc(job, s, worker);
      match s.PcOf(worker) {
        case Loading => LoadingAdvances(job, s, worker, expiry, d, now);
        case Gate(_, _) => GateAdvances(job, s, worker, expiry, d, now);
        case Working(_, i, k) =>
          if k < |job.stages[i].events| {
            EventAdvances(job, s, worker, expiry, d, now);
          } else if k < Rows(job, i) {
            ChargeAdvances(job, s, worker, expiry, d, now);
          } else {
            RowsDoneAdvances(job, s, worker, expiry, d, now);
          }
        case Saving(_, _, _) => SavingAdvances(job, s, worker, expiry, d, now);
        case _ => ClosingAdvances(job, s, worker, expiry, d, now);
      }
    }
  }

  lemma IdleAdvances(job: Job, s: State, worker: string, expiry: real, d: nat, now: real)
    requires WellFormed(job) && s.PcOf(worker).Idle?
    requires OnCourse(job, s, worker, expiry, d) && Affordable(job, s.rec.usage, s.rec.row.budget)
    ensures Advances(job, s, Step(job, s, worker, now), worker, expiry, d)
  {
    hide Affordable, Frontier;
  }

  // ---------------------------------------------------------------- the whole attempt

  /** `n` steps of one worker, at the readings of its clock. */
  function Alone(worker: string, clock: nat -> real, n: nat): seq<Action> {
    if n == 0 then [] else Alone(worker, clock, n - 1) + [Advance(worker, clock(n - 1))]
  }

  lemma {:induction false} AloneAdvances(job: Job, s: State, worker: string, expiry: real, d: nat,
                                         clock: nat -> real, n: nat)
    requires Doable(job) && WellFormed(job) && Inv(job, s) && d <= STAGES
    requires forall k: nat | k < n :: clock(k) <= expiry
    requires OnCourse(job, s, worker, expiry, d) && Affordable(job, s.rec.usage, s.rec.row.budget)
    ensures var t := Run(job, s, Alone(worker, clock, n));
      && Inv(job, t) && OnCourse(job, t, worker, expiry, d) && Affordable(job, t.rec.usage, t.rec.row.budget)
      && (t.PcOf(worker).Idle? || StepsLeft(job, t.PcOf(worker)) + n <= StepsLeft(job, s.PcOf(worker)))
  {
    hide Inv, OnCourse, Affordable, StepsLeft, Step, Doable;
    if n > 0 {
      AloneAdvances(job, s, worker, expiry, d, clock, n - 1);
      var before := Alone(worker, clock, n - 1);
      var t := Run(job, s, before);
      assert Alone(worker, clock, n)[..|before|] == before;
      StepAdvances(job, t, worker, expiry, d, clock(n - 1));
      StepKeeps(job, t, worker, clock(n - 1));
      assert Run(job, s, Alone(worker, clock, n)) == Step(job, t, worker, clock(n - 1));
    }
  }

  lemma StepsLeftAtWork(job: Job, s: State, worker: string, expiry: real, d: nat)
    requires WellFormed(job) && OnCourse(job, s, worker, expiry, d) && !s.PcOf(worker).Idle?
    ensures StepsLeft(job, s.PcOf(worker)) > 0
  {
    hide Frontier;
  }

  lemma IdleMeansSucceeded(job: Job, s: State, worker: string, expiry: real, d: nat)
    requires WellFormed(job) && OnCourse(job, s, worker, expiry, d) && s.PcOf(worker).Idle?
    ensures s.rec.row.status.Succeeded?
  {
    hide Frontier;
  }

  lemma ClaimIsOnCourse(job: Job, s: State, worker: string, seconds: real, now: real)
    requires WellFormed(job) && s.PcOf(worker).Idle? && AfterLease(s.rec, worker, seconds, now).Success?
    ensures var t := Do(job, s, Claim(worker, seconds, now));
      && OnCourse(job, t, worker, now + seconds, Frontier(s.rec)) && t.PcOf(worker).Loading?
      && t.rec.usage == s.rec.usage && t.rec.row.budget == s.rec.row.budget
  {
  }

  /** How many steps an attempt takes at most, from the lease on. */
  function AttemptLength(job: Job): nat
    requires WellFormed(job)
  {
    StepsFrom(job, 0) + 7
  }

  /** An undisturbed attempt has ended by then, in success. */
  lemma AttemptEnds(job: Job, s: State, worker: string, expiry: real, d: nat, clock: nat -> real)
    requires Doable(job) && WellFormed(job) && Inv(job, s) && d <= STAGES && forall k: nat :: clock(k) <= expiry
    requires OnCourse(job, s, worker, expiry, d) && Affordable(job, s.rec.usage, s.rec.row.budget)
    requires s.PcOf(worker).Loading?
    ensures var t := Run(job, s, Alone(worker, clock, AttemptLength(job)));
      t.PcOf(worker).Idle? && t.rec.row.status.Succeeded? && Inv(job, t)
  {
    hide Inv, OnCourse, Affordable, StepsLeft, Doable, Run, AttemptLength;
    var n := AttemptLength(job);
    AloneAdvances(job, s, worker, expiry, d, clock, n);
    var t := Run(job, s, Alone(worker, clock, n));
    AttemptIsLoading(job);
    if !t.PcOf(worker).Idle? {
      StepsLeftAtWork(job, t, worker, expiry, d);
    }
    IdleMeansSucceeded(job, t, worker, expiry, d);
  }

  /**
   Crash recovery: in every reachable state in which the lease can be had, a worker that takes it and
   is then left alone until it expires ends in SUCCEEDED within `AttemptLength` steps, with the
   complete ledger, provided that the plan is doable and still affordable.
   */
  lemma RecoverySucceeds(job: Job, tenantId: string, key: string, task: string, budget: Usage, past: seq<Action>,
                         worker: string, seconds: real, now: real, clock: nat -> real)
    requires Doable(job) && WellFormed(job) && budget.NonNegative()
    requires var s := After(job, tenantId, key, task, budget, past);
      && s.PcOf(worker).Idle? && AfterLease(s.rec, worker, seconds, now).Success?
      && Affordable(job, s.rec.usage, s.rec.row.budget)
    requires forall k: nat :: clock(k) <= now + seconds
    ensures var s := After(job, tenantId, key, task, budget, past);
      var t := Run(job, Do(job, s, Claim(worker, seconds, now)), Alone(worker, clock, AttemptLength(job)));
      && t.rec.row.status.Succeeded? && t.ledger == AllEvents(job)
      && PlannedUsage(job, t.rec.usage) == AllCharges(job)
  {
    hide Inv, OnCourse, Affordable, StepsLeft, Doable, Run, After;
    var s := After(job, tenantId, key, task, budget, past);
    var c := Do(job, s, Claim(worker, seconds, now));
    EveryRunIsSafe(job, tenantId, key, task, budget, past);
    DoKeeps(job, s, Claim(worker, seconds, now));
    ClaimIsOnCourse(job, s, worker, seconds, now);
    AttemptEnds(job, c, worker, now + seconds, Frontier(s.rec), clock);
    var t := Run(job, c, Alone(worker, clock, AttemptLength(job)));
    SucceededIsComplete(job, t);
  }

  lemma AttemptIsLoading(job: Job)
    requires WellFormed(job)
    ensures StepsLeft(job, Loading) == AttemptLength(job)
  {
  }

  lemma SucceededIsComplete(job: Job, t: State)
    requires Doable(job) && WellFormed(job) && Inv(job, t) && t.rec.row.status.Succeeded?
    ensures t.ledger == AllEvents(job) && PlannedUsage(job, t.rec.usage) == AllCharges(job)
  {
    hide LogOk, PlannedUsage, AllEvents, AllCharges, UniqueKeys;
    FinalKeyPresent(job, t);
    CompleteLedger(job, t);
    WrittenOfDistinct(AllEvents(job), |AllEvents(job)|);
    WrittenOfDistinct(AllCharges(job), |AllCharges(job)|);
    assert AllEvents(job)[..|AllEvents(job)|] == AllEvents(job);
    assert AllCharges(job)[..|AllCharges(job)|] == AllCharges(job);
  }
}
