/** What holds after every schedule of workers, crashes, expiries and cancellations. */
module ExecutionSafety {
  import opened Wrappers
  import opened KeyedLog
  import opened JobStore
  import opened ExecutionProtocol
  import opened ExecutionInvariant

  /** The state after `actions`, from a job that `create_job` has just inserted. */
  function After(job: Job, tenantId: string, key: string, task: string, budget: Usage, actions: seq<Action>): State
    requires WellFormed(job)
  {
    Run(job, Start(NewRecord(tenantId, key, task, budget)), actions)
  }

  lemma InvAtStart(job: Job, tenantId: string, key: string, task: string, budget: Usage)
    requires WellFormed(job) && budget.NonNegative()
    ensures Inv(job, Start(NewRecord(tenantId, key, task, budget)))
  {
    TracksGood(job);
    assert EventTrack(job).cuts[0] == 0 && ChargeTrack(job).cuts[0] == 0;
    assert forall i | 0 <= i < STAGES :: StageKey(i) !in NewRecord(tenantId, key, task, budget).checkpoints;
  }

  lemma {:induction false} RunKeeps(job: Job, s: State, actions: seq<Action>)
    requires WellFormed(job) && Inv(job, s)
    ensures Inv(job, Run(job, s, actions))
  {
    hide Inv;
    if actions != [] {
      RunKeeps(job, s, actions[..|actions| - 1]);
      DoKeeps(job, Run(job, s, actions[..|actions| - 1]), actions[|actions| - 1]);
    }
  }

  lemma EveryRunIsSafe(job: Job, tenantId: string, key: string, task: string, budget: Usage, actions: seq<Action>)
    requires WellFormed(job) && budget.NonNegative()
    ensures Inv(job, After(job, tenantId, key, task, budget, actions))
  {
    hide Inv;
    InvAtStart(job, tenantId, key, task, budget);
    RunKeeps(job, Start(NewRecord(tenantId, key, task, budget)), actions);
  }

  /** The ledger is always a prefix of the one a single crash-free worker would write. */
  lemma LedgerIsCrashFreePrefix(job: Job, tenantId: string, key: string, task: string, budget: Usage,
                                actions: seq<Action>)
    requires WellFormed(job) && budget.NonNegative()
    ensures After(job, tenantId, key, task, budget, actions).ledger <= CrashFreeLedger(job)
    ensures UniqueKeys(AllEvents(job)) ==> CrashFreeLedger(job) == AllEvents(job)
  {
    EveryRunIsSafe(job, tenantId, key, task, budget, actions);
    var s := After(job, tenantId, key, task, budget, actions);
    var all := AllEvents(job);
    WrittenGrows(all, Ceiling(EventTrack(job), Frontier(s.rec)), FirstClash(all, |all|));
    if UniqueKeys(all) {
      WrittenOfDistinct(all, FirstClash(all, |all|));
      assert all[..|all|] == all;
    }
  }

  /**
   The books: used amounts are the sum of the usage ledger and within the maxima, no charge is
   counted twice, and the stage column is the highest checkpointed stage.
   */
  lemma BooksBalance(job: Job, tenantId: string, key: string, task: string, budget: Usage, actions: seq<Action>)
    requires WellFormed(job) && budget.NonNegative()
    ensures var rec := After(job, tenantId, key, task, budget, actions).rec;
      && rec.row.used == Total(rec.usage)
      && rec.row.used.AtMost(rec.row.budget)
      && UniqueKeys(rec.usage)
      && StageIsHighest(rec)
  {
    EveryRunIsSafe(job, tenantId, key, task, budget, actions);
  }

  /**
   A job that ended SUCCEEDED: its ledger is the complete crash-free one, the validator accepts
   it, every checkpoint is the one the crash-free worker writes, and the planned charges are
   exactly the crash-free ones, each counted once, however many workers crashed on the way.
   */
  lemma SucceededMeansComplete(job: Job, tenantId: string, key: string, task: string, budget: Usage,
                               actions: seq<Action>)
    requires WellFormed(job) && budget.NonNegative()
    requires After(job, tenantId, key, task, budget, actions).rec.row.status.Succeeded?
    ensures var s := After(job, tenantId, key, task, budget, actions);
      && s.ledger == AllWritten(job) == CrashFreeLedger(job)
      && job.accepts(s.ledger)
      && PlannedUsage(job, s.rec.usage) == Written(AllCharges(job), |AllCharges(job)|)
      && UniqueKeys(s.rec.usage)
      && (forall i | 0 <= i < STAGES ::
            StageKey(i) in s.rec.checkpoints && s.rec.checkpoints[StageKey(i)] == StageCheckpoint(job, i))
      && FINAL_KEY in s.rec.checkpoints && s.rec.checkpoints[FINAL_KEY] == FinalCheckpoint(job)
  {
    EveryRunIsSafe(job, tenantId, key, task, budget, actions);
    var s := After(job, tenantId, key, task, budget, actions);
    FinalKeyPresent(job, s);
    CompleteLedger(job, s);
  }

  lemma FinalKeyPresent(job: Job, s: State)
    requires WellFormed(job) && StateOk(job, s) && s.rec.row.stage.Validate?
    ensures FINAL_KEY in s.rec.checkpoints
  {
    assert forall i | 0 <= i < STAGES :: !StageAt(i).Validate?;
  }

  /** No action leaves a terminal status. */
  lemma TerminalStays(job: Job, s: State, a: Action)
    requires WellFormed(job) && Terminal(s.rec.row.status)
    ensures Do(job, s, a).rec.row.status == s.rec.row.status
  {
    match a
    case Advance(worker, now) =>
      match s.PcOf(worker) {
        case Working(done, i, k) =>
        case _ =>
      }
    case _ =>
  }

  lemma {:induction false} TerminalIsFinal(job: Job, s: State, actions: seq<Action>)
    requires WellFormed(job) && Terminal(s.rec.row.status)
    ensures Run(job, s, actions).rec.row.status == s.rec.row.status
  {
    if actions != [] {
      var before := Run(job, s, actions[..|actions| - 1]);
      TerminalIsFinal(job, s, actions[..|actions| - 1]);
      TerminalStays(job, before, actions[|actions| - 1]);
    }
  }

  /** Two schedules of one job never disagree: one ledger is a prefix of the other. */
  lemma SchedulesAgree(job: Job, tenantId: string, key: string, task: string, budget: Usage,
                       a: seq<Action>, b: seq<Action>)
    requires WellFormed(job) && budget.NonNegative()
    ensures var l, r := After(job, tenantId, key, task, budget, a).ledger, After(job, tenantId, key, task, budget, b).ledger;
            l <= r || r <= l
  {
    LedgerIsCrashFreePrefix(job, tenantId, key, task, budget, a);
    LedgerIsCrashFreePrefix(job, tenantId, key, task, budget, b);
  }
}
