/**
 The compiler, the execution protocol and the publication gate together: a baseline job under a
 CEDG method with counter-retrieval ends in SUCCEEDED only with a decision that has its evidence,
 and such a decision is all that the gate asks for.
 */
module BaselineJob {
  import opened Wrappers
  import opened KeyedLog
  import opened BaselineCompiler
  import EvidenceGraph
  import EventLedger
  import E = ExecutionProtocol
  import ExecutionInvariant
  import S = ExecutionSafety
  import P = ExecutionProgress
  import J = JobStore

  /** How the gate reads one row of the ledger. */
  type Reader = E.EventRow -> Spec

  function ReadAll(read: Reader, rows: seq<E.EventRow>): (specs: seq<Spec>)
    ensures |specs| == |rows|
  {
    seq(|rows|, i requires 0 <= i < |rows| => read(rows[i]))
  }

  /** What a method retrieved and decided for one task. */
  datatype Case = Case(sha: string -> string, task: Task, method_: Method, support: Stage, counter: Stage, decision: Decision)

  ghost predicate Validated(c: Case) {
    && HexDigest(c.sha) && TaskOk(c.task) && c.method_.cedg && c.method_.externalCounter
    && StageOk(c.sha, c.task, EvidenceGraph.Support, c.support)
    && StageOk(c.sha, c.task, EvidenceGraph.Counter, c.counter)
    && DecisionOk(c.decision, PassageIds(SupportFound(c) + CounterFound(c)))
  }

  ghost function SupportFound(c: Case): seq<Retrieved> {
    if StageOk(c.sha, c.task, EvidenceGraph.Support, c.support)
    then Found(c.sha, c.task, EvidenceGraph.Support, c.support) else []
  }

  ghost function CounterFound(c: Case): seq<Retrieved> {
    if StageOk(c.sha, c.task, EvidenceGraph.Counter, c.counter)
    then Found(c.sha, c.task, EvidenceGraph.Counter, c.counter) else []
  }

  /** What a reader of the decision would ask of its evidence. */
  ghost predicate Justified(c: Case) {
    var support, counter := PassageIds(SupportFound(c)), PassageIds(CounterFound(c));
    support !! counter && RelationsFit(c.decision.evidence, support, counter) && Founded(c.decision)
  }

  ghost function Decided(c: Case): Result<seq<Spec>, ContractError> {
    Deciding(c.task, c.method_, SupportFound(c), CounterFound(c), c.decision)
  }

  /** The handlers emit the compiled stream, and the finalizer is the publication gate. */
  ghost predicate Performs(job: E.Job, c: Case, read: Reader, ids: nat -> string) {
    && E.WellFormed(job) && UniqueKeys(E.AllEvents(job))
    && Validated(c) && Decided(c).Success? && Distinct(ids)
    && ReadAll(read, E.AllEvents(job))
       == Stream(c.task, c.method_, Emitted(c.sha, c.task, EvidenceGraph.Support, c.support),
                 Emitted(c.sha, c.task, EvidenceGraph.Counter, c.counter), Decided(c).value)
    && (forall ledger :: job.accepts(ledger) <==> Publishes(Events(ReadAll(read, ledger), ids)))
  }

  /** The gate accepts the full ledger of the job exactly when the decision is justified. */
  lemma GateAsksForJustification(job: E.Job, c: Case, read: Reader, ids: nat -> string)
    requires Performs(job, c, read, ids)
    ensures job.accepts(E.AllEvents(job)) <==> Justified(c)
  {
    hide HexDigest, TaskOk, StageOk, DecisionOk, RelationsFit, Founded, PassageIds, Deciding, Stream, Publishes, Events,
      Distinct, Found, Emitted, UniqueKeys, E.AllEvents, ReadAll;
    CompilerAgreesWithGraph(c.sha, c.task, c.method_, c.support, c.counter, c.decision, ids);
  }

  /** Whatever the schedule, a job that ended in SUCCEEDED has published a justified decision. */
  lemma SucceededJobIsJustified(job: E.Job, c: Case, read: Reader, ids: nat -> string, tenantId: string, key: string,
                                task: string, budget: J.Usage, actions: seq<E.Action>)
    requires Performs(job, c, read, ids) && E.WellFormed(job) && budget.NonNegative()
    requires S.After(job, tenantId, key, task, budget, actions).rec.row.status.Succeeded?
    ensures Justified(c)
    ensures S.After(job, tenantId, key, task, budget, actions).ledger == E.AllEvents(job)
  {
    hide Validated, Justified, Distinct, Publishes, Events, ReadAll, Stream, E.Run, E.AllEvents, UniqueKeys, Decided;
    S.SucceededMeansComplete(job, tenantId, key, task, budget, actions);
    S.LedgerIsCrashFreePrefix(job, tenantId, key, task, budget, actions);
    GateAsksForJustification(job, c, read, ids);
  }

  /** A justified decision with sound charges is a plan that recovery brings to SUCCEEDED. */
  lemma JustifiedJobIsDoable(job: E.Job, c: Case, read: Reader, ids: nat -> string)
    requires Performs(job, c, read, ids) && Justified(c)
    requires UniqueKeys(E.AllCharges(job))
    requires forall i | 0 <= i < |E.AllCharges(job)| :: E.AllCharges(job)[i].body.usage.NonNegative()
    ensures P.Doable(job)
  {
    hide Validated, Justified, Distinct, Publishes, Events, ReadAll, Stream, E.AllEvents, E.AllCharges, UniqueKeys, Decided;
    GateAsksForJustification(job, c, read, ids);
  }
}
