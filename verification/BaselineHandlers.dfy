/**
 The stage handlers of `src/evaluation/baseline_runner.py` as a job of the execution protocol: which rows
 each stage appends and under which idempotency keys.  The keys are shown to be distinct and the rows to
 read as the compiled stream, so what is proved of such jobs holds of every task that the runner compiles.
 */
module BaselineHandlers {
  import opened Wrappers
  import opened KeyedLog
  import opened BaselineCompiler
  import opened BaselineJob
  import EvidenceGraph
  import EventLedger
  import Decimal
  import E = ExecutionProtocol
  import J = JobStore
  import P = ExecutionProgress
  import S = ExecutionSafety

  type Meaning = EventLedger.Semantics<string>

  // ---------------------------------------------------------------- keys

  function StageName(i: nat): string
    requires i < E.STAGES
  {
    ["PLAN", "RETRIEVE", "READ", "PROPOSE", "CHALLENGE", "DECIDE", "SYNTHESIZE"][i]
  }

  /** The operation id of a stage. */
  function OperationId(jobId: string, i: nat): string
    requires i < E.STAGES
  {
    jobId + ":" + StageName(i) + ":v1"
  }

  function PlanKeys(m: Method): seq<string> {
    if m.cedg then ["claim"] else []
  }

  function PassageKeys(ps: seq<Retrieved>): seq<string> {
    if ps == [] then [] else PassageKeys(ps[..|ps| - 1]) + ["passage:" + ps[|ps| - 1].passageId]
  }

  /** The keys of the first `k` queries and their passages. */
  function RetrievalKeys(results: seq<seq<Retrieved>>, k: nat): seq<string>
    requires k <= |results|
  {
    if k == 0 then []
    else RetrievalKeys(results, k - 1) + ["query:" + Decimal.Numeral(k - 1)] + PassageKeys(results[k - 1])
  }

  function EdgeKeys(n: nat): (keys: seq<string>)
    ensures |keys| == n
    ensures forall i | 0 <= i < n :: keys[i] == "edge:" + Decimal.Numeral(i)
  {
    if n == 0 then [] else EdgeKeys(n - 1) + ["edge:" + Decimal.Numeral(n - 1)]
  }

  function TransitionKeys(m: Method, d: Decision): seq<string> {
    (if d.decision == "SURVIVED" then ["transition:supported"] else [])
    + (if m.externalCounter then ["transition:challenged"] else [])
    + ["transition:terminal"]
  }

  function DecidingKeys(m: Method, d: Decision): seq<string> {
    if !m.cedg then ["decision"] else ["decision"] + EdgeKeys(|d.evidence|) + TransitionKeys(m, d)
  }

  predicate NoRepeats(keys: seq<string>) {
    forall i, j | 0 <= i < j < |keys| :: keys[i] != keys[j]
  }

  lemma NoRepeatsTogether(a: seq<string>, b: seq<string>)
    requires NoRepeats(a) && NoRepeats(b) && forall x | x in a :: x !in b
    ensures NoRepeats(a + b)
  {
    var all := a + b;
    forall i, j | 0 <= i < j < |all|
      ensures all[i] != all[j]
    {
      if i < |a| <= j {
        assert all[i] in a && all[j] in b;
      }
    }
  }

  // ---------------------------------------------------------------- the keys of a retrieval stage

  lemma {:induction false} PassageKeysAre(ps: seq<Retrieved>)
    ensures |PassageKeys(ps)| == |ps| && forall i | 0 <= i < |ps| :: PassageKeys(ps)[i] == "passage:" + ps[i].passageId
  {
    if ps != [] {
      PassageKeysAre(ps[..|ps| - 1]);
    }
  }

  lemma {:induction false} MergedAreNew(seen: set<string>, ps: seq<Retrieved>, name: string)
    requires MergeError(seen, ps, name).None?
    ensures forall i | 0 <= i < |ps| :: ps[i].passageId !in seen
    ensures forall i, j | 0 <= i < j < |ps| :: ps[i].passageId != ps[j].passageId
  {
    if ps != [] {
      var n := |ps| - 1;
      MergedAreNew(seen, ps[..n], name);
      var ids := PassageIds(ps[..n]);
      forall i | 0 <= i < n
        ensures ps[i].passageId in ids
      {
        assert ps[..n][i] in ps[..n];
      }
      hide MergeError, PassageIds;
      forall i, j | 0 <= i < j < |ps|
        ensures ps[i].passageId != ps[j].passageId
      {
        if j < n {
          assert ps[..n][i] == ps[i] && ps[..n][j] == ps[j];
        }
      }
      forall i | 0 <= i < |ps|
        ensures ps[i].passageId !in seen
      {
        if i < n {
          assert ps[..n][i] == ps[i];
        }
      }
    }
  }

  /** A key of a passage that is among `ids`, or of one of the first `k` queries. */
  ghost predicate RetrievalKey(key: string, ids: set<string>, k: nat) {
    || (exists i: nat :: i < k && key == "query:" + Decimal.Numeral(i))
    || (exists id :: id in ids && key == "passage:" + id)
  }

  lemma QueryKeyIsNew(ids: set<string>, k: nat)
    ensures !RetrievalKey("query:" + Decimal.Numeral(k), ids, k)
  {
    var key := "query:" + Decimal.Numeral(k);
    forall i: nat | i < k
      ensures key != "query:" + Decimal.Numeral(i)
    {
      if key == "query:" + Decimal.Numeral(i) {
        assert key[6..] == Decimal.Numeral(k) == Decimal.Numeral(i);
        Decimal.NumeralInjective(i, k);
      }
    }
    forall id | id in ids
      ensures key != "passage:" + id
    {
      assert key[0] == 'q' && ("passage:" + id)[0] == 'p';
    }
  }

  lemma PassageKeyIsNew(ids: set<string>, k: nat, id: string)
    requires id !in ids
    ensures !RetrievalKey("passage:" + id, ids, k)
  {
    var key := "passage:" + id;
    forall i: nat | i < k
      ensures key != "query:" + Decimal.Numeral(i)
    {
      assert key[0] == 'p' && ("query:" + Decimal.Numeral(i))[0] == 'q';
    }
    forall other | other in ids
      ensures key != "passage:" + other
    {
      assert key[8..] == id && ("passage:" + other)[8..] == other;
    }
  }

  lemma RetrievalKeyGrows(key: string, ids: set<string>, more: set<string>, k: nat)
    requires RetrievalKey(key, ids, k) && ids <= more
    ensures RetrievalKey(key, more, k + 1)
  {
  }

  lemma PassageKeyInjective(a: string, b: string)
    requires "passage:" + a == "passage:" + b
    ensures a == b
  {
    assert ("passage:" + a)[8..] == a && ("passage:" + b)[8..] == b;
  }

  lemma PassageKeysDistinct(ps: seq<Retrieved>)
    requires forall i, j | 0 <= i < j < |ps| :: ps[i].passageId != ps[j].passageId
    ensures NoRepeats(PassageKeys(ps))
  {
    PassageKeysAre(ps);
    var keys := PassageKeys(ps);
    forall i, j | 0 <= i < j < |keys|
      ensures keys[i] != keys[j]
    {
      if keys[i] == keys[j] {
        PassageKeyInjective(ps[i].passageId, ps[j].passageId);
      }
    }
  }

  lemma {:induction false} RetrievalKeysDistinct(sha: string -> string, task: Task, intent: EvidenceGraph.Intent,
                                                 queries: seq<string>, results: seq<seq<Retrieved>>, k: nat)
    requires k <= |queries| == |results| && Retrieval(sha, task, intent, queries, results, k).Success?
    ensures var (passages, specs) := Retrieval(sha, task, intent, queries, results, k).value;
      && |RetrievalKeys(results, k)| == |specs| && NoRepeats(RetrievalKeys(results, k))
      && forall key | key in RetrievalKeys(results, k) :: RetrievalKey(key, PassageIds(passages), k)
  {
    hide QuerySpec, PassageSpec, ResultError, MergeError, PassageIds, QueryName, RetrievalKey, NoRepeats;
    if k > 0 {
      var i := k - 1;
      RetrievalKeysDistinct(sha, task, intent, queries, results, i);
      var before := Retrieval(sha, task, intent, queries, results, i).value.0;
      OneMoreQuery(before, RetrievalKeys(results, i), results[i], QueryName(intent, i), i);
      PassageSpecsCount(results[i]);
      PassageKeysAre(results[i]);
    } else {
      NothingRepeats();
    }
  }

  lemma NothingRepeats()
    ensures NoRepeats([])
  {
  }

  lemma {:induction false} PassageSpecsCount(ps: seq<Retrieved>)
    ensures |PassageSpecs(ps)| == |ps|
  {
    hide PassageSpec;
    if ps != [] {
      PassageSpecsCount(ps[..|ps| - 1]);
    }
  }

  lemma OneMoreQuery(before: seq<Retrieved>, keys: seq<string>, ps: seq<Retrieved>, name: string, i: nat)
    requires NoRepeats(keys) && forall key | key in keys :: RetrievalKey(key, PassageIds(before), i)
    requires MergeError(PassageIds(before), ps, name).None?
    ensures var all := keys + ["query:" + Decimal.Numeral(i)] + PassageKeys(ps);
      NoRepeats(all) && forall key | key in all :: RetrievalKey(key, PassageIds(before + ps), i + 1)
  {
    hide RetrievalKey, MergeError, NoRepeats;
    var ids, more, query := PassageIds(before), PassageIds(before + ps), "query:" + Decimal.Numeral(i);
    assert ids <= more;
    MergedAreNew(ids, ps, name);
    QueryKeyIsNew(ids, i);
    assert query !in keys;
    OneDoesNotRepeat(query);
    NoRepeatsTogether(keys, [query]);
    PassageKeysAre(ps);
    PassageKeysDistinct(ps);
    forall key | key in PassageKeys(ps)
      ensures key !in keys + [query] && RetrievalKey(key, more, i + 1)
    {
      var j :| 0 <= j < |ps| && key == "passage:" + ps[j].passageId;
      PassageKeyIsNew(ids, i, ps[j].passageId);
      assert key[0] == 'p' && query[0] == 'q';
      assert ps[j] in before + ps;
      IsPassageKey(ps[j].passageId, more, i + 1);
    }
    NoRepeatsTogether(keys + [query], PassageKeys(ps));
    forall key | key in keys + [query] + PassageKeys(ps)
      ensures RetrievalKey(key, more, i + 1)
    {
      if key in keys {
        RetrievalKeyGrows(key, ids, more, i);
      } else if key == query {
        IsQueryKey(more, i);
      }
    }
  }

  lemma OneDoesNotRepeat(key: string)
    ensures NoRepeats([key])
  {
  }

  lemma IsPassageKey(id: string, ids: set<string>, k: nat)
    requires id in ids
    ensures RetrievalKey("passage:" + id, ids, k)
  {
  }

  lemma IsQueryKey(ids: set<string>, i: nat)
    ensures RetrievalKey("query:" + Decimal.Numeral(i), ids, i + 1)
  {
  }

  // ---------------------------------------------------------------- the keys of the decision stage

  lemma EdgeKeysDistinct(n: nat)
    ensures NoRepeats(EdgeKeys(n))
  {
    var keys := EdgeKeys(n);
    forall i, j | 0 <= i < j < |keys|
      ensures keys[i] != keys[j]
    {
      if keys[i] == keys[j] {
        EdgeKeyInjective(i, j);
      }
    }
  }

  lemma EdgeKeyInjective(i: nat, j: nat)
    requires "edge:" + Decimal.Numeral(i) == "edge:" + Decimal.Numeral(j)
    ensures i == j
  {
    assert ("edge:" + Decimal.Numeral(i))[5..] == Decimal.Numeral(i);
    assert ("edge:" + Decimal.Numeral(j))[5..] == Decimal.Numeral(j);
    Decimal.NumeralInjective(i, j);
  }

  lemma TransitionKeysDistinct(m: Method, d: Decision)
    ensures NoRepeats(TransitionKeys(m, d)) && forall key | key in TransitionKeys(m, d) :: |key| > 0 && key[0] == 't'
  {
    assert "transition:supported"[11] == 's' && "transition:challenged"[11] == 'c' && "transition:terminal"[11] == 't';
  }

  lemma DecidingKeysDistinct(m: Method, d: Decision)
    ensures NoRepeats(DecidingKeys(m, d))
  {
    hide TransitionKeys, NoRepeats;
    var edges, moves := EdgeKeys(|d.evidence|), TransitionKeys(m, d);
    OneDoesNotRepeat("decision");
    EdgeKeysDistinct(|d.evidence|);
    TransitionKeysDistinct(m, d);
    forall key | key in edges
      ensures key[0] == 'e'
    {
      var i :| 0 <= i < |edges| && edges[i] == key;
      assert ("edge:" + Decimal.Numeral(i))[0] == 'e';
    }
    assert "decision"[0] == 'd';
    NoRepeatsTogether(["decision"], edges);
    NoRepeatsTogether(["decision"] + edges, moves);
  }

  lemma DecidingKeysCount(task: Task, m: Method, d: Decision)
    requires m.cedg
    ensures |DecidingKeys(m, d)| == |[RECORDED] + EdgeSpecs(task, d.evidence) + DecisionTransitions(task, m, d)|
  {
    hide TransitionSpec;
    EdgeSpecsCount(task, d.evidence);
  }

  lemma {:induction false} EdgeSpecsCount(task: Task, evidence: seq<Selection>)
    ensures |EdgeSpecs(task, evidence)| == |evidence|
  {
    if evidence != [] {
      EdgeSpecsCount(task, evidence[..|evidence| - 1]);
    }
  }

  // ---------------------------------------------------------------- rows

  /** What the handlers do not decide: identifiers, the rendering of a row, charges and checkpoints. */
  datatype Outside = Outside(
    jobId: string, ids: nat -> string, render: Spec -> Meaning, parse: Meaning -> Spec,
    charges: nat -> seq<E.ChargeRow>, payload: (J.Stage, seq<E.EventRow>) -> string, maxAttempts: nat)

  /** The rendered rows of a task can be read back. */
  ghost predicate Readable(o: Outside, specs: seq<Spec>) {
    forall s | s in specs :: o.parse(o.render(s)) == s
  }

  function ReaderOf(o: Outside): Reader {
    (row: E.EventRow) => o.parse(row.body)
  }

  /** The rows of stage `i`. */
  function RowsOf(o: Outside, i: nat, keys: seq<string>, specs: seq<Spec>): (rows: seq<E.EventRow>)
    requires i < E.STAGES && |keys| == |specs|
    ensures |rows| == |specs|
    ensures forall j | 0 <= j < |specs| ::
      rows[j].key == OperationId(o.jobId, i) + ":" + keys[j] && rows[j].body == o.render(specs[j])
  {
    seq(|specs|, j requires 0 <= j < |specs| => Entry(OperationId(o.jobId, i) + ":" + keys[j], o.render(specs[j])))
  }

  /** Every key has one of `letters` where the name of its stage starts. */
  ghost predicate Lettered(rows: seq<E.EventRow>, at: nat, letters: set<char>) {
    forall i | 0 <= i < |rows| :: |rows[i].key| > at && rows[i].key[at] in letters
  }

  /** Rows that read as `specs`, under distinct keys of stages with these letters. */
  ghost predicate Sheet(o: Outside, rows: seq<E.EventRow>, specs: seq<Spec>, letters: set<char>) {
    && UniqueKeys(rows) && Lettered(rows, |o.jobId| + 1, letters)
    && |rows| == |specs| && forall i | 0 <= i < |rows| :: o.parse(rows[i].body) == specs[i]
  }

  lemma SameSuffix(prefix: string, a: string, b: string)
    requires prefix + a == prefix + b
    ensures a == b
  {
    assert (prefix + a)[|prefix|..] == a && (prefix + b)[|prefix|..] == b;
  }

  lemma RowsAreASheet(o: Outside, i: nat, keys: seq<string>, specs: seq<Spec>)
    requires i < E.STAGES && |keys| == |specs| && NoRepeats(keys) && Readable(o, specs)
    ensures Sheet(o, RowsOf(o, i, keys, specs), specs, {StageName(i)[0]})
  {
    var rows, operation := RowsOf(o, i, keys, specs), OperationId(o.jobId, i);
    hide StageName;
    forall j, k | 0 <= j < k < |rows|
      ensures rows[j].key != rows[k].key
    {
      if rows[j].key == rows[k].key {
        SameSuffix(operation + ":", keys[j], keys[k]);
      }
    }
    LetterOfStage(o.jobId, i);
    forall j | 0 <= j < |rows|
      ensures |rows[j].key| > |o.jobId| + 1 && rows[j].key[|o.jobId| + 1] == StageName(i)[0]
    {
      assert rows[j].key == operation + (":" + keys[j]);
    }
  }

  lemma LetterOfStage(jobId: string, i: nat)
    requires i < E.STAGES
    ensures var operation := OperationId(jobId, i);
      |StageName(i)| > 0 && |operation| > |jobId| + 1 && operation[|jobId| + 1] == StageName(i)[0]
  {
    assert OperationId(jobId, i) == jobId + (":" + (StageName(i) + ":v1"));
  }

  lemma SheetsTogether(o: Outside, a: seq<E.EventRow>, s: seq<Spec>, l: set<char>,
                       b: seq<E.EventRow>, t: seq<Spec>, m: set<char>)
    requires Sheet(o, a, s, l) && Sheet(o, b, t, m) && l !! m
    ensures Sheet(o, a + b, s + t, l + m)
  {
    var all, at := a + b, |o.jobId| + 1;
    forall i, j | 0 <= i < j < |all|
      ensures all[i].key != all[j].key
    {
      if i < |a| <= j {
        assert all[i].key[at] in l && all[j].key[at] in m;
      }
    }
  }

  // ---------------------------------------------------------------- the job

  /** The stages of `c` have answers and its decision was accepted, so every handler returns. */
  ghost predicate Runs(c: Case) {
    Validated(c) && Decided(c).Success?
  }

  ghost function SupportSpecs(c: Case): seq<Spec>
    requires Runs(c)
  {
    Emitted(c.sha, c.task, EvidenceGraph.Support, c.support)
  }

  ghost function CounterSpecs(c: Case): seq<Spec>
    requires Runs(c)
  {
    Emitted(c.sha, c.task, EvidenceGraph.Counter, c.counter)
  }

  lemma KeysMatch(c: Case)
    requires Runs(c)
    ensures |RetrievalKeys(c.support.results, |c.support.results|)| == |SupportSpecs(c)|
    ensures |RetrievalKeys(c.counter.results, |c.counter.results|)| == |CounterSpecs(c)|
    ensures |DecidingKeys(c.method_, c.decision)| == |Decided(c).value|
    ensures NoRepeats(RetrievalKeys(c.support.results, |c.support.results|))
    ensures NoRepeats(RetrievalKeys(c.counter.results, |c.counter.results|))
  {
    hide Retrieval, RetrievalKeys, DecidingKeys, PlanOk, HexDigest, TaskOk, DecisionOk, EdgeSpecs, DecisionTransitions,
      NoRepeats, RetrievalKey, PassageIds;
    RetrievalKeysDistinct(c.sha, c.task, EvidenceGraph.Support, c.support.queries, c.support.results, |c.support.results|);
    RetrievalKeysDistinct(c.sha, c.task, EvidenceGraph.Counter, c.counter.queries, c.counter.results, |c.counter.results|);
    DecidingKeysCount(c.task, c.method_, c.decision);
  }

  /** What the handlers of the seven stages return; READ and PROPOSE append nothing. */
  ghost function Compiled(c: Case, o: Outside): E.Job
    requires Runs(c)
  {
    KeysMatch(c);
    E.Job(
      [E.StageResult(RowsOf(o, 0, PlanKeys(c.method_), PlanSpecs(c.task, c.method_)), o.charges(0)),
       E.StageResult(RowsOf(o, 1, RetrievalKeys(c.support.results, |c.support.results|), SupportSpecs(c)), o.charges(1)),
       E.StageResult([], o.charges(2)),
       E.StageResult([], o.charges(3)),
       E.StageResult(RowsOf(o, 4, RetrievalKeys(c.counter.results, |c.counter.results|), CounterSpecs(c)), o.charges(4)),
       E.StageResult(RowsOf(o, 5, DecidingKeys(c.method_, c.decision), Decided(c).value), o.charges(5)),
       E.StageResult(RowsOf(o, 6, ["commitment"], [CANDIDATE]), o.charges(6))],
      o.payload,
      (ledger: seq<E.EventRow>) => Publishes(Events(ReadAll(ReaderOf(o), ledger), o.ids)),
      o.maxAttempts)
  }

  lemma AllEventsAre(job: E.Job)
    requires E.WellFormed(job) && job.stages[2].events == [] && job.stages[3].events == []
    ensures E.AllEvents(job) == job.stages[0].events + job.stages[1].events + job.stages[4].events
                                + job.stages[5].events + job.stages[6].events
  {
    assert E.EventsTo(job, 1) == job.stages[0].events;
    assert E.EventsTo(job, 2) == E.EventsTo(job, 1) + job.stages[1].events;
    assert E.EventsTo(job, 3) == E.EventsTo(job, 2);
    assert E.EventsTo(job, 4) == E.EventsTo(job, 3);
    assert E.EventsTo(job, 5) == E.EventsTo(job, 4) + job.stages[4].events;
    assert E.EventsTo(job, 6) == E.EventsTo(job, 5) + job.stages[5].events;
    assert E.EventsTo(job, 7) == E.EventsTo(job, 6) + job.stages[6].events;
  }

  ghost function StreamOf(c: Case): seq<Spec>
    requires Runs(c)
  {
    Stream(c.task, c.method_, SupportSpecs(c), CounterSpecs(c), Decided(c).value)
  }

  /** The keys of a task are distinct, over all its stages, and its rows read as the compiled stream. */
  lemma CompiledIsASheet(c: Case, o: Outside)
    requires Runs(c) && Readable(o, StreamOf(c))
    ensures Sheet(o, E.AllEvents(Compiled(c, o)), StreamOf(c), {'P', 'R', 'C', 'D', 'S'})
  {
    hide Validated, Decided, SupportSpecs, CounterSpecs, RetrievalKeys, DecidingKeys, PlanSpecs, E.AllEvents, Sheet,
      NoRepeats, Publishes;
    var job := Compiled(c, o);
    KeysMatch(c);
    AllEventsAre(job);
    PlanIsOne(c);
    OneDoesNotRepeat("claim");
    OneDoesNotRepeat("commitment");
    DecidingKeysDistinct(c.method_, c.decision);
    var plan, support, counter, decided :=
      PlanSpecs(c.task, c.method_), SupportSpecs(c), CounterSpecs(c), Decided(c).value;
    var r := job.stages;
    RowsAreASheet(o, 0, PlanKeys(c.method_), plan);
    RowsAreASheet(o, 1, RetrievalKeys(c.support.results, |c.support.results|), support);
    RowsAreASheet(o, 4, RetrievalKeys(c.counter.results, |c.counter.results|), counter);
    RowsAreASheet(o, 5, DecidingKeys(c.method_, c.decision), decided);
    RowsAreASheet(o, 6, ["commitment"], [CANDIDATE]);
    FiveSheets(o, r[0].events, plan, r[1].events, support, r[4].events, counter, r[5].events, decided,
               r[6].events, [CANDIDATE]);
  }

  lemma FiveSheets(o: Outside, a: seq<E.EventRow>, q: seq<Spec>, b: seq<E.EventRow>, r: seq<Spec>, c: seq<E.EventRow>,
                   s: seq<Spec>, d: seq<E.EventRow>, t: seq<Spec>, e: seq<E.EventRow>, u: seq<Spec>)
    requires Sheet(o, a, q, {'P'}) && Sheet(o, b, r, {'R'}) && Sheet(o, c, s, {'C'}) && Sheet(o, d, t, {'D'})
    requires Sheet(o, e, u, {'S'})
    ensures Sheet(o, a + b + c + d + e, q + r + s + t + u, {'P', 'R', 'C', 'D', 'S'})
  {
    hide Sheet;
    SheetsTogether(o, a, q, {'P'}, b, r, {'R'});
    SheetsTogether(o, a + b, q + r, {'P'} + {'R'}, c, s, {'C'});
    SheetsTogether(o, a + b + c, q + r + s, {'P'} + {'R'} + {'C'}, d, t, {'D'});
    SheetsTogether(o, a + b + c + d, q + r + s + t, {'P'} + {'R'} + {'C'} + {'D'}, e, u, {'S'});
    assert {'P'} + {'R'} + {'C'} + {'D'} + {'S'} == {'P', 'R', 'C', 'D', 'S'};
  }

  lemma PlanIsOne(c: Case)
    requires Runs(c)
    ensures |PlanSpecs(c.task, c.method_)| == 1 && PlanKeys(c.method_) == ["claim"]
  {
  }

  /** The handlers of a task perform its compiled stream. */
  lemma CompiledPerforms(c: Case, o: Outside)
    requires Runs(c) && Readable(o, StreamOf(c)) && Distinct(o.ids)
    ensures Performs(Compiled(c, o), c, ReaderOf(o), o.ids)
  {
    hide Validated, Decided, Publishes, E.AllEvents, Readable, Distinct, RowsOf, Stream, Events;
    var job := Compiled(c, o);
    CompiledIsASheet(c, o);
    assert ReadAll(ReaderOf(o), E.AllEvents(job)) == StreamOf(c);
    assert E.WellFormed(job);
    assert UniqueKeys(E.AllEvents(job));
    assert forall ledger :: job.accepts(ledger) <==> Publishes(Events(ReadAll(ReaderOf(o), ledger), o.ids));
  }

  /** Whatever the schedule, a task that ended in SUCCEEDED has published a justified decision. */
  lemma SucceededTaskIsJustified(c: Case, o: Outside, tenantId: string, key: string, task: string, budget: J.Usage,
                                 actions: seq<E.Action>)
    requires Runs(c) && Readable(o, StreamOf(c)) && Distinct(o.ids) && budget.NonNegative()
    requires S.After(Compiled(c, o), tenantId, key, task, budget, actions).rec.row.status.Succeeded?
    ensures Justified(c)
    ensures S.After(Compiled(c, o), tenantId, key, task, budget, actions).ledger == E.AllEvents(Compiled(c, o))
  {
    hide Validated, Decided, Justified, Compiled, E.Run, E.AllEvents, StreamOf;
    CompiledPerforms(c, o);
    SucceededJobIsJustified(Compiled(c, o), c, ReaderOf(o), o.ids, tenantId, key, task, budget, actions);
  }

  /** A task whose decision is justified, with sound charges, can always be brought to SUCCEEDED. */
  lemma JustifiedTaskIsDoable(c: Case, o: Outside)
    requires Runs(c) && Readable(o, StreamOf(c)) && Distinct(o.ids) && Justified(c)
    requires UniqueKeys(E.AllCharges(Compiled(c, o)))
    requires var all := E.AllCharges(Compiled(c, o)); forall i | 0 <= i < |all| :: all[i].body.usage.NonNegative()
    ensures P.Doable(Compiled(c, o))
  {
    hide Validated, Decided, Justified, Compiled, E.AllCharges, StreamOf, P.Doable, UniqueKeys;
    CompiledPerforms(c, o);
    JustifiedJobIsDoable(Compiled(c, o), c, ReaderOf(o), o.ids);
  }

  // ---------------------------------------------------------------- such tasks exist

  function IndexOf(specs: seq<Spec>, s: Spec): (i: nat)
    ensures s in specs ==> i < |specs| && specs[i] == s
  {
    if specs == [] || specs[0] == s then 0 else 1 + IndexOf(specs[1..], s)
  }

  /** A rendering by position, for the rows of one task. */
  function ByPosition(specs: seq<Spec>): Outside {
    Outside("job", (n: nat) => Decimal.Numeral(n),
            (s: Spec) => EventLedger.Semantics("", "", "", "", "", Decimal.Numeral(IndexOf(specs, s))),
            (m: Meaning) => if (forall i | 0 <= i < |m.payload| :: Decimal.IsDigit(m.payload[i]))
                               && Decimal.Value(m.payload) < |specs| then specs[Decimal.Value(m.payload)] else CANDIDATE,
            (i: nat) => [], (stage: J.Stage, rows: seq<E.EventRow>) => "", 3)
  }

  lemma ByPositionReads(specs: seq<Spec>)
    ensures Readable(ByPosition(specs), specs) && Distinct(ByPosition(specs).ids)
  {
    var o := ByPosition(specs);
    forall s | s in specs
      ensures o.parse(o.render(s)) == s
    {
      Decimal.ValueOfNumeral(IndexOf(specs, s));
    }
    forall i: nat, j: nat | i < j
      ensures o.ids(i) != o.ids(j)
    {
      if Decimal.Numeral(i) == Decimal.Numeral(j) {
        Decimal.NumeralInjective(i, j);
      }
    }
  }

  /** One query each way, no passage found, and the claim left open. */
  function OpenCase(): Case {
    Case((text: string) => seq(64, _ => '0'), Task("c", "family", "claim", "2020-01-01"), Method(true, true),
         Stage(["for"], [[]]), Stage(["against"], [[]]), Decision("UNRESOLVED", 0.5, [], "no evidence", ""))
  }

  /** No hypothesis of this module or of `BaselineJob` is empty. */
  lemma OpenCasePerforms()
    ensures Runs(OpenCase()) && Justified(OpenCase())
    ensures var c := OpenCase(); var o := ByPosition(StreamOf(c)); Performs(Compiled(c, o), c, ReaderOf(o), o.ids)
  {
    hide Compiled, Performs, Readable, Distinct, StreamOf;
    var c := OpenCase();
    OpenCaseRuns();
    ByPositionReads(StreamOf(c));
    CompiledPerforms(c, ByPosition(StreamOf(c)));
  }

  lemma EmptyStageOk(sha: string -> string, task: Task, intent: EvidenceGraph.Intent, query: string)
    requires !Blank(query) && |query| <= 1000
    ensures StageOk(sha, task, intent, Stage([query], [[]])) && Found(sha, task, intent, Stage([query], [[]])) == []
  {
    hide Blank;
    var queries, results: seq<seq<Retrieved>> := [query], [[]];
    assert Retrieval(sha, task, intent, queries, results, 0) == Success(([], []));
    assert ResultError(sha, results[0]).None?;
    assert MergeError(PassageIds([]), results[0], QueryName(intent, 0)).None?;
    assert [] + results[0] == [];
  }

  lemma OpenDecisionOk(d: Decision, ids: set<string>)
    requires d == Decision("UNRESOLVED", 0.5, [], "no evidence", "")
    ensures DecisionOk(d, ids) && Founded(d) && RelationsFit(d.evidence, ids, ids) && d.decision != "SURVIVED"
  {
    assert "no evidence"[0] == 'n';
    assert EvidenceGraph.ParseState("UNRESOLVED") == Some(EvidenceGraph.Unresolved);
    assert "SURVIVED"[0] == 'S' && "NARROWED"[0] == 'N' && "UNRESOLVED"[0] == 'U';
  }

  lemma OpenCaseRuns()
    ensures Runs(OpenCase()) && Justified(OpenCase())
  {
    hide StageOk, DecisionOk, Founded, RelationsFit, Found, Blank;
    var c := OpenCase();
    TextsAreGiven();
    EmptyStageOk(c.sha, c.task, EvidenceGraph.Support, "for");
    EmptyStageOk(c.sha, c.task, EvidenceGraph.Counter, "against");
    OpenDecisionOk(c.decision, PassageIds([]));
    assert SupportFound(c) == [] && CounterFound(c) == [] && SupportFound(c) + CounterFound(c) == [];
    assert PassageIds([]) == {};
  }

  lemma TextsAreGiven()
    ensures !Blank("c") && !Blank("claim") && !Blank("for") && !Blank("against")
  {
    assert "c"[0] == 'c' && "claim"[0] == 'c' && "for"[0] == 'f' && "against"[0] == 'a';
  }
}
