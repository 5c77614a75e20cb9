/**
 The event compiler of `src/evaluation/baseline_runner.py`: a query plan, the retrieved passages
 and a model decision become the event stream of one claim.  The compiler checks its inputs, the
 decision graph checks the events; the main results say exactly when the two agree.
 Backend and retriever answers are parameters, and so is the text digest.
 */
module BaselineCompiler {
  import opened Wrappers
  import opened EvidenceGraph
  import Decimal

  datatype Task = Task(challengeId: string, family: string, prompt: string, cutoff: string)

  datatype Method = Method(externalCounter: bool, cedg: bool)

  /** `locator`: exactly one of the two keys with an integer, or anything else. */
  datatype Locator = AtOffset(n: int) | AtPage(n: int) | Malformed

  datatype Retrieved = Retrieved(
    passageId: string, queryId: string, docId: string, text: string, locator: Locator, digest: string)

  datatype Selection = Selection(passageId: string, relation: string)

  datatype Decision = Decision(
    decision: string, probability: real, evidence: seq<Selection>, reason: string, boundary: string)

  /** What the worker is asked to append. */
  datatype Spec = Spec(kind: EventKind, payload: Payload)

  datatype ContractError =
    | InvalidPassage | DuplicateInResult | QueryMismatch | DuplicateAcrossQueries
    | InvalidDecision | LacksSupport | ForeignCounterevidence

  /** The digest is printed as 64 hexadecimal characters. */
  ghost predicate HexDigest(sha: string -> string) {
    forall t :: Hex64(sha(t))
  }

  // ---------------------------------------------------------------- what the compiler checks

  predicate TaskOk(task: Task) {
    !Blank(task.challengeId) && !Blank(task.prompt)
  }

  /** `QueryPlan.validate`. */
  predicate PlanOk(queries: seq<string>) {
    1 <= |queries| <= 8 && forall i | 0 <= i < |queries| :: !Blank(queries[i]) && |queries[i]| <= 1000
  }

  /** `RetrievedPassage.validate`. */
  predicate PassageOk(sha: string -> string, p: Retrieved) {
    && !Blank(p.passageId) && !Blank(p.queryId) && !Blank(p.docId) && !Blank(p.text)
    && !p.locator.Malformed? && p.locator.n >= 0
    && p.digest == sha(p.text)
  }

  function PassageIds(ps: seq<Retrieved>): (ids: set<string>)
    ensures forall p | p in ps :: p.passageId in ids
  {
    set p | p in ps :: p.passageId
  }

  /** `RetrievalResult.validate`: the first passage that is invalid or repeated. */
  function ResultError(sha: string -> string, ps: seq<Retrieved>): Option<ContractError> {
    if ps == [] then None
    else
      var n := |ps| - 1;
      var before := ResultError(sha, ps[..n]);
      if before.Some? then before
      else if !PassageOk(sha, ps[n]) then Some(InvalidPassage)
      else if ps[n].passageId in PassageIds(ps[..n]) then Some(DuplicateInResult)
      else None
  }

  /** `DecisionOutput.validate`, but for the strategy candidates. */
  predicate DecisionOk(d: Decision, available: set<string>) {
    && ParseState(d.decision).Some? && Terminal(ParseState(d.decision).value)
    && 0.0 <= d.probability <= 1.0
    && !Blank(d.reason)
    && (forall i | 0 <= i < |d.evidence| ::
          d.evidence[i].passageId in available && ParseRelation(d.evidence[i].relation).Some?)
    && (forall i, j | 0 <= i < j < |d.evidence| :: d.evidence[i].passageId != d.evidence[j].passageId)
    && (d.decision in {"SURVIVED", "NARROWED"} ==> !Blank(d.boundary))
  }

  // ---------------------------------------------------------------- what the compiler emits

  function IntentName(intent: Intent): string {
    match intent case Support => "support" case Counter => "counterevidence"
  }

  function QueryName(intent: Intent, i: nat): string {
    IntentName(intent) + "-" + Decimal.Numeral(i)
  }

  function ScopeText(task: Task): string {
    task.family + " through " + task.cutoff
  }

  /** `_plan_handler`. */
  function PlanSpecs(task: Task, m: Method): seq<Spec> {
    if m.cedg then
      [Spec(ClaimProposed, map[ClaimId := Text(task.challengeId), ClaimText := Text(task.prompt),
                               Scope := Text(ScopeText(task))])]
    else []
  }

  function QuerySpec(task: Task, intent: Intent, i: nat, query: string, hits: nat): Spec {
    Spec(QueryExecuted, map[
      FieldName.QueryId := Text(QueryName(intent, i)), ClaimId := Text(task.challengeId), ClaimText := Text(query),
      FieldName.IntentName := Text(IntentName(intent)), Hits := Whole(hits)])
  }

  function PassageSpec(p: Retrieved): Spec {
    var base := map[PassageId := Text(p.passageId), DocId := Text(p.docId), QueryId := Text(p.queryId),
                    Digest := Text(p.digest)];
    Spec(PassageObserved,
      match p.locator
      case AtOffset(n) => base[Offset := Whole(n)]
      case AtPage(n) => base[Page := Whole(n)]
      case Malformed => base)
  }

  function PassageSpecs(ps: seq<Retrieved>): seq<Spec> {
    if ps == [] then [] else PassageSpecs(ps[..|ps| - 1]) + [PassageSpec(ps[|ps| - 1])]
  }

  /** The first of `ps` that does not answer query `name`, or repeats an identifier of `seen`. */
  function MergeError(seen: set<string>, ps: seq<Retrieved>, name: string): Option<ContractError> {
    if ps == [] then None
    else
      var n := |ps| - 1;
      var before := MergeError(seen, ps[..n], name);
      if before.Some? then before
      else if ps[n].queryId != name then Some(QueryMismatch)
      else if ps[n].passageId in seen + PassageIds(ps[..n]) then Some(DuplicateAcrossQueries)
      else None
  }

  /** `_retrieve_queries` on the first `k` queries. */
  function Retrieval(sha: string -> string, task: Task, intent: Intent, queries: seq<string>,
                     results: seq<seq<Retrieved>>, k: nat)
    : Result<(seq<Retrieved>, seq<Spec>), ContractError>
    requires k <= |queries| == |results|
  {
    if k == 0 then Success(([], []))
    else
      var i := k - 1;
      var before := Retrieval(sha, task, intent, queries, results, i);
      if before.Failure? then before
      else
        var (passages, specs) := before.value;
        var invalid := ResultError(sha, results[i]);
        if invalid.Some? then Failure(invalid.value)
        else
          var clash := MergeError(PassageIds(passages), results[i], QueryName(intent, i));
          if clash.Some? then Failure(clash.value)
          else Success((passages + results[i],
                        specs + [QuerySpec(task, intent, i, queries[i], |results[i]|)] + PassageSpecs(results[i])))
  }

  function EdgeSpecs(task: Task, evidence: seq<Selection>): seq<Spec> {
    if evidence == [] then []
    else
      var n := |evidence| - 1;
      EdgeSpecs(task, evidence[..n])
      + [Spec(EvidenceLinked, map[ClaimId := Text(task.challengeId), PassageId := Text(evidence[n].passageId),
                                  RelationName := Text(evidence[n].relation)])]
  }

  /** `_transition`. */
  function TransitionSpec(task: Task, state: string, reason: string, boundary: string): Spec {
    var base := map[ClaimId := Text(task.challengeId), ToState := Text(state), Reason := Text(reason)];
    Spec(ClaimTransitioned, if boundary == "" then base else base[Boundary := Text(boundary)])
  }

  predicate Cites(evidence: seq<Selection>, relation: string) {
    exists i :: 0 <= i < |evidence| && evidence[i].relation == relation
  }

  const RECORDED := Spec(Unrelated("benchmark.decision_recorded"), map[])

  function DecisionTransitions(task: Task, m: Method, d: Decision): seq<Spec> {
    (if d.decision == "SURVIVED" then [TransitionSpec(task, "SUPPORTED", d.reason, "")] else [])
    + (if m.externalCounter then [TransitionSpec(task, "CHALLENGED", "counter-query executed", "")] else [])
    + [TransitionSpec(task, d.decision, d.reason, d.boundary)]
  }

  /** `_decide_handler`. */
  function Deciding(task: Task, m: Method, support: seq<Retrieved>, counter: seq<Retrieved>, d: Decision)
    : Result<seq<Spec>, ContractError>
  {
    if !m.externalCounter && counter != [] then Failure(ForeignCounterevidence)
    else if !DecisionOk(d, PassageIds(support + counter)) then Failure(InvalidDecision)
    else if !m.cedg then Success([RECORDED])
    else if d.decision == "SURVIVED" && !Cites(d.evidence, "SUPPORTS") then Failure(LacksSupport)
    else Success([RECORDED] + EdgeSpecs(task, d.evidence) + DecisionTransitions(task, m, d))
  }

  /** Everything one job appends, in stage order; only the graph's own events matter to the graph. */
  function Stream(task: Task, m: Method, support: seq<Spec>, counter: seq<Spec>, deciding: seq<Spec>): seq<Spec> {
    PlanSpecs(task, m) + support + counter + deciding + [CANDIDATE]
  }

  const CANDIDATE := Spec(Unrelated("benchmark.prediction_candidate_recorded"), map[])

  function Events(specs: seq<Spec>, ids: nat -> string): (events: seq<Event>)
    ensures |events| == |specs|
  {
    seq(|specs|, i requires 0 <= i < |specs| => Event(ids(i), specs[i].kind, specs[i].payload))
  }

  ghost predicate Distinct(ids: nat -> string) {
    forall i: nat, j: nat :: i < j ==> ids(i) != ids(j)
  }

  /** The publication gate: the events project and the graph has no open issue. */
  predicate Publishes(events: seq<Event>) {
    Project(events).Success? && Issues(Project(events).value.claims) == {}
  }

  // ---------------------------------------------------------------- the exact condition

  predicate CitesRelation(evidence: seq<Selection>, r: Relation) {
    exists i :: 0 <= i < |evidence| && RelationOf(evidence[i]) == r
  }

  /** The relation a decision must rest on. */
  predicate Founded(d: Decision) {
    match ParseState(d.decision)
    case Some(Survived) => CitesRelation(d.evidence, Supports)
    case Some(Narrowed) => CitesRelation(d.evidence, Bounds)
    case Some(Refuted) => CitesRelation(d.evidence, Contradicts) || CitesRelation(d.evidence, PrecedentFor)
    case _ => true
  }

  predicate FitsIntent(s: Selection, ids: set<string>, intent: Intent) {
    s.passageId in ids ==> Matches(RelationOf(s), intent)
  }

  /** Every cited passage is used in a way its query allows. */
  predicate RelationsFit(evidence: seq<Selection>, support: set<string>, counter: set<string>) {
    forall i | 0 <= i < |evidence| ::
      FitsIntent(evidence[i], support, Support) && FitsIntent(evidence[i], counter, Counter)
  }

  // ---------------------------------------------------------------- events without identifiers

  function Effect(g: Graph, s: Spec): Result<Graph, Refusal> {
    Handled(g, Event("", s.kind, s.payload))
  }

  function Fold(g: Graph, specs: seq<Spec>): Result<Graph, Refusal> {
    if specs == [] then Success(g)
    else
      var n := |specs| - 1;
      var before := Fold(g, specs[..n]);
      if before.Failure? then before else Effect(before.value, specs[n])
  }

  /** Two graphs that differ at most in the identifiers they have seen. */
  ghost predicate Alike(g: Graph, h: Graph) {
    g.claims == h.claims && g.queries == h.queries && g.passages == h.passages && g.edges == h.edges
  }

  lemma AdditionIgnoresSeen(g: Graph, h: Graph, p: Payload)
    requires Alike(g, h)
    ensures Same(g, Propose(g, p), Propose(h, p))
    ensures Same(g, Execute(g, p), Execute(h, p))
    ensures Same(g, Observe(g, p), Observe(h, p))
  {
    hide Str, ParseIntent, Hex64;
  }

  lemma ChangeIgnoresSeen(g: Graph, h: Graph, p: Payload)
    requires Alike(g, h)
    ensures Same(g, Link(g, p), Link(h, p))
    ensures Same(g, Transition(g, p), Transition(h, p))
  {
    hide Str, ParseState, ParseRelation, Barrier, Matches, Moved, Allowed;
  }

  /** The same outcome from a like graph, with the seen identifiers of `g` kept. */
  ghost predicate Same(g: Graph, a: Result<Graph, Refusal>, b: Result<Graph, Refusal>) {
    (a.Success? <==> b.Success?) && (a.Success? ==> Alike(a.value, b.value) && a.value.applied == g.applied)
  }

  lemma EffectIgnoresSeen(g: Graph, h: Graph, e: Event, id: string)
    requires Alike(g, h)
    ensures Same(g, Handled(g, e), Handled(h, e.(id := id)))
  {
    hide Propose, Execute, Observe, Link, Transition;
    AdditionIgnoresSeen(g, h, e.payload);
    ChangeIgnoresSeen(g, h, e.payload);
  }

  lemma {:induction false} FoldIsProjection(specs: seq<Spec>, ids: nat -> string)
    requires Distinct(ids)
    ensures Project(Events(specs, ids)).Success? <==> Fold(EMPTY, specs).Success?
    ensures Project(Events(specs, ids)).Success? ==>
      && Alike(Project(Events(specs, ids)).value, Fold(EMPTY, specs).value)
      && forall id | id in Project(Events(specs, ids)).value.applied :: exists i: nat :: i < |specs| && id == ids(i)
  {
    hide Handled;
    if specs != [] {
      var n := |specs| - 1;
      FoldIsProjection(specs[..n], ids);
      assert Events(specs, ids)[..n] == Events(specs[..n], ids);
      if Fold(EMPTY, specs[..n]).Success? {
        var g := Project(Events(specs[..n], ids)).value;
        var e := Events(specs, ids)[n];
        assert e.id !in g.applied;
        EffectIgnoresSeen(g, Fold(EMPTY, specs[..n]).value, e, "");
      }
    }
  }

  lemma {:induction false} FoldAppends(g: Graph, a: seq<Spec>, b: seq<Spec>)
    ensures Fold(g, a + b) == if Fold(g, a).Failure? then Fold(g, a) else Fold(Fold(g, a).value, b)
  {
    hide Effect;
    if b == [] {
      assert a + b == a;
    } else {
      var n := |b| - 1;
      FoldAppends(g, a, b[..n]);
      assert (a + b)[..|a + b| - 1] == a + b[..n];
    }
  }

  lemma FoldOne(g: Graph, s: Spec)
    ensures Fold(g, [s]) == Effect(g, s)
  {
    hide Effect;
    assert [s][..0] == [];
  }

  // ---------------------------------------------------------------- names

  lemma QueryNamesDiffer(a: Intent, i: nat, b: Intent, j: nat)
    requires QueryName(a, i) == QueryName(b, j)
    ensures a == b && i == j
  {
    hide Decimal.Numeral;
    var s, t := QueryName(a, i), QueryName(b, j);
    assert s[0] == IntentName(a)[0] && t[0] == IntentName(b)[0];
    assert a == b;
    var k := |IntentName(a)| + 1;
    assert s[k..] == Decimal.Numeral(i) && t[k..] == Decimal.Numeral(j);
    Decimal.NumeralInjective(i, j);
  }

  lemma Spellings()
    ensures ParseIntent("support") == Some(Support) && ParseIntent("counterevidence") == Some(Counter)
    ensures ParseState("SUPPORTED") == Some(Supported) && ParseState("CHALLENGED") == Some(Challenged)
  {
  }

  lemma NotEmpty(s: string)
    requires !Blank(s)
    ensures s != ""
  {
  }

  // ---------------------------------------------------------------- the claim

  function Base(task: Task): Graph {
    EMPTY.(claims := map[task.challengeId := Claim(task.prompt, ScopeText(task), Proposed, "", "", 1)])
  }

  lemma PlanFolds(task: Task, m: Method)
    requires TaskOk(task) && m.cedg
    ensures Fold(EMPTY, PlanSpecs(task, m)) == Success(Base(task))
  {
    hide Blank;
    NotEmpty(task.challengeId);
    NotEmpty(task.prompt);
    assert |ScopeText(task)| > 0;
    FoldOne(EMPTY, PlanSpecs(task, m)[0]);
    assert EMPTY.claims[task.challengeId := Claim(task.prompt, ScopeText(task), Proposed, "", "", 1)]
        == Base(task).claims;
  }

  // ---------------------------------------------------------------- retrieval

  function AsPassage(p: Retrieved): Passage {
    Passage(p.docId, p.queryId, p.digest,
            if p.locator.AtOffset? then Some(p.locator.n) else None,
            if p.locator.AtPage? then Some(p.locator.n) else None)
  }

  function AddPassages(m: map<string, Passage>, ps: seq<Retrieved>): map<string, Passage> {
    if ps == [] then m
    else
      var n := |ps| - 1;
      AddPassages(m, ps[..n])[ps[n].passageId := AsPassage(ps[n])]
  }

  function AddQueries(m: map<string, Query>, task: Task, intent: Intent, queries: seq<string>,
                      results: seq<seq<Retrieved>>, k: nat): map<string, Query>
    requires k <= |queries| == |results|
  {
    if k == 0 then m
    else
      var i := k - 1;
      AddQueries(m, task, intent, queries, results, i)
        [QueryName(intent, i) := Query(task.challengeId, queries[i], intent, |results[i]|)]
  }

  lemma {:induction false} PassagesAdded(m: map<string, Passage>, ps: seq<Retrieved>)
    ensures AddPassages(m, ps).Keys == m.Keys + PassageIds(ps)
    ensures forall id | id in m && id !in PassageIds(ps) :: AddPassages(m, ps)[id] == m[id]
  {
    hide AsPassage;
    if ps != [] {
      var n := |ps| - 1;
      PassagesAdded(m, ps[..n]);
      IdsSnoc(ps[..n], ps[n]);
      assert ps[..n] + [ps[n]] == ps;
    }
  }

  lemma {:induction false} PassagesAddedTwice(m: map<string, Passage>, a: seq<Retrieved>, b: seq<Retrieved>)
    ensures AddPassages(m, a + b) == AddPassages(AddPassages(m, a), b)
  {
    hide AsPassage;
    if b == [] {
      assert a + b == a;
    } else {
      var n := |b| - 1;
      PassagesAddedTwice(m, a, b[..n]);
      assert (a + b)[..|a + b| - 1] == a + b[..n];
    }
  }

  lemma IdsSnoc(ps: seq<Retrieved>, p: Retrieved)
    ensures PassageIds(ps + [p]) == PassageIds(ps) + {p.passageId}
  {
    var all := ps + [p];
    assert all[|ps|] == p;
    assert forall q | q in ps :: q in all;
    assert forall q | q in all :: q in ps || q == p;
  }

  lemma IdsAppend(a: seq<Retrieved>, b: seq<Retrieved>)
    ensures PassageIds(a + b) == PassageIds(a) + PassageIds(b)
  {
    assert forall q | q in a :: q in a + b;
    assert forall q | q in b :: q in a + b;
    assert forall q | q in a + b :: q in a || q in b;
  }

  lemma PassageFields(p: Retrieved)
    requires p.passageId != "" && p.docId != "" && p.queryId != "" && p.digest != ""
    requires !p.locator.Malformed? && p.locator.n >= 0
    ensures var s := PassageSpec(p); var q := s.payload;
      && s.kind == PassageObserved
      && Given(q, PassageId) && Given(q, DocId) && Given(q, QueryId) && Given(q, Digest)
      && Str(q[PassageId]) == p.passageId && Str(q[DocId]) == p.docId
      && Str(q[QueryId]) == p.queryId && Str(q[Digest]) == p.digest
      && (Located(q, Offset) || Located(q, Page)) && !BadPosition(q, Offset) && !BadPosition(q, Page)
      && Position(q, Offset) == AsPassage(p).offset && Position(q, Page) == AsPassage(p).page
  {
  }

  /** One observed passage: refused exactly when its identifier is taken. */
  lemma PassageEffect(sha: string -> string, g: Graph, p: Retrieved)
    requires HexDigest(sha) && PassageOk(sha, p) && p.queryId in g.queries
    ensures Effect(g, PassageSpec(p)).Success? <==> p.passageId !in g.passages
    ensures p.passageId !in g.passages ==>
      Effect(g, PassageSpec(p)) == Success(g.(passages := g.passages[p.passageId := AsPassage(p)]))
  {
    hide Blank, Hex64, PassageSpec, Given, Str, Located, BadPosition, Position;
    NotEmpty(p.passageId);
    NotEmpty(p.docId);
    NotEmpty(p.queryId);
    assert Hex64(p.digest);
    HexNotEmpty(p.digest);
    PassageFields(p);
  }

  lemma HexNotEmpty(s: string)
    requires Hex64(s)
    ensures s != ""
  {
  }

  /** The passages of one result: all are accepted, or the first with a taken identifier is refused. */
  lemma {:induction false} PassagesFold(sha: string -> string, g: Graph, ps: seq<Retrieved>, seen: set<string>, name: string)
    requires HexDigest(sha) && ResultError(sha, ps).None? && MergeError(seen, ps, name).None?
    requires name in g.queries
    ensures Fold(g, PassageSpecs(ps)).Success? <==> PassageIds(ps) !! g.passages.Keys
    ensures Fold(g, PassageSpecs(ps)).Success? ==>
      Fold(g, PassageSpecs(ps)) == Success(g.(passages := AddPassages(g.passages, ps)))
    ensures PassageIds(ps) !! seen
  {
    hide PassageOk, Effect, PassageSpec, AsPassage, HexDigest;
    if ps != [] {
      var n := |ps| - 1;
      PassagesFold(sha, g, ps[..n], seen, name);
      IdsSnoc(ps[..n], ps[n]);
      assert ps[..n] + [ps[n]] == ps;
      FoldAppends(g, PassageSpecs(ps[..n]), [PassageSpec(ps[n])]);
      if Fold(g, PassageSpecs(ps[..n])).Success? {
        var h := Fold(g, PassageSpecs(ps[..n])).value;
        FoldOne(h, PassageSpec(ps[n]));
        PassagesAdded(g.passages, ps[..n]);
        PassageEffect(sha, h, ps[n]);
      }
    }
  }

  lemma QueryEffect(g: Graph, task: Task, intent: Intent, i: nat, query: string, hits: nat)
    requires TaskOk(task) && !Blank(query)
    requires task.challengeId in g.claims && QueryName(intent, i) !in g.queries
    ensures Effect(g, QuerySpec(task, intent, i, query, hits))
         == Success(g.(queries := g.queries[QueryName(intent, i) := Query(task.challengeId, query, intent, hits)]))
  {
    hide Blank, Decimal.Numeral;
    NotEmpty(task.challengeId);
    NotEmpty(query);
    Spellings();
    assert |QueryName(intent, i)| > 0;
  }

  lemma {:induction false} QueriesOnly(m: map<string, Query>, task: Task, intent: Intent, queries: seq<string>,
                                       results: seq<seq<Retrieved>>, k: nat)
    requires k <= |queries| == |results|
    ensures var a := AddQueries(m, task, intent, queries, results, k);
      && (forall q | q in a :: q in m || exists i :: 0 <= i < k && q == QueryName(intent, i))
      && (forall q | q in m && (forall i | 0 <= i < k :: q != QueryName(intent, i)) :: q in a && a[q] == m[q])
  {
    hide QueryName;
    if k > 0 {
      QueriesOnly(m, task, intent, queries, results, k - 1);
    }
  }

  lemma {:induction false} QueryAdded(m: map<string, Query>, task: Task, intent: Intent, queries: seq<string>,
                                      results: seq<seq<Retrieved>>, k: nat, i: nat)
    requires i < k <= |queries| == |results|
    ensures var a := AddQueries(m, task, intent, queries, results, k);
      QueryName(intent, i) in a
      && a[QueryName(intent, i)] == Query(task.challengeId, queries[i], intent, |results[i]|)
    decreases k
  {
    hide QueryName;
    if i < k - 1 {
      QueryAdded(m, task, intent, queries, results, k - 1, i);
      if QueryName(intent, i) == QueryName(intent, k - 1) {
        QueryNamesDiffer(intent, i, intent, k - 1);
      }
    }
  }

  function Grown(g: Graph, task: Task, intent: Intent, queries: seq<string>, results: seq<seq<Retrieved>>,
                 ps: seq<Retrieved>, k: nat): Graph
    requires k <= |queries| == |results|
  {
    g.(queries := AddQueries(g.queries, task, intent, queries, results, k), passages := AddPassages(g.passages, ps))
  }

  /** One query and its passages: accepted exactly when no passage is observed already. */
  lemma AnswerFolds(sha: string -> string, h: Graph, task: Task, intent: Intent, i: nat, query: string,
                    found: seq<Retrieved>, seen: set<string>)
    requires HexDigest(sha) && TaskOk(task) && !Blank(query) && task.challengeId in h.claims
    requires QueryName(intent, i) !in h.queries && ResultError(sha, found).None?
    requires MergeError(seen, found, QueryName(intent, i)).None?
    ensures var r := Fold(h, [QuerySpec(task, intent, i, query, |found|)] + PassageSpecs(found));
      && (r.Success? <==> PassageIds(found) !! h.passages.Keys)
      && (r.Success? ==> r.value == h.(
            queries := h.queries[QueryName(intent, i) := Query(task.challengeId, query, intent, |found|)],
            passages := AddPassages(h.passages, found)))
    ensures PassageIds(found) !! seen
  {
    hide Blank, ResultError, MergeError, QueryName, QuerySpec, PassageSpecs, HexDigest, TaskOk, Effect, Fold,
      AddPassages, PassageIds;
    var spec := QuerySpec(task, intent, i, query, |found|);
    FoldAppends(h, [spec], PassageSpecs(found));
    FoldOne(h, spec);
    QueryEffect(h, task, intent, i, query, |found|);
    var asked := h.(queries := h.queries[QueryName(intent, i) := Query(task.challengeId, query, intent, |found|)]);
    PassagesFold(sha, asked, found, seen, QueryName(intent, i));
  }

  /** A retrieval stage is accepted exactly when it brings back no passage already observed. */
  lemma {:induction false} RetrievalFolds(
      sha: string -> string, g: Graph, task: Task, intent: Intent, queries: seq<string>,
      results: seq<seq<Retrieved>>, k: nat)
    requires HexDigest(sha) && TaskOk(task) && task.challengeId in g.claims
    requires k <= |queries| == |results| && forall i | 0 <= i < |queries| :: !Blank(queries[i])
    requires forall i: nat :: QueryName(intent, i) !in g.queries
    requires Retrieval(sha, task, intent, queries, results, k).Success?
    ensures var (ps, specs) := Retrieval(sha, task, intent, queries, results, k).value;
      && (Fold(g, specs).Success? <==> PassageIds(ps) !! g.passages.Keys)
      && (Fold(g, specs).Success? ==> Fold(g, specs).value == Grown(g, task, intent, queries, results, ps, k))
      && (forall p | p in ps :: exists i :: 0 <= i < k && p.queryId == QueryName(intent, i))
  {
    hide Blank, ResultError, MergeError, QueryName, QuerySpec, PassageSpecs, HexDigest, TaskOk, Effect, Fold,
      AddPassages, PassageIds;
    if k == 0 {
      NoIds();
      FoldNone(g);
      NothingAdded(g.passages);
    } else {
      var i := k - 1;
      RetrievalFolds(sha, g, task, intent, queries, results, i);
      var (ps, specs) := Retrieval(sha, task, intent, queries, results, i).value;
      var found := results[i];
      var more := [QuerySpec(task, intent, i, queries[i], |found|)] + PassageSpecs(found);
      MergedQuery(PassageIds(ps), found, QueryName(intent, i));
      IdsAppend(ps, found);
      FoldAppends(g, specs, more);
      assert specs + [QuerySpec(task, intent, i, queries[i], |found|)] + PassageSpecs(found) == specs + more;
      PassagesAdded(g.passages, ps);
      PassagesAddedTwice(g.passages, ps, found);
      if Fold(g, specs).Success? {
        NewName(g, task, intent, queries, results, i);
        AnswerFolds(sha, Fold(g, specs).value, task, intent, i, queries[i], found, PassageIds(ps));
      }
    }
  }

  lemma NothingAdded(m: map<string, Passage>)
    ensures AddPassages(m, []) == m
  {
  }

  lemma NewName(g: Graph, task: Task, intent: Intent, queries: seq<string>, results: seq<seq<Retrieved>>, i: nat)
    requires i < |queries| == |results|
    requires forall j: nat :: QueryName(intent, j) !in g.queries
    ensures QueryName(intent, i) !in AddQueries(g.queries, task, intent, queries, results, i)
  {
    hide QueryName, AddQueries;
    QueriesOnly(g.queries, task, intent, queries, results, i);
    if QueryName(intent, i) in AddQueries(g.queries, task, intent, queries, results, i) {
      var j :| 0 <= j < i && QueryName(intent, i) == QueryName(intent, j);
      QueryNamesDiffer(intent, i, intent, j);
    }
  }

  lemma {:induction false} MergedQuery(seen: set<string>, ps: seq<Retrieved>, name: string)
    requires MergeError(seen, ps, name).None?
    ensures forall p | p in ps :: p.queryId == name
  {
    if ps != [] {
      MergedQuery(seen, ps[..|ps| - 1], name);
      assert forall p | p in ps :: p in ps[..|ps| - 1] || p == ps[|ps| - 1];
    }
  }

  // ---------------------------------------------------------------- links

  /** The relation a validated selection names. */
  function RelationOf(s: Selection): Relation {
    ParseRelation(s.relation).GetOr(Checked)
  }

  function EdgesFor(c: string, evidence: seq<Selection>): seq<Edge> {
    if evidence == [] then []
    else
      var n := |evidence| - 1;
      EdgesFor(c, evidence[..n]) + [Edge(c, evidence[n].passageId, RelationOf(evidence[n]))]
  }

  lemma {:induction false} EdgesForAt(c: string, evidence: seq<Selection>)
    ensures |EdgesFor(c, evidence)| == |evidence|
    ensures forall i | 0 <= i < |evidence| ::
      EdgesFor(c, evidence)[i] == Edge(c, evidence[i].passageId, RelationOf(evidence[i]))
  {
    hide RelationOf;
    if evidence != [] {
      EdgesForAt(c, evidence[..|evidence| - 1]);
    }
  }

  lemma EdgesCite(c: string, evidence: seq<Selection>, r: Relation)
    ensures HasEdge(EdgesFor(c, evidence), c, r) <==> CitesRelation(evidence, r)
  {
    hide RelationOf, EdgesFor;
    EdgesForAt(c, evidence);
    var edges := EdgesFor(c, evidence);
    if i :| 0 <= i < |evidence| && RelationOf(evidence[i]) == r {
      assert edges[i].relation == r;
    }
    if i :| 0 <= i < |edges| && edges[i].claimId == c && edges[i].relation == r {
      assert RelationOf(evidence[i]) == r;
    }
  }

  /** A selection that the graph can attach to the claim `c`. */
  ghost predicate Attachable(g: Graph, c: string, s: Selection) {
    && s.passageId != "" && ParseRelation(s.relation).Some?
    && s.passageId in g.passages && g.passages[s.passageId].queryId in g.queries
    && g.queries[g.passages[s.passageId].queryId].claimId == c
  }

  ghost predicate Fits(g: Graph, c: string, s: Selection) {
    Attachable(g, c, s) && Matches(RelationOf(s), g.queries[g.passages[s.passageId].queryId].intent)
  }

  function EdgeSpec(c: string, s: Selection): Spec {
    Spec(EvidenceLinked, map[ClaimId := Text(c), PassageId := Text(s.passageId), RelationName := Text(s.relation)])
  }

  lemma LinkEffect(g: Graph, c: string, s: Selection)
    requires c != "" && c in g.claims && Attachable(g, c, s)
    requires forall i | 0 <= i < |g.edges| :: g.edges[i].passageId != s.passageId
    ensures Effect(g, EdgeSpec(c, s)) ==
      if Fits(g, c, s) then Success(g.(edges := g.edges + [Edge(c, s.passageId, RelationOf(s))]))
      else Failure(WrongIntent)
  {
    hide Matches;
    assert s.relation != "";
  }

  /** The links of a decision are accepted exactly when every relation fits its passage's query. */
  lemma {:induction false} LinksFold(g: Graph, task: Task, evidence: seq<Selection>)
    requires task.challengeId != "" && task.challengeId in g.claims && g.edges == []
    requires forall i | 0 <= i < |evidence| :: Attachable(g, task.challengeId, evidence[i])
    requires forall i, j | 0 <= i < j < |evidence| :: evidence[i].passageId != evidence[j].passageId
    ensures Fold(g, EdgeSpecs(task, evidence)).Success? <==> forall i | 0 <= i < |evidence| :: Fits(g, task.challengeId, evidence[i])
    ensures Fold(g, EdgeSpecs(task, evidence)).Success? ==>
      Fold(g, EdgeSpecs(task, evidence)).value == g.(edges := EdgesFor(task.challengeId, evidence))
  {
    hide ParseRelation, Matches, Effect, EdgeSpec;
    if evidence != [] {
      var n := |evidence| - 1;
      var c, s := task.challengeId, evidence[n];
      LinksFold(g, task, evidence[..n]);
      EdgesForAt(c, evidence[..n]);
      assert EdgeSpecs(task, evidence) == EdgeSpecs(task, evidence[..n]) + [EdgeSpec(c, s)] by {
        LastEdge(task, evidence);
      }
      FoldAppends(g, EdgeSpecs(task, evidence[..n]), [EdgeSpec(c, s)]);
      if Fold(g, EdgeSpecs(task, evidence[..n])).Success? {
        var h := Fold(g, EdgeSpecs(task, evidence[..n])).value;
        FoldOne(h, EdgeSpec(c, s));
        LinkEffect(h, c, s);
        assert Fits(h, c, s) == Fits(g, c, s);
        assert forall i | 0 <= i < n :: evidence[..n][i] == evidence[i];
      }
    }
  }

  lemma LastEdge(task: Task, evidence: seq<Selection>)
    requires evidence != []
    ensures EdgeSpecs(task, evidence)
         == EdgeSpecs(task, evidence[..|evidence| - 1]) + [EdgeSpec(task.challengeId, evidence[|evidence| - 1])]
  {
  }

  // ---------------------------------------------------------------- transitions

  lemma TransitionEffect(g: Graph, task: Task, state: string, to: ClaimState, reason: string, boundary: string)
    requires task.challengeId != "" && task.challengeId in g.claims
    requires ParseState(state) == Some(to) && reason != ""
    ensures var c := task.challengeId;
      var p := TransitionSpec(task, state, reason, boundary).payload;
      Effect(g, TransitionSpec(task, state, reason, boundary)) ==
        if !Allowed(g.claims[c].state, to) then Failure(IllegalTransition)
        else if Barrier(g.queries, g.edges, c, to, p).Some? then Failure(Barrier(g.queries, g.edges, c, to, p).value)
        else Success(g.(claims := g.claims[c := Moved(g.claims[c], to, p)]))
  {
    hide Barrier, Allowed, Moved;
    assert state != "";
  }

  /** A claim in state `from` with the evidence of `g` can be moved to `to`. */
  ghost predicate Moves(g: Graph, c: string, from: ClaimState, to: ClaimState) {
    && Allowed(from, to)
    && (to.Supported? ==> HasEdge(g.edges, c, Supports))
    && (to.Challenged? ==> Countered(g.queries, c))
    && (to.Survived? ==> HasEdge(g.edges, c, Supports) && Countered(g.queries, c))
    && (to.Narrowed? ==> HasEdge(g.edges, c, Bounds))
    && (to.Refuted? ==> HasEdge(g.edges, c, Contradicts) || HasEdge(g.edges, c, PrecedentFor))
  }

  /** A claim after a transition; without a text the boundary stays. */
  function After(claim: Claim, to: ClaimState, reason: string, boundary: string): Claim {
    Claim(claim.text, claim.scope, to, if boundary == "" then claim.boundary else boundary, reason, claim.version + 1)
  }

  lemma TransitionMoves(g: Graph, task: Task, state: string, to: ClaimState, reason: string, boundary: string)
    requires task.challengeId != "" && task.challengeId in g.claims
    requires ParseState(state) == Some(to) && reason != ""
    requires to.Survived? || to.Narrowed? ==> !Blank(boundary)
    ensures var c := task.challengeId;
      var r := Effect(g, TransitionSpec(task, state, reason, boundary));
      && (r.Success? <==> Moves(g, c, g.claims[c].state, to))
      && (r.Success? ==> r.value == g.(claims := g.claims[c := After(g.claims[c], to, reason, boundary)]))
  {
    hide HasEdge, Countered, Allowed, ParseState, Blank, Effect;
    TransitionEffect(g, task, state, to, reason, boundary);
    BlankEmpty();
    var p := TransitionSpec(task, state, reason, boundary).payload;
    assert boundary != "" ==> Boundary in p && Str(p[Boundary]) == boundary;
    assert Str(p[Reason]) == reason;
    assert Moved(g.claims[task.challengeId], to, p) == After(g.claims[task.challengeId], to, reason, boundary);
  }

  /** The graph has one claim, that of the task. */
  ghost predicate OneClaim(g: Graph, task: Task, claim: Claim) {
    g.claims == map[task.challengeId := claim]
  }

  /** The claim that a job proposes. */
  function ProposedClaim(task: Task): Claim {
    Claim(task.prompt, ScopeText(task), Proposed, "", "", 1)
  }

  /** The claim that a job publishes: the decision's own words, and one version for each transition. */
  function PublishedClaim(task: Task, m: Method, d: Decision): Claim
    requires ParseState(d.decision).Some?
  {
    Claim(task.prompt, ScopeText(task), ParseState(d.decision).value, d.boundary, d.reason,
          2 + (if d.decision == "SURVIVED" then 1 else 0) + (if m.externalCounter then 1 else 0))
  }

  ghost predicate FoundedOn(edges: seq<Edge>, c: string, to: ClaimState) {
    && (to.Survived? ==> HasEdge(edges, c, Supports))
    && (to.Narrowed? ==> HasEdge(edges, c, Bounds))
    && (to.Refuted? ==> HasEdge(edges, c, Contradicts) || HasEdge(edges, c, PrecedentFor))
  }

  lemma MoveFolds(g: Graph, task: Task, past: seq<Spec>, before: Graph, state: string, to: ClaimState,
                  reason: string, boundary: string, claim: Claim)
    requires task.challengeId != "" && ParseState(state) == Some(to) && reason != ""
    requires to.Survived? || to.Narrowed? ==> !Blank(boundary)
    requires Fold(before, past) == Success(g) && OneClaim(g, task, claim)
    ensures var c := task.challengeId;
      var r := Fold(before, past + [TransitionSpec(task, state, reason, boundary)]);
      && (r.Success? <==> Moves(g, c, claim.state, to))
      && (r.Success? ==> r.value == g.(claims := map[c := After(claim, to, reason, boundary)]))
  {
    hide HasEdge, Countered, Allowed, ParseState, Blank, Effect, TransitionSpec, Fold;
    FoldAppends(before, past, [TransitionSpec(task, state, reason, boundary)]);
    FoldOne(g, TransitionSpec(task, state, reason, boundary));
    TransitionMoves(g, task, state, to, reason, boundary);
    var after := After(claim, to, reason, boundary);
    assert g.claims[task.challengeId := after] == map[task.challengeId := after];
  }

  lemma StateNames(s: string, to: ClaimState)
    requires ParseState(s) == Some(to)
    ensures to.Survived? <==> s == "SURVIVED"
    ensures to.Narrowed? <==> s == "NARROWED"
    ensures to.Unresolved? <==> s == "UNRESOLVED"
  {
  }

  /** With counter-retrieval the transitions go through exactly when the decision has its evidence. */
  lemma TransitionsFold(g: Graph, task: Task, m: Method, d: Decision, available: set<string>)
    requires task.challengeId != "" && m.externalCounter && DecisionOk(d, available)
    requires OneClaim(g, task, ProposedClaim(task)) && Countered(g.queries, task.challengeId)
    ensures var r := Fold(g, DecisionTransitions(task, m, d));
      && (r.Success? <==> FoundedOn(g.edges, task.challengeId, ParseState(d.decision).value))
      && (r.Success? ==> r.value == g.(claims := map[task.challengeId := PublishedClaim(task, m, d)]))
  {
    hide HasEdge, Countered, ParseState, Blank, Effect, TransitionSpec, Fold;
    var c, to := task.challengeId, ParseState(d.decision).value;
    var first := TransitionSpec(task, "SUPPORTED", d.reason, "");
    var second := TransitionSpec(task, "CHALLENGED", "counter-query executed", "");
    var last := TransitionSpec(task, d.decision, d.reason, d.boundary);
    StateNames(d.decision, to);
    Spellings();
    NotEmptyText(d.reason);
    FoldNone(g);
    if to.Survived? {
      var proposed := ProposedClaim(task);
      var supported := After(proposed, Supported, d.reason, "");
      var challenged := After(supported, Challenged, "counter-query executed", "");
      MoveFolds(g, task, [], g, "SUPPORTED", Supported, d.reason, "", proposed);
      assert [] + [first] == [first];
      if Fold(g, [first]).Success? {
        MoveFolds(Fold(g, [first]).value, task, [first], g, "CHALLENGED", Challenged, "counter-query executed", "", supported);
        MoveFolds(Fold(g, [first] + [second]).value, task, [first] + [second], g, d.decision, to, d.reason, d.boundary,
                  challenged);
      } else {
        FoldAppends(g, [first], [second] + [last]);
        assert [first] + [second] + [last] == [first] + ([second] + [last]);
      }
      assert DecisionTransitions(task, m, d) == [first] + [second] + [last];
    } else {
      var proposed := ProposedClaim(task);
      MoveFolds(g, task, [], g, "CHALLENGED", Challenged, "counter-query executed", "", proposed);
      assert [] + [second] == [second];
      MoveFolds(Fold(g, [second]).value, task, [second], g, d.decision, to, d.reason, d.boundary,
                After(proposed, Challenged, "counter-query executed", ""));
      assert DecisionTransitions(task, m, d) == [second] + [last];
    }
  }

  /** Without counter-retrieval only an unresolved decision is reachable from a proposed claim. */
  lemma ControlTransitionsFold(g: Graph, task: Task, m: Method, d: Decision, available: set<string>)
    requires task.challengeId != "" && !m.externalCounter && DecisionOk(d, available)
    requires OneClaim(g, task, ProposedClaim(task))
    ensures var r := Fold(g, DecisionTransitions(task, m, d));
      && (r.Success? <==> d.decision == "UNRESOLVED")
      && (r.Success? ==> r.value == g.(claims := map[task.challengeId := PublishedClaim(task, m, d)]))
  {
    hide HasEdge, Countered, ParseState, Blank, Effect, TransitionSpec, Fold;
    var to := ParseState(d.decision).value;
    var first := TransitionSpec(task, "SUPPORTED", d.reason, "");
    var last := TransitionSpec(task, d.decision, d.reason, d.boundary);
    var proposed := ProposedClaim(task);
    StateNames(d.decision, to);
    Spellings();
    NotEmptyText(d.reason);
    FoldNone(g);
    if to.Survived? {
      MoveFolds(g, task, [], g, "SUPPORTED", Supported, d.reason, "", proposed);
      assert [] + [first] == [first];
      if Fold(g, [first]).Success? {
        MoveFolds(Fold(g, [first]).value, task, [first], g, d.decision, to, d.reason, d.boundary,
                  After(proposed, Supported, d.reason, ""));
      } else {
        FoldAppends(g, [first], [last]);
      }
      assert DecisionTransitions(task, m, d) == [first] + [last];
    } else {
      MoveFolds(g, task, [], g, d.decision, to, d.reason, d.boundary, proposed);
      assert DecisionTransitions(task, m, d) == [] + [last];
    }
  }

  lemma FoldNone(g: Graph)
    ensures Fold(g, []) == Success(g)
  {
  }

  lemma NotEmptyText(s: string)
    requires !Blank(s)
    ensures s != "" && "counter-query executed" != ""
  {
  }

  // ---------------------------------------------------------------- the graph before the decision

  ghost predicate FromQuery(g: Graph, c: string, id: string, intent: Intent) {
    && id != "" && id in g.passages && g.passages[id].queryId in g.queries
    && g.queries[g.passages[id].queryId].claimId == c
    && g.queries[g.passages[id].queryId].intent == intent
  }

  ghost predicate Ready(g: Graph, task: Task, support: set<string>, counter: set<string>) {
    && OneClaim(g, task, ProposedClaim(task)) && g.edges == []
    && (forall id | id in support :: FromQuery(g, task.challengeId, id, Support))
    && (forall id | id in counter :: FromQuery(g, task.challengeId, id, Counter))
  }

  lemma LinksFit(g: Graph, task: Task, evidence: seq<Selection>, support: set<string>, counter: set<string>)
    requires Ready(g, task, support, counter)
    requires forall i | 0 <= i < |evidence| ::
      evidence[i].passageId in support + counter && ParseRelation(evidence[i].relation).Some?
    ensures forall i | 0 <= i < |evidence| :: Attachable(g, task.challengeId, evidence[i])
    ensures RelationsFit(evidence, support, counter)
      <==> forall i | 0 <= i < |evidence| :: Fits(g, task.challengeId, evidence[i])
  {
    hide ParseRelation, Matches, RelationOf;
    forall i | 0 <= i < |evidence|
      ensures Attachable(g, task.challengeId, evidence[i])
      ensures FitsIntent(evidence[i], support, Support) && FitsIntent(evidence[i], counter, Counter)
        <==> Fits(g, task.challengeId, evidence[i])
    {
      OneFits(g, task, evidence[i], support, counter);
    }
  }

  lemma OneFits(g: Graph, task: Task, s: Selection, support: set<string>, counter: set<string>)
    requires Ready(g, task, support, counter)
    requires s.passageId in support + counter && ParseRelation(s.relation).Some?
    ensures Attachable(g, task.challengeId, s)
    ensures FitsIntent(s, support, Support) && FitsIntent(s, counter, Counter) <==> Fits(g, task.challengeId, s)
  {
    hide ParseRelation, Matches, RelationOf;
    if s.passageId in support {
      assert FromQuery(g, task.challengeId, s.passageId, Support);
    }
    if s.passageId in counter {
      assert FromQuery(g, task.challengeId, s.passageId, Counter);
    }
  }

  lemma FoundedAgree(c: string, d: Decision, available: set<string>)
    requires DecisionOk(d, available)
    ensures FoundedOn(EdgesFor(c, d.evidence), c, ParseState(d.decision).value) <==> Founded(d)
  {
    hide ParseState, ParseRelation, HasEdge, CitesRelation, Blank;
    EdgesCite(c, d.evidence, Supports);
    EdgesCite(c, d.evidence, Bounds);
    EdgesCite(c, d.evidence, Contradicts);
    EdgesCite(c, d.evidence, PrecedentFor);
  }

  /** The graph of the retrieval stages with the decision on it. */
  function Concluded(g: Graph, task: Task, m: Method, d: Decision): Graph
    requires ParseState(d.decision).Some?
  {
    g.(claims := map[task.challengeId := PublishedClaim(task, m, d)], edges := EdgesFor(task.challengeId, d.evidence))
  }

  function DecisionSpecs(task: Task, m: Method, d: Decision): seq<Spec> {
    [RECORDED] + EdgeSpecs(task, d.evidence) + DecisionTransitions(task, m, d)
  }

  /** The links, folded after the decision record. */
  lemma RecordedLinksFold(g: Graph, task: Task, d: Decision, support: set<string>, counter: set<string>)
    requires task.challengeId != "" && Ready(g, task, support, counter) && DecisionOk(d, support + counter)
    ensures var r := Fold(g, [RECORDED] + EdgeSpecs(task, d.evidence));
      && (r.Success? <==> RelationsFit(d.evidence, support, counter))
      && (r.Success? ==> r.value == g.(edges := EdgesFor(task.challengeId, d.evidence)))
  {
    hide ParseState, ParseRelation, Matches, Blank, Fold, RelationsFit, Fits, EdgesFor, EdgeSpecs;
    LinksFit(g, task, d.evidence, support, counter);
    FoldAppends(g, [RECORDED], EdgeSpecs(task, d.evidence));
    FoldOne(g, RECORDED);
    LinksFold(g, task, d.evidence);
  }

  lemma DecisionFolds(g: Graph, task: Task, m: Method, d: Decision, support: set<string>, counter: set<string>)
    requires task.challengeId != "" && m.externalCounter && Ready(g, task, support, counter)
    requires DecisionOk(d, support + counter) && Countered(g.queries, task.challengeId)
    ensures var r := Fold(g, DecisionSpecs(task, m, d));
      && (r.Success? <==> RelationsFit(d.evidence, support, counter) && Founded(d))
      && (r.Success? ==> r.value == Concluded(g, task, m, d))
  {
    hide ParseState, ParseRelation, DecisionOk, Fold, RelationsFit, EdgesFor, EdgeSpecs, Countered, Founded, FoundedOn,
      DecisionTransitions;
    RecordedLinksFold(g, task, d, support, counter);
    FoldAppends(g, [RECORDED] + EdgeSpecs(task, d.evidence), DecisionTransitions(task, m, d));
    if RelationsFit(d.evidence, support, counter) {
      var h := g.(edges := EdgesFor(task.challengeId, d.evidence));
      TransitionsFold(h, task, m, d, support + counter);
      FoundedAgree(task.challengeId, d, support + counter);
    }
  }

  lemma ControlDecisionFolds(g: Graph, task: Task, m: Method, d: Decision, support: set<string>)
    requires task.challengeId != "" && !m.externalCounter && Ready(g, task, support, {})
    requires DecisionOk(d, support)
    ensures var r := Fold(g, DecisionSpecs(task, m, d));
      && (r.Success? <==> RelationsFit(d.evidence, support, {}) && d.decision == "UNRESOLVED")
      && (r.Success? ==> r.value == Concluded(g, task, m, d))
  {
    hide ParseState, ParseRelation, DecisionOk, Fold, RelationsFit, EdgesFor, EdgeSpecs, DecisionTransitions;
    assert support + {} == support;
    RecordedLinksFold(g, task, d, support, {});
    FoldAppends(g, [RECORDED] + EdgeSpecs(task, d.evidence), DecisionTransitions(task, m, d));
    if RelationsFit(d.evidence, support, {}) {
      ControlTransitionsFold(g.(edges := EdgesFor(task.challengeId, d.evidence)), task, m, d, support);
    }
  }

  lemma {:induction false} AddedFrom(m: map<string, Passage>, ps: seq<Retrieved>, id: string)
    requires id in PassageIds(ps)
    ensures id in AddPassages(m, ps)
    ensures exists p :: p in ps && p.passageId == id && AddPassages(m, ps)[id].queryId == p.queryId
  {
    var n := |ps| - 1;
    assert ps[..n] + [ps[n]] == ps;
    IdsSnoc(ps[..n], ps[n]);
    if ps[n].passageId == id {
      assert ps[n] in ps;
    } else {
      AddedFrom(m, ps[..n], id);
      var p :| p in ps[..n] && p.passageId == id && AddPassages(m, ps[..n])[id].queryId == p.queryId;
      assert p in ps;
    }
  }

  /** After one retrieval stage its passages come from its queries, and earlier ones keep theirs. */
  lemma RetrievalReady(sha: string -> string, g: Graph, task: Task, intent: Intent, queries: seq<string>,
                       results: seq<seq<Retrieved>>, ps: seq<Retrieved>, id: string)
    requires |queries| == |results| && id in PassageIds(ps)
    requires forall p | p in ps :: p.passageId != "" && exists i :: 0 <= i < |queries| && p.queryId == QueryName(intent, i)
    ensures FromQuery(Grown(g, task, intent, queries, results, ps, |queries|), task.challengeId, id, intent)
  {
    hide QueryName, AddPassages, AddQueries, PassageIds;
    AddedFrom(g.passages, ps, id);
    var p :| p in ps && p.passageId == id && AddPassages(g.passages, ps)[id].queryId == p.queryId;
    var i :| 0 <= i < |queries| && p.queryId == QueryName(intent, i);
    QueryAdded(g.queries, task, intent, queries, results, |queries|, i);
  }

  lemma {:induction false} RetrievedIdsGiven(sha: string -> string, task: Task, intent: Intent, queries: seq<string>,
                                             results: seq<seq<Retrieved>>, k: nat)
    requires k <= |queries| == |results|
    requires Retrieval(sha, task, intent, queries, results, k).Success?
    ensures forall p | p in Retrieval(sha, task, intent, queries, results, k).value.0 :: p.passageId != ""
  {
    hide MergeError, ResultError, QuerySpec, PassageSpecs;
    if k > 0 {
      RetrievedIdsGiven(sha, task, intent, queries, results, k - 1);
      ResultIdsGiven(sha, results[k - 1]);
    }
  }

  lemma {:induction false} ResultIdsGiven(sha: string -> string, ps: seq<Retrieved>)
    requires ResultError(sha, ps).None?
    ensures forall p | p in ps :: p.passageId != ""
  {
    hide Blank;
    if ps != [] {
      ResultIdsGiven(sha, ps[..|ps| - 1]);
      NotEmpty(ps[|ps| - 1].passageId);
      assert forall p | p in ps :: p in ps[..|ps| - 1] || p == ps[|ps| - 1];
    }
  }

  /** What the retriever gave one stage, and what the stage made of it. */
  datatype Stage = Stage(queries: seq<string>, results: seq<seq<Retrieved>>)

  predicate StageOk(sha: string -> string, task: Task, intent: Intent, s: Stage) {
    && |s.queries| == |s.results| && PlanOk(s.queries)
    && Retrieval(sha, task, intent, s.queries, s.results, |s.queries|).Success?
  }

  function Found(sha: string -> string, task: Task, intent: Intent, s: Stage): seq<Retrieved>
    requires StageOk(sha, task, intent, s)
  {
    Retrieval(sha, task, intent, s.queries, s.results, |s.queries|).value.0
  }

  function Emitted(sha: string -> string, task: Task, intent: Intent, s: Stage): seq<Spec>
    requires StageOk(sha, task, intent, s)
  {
    Retrieval(sha, task, intent, s.queries, s.results, |s.queries|).value.1
  }

  /** The support stage is always accepted. */
  lemma SupportReady(sha: string -> string, task: Task, m: Method, support: Stage)
    requires HexDigest(sha) && TaskOk(task) && m.cedg && StageOk(sha, task, Support, support)
    ensures var r := Fold(EMPTY, PlanSpecs(task, m) + Emitted(sha, task, Support, support));
      && r.Success?
      && r.value == Grown(Base(task), task, Support, support.queries, support.results,
                          Found(sha, task, Support, support), |support.queries|)
      && Ready(r.value, task, PassageIds(Found(sha, task, Support, support)), {})
      && r.value.passages.Keys == PassageIds(Found(sha, task, Support, support))
      && (forall q | q in r.value.queries :: exists i: nat :: q == QueryName(Support, i))
  {
    hide Blank, QueryName, HexDigest, PlanSpecs, Retrieval, FromQuery, Fold, AddPassages, AddQueries, PassageIds;
    var n := |support.queries|;
    var (ps, specs) := Retrieval(sha, task, Support, support.queries, support.results, n).value;
    PlanFolds(task, m);
    FoldAppends(EMPTY, PlanSpecs(task, m), specs);
    RetrievalFolds(sha, Base(task), task, Support, support.queries, support.results, n);
    RetrievedIdsGiven(sha, task, Support, support.queries, support.results, n);
    PassagesAdded(map[], ps);
    QueriesOnly(map[], task, Support, support.queries, support.results, n);
    forall id | id in PassageIds(ps)
      ensures FromQuery(Grown(Base(task), task, Support, support.queries, support.results, ps, n), task.challengeId, id, Support)
    {
      RetrievalReady(sha, Base(task), task, Support, support.queries, support.results, ps, id);
    }
  }

  /** The counter stage is accepted exactly when it brings back no passage the support stage has. */
  lemma CounterReady(sha: string -> string, g: Graph, task: Task, counter: Stage, ids: set<string>)
    requires HexDigest(sha) && TaskOk(task) && StageOk(sha, task, Counter, counter)
    requires Ready(g, task, ids, {}) && g.passages.Keys == ids
    requires forall q | q in g.queries :: exists i: nat :: q == QueryName(Support, i)
    ensures var r := Fold(g, Emitted(sha, task, Counter, counter));
      var found := PassageIds(Found(sha, task, Counter, counter));
      && (r.Success? <==> ids !! found)
      && (r.Success? ==> Ready(r.value, task, ids, found) && Countered(r.value.queries, task.challengeId))
      && (r.Success? ==> r.value == Grown(g, task, Counter, counter.queries, counter.results,
                                          Found(sha, task, Counter, counter), |counter.queries|))
  {
    hide Blank, QueryName, HexDigest, Retrieval, FromQuery, Fold, AddPassages, AddQueries, PassageIds;
    var n := |counter.queries|;
    var (ps, specs) := Retrieval(sha, task, Counter, counter.queries, counter.results, n).value;
    CounterNamesNew(g);
    RetrievalFolds(sha, g, task, Counter, counter.queries, counter.results, n);
    if ids !! PassageIds(ps) {
      var h := Grown(g, task, Counter, counter.queries, counter.results, ps, n);
      RetrievedIdsGiven(sha, task, Counter, counter.queries, counter.results, n);
      forall id | id in PassageIds(ps)
        ensures FromQuery(h, task.challengeId, id, Counter)
      {
        RetrievalReady(sha, g, task, Counter, counter.queries, counter.results, ps, id);
      }
      forall id | id in ids
        ensures FromQuery(h, task.challengeId, id, Support)
      {
        EarlierKept(g, task, counter, ps, id);
      }
      QueryAdded(g.queries, task, Counter, counter.queries, counter.results, n, 0);
      assert Countered(h.queries, task.challengeId);
    }
  }

  lemma CounterNamesNew(g: Graph)
    requires forall q | q in g.queries :: exists i: nat :: q == QueryName(Support, i)
    ensures forall i: nat :: QueryName(Counter, i) !in g.queries
  {
    hide QueryName;
    forall i: nat
      ensures QueryName(Counter, i) !in g.queries
    {
      if QueryName(Counter, i) in g.queries {
        var j: nat :| QueryName(Counter, i) == QueryName(Support, j);
        QueryNamesDiffer(Counter, i, Support, j);
      }
    }
  }

  lemma EarlierKept(g: Graph, task: Task, counter: Stage, ps: seq<Retrieved>, id: string)
    requires |counter.queries| == |counter.results|
    requires FromQuery(g, task.challengeId, id, Support) && id !in PassageIds(ps)
    requires forall i: nat :: QueryName(Counter, i) !in g.queries
    ensures FromQuery(Grown(g, task, Counter, counter.queries, counter.results, ps, |counter.queries|),
                      task.challengeId, id, Support)
  {
    hide QueryName, AddPassages, AddQueries, PassageIds;
    PassagesAdded(g.passages, ps);
    QueriesOnly(g.queries, task, Counter, counter.queries, counter.results, |counter.queries|);
  }

  // ---------------------------------------------------------------- the two agree

  /** A stream that folds to one decided claim publishes; one that does not fold does not. */
  lemma FoldDecidesPublication(task: Task, specs: seq<Spec>, claim: Claim, ids: nat -> string)
    requires Distinct(ids) && Terminal(claim.state)
    requires Fold(EMPTY, specs).Success? ==> OneClaim(Fold(EMPTY, specs).value, task, claim)
    ensures Publishes(Events(specs + [CANDIDATE], ids)) <==> Fold(EMPTY, specs).Success?
  {
    hide Fold, Issues, Events;
    FoldAppends(EMPTY, specs, [CANDIDATE]);
    if Fold(EMPTY, specs).Success? {
      FoldOne(Fold(EMPTY, specs).value, CANDIDATE);
    }
    FoldIsProjection(specs + [CANDIDATE], ids);
    if Fold(EMPTY, specs).Success? {
      var claims := Fold(EMPTY, specs).value.claims;
      assert claims[task.challengeId] == claim && forall c | c in claims :: c == task.challengeId;
      PublicationReduces(Events(specs + [CANDIDATE], ids));
    }
  }

  lemma SupportIsCited(d: Decision)
    requires ParseState(d.decision) == Some(Survived) && Founded(d)
    ensures Cites(d.evidence, "SUPPORTS")
  {
    var i :| 0 <= i < |d.evidence| && RelationOf(d.evidence[i]) == Supports;
    assert d.evidence[i].relation == "SUPPORTS";
  }

  /**
   With counter-retrieval, a validated decision is compiled to an event stream that projects and
   passes publication exactly when no passage was retrieved for both intents, every cited relation
   fits the query its passage came from, and the decision has the relation it rests on.
   */
  lemma CompilerAgreesWithGraph(sha: string -> string, task: Task, m: Method, support: Stage, counter: Stage,
                                d: Decision, ids: nat -> string)
    requires HexDigest(sha) && TaskOk(task) && m.cedg && m.externalCounter && Distinct(ids)
    requires StageOk(sha, task, Support, support) && StageOk(sha, task, Counter, counter)
    requires DecisionOk(d, PassageIds(Found(sha, task, Support, support) + Found(sha, task, Counter, counter)))
    ensures var sp, cp := Found(sha, task, Support, support), Found(sha, task, Counter, counter);
      var decided := Deciding(task, m, sp, cp, d);
      (decided.Success? &&
       Publishes(Events(Stream(task, m, Emitted(sha, task, Support, support), Emitted(sha, task, Counter, counter), decided.value), ids)))
      <==>
      (PassageIds(sp) !! PassageIds(cp) && RelationsFit(d.evidence, PassageIds(sp), PassageIds(cp)) && Founded(d))
  {
    hide HexDigest, Distinct, StageOk, Found, Emitted, Fold, PlanSpecs, PassageIds, RelationsFit, Founded, Ready,
      Publishes, Events, Countered, Cites, DecisionTransitions, EdgeSpecs, ParseState, ParseRelation;
    var sp, cp := Found(sha, task, Support, support), Found(sha, task, Counter, counter);
    var ss, cs := Emitted(sha, task, Support, support), Emitted(sha, task, Counter, counter);
    var c, dd := task.challengeId, DecisionSpecs(task, m, d);
    TaskNamed(task);
    IdsAppend(sp, cp);
    SupportReady(sha, task, m, support);
    var g := Fold(EMPTY, PlanSpecs(task, m) + ss).value;
    CounterReady(sha, g, task, counter, PassageIds(sp));
    FoldAppends(EMPTY, PlanSpecs(task, m) + ss, cs);
    FoldAppends(EMPTY, PlanSpecs(task, m) + ss + cs, dd);
    if PassageIds(sp) !! PassageIds(cp) {
      DecisionFolds(Fold(g, cs).value, task, m, d, PassageIds(sp), PassageIds(cp));
    }
    FoldDecidesPublication(task, PlanSpecs(task, m) + ss + cs + dd, PublishedClaim(task, m, d), ids);
    if d.decision == "SURVIVED" && Founded(d) {
      assert ParseState(d.decision) == Some(Survived) by { SurvivedName(); }
      SupportIsCited(d);
    }
  }

  lemma SurvivedName()
    ensures ParseState("SURVIVED") == Some(Survived)
  {
  }

  lemma TaskNamed(task: Task)
    requires TaskOk(task)
    ensures task.challengeId != ""
  {
    assert Blank("");
  }

  /**
   Without counter-retrieval the graph can only ever publish an unresolved decision: any other
   one stops short of a terminal state, whatever evidence it cites.
   */
  lemma ControlPublishesOnlyUnresolved(sha: string -> string, task: Task, m: Method, support: Stage, d: Decision,
                                       ids: nat -> string)
    requires HexDigest(sha) && TaskOk(task) && m.cedg && !m.externalCounter && Distinct(ids)
    requires StageOk(sha, task, Support, support)
    requires DecisionOk(d, PassageIds(Found(sha, task, Support, support)))
    ensures var sp := Found(sha, task, Support, support);
      var decided := Deciding(task, m, sp, [], d);
      (decided.Success? &&
       Publishes(Events(Stream(task, m, Emitted(sha, task, Support, support), [], decided.value), ids)))
      <==> (d.decision == "UNRESOLVED" && RelationsFit(d.evidence, PassageIds(sp), {}))
  {
    hide HexDigest, Distinct, StageOk, Found, Emitted, Fold, PlanSpecs, PassageIds, RelationsFit, Ready,
      Publishes, Events, Cites, DecisionTransitions, EdgeSpecs, ParseState, ParseRelation;
    var sp, ss := Found(sha, task, Support, support), Emitted(sha, task, Support, support);
    var dd := DecisionSpecs(task, m, d);
    assert sp + [] == sp;
    TaskNamed(task);
    SupportReady(sha, task, m, support);
    var g := Fold(EMPTY, PlanSpecs(task, m) + ss).value;
    assert PlanSpecs(task, m) + ss + [] == PlanSpecs(task, m) + ss;
    FoldAppends(EMPTY, PlanSpecs(task, m) + ss, dd);
    ControlDecisionFolds(g, task, m, d, PassageIds(sp));
    FoldDecidesPublication(task, PlanSpecs(task, m) + ss + dd, PublishedClaim(task, m, d), ids);
  }

  // ---------------------------------------------------------------- the handlers as loops

  lemma {:induction false} ResultErrorStays(sha: string -> string, ps: seq<Retrieved>, k: nat)
    requires k <= |ps| && ResultError(sha, ps[..k]).Some?
    ensures ResultError(sha, ps) == ResultError(sha, ps[..k])
    decreases |ps|
  {
    if k < |ps| {
      assert ps[..|ps| - 1][..k] == ps[..k];
      ResultErrorStays(sha, ps[..|ps| - 1], k);
    } else {
      assert ps[..k] == ps;
    }
  }

  lemma {:induction false} MergeErrorStays(seen: set<string>, ps: seq<Retrieved>, name: string, k: nat)
    requires k <= |ps| && MergeError(seen, ps[..k], name).Some?
    ensures MergeError(seen, ps, name) == MergeError(seen, ps[..k], name)
    decreases |ps|
  {
    if k < |ps| {
      assert ps[..|ps| - 1][..k] == ps[..k];
      MergeErrorStays(seen, ps[..|ps| - 1], name, k);
    } else {
      assert ps[..k] == ps;
    }
  }

  lemma {:induction false} RetrievalErrorStays(sha: string -> string, task: Task, intent: Intent, queries: seq<string>,
                                               results: seq<seq<Retrieved>>, k: nat, n: nat)
    requires k <= n <= |queries| == |results|
    requires Retrieval(sha, task, intent, queries, results, k).Failure?
    ensures Retrieval(sha, task, intent, queries, results, n) == Retrieval(sha, task, intent, queries, results, k)
    decreases n
  {
    hide MergeError, ResultError, PassageIds, QueryName, QuerySpec, PassageSpecs;
    if k < n {
      RetrievalErrorStays(sha, task, intent, queries, results, k, n - 1);
    }
  }

  /** `RetrievalResult.validate`. */
  method ValidateResult(sha: string -> string, ps: seq<Retrieved>) returns (error: Option<ContractError>)
    ensures error == ResultError(sha, ps)
  {
    hide PassageOk;
    var identifiers: set<string> := {};
    for i := 0 to |ps|
      invariant identifiers == PassageIds(ps[..i]) && ResultError(sha, ps[..i]).None?
    {
      assert ps[..i + 1][..i] == ps[..i] && ps[..i + 1] == ps[..i] + [ps[i]];
      IdsSnoc(ps[..i], ps[i]);
      if !PassageOk(sha, ps[i]) {
        ResultErrorStays(sha, ps, i + 1);
        return Some(InvalidPassage);
      }
      if ps[i].passageId in identifiers {
        ResultErrorStays(sha, ps, i + 1);
        return Some(DuplicateInResult);
      }
      identifiers := identifiers + {ps[i].passageId};
    }
    assert ps[..|ps|] == ps;
    error := None;
  }

  /** The inner loop of `_retrieve_queries`: take over the passages of one result. */
  method MergeResult(seen: set<string>, ps: seq<Retrieved>, name: string)
    returns (error: Option<ContractError>, specs: seq<Spec>, ids: set<string>)
    ensures error == MergeError(seen, ps, name)
    ensures error.None? ==> specs == PassageSpecs(ps) && ids == seen + PassageIds(ps)
  {
    hide PassageSpec, PassageIds;
    specs, ids := [], seen;
    NoIds();
    for i := 0 to |ps|
      invariant MergeError(seen, ps[..i], name).None?
      invariant specs == PassageSpecs(ps[..i]) && ids == seen + PassageIds(ps[..i])
    {
      assert ps[..i + 1][..i] == ps[..i] && ps[..i + 1] == ps[..i] + [ps[i]];
      IdsSnoc(ps[..i], ps[i]);
      if ps[i].queryId != name {
        MergeErrorStays(seen, ps, name, i + 1);
        return Some(QueryMismatch), specs, ids;
      }
      if ps[i].passageId in ids {
        MergeErrorStays(seen, ps, name, i + 1);
        return Some(DuplicateAcrossQueries), specs, ids;
      }
      ids := ids + {ps[i].passageId};
      specs := specs + [PassageSpec(ps[i])];
    }
    assert ps[..|ps|] == ps;
    error := None;
  }

  /** `_retrieve_queries`. */
  method RetrieveQueries(sha: string -> string, task: Task, intent: Intent, queries: seq<string>,
                         results: seq<seq<Retrieved>>)
    returns (r: Result<(seq<Retrieved>, seq<Spec>), ContractError>)
    requires |queries| == |results|
    ensures r == Retrieval(sha, task, intent, queries, results, |queries|)
  {
    hide MergeError, ResultError, QuerySpec, QueryName, PassageSpecs, PassageIds;
    var passages: seq<Retrieved>, specs: seq<Spec>, ids: set<string> := [], [], {};
    assert PassageIds([]) == {} by { NoIds(); }
    for i := 0 to |queries|
      invariant Retrieval(sha, task, intent, queries, results, i) == Success((passages, specs))
      invariant ids == PassageIds(passages)
    {
      var name, found := QueryName(intent, i), results[i];
      var invalid := ValidateResult(sha, found);
      if invalid.Some? {
        RetrievalErrorStays(sha, task, intent, queries, results, i + 1, |queries|);
        return Failure(invalid.value);
      }
      specs := specs + [QuerySpec(task, intent, i, queries[i], |found|)];
      var clash, more, merged := MergeResult(ids, found, name);
      if clash.Some? {
        RetrievalErrorStays(sha, task, intent, queries, results, i + 1, |queries|);
        return Failure(clash.value);
      }
      IdsAppend(passages, found);
      passages, specs, ids := passages + found, specs + more, merged;
    }
    r := Success((passages, specs));
  }

  lemma NoIds()
    ensures PassageIds([]) == {}
  {
  }

  /** `_decide_handler`. */
  method Decide(task: Task, m: Method, support: seq<Retrieved>, counter: seq<Retrieved>, d: Decision)
    returns (r: Result<seq<Spec>, ContractError>)
    ensures r == Deciding(task, m, support, counter, d)
  {
    hide DecisionOk, TransitionSpec;
    if !m.externalCounter && counter != [] {
      return Failure(ForeignCounterevidence);
    }
    var available := PassageIds(support + counter);
    if !DecisionOk(d, available) {
      return Failure(InvalidDecision);
    }
    var specs := [RECORDED];
    if m.cedg {
      var relations: set<string> := {};
      for i := 0 to |d.evidence|
        invariant specs == [RECORDED] + EdgeSpecs(task, d.evidence[..i])
        invariant forall name :: name in relations <==> Cites(d.evidence[..i], name)
      {
        var s := d.evidence[i];
        assert d.evidence[..i + 1][..i] == d.evidence[..i];
        assert forall name :: Cites(d.evidence[..i + 1], name) <==> Cites(d.evidence[..i], name) || name == s.relation by {
          CitesSnoc(d.evidence[..i], s);
          assert d.evidence[..i + 1] == d.evidence[..i] + [s];
        }
        specs := specs + [EdgeSpec(task.challengeId, s)];
        relations := relations + {s.relation};
      }
      assert d.evidence[..|d.evidence|] == d.evidence;
      ghost var linked := specs;
      if d.decision == "SURVIVED" {
        if "SUPPORTS" !in relations {
          return Failure(LacksSupport);
        }
        specs := specs + [TransitionSpec(task, "SUPPORTED", d.reason, "")];
      }
      if m.externalCounter {
        specs := specs + [TransitionSpec(task, "CHALLENGED", "counter-query executed", "")];
      }
      specs := specs + [TransitionSpec(task, d.decision, d.reason, d.boundary)];
      assert specs == linked + DecisionTransitions(task, m, d);
    }
    r := Success(specs);
  }

  lemma CitesSnoc(evidence: seq<Selection>, s: Selection)
    ensures forall name :: Cites(evidence + [s], name) <==> Cites(evidence, name) || name == s.relation
  {
    forall name
      ensures Cites(evidence + [s], name) <==> Cites(evidence, name) || name == s.relation
    {
      var all := evidence + [s];
      assert all[|evidence|] == s;
      if i :| 0 <= i < |evidence| && evidence[i].relation == name {
        assert all[i].relation == name;
      }
    }
  }
}
