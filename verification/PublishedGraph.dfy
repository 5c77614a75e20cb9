/**
 What the baseline handlers of `src/evaluation/baseline_runner.py` publish, field by field: which
 retriever answers and decisions they take, and the graph that their event stream projects to.
 */
module PublishedGraph {
  import opened Wrappers
  import opened EvidenceGraph
  import opened BaselineCompiler

  // ---------------------------------------------------------------- what a handler takes

  ghost predicate IdsOnce(ps: seq<Retrieved>) {
    forall a, b | 0 <= a < b < |ps| :: ps[a].passageId != ps[b].passageId
  }

  /** An identified passage with its text, a place in the document and the digest of the text. */
  ghost predicate SoundPassage(sha: string -> string, p: Retrieved) {
    && HasText(p.passageId) && HasText(p.queryId) && HasText(p.docId) && HasText(p.text)
    && (p.locator.AtOffset? || p.locator.AtPage?) && p.locator.n >= 0
    && p.digest == sha(p.text)
  }

  lemma SoundIsOk(sha: string -> string, p: Retrieved)
    ensures SoundPassage(sha, p) <==> PassageOk(sha, p)
  {
    TextIsNotBlank(p.passageId);
    TextIsNotBlank(p.queryId);
    TextIsNotBlank(p.docId);
    TextIsNotBlank(p.text);
  }

  ghost predicate Answer(sha: string -> string, name: string, p: Retrieved) {
    SoundPassage(sha, p) && p.queryId == name
  }

  lemma IdListed(ps: seq<Retrieved>, id: string)
    ensures id in PassageIds(ps) <==> exists a :: 0 <= a < |ps| && ps[a].passageId == id
  {
  }

  lemma OnceSnoc(ps: seq<Retrieved>, p: Retrieved)
    ensures IdsOnce(ps + [p]) <==> IdsOnce(ps) && p.passageId !in PassageIds(ps)
  {
    hide PassageIds;
    var all := ps + [p];
    IdListed(ps, p.passageId);
    assert forall a | 0 <= a < |ps| :: all[a] == ps[a];
    if IdsOnce(all) {
      forall a, b | 0 <= a < b < |ps|
        ensures ps[a].passageId != ps[b].passageId
      {
        assert all[a].passageId != all[b].passageId;
      }
      forall a | 0 <= a < |ps|
        ensures ps[a].passageId != p.passageId
      {
        assert all[a].passageId != all[|ps|].passageId;
      }
    }
  }

  lemma {:induction false} OnceTogether(a: seq<Retrieved>, b: seq<Retrieved>)
    ensures IdsOnce(a + b) <==> IdsOnce(a) && IdsOnce(b) && PassageIds(b) !! PassageIds(a)
  {
    hide PassageIds, IdsOnce;
    if b == [] {
      assert a + b == a;
      NoIds();
      NothingRepeated();
    } else {
      var n := |b| - 1;
      assert a + b == (a + b[..n]) + [b[n]];
      assert b == b[..n] + [b[n]];
      OnceTogether(a, b[..n]);
      OnceSnoc(a + b[..n], b[n]);
      OnceSnoc(b[..n], b[n]);
      IdsAppend(a, b[..n]);
      IdsSnoc(b[..n], b[n]);
    }
  }

  /** One result is taken exactly when its passages are sound and none is repeated. */
  lemma {:induction false} ResultTakenExactly(sha: string -> string, ps: seq<Retrieved>)
    ensures ResultError(sha, ps).None? <==> (forall p | p in ps :: PassageOk(sha, p)) && IdsOnce(ps)
  {
    hide PassageOk, PassageIds, IdsOnce;
    if ps == [] {
      NothingRepeated();
    } else {
      var n := |ps| - 1;
      assert ps == ps[..n] + [ps[n]];
      ResultTakenExactly(sha, ps[..n]);
      OnceSnoc(ps[..n], ps[n]);
    }
  }

  lemma NothingRepeated()
    ensures IdsOnce([])
  {
  }

  /** It is merged exactly when its passages answer the query and none is there already. */
  lemma {:induction false} ResultMergedExactly(seen: set<string>, ps: seq<Retrieved>, name: string)
    ensures MergeError(seen, ps, name).None?
      <==> (forall p | p in ps :: p.queryId == name) && IdsOnce(ps) && PassageIds(ps) !! seen
  {
    hide PassageIds, IdsOnce;
    if ps == [] {
      NoIds();
      NothingRepeated();
    } else {
      var n := |ps| - 1;
      assert ps == ps[..n] + [ps[n]];
      ResultMergedExactly(seen, ps[..n], name);
      OnceSnoc(ps[..n], ps[n]);
      IdsSnoc(ps[..n], ps[n]);
    }
  }

  /** The passages of the first `k` results, in order. */
  function Together(results: seq<seq<Retrieved>>, k: nat): seq<Retrieved>
    requires k <= |results|
  {
    if k == 0 then [] else Together(results, k - 1) + results[k - 1]
  }

  ghost predicate Answered(sha: string -> string, intent: Intent, results: seq<seq<Retrieved>>, k: nat)
    requires k <= |results|
  {
    forall i, p | 0 <= i < k && p in results[i] :: Answer(sha, QueryName(intent, i), p)
  }

  /**
   A retrieval stage goes through exactly when every passage is sound and answers its own query and no
   identifier comes twice; then the stage has all the passages, in order.
   */
  lemma {:induction false} RetrievalTakenExactly(sha: string -> string, task: Task, intent: Intent, queries: seq<string>,
                                                 results: seq<seq<Retrieved>>, k: nat)
    requires k <= |queries| == |results|
    ensures var r := Retrieval(sha, task, intent, queries, results, k);
      && (r.Success? <==> Answered(sha, intent, results, k) && IdsOnce(Together(results, k)))
      && (r.Success? ==> r.value.0 == Together(results, k))
  {
    hide PassageIds, IdsOnce, PassageOk, SoundPassage, ResultError, MergeError, QueryName, QuerySpec, PassageSpecs;
    if k == 0 {
      NothingRepeated();
    } else {
      var i := k - 1;
      RetrievalTakenExactly(sha, task, intent, queries, results, i);
      ResultTakenExactly(sha, results[i]);
      ResultMergedExactly(PassageIds(Together(results, i)), results[i], QueryName(intent, i));
      OnceTogether(Together(results, i), results[i]);
      AnsweredSnoc(sha, intent, results, i);
    }
  }

  lemma AnsweredSnoc(sha: string -> string, intent: Intent, results: seq<seq<Retrieved>>, i: nat)
    requires i < |results|
    ensures Answered(sha, intent, results, i + 1)
      <==> Answered(sha, intent, results, i)
           && (forall p | p in results[i] :: PassageOk(sha, p)) && (forall p | p in results[i] :: p.queryId == QueryName(intent, i))
  {
    hide PassageOk, SoundPassage, QueryName;
    forall p | p in results[i]
      ensures Answer(sha, QueryName(intent, i), p) <==> PassageOk(sha, p) && p.queryId == QueryName(intent, i)
    {
      SoundIsOk(sha, p);
    }
    if Answered(sha, intent, results, i + 1) {
      forall p | p in results[i]
        ensures Answer(sha, QueryName(intent, i), p)
      {
      }
    }
  }

  /** A decision is compiled exactly when it is a terminal state, well stated, on retrieved evidence. */
  lemma DecisionTakenExactly(task: Task, m: Method, sp: seq<Retrieved>, cp: seq<Retrieved>, d: Decision)
    ensures Deciding(task, m, sp, cp, d).Success? <==>
      && (m.externalCounter || cp == [])
      && d.decision in {"SURVIVED", "NARROWED", "REFUTED", "UNRESOLVED"}
      && 0.0 <= d.probability <= 1.0 && !Blank(d.reason)
      && (d.decision == "SURVIVED" || d.decision == "NARROWED" ==> !Blank(d.boundary))
      && (forall s | s in d.evidence ::
            && (exists p :: p in sp + cp && p.passageId == s.passageId)
            && s.relation in {"SUPPORTS", "CONTRADICTS", "BOUNDS", "PRECEDENT_FOR", "CHECKED"})
      && (forall i, j | 0 <= i < j < |d.evidence| :: d.evidence[i].passageId != d.evidence[j].passageId)
      && (m.cedg && d.decision == "SURVIVED" ==> exists s :: s in d.evidence && s.relation == "SUPPORTS")
  {
    hide Blank, PassageIds;
    StatesNamed(d.decision);
    forall s | s in d.evidence
      ensures s.passageId in PassageIds(sp + cp) <==> exists p :: p in sp + cp && p.passageId == s.passageId
      ensures ParseRelation(s.relation).Some? <==> s.relation in {"SUPPORTS", "CONTRADICTS", "BOUNDS", "PRECEDENT_FOR", "CHECKED"}
    {
      IdOfPassage(sp + cp, s.passageId);
    }
    assert Cites(d.evidence, "SUPPORTS") <==> exists s :: s in d.evidence && s.relation == "SUPPORTS";
  }

  lemma StatesNamed(name: string)
    ensures ParseState(name).Some? && Terminal(ParseState(name).value)
      <==> name in {"SURVIVED", "NARROWED", "REFUTED", "UNRESOLVED"}
  {
  }

  lemma IdOfPassage(ps: seq<Retrieved>, id: string)
    ensures id in PassageIds(ps) <==> exists p :: p in ps && p.passageId == id
  {
  }

  // ---------------------------------------------------------------- what is published

  function Locate(p: Retrieved): (Option<int>, Option<int>) {
    match p.locator
    case AtOffset(n) => (Some(n), None)
    case AtPage(n) => (None, Some(n))
    case Malformed => (None, None)
  }

  /** The graph has each passage as it was retrieved. */
  ghost predicate HasPassage(g: Graph, sha: string -> string, p: Retrieved) {
    && p.passageId in g.passages
    && g.passages[p.passageId] == Passage(p.docId, p.queryId, sha(p.text), Locate(p).0, Locate(p).1)
  }

  /** The graph has each query of a stage as it was asked, with the number of its hits. */
  ghost predicate HasQueries(g: Graph, task: Task, intent: Intent, s: Stage) {
    forall i | 0 <= i < |s.queries| ::
      && QueryName(intent, i) in g.queries
      && i < |s.results|
      && g.queries[QueryName(intent, i)] == Query(task.challengeId, s.queries[i], intent, |s.results[i]|)
  }

  /** The one claim has the task's words, the decision's words, and one version for each transition. */
  ghost predicate HasClaim(g: Graph, task: Task, m: Method, d: Decision) {
    && g.claims.Keys == {task.challengeId}
    && var claim := g.claims[task.challengeId];
      && claim.text == task.prompt && claim.scope == task.family + " through " + task.cutoff
      && ParseState(d.decision) == Some(claim.state)
      && claim.reason == d.reason && claim.boundary == d.boundary
      && claim.version == 2 + (if d.decision == "SURVIVED" then 1 else 0) + (if m.externalCounter then 1 else 0)
  }

  /** The edges are the selections of the decision, in order. */
  ghost predicate HasEdges(g: Graph, task: Task, d: Decision) {
    && |g.edges| == |d.evidence|
    && forall i | 0 <= i < |d.evidence| ::
      && g.edges[i].claimId == task.challengeId && g.edges[i].passageId == d.evidence[i].passageId
      && ParseRelation(d.evidence[i].relation) == Some(g.edges[i].relation)
  }

  lemma {:induction false} PassageAdded(m: map<string, Passage>, ps: seq<Retrieved>, p: Retrieved)
    requires p in ps && IdsOnce(ps)
    ensures p.passageId in AddPassages(m, ps) && AddPassages(m, ps)[p.passageId] == AsPassage(p)
  {
    hide AsPassage, IdsOnce, PassageIds;
    var n := |ps| - 1;
    assert ps == ps[..n] + [ps[n]];
    OnceSnoc(ps[..n], ps[n]);
    if p in ps[..n] {
      PassageAdded(m, ps[..n], p);
      IdOfPassage(ps[..n], p.passageId);
    }
  }

  lemma PassagesHeld(g: Graph, sha: string -> string, ps: seq<Retrieved>)
    requires g.passages == AddPassages(map[], ps) && IdsOnce(ps)
    requires forall p | p in ps :: PassageOk(sha, p)
    ensures g.passages.Keys == PassageIds(ps)
    ensures forall p | p in ps :: HasPassage(g, sha, p)
  {
    hide IdsOnce, PassageIds, AddPassages, Blank;
    PassagesAdded(map[], ps);
    forall p | p in ps
      ensures HasPassage(g, sha, p)
    {
      PassageAdded(map[], ps, p);
      assert PassageOk(sha, p);
    }
  }

  lemma QueriesHeld(g: Graph, task: Task, support: Stage, counter: Stage)
    requires |support.queries| == |support.results| && |counter.queries| == |counter.results|
    requires g.queries == AddQueries(AddQueries(map[], task, Support, support.queries, support.results, |support.queries|),
                                     task, Counter, counter.queries, counter.results, |counter.queries|)
    ensures HasQueries(g, task, Support, support) && HasQueries(g, task, Counter, counter)
    ensures forall q | q in g.queries ::
      (exists i :: 0 <= i < |support.queries| && q == QueryName(Support, i))
      || (exists i :: 0 <= i < |counter.queries| && q == QueryName(Counter, i))
  {
    hide QueryName, AddQueries;
    var asked := AddQueries(map[], task, Support, support.queries, support.results, |support.queries|);
    QueriesOnly(map[], task, Support, support.queries, support.results, |support.queries|);
    QueriesOnly(asked, task, Counter, counter.queries, counter.results, |counter.queries|);
    forall i | 0 <= i < |support.queries|
      ensures QueryName(Support, i) in g.queries
      ensures g.queries[QueryName(Support, i)] == Query(task.challengeId, support.queries[i], Support, |support.results[i]|)
    {
      QueryAdded(map[], task, Support, support.queries, support.results, |support.queries|, i);
      forall j | 0 <= j < |counter.queries|
        ensures QueryName(Support, i) != QueryName(Counter, j)
      {
        if QueryName(Support, i) == QueryName(Counter, j) {
          QueryNamesDiffer(Support, i, Counter, j);
        }
      }
    }
    forall i | 0 <= i < |counter.queries|
      ensures QueryName(Counter, i) in g.queries
      ensures g.queries[QueryName(Counter, i)] == Query(task.challengeId, counter.queries[i], Counter, |counter.results[i]|)
    {
      QueryAdded(asked, task, Counter, counter.queries, counter.results, |counter.queries|, i);
    }
  }

  /** A stream that folds leaves the retrieved graph with the decision on it. */
  lemma StreamFolds(sha: string -> string, task: Task, m: Method, support: Stage, counter: Stage, d: Decision)
    requires HexDigest(sha) && TaskOk(task) && m.cedg && m.externalCounter
    requires StageOk(sha, task, Support, support) && StageOk(sha, task, Counter, counter)
    requires DecisionOk(d, PassageIds(Found(sha, task, Support, support) + Found(sha, task, Counter, counter)))
    ensures var sp, cp := Found(sha, task, Support, support), Found(sha, task, Counter, counter);
      var specs := PlanSpecs(task, m) + Emitted(sha, task, Support, support) + Emitted(sha, task, Counter, counter)
                   + DecisionSpecs(task, m, d);
      Fold(EMPTY, specs).Success? ==>
        && PassageIds(sp) !! PassageIds(cp)
        && var g := Fold(EMPTY, specs).value;
          && g.claims == map[task.challengeId := PublishedClaim(task, m, d)]
          && g.edges == EdgesFor(task.challengeId, d.evidence)
          && g.passages == AddPassages(AddPassages(map[], sp), cp)
          && g.queries == AddQueries(AddQueries(map[], task, Support, support.queries, support.results, |support.queries|),
                                     task, Counter, counter.queries, counter.results, |counter.queries|)
  {
    hide HexDigest, Distinct, StageOk, Found, Emitted, Fold, PlanSpecs, PassageIds, RelationsFit, Founded, Ready,
      Countered, Cites, DecisionSpecs, EdgesFor, ParseState, ParseRelation, AddQueries, AddPassages, PublishedClaim;
    var sp, cp := Found(sha, task, Support, support), Found(sha, task, Counter, counter);
    var ss, cs := Emitted(sha, task, Support, support), Emitted(sha, task, Counter, counter);
    TaskNamed(task);
    IdsAppend(sp, cp);
    SupportReady(sha, task, m, support);
    var g := Fold(EMPTY, PlanSpecs(task, m) + ss).value;
    CounterReady(sha, g, task, counter, PassageIds(sp));
    FoldAppends(EMPTY, PlanSpecs(task, m) + ss, cs);
    FoldAppends(EMPTY, PlanSpecs(task, m) + ss + cs, DecisionSpecs(task, m, d));
    if PassageIds(sp) !! PassageIds(cp) {
      DecisionFolds(Fold(g, cs).value, task, m, d, PassageIds(sp), PassageIds(cp));
    }
  }

  /** The last event of a stream leaves the graph as it is. */
  lemma StreamProjects(specs: seq<Spec>, ids: nat -> string)
    requires Distinct(ids)
    ensures var r := Project(Events(specs + [CANDIDATE], ids));
      && (r.Success? <==> Fold(EMPTY, specs).Success?)
      && (r.Success? ==> Alike(r.value, Fold(EMPTY, specs).value))
  {
    hide Fold, Events, Project;
    FoldAppends(EMPTY, specs, [CANDIDATE]);
    if Fold(EMPTY, specs).Success? {
      FoldOne(Fold(EMPTY, specs).value, CANDIDATE);
    }
    FoldIsProjection(specs + [CANDIDATE], ids);
  }

  lemma ClaimHeld(g: Graph, task: Task, m: Method, d: Decision)
    requires ParseState(d.decision).Some? && g.claims == map[task.challengeId := PublishedClaim(task, m, d)]
    ensures HasClaim(g, task, m, d)
  {
    hide ParseState;
    assert g.claims[task.challengeId] == PublishedClaim(task, m, d);
  }

  lemma EdgesHeld(g: Graph, task: Task, d: Decision)
    requires forall i | 0 <= i < |d.evidence| :: ParseRelation(d.evidence[i].relation).Some?
    requires g.edges == EdgesFor(task.challengeId, d.evidence)
    ensures HasEdges(g, task, d)
  {
    hide ParseRelation, EdgesFor;
    EdgesForAt(task.challengeId, d.evidence);
  }

  /** Everything the graph of a job holds. */
  ghost predicate Publication(g: Graph, sha: string -> string, task: Task, m: Method, support: Stage, counter: Stage,
                              ps: seq<Retrieved>, d: Decision)
  {
    && HasClaim(g, task, m, d) && HasEdges(g, task, d)
    && g.passages.Keys == PassageIds(ps) && (forall p | p in ps :: HasPassage(g, sha, p))
    && HasQueries(g, task, Support, support) && HasQueries(g, task, Counter, counter)
    && forall q | q in g.queries ::
      (exists i :: 0 <= i < |support.queries| && q == QueryName(Support, i))
      || (exists i :: 0 <= i < |counter.queries| && q == QueryName(Counter, i))
  }

  /**
   With counter-retrieval: if the stream of a compiled decision projects, the graph is the decision's.
   Its claim has the task's prompt and scope and the state, reason and boundary of the decision, its edges
   are the selections, and its passages and queries are those of the two retrieval stages.
   */
  lemma PublishedAsDecided(sha: string -> string, task: Task, m: Method, support: Stage, counter: Stage,
                           d: Decision, ids: nat -> string)
    requires HexDigest(sha) && TaskOk(task) && m.cedg && m.externalCounter && Distinct(ids)
    requires StageOk(sha, task, Support, support) && StageOk(sha, task, Counter, counter)
    ensures var sp, cp := Found(sha, task, Support, support), Found(sha, task, Counter, counter);
      var decided := Deciding(task, m, sp, cp, d);
      decided.Success? ==>
        var r := Project(Events(Stream(task, m, Emitted(sha, task, Support, support), Emitted(sha, task, Counter, counter),
                                       decided.value), ids));
        r.Success? ==> Publication(r.value, sha, task, m, support, counter, sp + cp, d)
  {
    hide HexDigest, Distinct, Found, Emitted, Fold, Project, PlanSpecs, PassageIds, DecisionSpecs, EdgesFor, ParseState,
      ParseRelation, AddQueries, AddPassages, PublishedClaim, HasClaim, HasEdges, HasQueries, HasPassage, PassageOk, IdsOnce,
      Retrieval, Events, QueryName, Cites, EdgeSpecs, DecisionTransitions, Terminal, Blank, PlanOk;
    var sp, cp := Found(sha, task, Support, support), Found(sha, task, Counter, counter);
    var decided := Deciding(task, m, sp, cp, d);
    if decided.Success? {
      var specs := PlanSpecs(task, m) + Emitted(sha, task, Support, support) + Emitted(sha, task, Counter, counter)
                   + decided.value;
      StreamProjects(specs, ids);
      CompiledSpecs(task, m, sp, cp, d);
      StreamFolds(sha, task, m, support, counter, d);
      var r := Project(Events(specs + [CANDIDATE], ids));
      if r.Success? {
        ClaimHeld(r.value, task, m, d);
        EdgesHeld(r.value, task, d);
        FoundOnce(sha, task, Support, support);
        FoundOnce(sha, task, Counter, counter);
        OnceTogether(sp, cp);
        PassagesAddedTwice(map[], sp, cp);
        PassagesHeld(r.value, sha, sp + cp);
        QueriesHeld(r.value, task, support, counter);
      }
    }
  }

  lemma CompiledSpecs(task: Task, m: Method, sp: seq<Retrieved>, cp: seq<Retrieved>, d: Decision)
    requires m.cedg && Deciding(task, m, sp, cp, d).Success?
    ensures Deciding(task, m, sp, cp, d).value == DecisionSpecs(task, m, d)
    ensures DecisionOk(d, PassageIds(sp + cp))
  {
    hide DecisionOk, EdgeSpecs, DecisionTransitions;
  }

  /** The passages of a stage are sound, and none comes twice. */
  lemma FoundOnce(sha: string -> string, task: Task, intent: Intent, s: Stage)
    requires StageOk(sha, task, intent, s)
    ensures IdsOnce(Found(sha, task, intent, s))
    ensures forall p | p in Found(sha, task, intent, s) :: PassageOk(sha, p)
  {
    hide IdsOnce, PassageOk, Retrieval, PlanOk, QueryName;
    RetrievalTakenExactly(sha, task, intent, s.queries, s.results, |s.queries|);
    TogetherSound(sha, intent, s.results, |s.results|);
  }

  lemma {:induction false} TogetherSound(sha: string -> string, intent: Intent, results: seq<seq<Retrieved>>, k: nat)
    requires k <= |results| && Answered(sha, intent, results, k)
    ensures forall p | p in Together(results, k) :: PassageOk(sha, p)
  {
    hide PassageOk, QueryName;
    if k > 0 {
      TogetherSound(sha, intent, results, k - 1);
      forall p | p in results[k - 1]
        ensures PassageOk(sha, p)
      {
        assert Answer(sha, QueryName(intent, k - 1), p);
        SoundIsOk(sha, p);
      }
    }
  }

  /** Without counter-retrieval the same holds of the one stage there is. */
  lemma ControlPublishedAsDecided(sha: string -> string, task: Task, m: Method, support: Stage, d: Decision,
                                  ids: nat -> string)
    requires HexDigest(sha) && TaskOk(task) && m.cedg && !m.externalCounter && Distinct(ids)
    requires StageOk(sha, task, Support, support)
    ensures var sp := Found(sha, task, Support, support);
      var decided := Deciding(task, m, sp, [], d);
      decided.Success? ==>
        var r := Project(Events(Stream(task, m, Emitted(sha, task, Support, support), [], decided.value), ids));
        r.Success? ==> Publication(r.value, sha, task, m, support, Stage([], []), sp, d)
  {
    hide HexDigest, Distinct, Found, Emitted, Fold, Project, PlanSpecs, PassageIds, DecisionSpecs, EdgesFor, ParseState,
      ParseRelation, AddQueries, AddPassages, PublishedClaim, HasClaim, HasEdges, HasQueries, HasPassage, PassageOk, IdsOnce,
      Retrieval, Events, QueryName, Cites, EdgeSpecs, DecisionTransitions, Terminal, Blank, PlanOk, RelationsFit, Ready;
    var sp, ss := Found(sha, task, Support, support), Emitted(sha, task, Support, support);
    var decided := Deciding(task, m, sp, [], d);
    assert sp + [] == sp;
    if decided.Success? {
      var specs := PlanSpecs(task, m) + ss + [] + decided.value;
      assert PlanSpecs(task, m) + ss + [] == PlanSpecs(task, m) + ss;
      StreamProjects(specs, ids);
      CompiledSpecs(task, m, sp, [], d);
      TaskNamed(task);
      SupportReady(sha, task, m, support);
      FoldAppends(EMPTY, PlanSpecs(task, m) + ss, DecisionSpecs(task, m, d));
      var g := Fold(EMPTY, PlanSpecs(task, m) + ss).value;
      ControlDecisionFolds(g, task, m, d, PassageIds(sp));
      var r := Project(Events(specs + [CANDIDATE], ids));
      if r.Success? {
        ClaimHeld(r.value, task, m, d);
        EdgesHeld(r.value, task, d);
        FoundOnce(sha, task, Support, support);
        PassagesHeld(r.value, sha, sp);
        NoQueries(r.value.queries, task, Counter);
        QueriesHeld(r.value, task, support, Stage([], []));
      }
    }
  }

  lemma NoQueries(m: map<string, Query>, task: Task, intent: Intent)
    ensures AddQueries(m, task, intent, [], [], 0) == m
  {
  }
}
