/**
 The Claim-Evidence Decision Graph of `src/evidence/graph.py`: a deterministic projection of an
 event log into a guarded state machine.  A payload is the JSON object restricted to the fields the
 graph reads; `str`, `isinstance` and missing keys behave as the projection uses them.
 */
module EvidenceGraph {
  import opened Wrappers
  import Decimal

  datatype ClaimState =
    | Proposed | Supported | Challenged | Survived | Narrowed | Refuted | Unresolved
  datatype Relation = Supports | Contradicts | Bounds | PrecedentFor | Checked
  datatype Intent = Support | Counter

  datatype Field =
    | Null
    | Text(text: string)
    | Whole(number: int)
    | Flag(flag: bool)
    | Other(rendered: string)

  datatype FieldName =
    | ClaimId | ClaimText | Scope | QueryId | IntentName | Hits | PassageId | DocId | Digest
    | Offset | Page | RelationName | ToState | Reason | Boundary

  type Payload = map<FieldName, Field>

  datatype EventKind =
    | ClaimProposed | QueryExecuted | PassageObserved | EvidenceLinked | ClaimTransitioned
    | Unrelated(name: string)

  datatype Event = Event(id: string, kind: EventKind, payload: Payload)

  datatype Passage = Passage(docId: string, queryId: string, digest: string, offset: Option<int>, page: Option<int>)
  datatype Query = Query(claimId: string, text: string, intent: Intent, hits: int)
  datatype Claim = Claim(
    text: string, scope: string, state: ClaimState, boundary: string, reason: string, version: int)
  datatype Edge = Edge(claimId: string, passageId: string, relation: Relation)

  datatype Graph = Graph(
    claims: map<string, Claim>, queries: map<string, Query>, passages: map<string, Passage>,
    edges: seq<Edge>, applied: set<string>)

  datatype Refusal =
    | MissingFields | ClaimExists | UnknownClaim | QueryExists | BadIntent | BadHits
    | UnknownQuery | PassageExists | NoLocator | BadOffset | BadPage | BadDigest
    | UnknownPassage | ForeignPassage | UnknownRelation | WrongIntent | DuplicateEdge
    | UnknownState | IllegalTransition | Unsupported | Unchallenged | Untested | NoBoundary
    | Unbounded | Unrefuted

  const EMPTY := Graph(map[], map[], map[], [], {})

  // ---------------------------------------------------------------- reading payloads

  /** `str(value)`. */
  function Str(f: Field): string {
    match f
    case Null => "None"
    case Text(s) => s
    case Whole(n) => Decimal.Integer(n)
    case Flag(b) => if b then "True" else "False"
    case Other(s) => s
  }

  /** The value when `isinstance(value, int)`; a boolean is one. */
  function Number(f: Field): Option<int> {
    match f
    case Whole(n) => Some(n)
    case Flag(b) => Some(if b then 1 else 0)
    case _ => None
  }

  predicate Given(p: Payload, name: FieldName) {
    name in p && p[name] != Null && p[name] != Text("")
  }

  predicate Located(p: Payload, name: FieldName) {
    name in p && p[name] != Null
  }

  predicate BadPosition(p: Payload, name: FieldName) {
    Located(p, name) && !(Number(p[name]).Some? && Number(p[name]).value >= 0)
  }

  function Position(p: Payload, name: FieldName): Option<int> {
    if Located(p, name) then Number(p[name]) else None
  }

  function ParseState(s: string): Option<ClaimState> {
    if s == "PROPOSED" then Some(Proposed)
    else if s == "SUPPORTED" then Some(Supported)
    else if s == "CHALLENGED" then Some(Challenged)
    else if s == "SURVIVED" then Some(Survived)
    else if s == "NARROWED" then Some(Narrowed)
    else if s == "REFUTED" then Some(Refuted)
    else if s == "UNRESOLVED" then Some(Unresolved)
    else None
  }

  function ParseRelation(s: string): Option<Relation> {
    if s == "SUPPORTS" then Some(Supports)
    else if s == "CONTRADICTS" then Some(Contradicts)
    else if s == "BOUNDS" then Some(Bounds)
    else if s == "PRECEDENT_FOR" then Some(PrecedentFor)
    else if s == "CHECKED" then Some(Checked)
    else None
  }

  function ParseIntent(s: string): Option<Intent> {
    if s == "support" then Some(Support) else if s == "counterevidence" then Some(Counter) else None
  }

  predicate Hex64(s: string) {
    |s| == 64 && forall i | 0 <= i < 64 :: '0' <= s[i] <= '9' || 'a' <= s[i] <= 'f'
  }

  // ---------------------------------------------------------------- the rules of the graph

  predicate Terminal(s: ClaimState) {
    s.Survived? || s.Narrowed? || s.Refuted? || s.Unresolved?
  }

  predicate Allowed(from: ClaimState, to: ClaimState) {
    match from
    case Proposed => to.Supported? || to.Challenged? || to.Unresolved?
    case Supported => to.Challenged? || to.Unresolved?
    case Challenged => Terminal(to)
    case _ => false
  }

  /** The intent of the query a relation must come from. */
  predicate Matches(r: Relation, intent: Intent) {
    match r
    case Supports => intent == Support
    case Checked => true
    case _ => intent == Counter
  }

  predicate HasEdge(edges: seq<Edge>, claim: string, r: Relation) {
    exists i :: 0 <= i < |edges| && edges[i].claimId == claim && edges[i].relation == r
  }

  predicate Countered(queries: map<string, Query>, claim: string) {
    exists q | q in queries :: queries[q].claimId == claim && queries[q].intent == Counter
  }

  /** Why the evidence held so far does not admit `to`, if it does not. */
  function Barrier(queries: map<string, Query>, edges: seq<Edge>, claim: string, to: ClaimState, p: Payload)
    : Option<Refusal>
  {
    var bounded := Boundary in p && !Blank(Str(p[Boundary]));
    match to
    case Supported => if HasEdge(edges, claim, Supports) then None else Some(Unsupported)
    case Challenged => if Countered(queries, claim) then None else Some(Unchallenged)
    case Survived =>
      if !HasEdge(edges, claim, Supports) || !Countered(queries, claim) then Some(Untested)
      else if !bounded then Some(NoBoundary) else None
    case Narrowed =>
      if !HasEdge(edges, claim, Bounds) then Some(Unbounded)
      else if !bounded then Some(NoBoundary) else None
    case Refuted =>
      if HasEdge(edges, claim, Contradicts) || HasEdge(edges, claim, PrecedentFor) then None
      else Some(Unrefuted)
    case _ => None
  }

  function Moved(claim: Claim, to: ClaimState, p: Payload): Claim
    requires Reason in p
  {
    claim.(state := to, reason := Str(p[Reason]), version := claim.version + 1,
      boundary := if Boundary in p then Str(p[Boundary]) else claim.boundary)
  }

  function Propose(g: Graph, p: Payload): Result<Graph, Refusal> {
    if !(Given(p, ClaimId) && Given(p, ClaimText) && Given(p, Scope)) then Failure(MissingFields)
    else
      var c := Str(p[ClaimId]);
      if c in g.claims then Failure(ClaimExists)
      else
        var claim := Claim(Str(p[ClaimText]), Str(p[Scope]), Proposed, "", "", 1);
        Success(g.(claims := g.claims[c := claim]))
  }

  function Execute(g: Graph, p: Payload): Result<Graph, Refusal> {
    if !(Given(p, QueryId) && Given(p, ClaimId) && Given(p, ClaimText) && Given(p, IntentName)) then
      Failure(MissingFields)
    else
      var q, c := Str(p[QueryId]), Str(p[ClaimId]);
      var intent := ParseIntent(Str(p[IntentName]));
      var hits := if Hits in p then Number(p[Hits]) else Some(0);
      if c !in g.claims then Failure(UnknownClaim)
      else if q in g.queries then Failure(QueryExists)
      else if intent.None? then Failure(BadIntent)
      else if hits.None? || hits.value < 0 then Failure(BadHits)
      else Success(g.(queries := g.queries[q := Query(c, Str(p[ClaimText]), intent.value, hits.value)]))
  }

  function Observe(g: Graph, p: Payload): Result<Graph, Refusal> {
    if !(Given(p, PassageId) && Given(p, DocId) && Given(p, QueryId) && Given(p, Digest)) then
      Failure(MissingFields)
    else
      var id, q := Str(p[PassageId]), Str(p[QueryId]);
      if q !in g.queries then Failure(UnknownQuery)
      else if id in g.passages then Failure(PassageExists)
      else if !Located(p, Offset) && !Located(p, Page) then Failure(NoLocator)
      else if BadPosition(p, Offset) then Failure(BadOffset)
      else if BadPosition(p, Page) then Failure(BadPage)
      else if !Hex64(Str(p[Digest])) then Failure(BadDigest)
      else
        var passage := Passage(Str(p[DocId]), q, Str(p[Digest]), Position(p, Offset), Position(p, Page));
        Success(g.(passages := g.passages[id := passage]))
  }

  function Link(g: Graph, p: Payload): Result<Graph, Refusal> {
    if !(Given(p, ClaimId) && Given(p, PassageId) && Given(p, RelationName)) then Failure(MissingFields)
    else
      var c, id := Str(p[ClaimId]), Str(p[PassageId]);
      var relation := ParseRelation(Str(p[RelationName]));
      if c !in g.claims then Failure(UnknownClaim)
      else if id !in g.passages || g.passages[id].queryId !in g.queries then Failure(UnknownPassage)
      else
        var query := g.queries[g.passages[id].queryId];
        if query.claimId != c then Failure(ForeignPassage)
        else if relation.None? then Failure(UnknownRelation)
        else if !Matches(relation.value, query.intent) then Failure(WrongIntent)
        else if Edge(c, id, relation.value) in g.edges then Failure(DuplicateEdge)
        else Success(g.(edges := g.edges + [Edge(c, id, relation.value)]))
  }

  function Transition(g: Graph, p: Payload): Result<Graph, Refusal> {
    if !(Given(p, ClaimId) && Given(p, ToState) && Given(p, Reason)) then Failure(MissingFields)
    else
      var c, to := Str(p[ClaimId]), ParseState(Str(p[ToState]));
      if c !in g.claims then Failure(UnknownClaim)
      else if to.None? then Failure(UnknownState)
      else if !Allowed(g.claims[c].state, to.value) then Failure(IllegalTransition)
      else
        var barrier := Barrier(g.queries, g.edges, c, to.value, p);
        if barrier.Some? then Failure(barrier.value)
        else Success(g.(claims := g.claims[c := Moved(g.claims[c], to.value, p)]))
  }

  function Handled(g: Graph, e: Event): Result<Graph, Refusal> {
    match e.kind
    case ClaimProposed => Propose(g, e.payload)
    case QueryExecuted => Execute(g, e.payload)
    case PassageObserved => Observe(g, e.payload)
    case EvidenceLinked => Link(g, e.payload)
    case ClaimTransitioned => Transition(g, e.payload)
    case Unrelated(_) => Success(g)
  }

  function Applied(g: Graph, e: Event): Result<Graph, Refusal> {
    if e.id in g.applied then Success(g)
    else
      var r := Handled(g, e);
      if r.Failure? then r else Success(r.value.(applied := r.value.applied + {e.id}))
  }

  /** `apply` on each event in turn; the first refusal ends the projection. */
  function ProjectFrom(g: Graph, events: seq<Event>): Result<Graph, Refusal> {
    if events == [] then Success(g)
    else
      var before := ProjectFrom(g, events[..|events| - 1]);
      if before.Failure? then before else Applied(before.value, events[|events| - 1])
  }

  function Project(events: seq<Event>): Result<Graph, Refusal> {
    ProjectFrom(EMPTY, events)
  }

  datatype Issue = NoClaims | NonTerminal(claim: string, state: ClaimState) | Boundless(claim: string)

  function ClaimIssues(c: string, claim: Claim): set<Issue> {
    (if Terminal(claim.state) then {} else {NonTerminal(c, claim.state)})
    + (if (claim.state.Survived? || claim.state.Narrowed?) && claim.boundary == "" then {Boundless(c)} else {})
  }

  function IssuesOf(claims: map<string, Claim>, some: set<string>): set<Issue> {
    set c, i | c in some && c in claims && i in ClaimIssues(c, claims[c]) :: i
  }

  /** `validate_for_publication`. */
  function Issues(claims: map<string, Claim>): set<Issue> {
    (if claims == map[] then {NoClaims} else {}) + IssuesOf(claims, claims.Keys)
  }

  // ---------------------------------------------------------------- what every graph satisfies

  /** What the state of a claim says about its evidence. */
  ghost predicate Earned(claim: Claim, queries: map<string, Query>, edges: seq<Edge>, c: string) {
    match claim.state
    case Proposed => claim.version == 1
    case Supported => claim.version == 2 && HasEdge(edges, c, Supports)
    case Challenged => 2 <= claim.version <= 3 && Countered(queries, c)
    case Survived =>
      && 3 <= claim.version <= 4 && HasEdge(edges, c, Supports) && Countered(queries, c)
      && !Blank(claim.boundary)
    case Narrowed =>
      && 3 <= claim.version <= 4 && HasEdge(edges, c, Bounds) && Countered(queries, c)
      && !Blank(claim.boundary)
    case Refuted =>
      && 3 <= claim.version <= 4 && Countered(queries, c)
      && (HasEdge(edges, c, Contradicts) || HasEdge(edges, c, PrecedentFor))
    case Unresolved => 2 <= claim.version <= 4
  }

  ghost predicate Anchored(e: Edge, claims: map<string, Claim>, queries: map<string, Query>, passages: map<string, Passage>) {
    && e.claimId in claims
    && e.passageId in passages
    && passages[e.passageId].queryId in queries
    && queries[passages[e.passageId].queryId].claimId == e.claimId
    && Matches(e.relation, queries[passages[e.passageId].queryId].intent)
  }

  ghost predicate ClaimsEarned(claims: map<string, Claim>, queries: map<string, Query>, edges: seq<Edge>) {
    forall c | c in claims :: Earned(claims[c], queries, edges, c)
  }

  ghost predicate QueriesOwned(claims: map<string, Claim>, queries: map<string, Query>) {
    forall q | q in queries :: queries[q].claimId in claims
  }

  ghost predicate PassagesOwned(queries: map<string, Query>, passages: map<string, Passage>) {
    forall p | p in passages :: passages[p].queryId in queries
  }

  ghost predicate EdgesAnchored(g: Graph) {
    forall i | 0 <= i < |g.edges| :: Anchored(g.edges[i], g.claims, g.queries, g.passages)
  }

  ghost predicate EdgesDistinct(edges: seq<Edge>) {
    forall i, j | 0 <= i < j < |edges| :: edges[i] != edges[j]
  }

  ghost predicate Sound(g: Graph) {
    && ClaimsEarned(g.claims, g.queries, g.edges)
    && QueriesOwned(g.claims, g.queries)
    && PassagesOwned(g.queries, g.passages)
    && EdgesAnchored(g)
    && EdgesDistinct(g.edges)
  }

  /** The only way a claim record may change. */
  ghost predicate Later(a: Claim, b: Claim) {
    && a.text == b.text && a.scope == b.scope
    && a.version <= b.version
    && (a.version == b.version ==> a == b)
    && (Terminal(a.state) ==> a == b)
  }

  ghost predicate Evolves(g: Graph, h: Graph) {
    && (forall c | c in g.claims :: c in h.claims && Later(g.claims[c], h.claims[c]))
    && (forall q | q in g.queries :: q in h.queries && h.queries[q] == g.queries[q])
    && (forall p | p in g.passages :: p in h.passages && h.passages[p] == g.passages[p])
    && g.edges <= h.edges
    && g.applied <= h.applied
  }

  lemma EarnedGrows(claim: Claim, queries: map<string, Query>, more: map<string, Query>,
                    edges: seq<Edge>, longer: seq<Edge>, c: string)
    requires Earned(claim, queries, edges, c)
    requires forall q | q in queries :: q in more && more[q] == queries[q]
    requires edges <= longer
    ensures Earned(claim, more, longer, c)
  {
    forall r | HasEdge(edges, c, r)
      ensures HasEdge(longer, c, r)
    {
      var i :| 0 <= i < |edges| && edges[i].claimId == c && edges[i].relation == r;
      assert longer[i] == edges[i];
    }
    if Countered(queries, c) {
      var q :| q in queries && queries[q].claimId == c && queries[q].intent == Counter;
      assert more[q] == queries[q];
    }
  }

  lemma TransitionKeeps(g: Graph, p: Payload)
    requires Sound(g) && Transition(g, p).Success?
    ensures Sound(Transition(g, p).value) && Evolves(g, Transition(g, p).value)
  {
    hide Blank, Str, ParseState, HasEdge, Countered, Matches;
    var h, c, to := Transition(g, p).value, Str(p[ClaimId]), ParseState(Str(p[ToState])).value;
    assert Earned(g.claims[c], g.queries, g.edges, c);
    assert Earned(h.claims[c], h.queries, h.edges, c);
    assert ClaimsEarned(h.claims, h.queries, h.edges);
    assert EdgesAnchored(h) by {
      forall i | 0 <= i < |h.edges|
        ensures Anchored(h.edges[i], h.claims, h.queries, h.passages)
      {
        assert Anchored(g.edges[i], g.claims, g.queries, g.passages);
      }
    }
  }

  lemma AdditionKeeps(g: Graph, h: Graph)
    requires Sound(g)
    requires forall c | c in g.claims :: c in h.claims && h.claims[c] == g.claims[c]
    requires forall c | c in h.claims && c !in g.claims :: h.claims[c].state == Proposed && h.claims[c].version == 1
    requires forall q | q in g.queries :: q in h.queries && h.queries[q] == g.queries[q]
    requires forall p | p in g.passages :: p in h.passages && h.passages[p] == g.passages[p]
    requires QueriesOwned(h.claims, h.queries) && PassagesOwned(h.queries, h.passages)
    requires h.edges == g.edges
             || exists e :: h.edges == g.edges + [e] && e !in g.edges && Anchored(e, h.claims, h.queries, h.passages)
    requires g.applied <= h.applied
    ensures Sound(h) && Evolves(g, h)
  {
    hide Earned, HasEdge, Countered;
    forall c | c in h.claims
      ensures Earned(h.claims[c], h.queries, h.edges, c)
    {
      if c in g.claims {
        EarnedGrows(g.claims[c], g.queries, h.queries, g.edges, h.edges, c);
      } else {
        FreshIsEarned(h.claims[c], h.queries, h.edges, c);
      }
    }
    forall i | 0 <= i < |h.edges|
      ensures Anchored(h.edges[i], h.claims, h.queries, h.passages)
    {
      if i < |g.edges| {
        assert Anchored(g.edges[i], g.claims, g.queries, g.passages);
      }
    }
  }

  lemma FreshIsEarned(claim: Claim, queries: map<string, Query>, edges: seq<Edge>, c: string)
    requires claim.state == Proposed && claim.version == 1
    ensures Earned(claim, queries, edges, c)
  {
  }

  lemma ProposeKeeps(g: Graph, p: Payload)
    requires Sound(g) && Propose(g, p).Success?
    ensures Sound(Propose(g, p).value) && Evolves(g, Propose(g, p).value)
  {
    hide Earned, Anchored, Str, Sound, Evolves;
    SoundParts(g);
    AdditionKeeps(g, Propose(g, p).value);
  }

  lemma ExecuteKeeps(g: Graph, p: Payload)
    requires Sound(g) && Execute(g, p).Success?
    ensures Sound(Execute(g, p).value) && Evolves(g, Execute(g, p).value)
  {
    hide Earned, Anchored, Str, ParseIntent, Sound, Evolves;
    SoundParts(g);
    AdditionKeeps(g, Execute(g, p).value);
  }

  lemma ObserveKeeps(g: Graph, p: Payload)
    requires Sound(g) && Observe(g, p).Success?
    ensures Sound(Observe(g, p).value) && Evolves(g, Observe(g, p).value)
  {
    hide Earned, Anchored, Str, Hex64, Sound, Evolves;
    SoundParts(g);
    AdditionKeeps(g, Observe(g, p).value);
  }

  lemma LinkKeeps(g: Graph, p: Payload)
    requires Sound(g) && Link(g, p).Success?
    ensures Sound(Link(g, p).value) && Evolves(g, Link(g, p).value)
  {
    hide Earned, Str, ParseRelation, Matches, Sound, Evolves;
    SoundParts(g);
    var h := Link(g, p).value;
    var e := h.edges[|g.edges|];
    assert Anchored(e, h.claims, h.queries, h.passages);
    AdditionKeeps(g, h);
  }

  lemma SoundParts(g: Graph)
    requires Sound(g)
    ensures QueriesOwned(g.claims, g.queries) && PassagesOwned(g.queries, g.passages)
  {
  }

  /** The set of seen identifiers takes no part in soundness. */
  lemma SeenKeeps(g: Graph, h: Graph, id: string)
    requires Sound(h) && Evolves(g, h)
    ensures Sound(h.(applied := h.applied + {id})) && Evolves(g, h.(applied := h.applied + {id}))
  {
    hide Earned;
    var k := h.(applied := h.applied + {id});
    forall i | 0 <= i < |k.edges|
      ensures Anchored(k.edges[i], k.claims, k.queries, k.passages)
    {
      assert Anchored(h.edges[i], h.claims, h.queries, h.passages);
    }
  }

  /** One applied event keeps the graph sound, and only ever moves claims forward. */
  lemma ApplyKeeps(g: Graph, e: Event)
    requires Sound(g) && Applied(g, e).Success?
    ensures Sound(Applied(g, e).value) && Evolves(g, Applied(g, e).value)
  {
    hide Sound, Evolves, Propose, Execute, Observe, Link, Transition;
    EvolvesAtOnce(g);
    if e.id !in g.applied {
      match e.kind {
        case ClaimProposed => ProposeKeeps(g, e.payload);
        case QueryExecuted => ExecuteKeeps(g, e.payload);
        case PassageObserved => ObserveKeeps(g, e.payload);
        case EvidenceLinked => LinkKeeps(g, e.payload);
        case ClaimTransitioned => TransitionKeeps(g, e.payload);
        case Unrelated(_) =>
      }
      SeenKeeps(g, Handled(g, e).value, e.id);
    }
  }

  lemma EvolvesTransitively(a: Graph, b: Graph, c: Graph)
    requires Evolves(a, b) && Evolves(b, c)
    ensures Evolves(a, c)
  {
  }

  /** Over any continuation a sound graph stays sound and a terminal claim stays as it is. */
  lemma {:induction false} ProjectionKeeps(g: Graph, events: seq<Event>)
    requires Sound(g) && ProjectFrom(g, events).Success?
    ensures Sound(ProjectFrom(g, events).value) && Evolves(g, ProjectFrom(g, events).value)
  {
    hide Sound, Evolves, Applied;
    if events == [] {
      EvolvesAtOnce(g);
    } else {
      var n := |events| - 1;
      ProjectionKeeps(g, events[..n]);
      ApplyKeeps(ProjectFrom(g, events[..n]).value, events[n]);
      EvolvesTransitively(g, ProjectFrom(g, events[..n]).value, ProjectFrom(g, events).value);
    }
  }

  lemma EvolvesAtOnce(g: Graph)
    ensures Evolves(g, g)
  {
  }

  /** Every decided claim in a projected graph has the evidence its state calls for. */
  lemma DecisionsAreEarned(events: seq<Event>, c: string)
    requires Project(events).Success? && c in Project(events).value.claims
    ensures var g := Project(events).value;
      var claim := g.claims[c];
      && 1 <= claim.version <= 4
      && (claim.state.Survived? ==> HasEdge(g.edges, c, Supports) && Countered(g.queries, c) && !Blank(claim.boundary))
      && (claim.state.Narrowed? ==> HasEdge(g.edges, c, Bounds) && Countered(g.queries, c) && !Blank(claim.boundary))
      && (claim.state.Refuted? ==> HasEdge(g.edges, c, Contradicts) || HasEdge(g.edges, c, PrecedentFor))
      && EdgesAnchored(g) && EdgesDistinct(g.edges)
  {
    hide HasEdge, Countered, Blank;
    ProjectionKeeps(EMPTY, events);
    var g := Project(events).value;
    assert Earned(g.claims[c], g.queries, g.edges, c);
  }

  /** Whatever is projected later, a decided claim is never touched again. */
  lemma DecidedClaimIsFinal(events: seq<Event>, more: seq<Event>, c: string)
    requires Project(events).Success? && c in Project(events).value.claims
    requires Terminal(Project(events).value.claims[c].state)
    requires ProjectFrom(Project(events).value, more).Success?
    ensures var h := ProjectFrom(Project(events).value, more).value;
      c in h.claims && h.claims[c] == Project(events).value.claims[c]
  {
    ProjectionKeeps(EMPTY, events);
    ProjectionKeeps(Project(events).value, more);
  }

  /** The boundary check of publication can never fire: only undecided claims block it. */
  lemma PublicationReduces(events: seq<Event>)
    requires Project(events).Success?
    ensures var claims := Project(events).value.claims;
      && (forall c :: Boundless(c) !in Issues(claims))
      && (Issues(claims) == {} <==> claims != map[] && forall c | c in claims :: Terminal(claims[c].state))
  {
    hide HasEdge, Countered, ProjectFrom;
    ProjectionKeeps(EMPTY, events);
    var g := Project(events).value;
    forall c | c in g.claims
      ensures g.claims[c].state.Survived? || g.claims[c].state.Narrowed? ==> g.claims[c].boundary != ""
    {
      assert Earned(g.claims[c], g.queries, g.edges, c);
    }
    if c :| c in g.claims && !Terminal(g.claims[c].state) {
      assert c in g.claims.Keys && NonTerminal(c, g.claims[c].state) in ClaimIssues(c, g.claims[c]);
    }
    if g.claims == map[] {
      assert NoClaims in Issues(g.claims);
    }
  }

  /** Delivering events again, in any order and number, changes nothing. */
  lemma {:induction false} RedeliveryChangesNothing(g: Graph, again: seq<Event>)
    requires forall i | 0 <= i < |again| :: again[i].id in g.applied
    ensures ProjectFrom(g, again) == Success(g)
  {
    if again != [] {
      RedeliveryChangesNothing(g, again[..|again| - 1]);
    }
  }

  // ---------------------------------------------------------------- where a boundary comes from

  /** The boundary that SURVIVED and NARROWED are to have: a text that says something. */
  predicate StatesBoundary(p: Payload) {
    Boundary in p && p[Boundary].Text? && !Blank(p[Boundary].text)
  }

  /** The graph cannot tell a boundary from its rendering. */
  lemma RenderingDecides(g: Graph, p: Payload, f: Field)
    ensures Transition(g, p[Boundary := f]) == Transition(g, p[Boundary := Text(Str(f))])
  {
    hide HasEdge, Countered, Blank, ParseState;
  }

  /** Null, numbers and booleans never render as blank text. */
  lemma RenderedIsNotBlank(f: Field)
    requires f.Null? || f.Whole? || f.Flag?
    ensures !Blank(Str(f))
  {
    assert "None"[0] == 'N' && "True"[0] == 'T' && "False"[0] == 'F';
    if f.Whole? {
      var s := Decimal.Integer(f.number);
      assert Str(f) == s && !IsSpace(s[0]);
    }
  }

  /** `e` asks for the state and the boundary of `claim`. */
  predicate Decides(e: Event, c: string, claim: Claim) {
    var p := e.payload;
    && e.kind.ClaimTransitioned? && ClaimId in p && Str(p[ClaimId]) == c
    && ToState in p && ParseState(Str(p[ToState])) == Some(claim.state)
    && Boundary in p && claim.boundary == Str(p[Boundary])
  }

  /** One event that changes the record of a claim into SURVIVED or NARROWED is the event that decides it. */
  lemma DecidedBy(g: Graph, e: Event, c: string)
    requires Applied(g, e).Success? && c in Applied(g, e).value.claims
    requires c !in g.claims || g.claims[c] != Applied(g, e).value.claims[c]
    requires var s := Applied(g, e).value.claims[c].state; s.Survived? || s.Narrowed?
    ensures Decides(e, c, Applied(g, e).value.claims[c]) && !Blank(Applied(g, e).value.claims[c].boundary)
  {
    hide Blank, Str, ParseState, HasEdge, Countered, Matches, Hex64, ParseIntent, ParseRelation;
  }

  /**
   A claim that a log decided SURVIVED or NARROWED: an event of the log decided it and gave its boundary.
   The guards let the event pass on the rendering of that field, so it states a boundary exactly when the
   field is a text; null, numbers, booleans, lists and objects pass as well.
   */
  lemma {:induction false} BoundaryIsStatedExactly(events: seq<Event>, c: string) returns (k: nat)
    requires Project(events).Success? && c in Project(events).value.claims
    requires var s := Project(events).value.claims[c].state; s.Survived? || s.Narrowed?
    ensures var claim := Project(events).value.claims[c];
      && k < |events| && Decides(events[k], c, claim) && !Blank(claim.boundary)
      && (StatesBoundary(events[k].payload) <==> events[k].payload[Boundary].Text?)
  {
    hide Blank, Applied;
    var n := |events| - 1;
    var g := Project(events[..n]).value;
    if c in g.claims && g.claims[c] == Project(events).value.claims[c] {
      k := BoundaryIsStatedExactly(events[..n], c);
    } else {
      k := n;
      DecidedBy(g, events[n], c);
    }
  }

  // ---------------------------------------------------------------- the graph in place

  /** A handler either leaves the specified graph and reports nothing, or reports and leaves no trace. */
  predicate Took(before: Graph, spec: Result<Graph, Refusal>, r: Option<Refusal>, after: Graph) {
    match spec
    case Success(h) => r == None && after == h
    case Failure(x) => r == Some(x) && after == before
  }

  class DecisionGraph {
    var claims: map<string, Claim>
    var queries: map<string, Query>
    var passages: map<string, Passage>
    var edges: seq<Edge>
    var applied: set<string>

    function Contents(): Graph
      reads this
    {
      Graph(claims, queries, passages, edges, applied)
    }

    ghost predicate Valid()
      reads this
    {
      Sound(Contents())
    }

    constructor ()
      ensures Valid() && Contents() == EMPTY
    {
      claims, queries, passages, edges, applied := map[], map[], map[], [], {};
    }

    method ProposeClaim(p: Payload) returns (r: Option<Refusal>)
      modifies this
      ensures Took(old(Contents()), Propose(old(Contents()), p), r, Contents())
    {
      hide Str;
      if !(Given(p, ClaimId) && Given(p, ClaimText) && Given(p, Scope)) {
        return Some(MissingFields);
      }
      var c := Str(p[ClaimId]);
      if c in claims {
        return Some(ClaimExists);
      }
      claims := claims[c := Claim(Str(p[ClaimText]), Str(p[Scope]), Proposed, "", "", 1)];
      r := None;
    }

    method ExecuteQuery(p: Payload) returns (r: Option<Refusal>)
      modifies this
      ensures Took(old(Contents()), Execute(old(Contents()), p), r, Contents())
    {
      hide Str, ParseIntent;
      if !(Given(p, QueryId) && Given(p, ClaimId) && Given(p, ClaimText) && Given(p, IntentName)) {
        return Some(MissingFields);
      }
      var q, c := Str(p[QueryId]), Str(p[ClaimId]);
      if c !in claims {
        return Some(UnknownClaim);
      }
      if q in queries {
        return Some(QueryExists);
      }
      var intent := ParseIntent(Str(p[IntentName]));
      if intent.None? {
        return Some(BadIntent);
      }
      var hits := if Hits in p then Number(p[Hits]) else Some(0);
      if hits.None? || hits.value < 0 {
        return Some(BadHits);
      }
      queries := queries[q := Query(c, Str(p[ClaimText]), intent.value, hits.value)];
      r := None;
    }

    method ObservePassage(p: Payload) returns (r: Option<Refusal>)
      modifies this
      ensures Took(old(Contents()), Observe(old(Contents()), p), r, Contents())
    {
      hide Str, Hex64;
      if !(Given(p, PassageId) && Given(p, DocId) && Given(p, QueryId) && Given(p, Digest)) {
        return Some(MissingFields);
      }
      var id, q := Str(p[PassageId]), Str(p[QueryId]);
      if q !in queries {
        return Some(UnknownQuery);
      }
      if id in passages {
        return Some(PassageExists);
      }
      if !Located(p, Offset) && !Located(p, Page) {
        return Some(NoLocator);
      }
      if BadPosition(p, Offset) {
        return Some(BadOffset);
      }
      if BadPosition(p, Page) {
        return Some(BadPage);
      }
      var digest := Str(p[Digest]);
      if !Hex64(digest) {
        return Some(BadDigest);
      }
      passages := passages[id := Passage(Str(p[DocId]), q, digest, Position(p, Offset), Position(p, Page))];
      r := None;
    }

    method LinkEvidence(p: Payload) returns (r: Option<Refusal>)
      requires Valid()
      modifies this
      ensures Took(old(Contents()), Link(old(Contents()), p), r, Contents())
    {
      hide Str, ParseRelation, Matches, Sound;
      SoundParts(Contents());
      if !(Given(p, ClaimId) && Given(p, PassageId) && Given(p, RelationName)) {
        return Some(MissingFields);
      }
      var c, id := Str(p[ClaimId]), Str(p[PassageId]);
      if c !in claims {
        return Some(UnknownClaim);
      }
      if id !in passages {
        return Some(UnknownPassage);
      }
      var query := queries[passages[id].queryId];
      if query.claimId != c {
        return Some(ForeignPassage);
      }
      var relation := ParseRelation(Str(p[RelationName]));
      if relation.None? {
        return Some(UnknownRelation);
      }
      if !Matches(relation.value, query.intent) {
        return Some(WrongIntent);
      }
      var edge := Edge(c, id, relation.value);
      if edge in edges {
        return Some(DuplicateEdge);
      }
      edges := edges + [edge];
      r := None;
    }

    method TransitionClaim(p: Payload) returns (r: Option<Refusal>)
      modifies this
      ensures Took(old(Contents()), Transition(old(Contents()), p), r, Contents())
    {
      hide Str, ParseState, Allowed, HasEdge, Countered, Blank;
      if !(Given(p, ClaimId) && Given(p, ToState) && Given(p, Reason)) {
        return Some(MissingFields);
      }
      var c := Str(p[ClaimId]);
      if c !in claims {
        return Some(UnknownClaim);
      }
      var parsed := ParseState(Str(p[ToState]));
      if parsed.None? {
        return Some(UnknownState);
      }
      var claim, to := claims[c], parsed.value;
      if !Allowed(claim.state, to) {
        return Some(IllegalTransition);
      }
      var supported, countered := HasEdge(edges, c, Supports), Countered(queries, c);
      var boundary := if Boundary in p then Str(p[Boundary]) else "";
      assert Blank("") by { BlankEmpty(); }
      if to == Supported && !supported {
        return Some(Unsupported);
      }
      if to == Challenged && !countered {
        return Some(Unchallenged);
      }
      if to == Survived {
        if !supported || !countered {
          return Some(Untested);
        }
        if Blank(boundary) {
          return Some(NoBoundary);
        }
      }
      if to == Narrowed {
        if !HasEdge(edges, c, Bounds) {
          return Some(Unbounded);
        }
        if Blank(boundary) {
          return Some(NoBoundary);
        }
      }
      if to == Refuted && !HasEdge(edges, c, Contradicts) && !HasEdge(edges, c, PrecedentFor) {
        return Some(Unrefuted);
      }
      claim := claim.(state := to);
      claim := claim.(reason := Str(p[Reason]));
      claim := claim.(boundary := if Boundary in p then Str(p[Boundary]) else claim.boundary);
      claim := claim.(version := claim.version + 1);
      claims := claims[c := claim];
      r := None;
    }

    /** `apply`: the specified step, and no change at all when the event is refused. */
    method Apply(e: Event) returns (r: Option<Refusal>)
      requires Valid()
      modifies this
      ensures Valid() && Took(old(Contents()), Applied(old(Contents()), e), r, Contents())
      ensures Evolves(old(Contents()), Contents())
    {
      hide Sound, Evolves, Propose, Execute, Observe, Link, Transition;
      EvolvesAtOnce(Contents());
      if e.id in applied {
        return None;
      }
      ghost var g := Contents();
      match e.kind {
        case ClaimProposed => r := ProposeClaim(e.payload);
        case QueryExecuted => r := ExecuteQuery(e.payload);
        case PassageObserved => r := ObservePassage(e.payload);
        case EvidenceLinked => r := LinkEvidence(e.payload);
        case ClaimTransitioned => r := TransitionClaim(e.payload);
        case Unrelated(_) => r := None;
      }
      if r.None? {
        applied := applied + {e.id};
        ApplyKeeps(g, e);
      }
    }

    /** `project`: the whole log folded into a fresh graph; a refusal is the caller's exception. */
    static method FromEvents(events: seq<Event>) returns (graph: DecisionGraph, r: Option<Refusal>)
      ensures fresh(graph) && graph.Valid()
      ensures match Project(events) {
                case Success(g) => r == None && graph.Contents() == g
                case Failure(x) => r == Some(x)
              }
    {
      hide Sound, Evolves, Applied;
      graph := new DecisionGraph();
      r := None;
      for i := 0 to |events|
        invariant fresh(graph) && graph.Valid() && r == None
        invariant ProjectFrom(EMPTY, events[..i]) == Success(graph.Contents())
      {
        assert events[..i + 1][..i] == events[..i];
        r := graph.Apply(events[i]);
        if r.Some? {
          RefusalEnds(EMPTY, events, i + 1);
          return;
        }
      }
      assert events[..|events|] == events;
    }

    /** `validate_for_publication`. */
    method PublicationIssues() returns (issues: set<Issue>)
      ensures issues == Issues(claims)
    {
      issues := if claims == map[] then {NoClaims} else {};
      var rest := claims.Keys;
      ghost var seen: set<string> := {};
      while rest != {}
        invariant seen + rest == claims.Keys && seen !! rest
        invariant issues == (if claims == map[] then {NoClaims} else {}) + IssuesOf(claims, seen)
      {
        hide IssuesOf;
        var c :| c in rest;
        var claim := claims[c];
        if !Terminal(claim.state) {
          issues := issues + {NonTerminal(c, claim.state)};
        }
        if (claim.state.Survived? || claim.state.Narrowed?) && claim.boundary == "" {
          issues := issues + {Boundless(c)};
        }
        IssuesOfOneMore(claims, seen, c);
        rest, seen := rest - {c}, seen + {c};
      }
      assert seen == claims.Keys;
    }
  }

  lemma BlankEmpty()
    ensures Blank("")
  {
  }

  lemma IssuesOfOneMore(claims: map<string, Claim>, some: set<string>, c: string)
    requires c in claims
    ensures IssuesOf(claims, some + {c}) == IssuesOf(claims, some) + ClaimIssues(c, claims[c])
  {
    hide ClaimIssues;
    forall i | i in IssuesOf(claims, some) + ClaimIssues(c, claims[c])
      ensures i in IssuesOf(claims, some + {c})
    {
      if i in IssuesOf(claims, some) {
        var d :| d in some && d in claims && i in ClaimIssues(d, claims[d]);
        assert d in some + {c};
      } else {
        assert c in some + {c} && c in claims && i in ClaimIssues(c, claims[c]);
      }
    }
  }

  lemma {:induction false} RefusalEnds(g: Graph, events: seq<Event>, k: nat)
    requires k <= |events| && ProjectFrom(g, events[..k]).Failure?
    ensures ProjectFrom(g, events) == ProjectFrom(g, events[..k])
    decreases |events|
  {
    hide Applied;
    if k < |events| {
      assert events[..|events| - 1][..k] == events[..k];
      RefusalEnds(g, events[..|events| - 1], k);
    } else {
      assert events[..k] == events;
    }
  }
}
