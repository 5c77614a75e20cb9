/**
 Which events the decision graph of `src/evidence/graph.py` takes, in the terms of what it holds:
 the moves of a claim, the links of a passage, and what a projected log says of its passages.
 */
module GraphEvents {
  import opened Wrappers
  import opened EvidenceGraph

  // ---------------------------------------------------------------- passages are located

  /** Retrievable and attested: a place in the document, none negative, and a digest. */
  ghost predicate LocatedPassage(p: Passage) {
    && (p.offset.Some? || p.page.Some?)
    && (p.offset.Some? ==> p.offset.value >= 0) && (p.page.Some? ==> p.page.value >= 0)
    && |p.digest| == 64 && forall c | c in p.digest :: '0' <= c <= '9' || 'a' <= c <= 'f'
  }

  ghost predicate AllLocated(g: Graph) {
    && (forall id | id in g.passages :: LocatedPassage(g.passages[id]))
    && (forall q | q in g.queries :: g.queries[q].hits >= 0)
  }

  lemma ObservedIsLocated(g: Graph, p: Payload)
    requires AllLocated(g) && Observe(g, p).Success?
    ensures AllLocated(Observe(g, p).value)
  {
    hide Str;
    var id, h := Str(p[PassageId]), Observe(g, p).value;
    assert LocatedPassage(h.passages[id]);
    assert forall other | other in h.passages && other != id :: h.passages[other] == g.passages[other];
  }

  lemma HandledIsLocated(g: Graph, e: Event)
    requires AllLocated(g) && Handled(g, e).Success?
    ensures AllLocated(Handled(g, e).value)
  {
    hide LocatedPassage, Str, Observe, Barrier, Moved;
    if e.kind.PassageObserved? {
      ObservedIsLocated(g, e.payload);
    }
  }

  /** In every projected log each passage has a place and a digest, and no query a negative count. */
  lemma {:induction false} PassagesAreLocated(events: seq<Event>)
    requires Project(events).Success?
    ensures AllLocated(Project(events).value)
  {
    hide Handled, LocatedPassage;
    if events != [] {
      var n := |events| - 1;
      PassagesAreLocated(events[..n]);
      var g := Project(events[..n]).value;
      if events[n].id !in g.applied {
        HandledIsLocated(g, events[n]);
      }
    }
  }

  // ---------------------------------------------------------------- transitions

  /** The moves that a claim can make. */
  ghost function Table(): set<(ClaimState, ClaimState)> {
    {(Proposed, Supported), (Proposed, Challenged), (Proposed, Unresolved),
     (Supported, Challenged), (Supported, Unresolved),
     (Challenged, Survived), (Challenged, Narrowed), (Challenged, Refuted), (Challenged, Unresolved)}
  }

  ghost predicate Linked(g: Graph, c: string, r: Relation) {
    exists e :: e in g.edges && e.claimId == c && e.relation == r
  }

  ghost predicate CounterQueried(g: Graph, c: string) {
    exists q :: q in g.queries && g.queries[q].claimId == c && g.queries[q].intent == Counter
  }

  /** The evidence that the state `to` of claim `c` calls for. */
  ghost predicate EvidenceFor(g: Graph, c: string, to: ClaimState) {
    && (to == Supported || to == Survived ==> Linked(g, c, Supports))
    && (to == Challenged || to == Survived ==> CounterQueried(g, c))
    && (to == Narrowed ==> Linked(g, c, Bounds))
    && (to == Refuted ==> Linked(g, c, Contradicts) || Linked(g, c, PrecedentFor))
  }

  lemma LinkedIsEdge(g: Graph, c: string, r: Relation)
    ensures Linked(g, c, r) <==> HasEdge(g.edges, c, r)
  {
    if e :| e in g.edges && e.claimId == c && e.relation == r {
      var i :| 0 <= i < |g.edges| && g.edges[i] == e;
    }
    if i :| 0 <= i < |g.edges| && g.edges[i].claimId == c && g.edges[i].relation == r {
      assert g.edges[i] in g.edges;
    }
  }

  /** The payload of a transition whose fields are texts. */
  function Asked(c: string, state: string, reason: string, boundary: string): Payload {
    map[ClaimId := Text(c), ToState := Text(state), Reason := Text(reason), Boundary := Text(boundary)]
  }

  lemma AskedFields(c: string, state: string, reason: string, boundary: string)
    ensures var p := Asked(c, state, reason, boundary);
      && (Given(p, ClaimId) <==> c != "") && (Given(p, ToState) <==> state != "") && (Given(p, Reason) <==> reason != "")
      && Boundary in p && ClaimId in p && ToState in p && Reason in p
      && Str(p[ClaimId]) == c && Str(p[ToState]) == state && Str(p[Reason]) == reason && Str(p[Boundary]) == boundary
  {
  }

  /**
   A claim moves exactly along the table and with the evidence of the new state, into SURVIVED and NARROWED
   with a stated boundary; it then has the new state, reason and boundary and one version more.
   */
  lemma TransitionTakenExactly(g: Graph, c: string, state: string, to: ClaimState, reason: string, boundary: string)
    requires c != "" && c in g.claims && ParseState(state) == Some(to) && reason != ""
    ensures var claim := g.claims[c]; var r := Transition(g, Asked(c, state, reason, boundary));
      && (r.Success? <==>
            && (claim.state, to) in Table() && EvidenceFor(g, c, to)
            && (to == Survived || to == Narrowed ==> !Blank(boundary)))
      && (r.Success? ==>
            r.value == g.(claims := g.claims[c := Claim(claim.text, claim.scope, to, boundary, reason, claim.version + 1)]))
  {
    hide Blank, Str, Asked, Given, HasEdge, Linked;
    AskedFields(c, state, reason, boundary);
    LinkedIsEdge(g, c, Supports);
    LinkedIsEdge(g, c, Bounds);
    LinkedIsEdge(g, c, Contradicts);
    LinkedIsEdge(g, c, PrecedentFor);
    assert state != "" by { NamedState(state); }
    assert Allowed(g.claims[c].state, to) <==> (g.claims[c].state, to) in Table();
    assert CounterQueried(g, c) <==> Countered(g.queries, c);
  }

  lemma NamedState(state: string)
    requires ParseState(state).Some?
    ensures state != ""
  {
  }

  /** Abstaining is always open: a claim that is not decided can be left unresolved on any reason. */
  lemma UnresolvedIsAlwaysOpen(g: Graph, c: string, reason: string)
    requires c != "" && c in g.claims && reason != ""
    requires g.claims[c].state in {Proposed, Supported, Challenged}
    ensures Transition(g, Asked(c, "UNRESOLVED", reason, "")).Success?
  {
    hide Transition, EvidenceFor;
    assert EvidenceFor(g, c, Unresolved) by { UnresolvedNeedsNothing(g, c); }
    TransitionTakenExactly(g, c, "UNRESOLVED", Unresolved, reason, "");
  }

  lemma UnresolvedNeedsNothing(g: Graph, c: string)
    ensures EvidenceFor(g, c, Unresolved)
  {
  }

  // ---------------------------------------------------------------- links

  function LinkAsked(c: string, id: string, relation: string): Payload {
    map[ClaimId := Text(c), PassageId := Text(id), RelationName := Text(relation)]
  }

  /** What a passage retrieved with an intent may be cited as. */
  ghost function Citable(intent: Intent): set<string> {
    match intent
    case Support => {"SUPPORTS", "CHECKED"}
    case Counter => {"CONTRADICTS", "BOUNDS", "PRECEDENT_FOR", "CHECKED"}
  }

  lemma CitableExactly(relation: string, intent: Intent)
    ensures relation in Citable(intent)
      <==> ParseRelation(relation).Some? && Matches(ParseRelation(relation).value, intent)
  {
  }

  /**
   A passage is linked to a claim exactly when it was retrieved for that claim, is cited as its query allows
   and is not cited like that already; then the edge is added.
   */
  lemma LinkTakenExactly(g: Graph, c: string, id: string, relation: string)
    requires c != "" && id != "" && relation != ""
    ensures var r := Link(g, LinkAsked(c, id, relation));
      && (r.Success? <==>
            && c in g.claims && id in g.passages && g.passages[id].queryId in g.queries
            && var query := g.queries[g.passages[id].queryId];
               && query.claimId == c && relation in Citable(query.intent)
               && !exists e :: e in g.edges && e.claimId == c && e.passageId == id && ParseRelation(relation) == Some(e.relation))
      && (r.Success? ==>
            && |r.value.edges| == |g.edges| + 1 && r.value == g.(edges := g.edges + [r.value.edges[|g.edges|]])
            && var e := r.value.edges[|g.edges|];
               e.claimId == c && e.passageId == id && ParseRelation(relation) == Some(e.relation))
  {
    hide ParseRelation, Matches, Citable;
    if id in g.passages && g.passages[id].queryId in g.queries {
      CitableExactly(relation, g.queries[g.passages[id].queryId].intent);
    }
    if ParseRelation(relation).Some? {
      var added := Edge(c, id, ParseRelation(relation).value);
      forall e | e in g.edges && e.claimId == c && e.passageId == id && ParseRelation(relation) == Some(e.relation)
        ensures e == added
      {
      }
    }
  }
}
