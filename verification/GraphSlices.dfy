/**
 Claims do not interfere: the events that belong to one claim, through the claim its query or its
 passage belongs to, project on their own to exactly the part of the whole graph about that claim.
 */
module GraphSlices {
  import opened Wrappers
  import opened EvidenceGraph
  import EventLedger

  /** The claim an event speaks about; a passage belongs to the claim of its query. */
  function Owner(queries: map<string, Query>, e: Event): Option<string> {
    match e.kind
    case PassageObserved =>
      if QueryId in e.payload && Str(e.payload[QueryId]) in queries
      then Some(queries[Str(e.payload[QueryId])].claimId) else None
    case Unrelated(_) => None
    case _ => if ClaimId in e.payload then Some(Str(e.payload[ClaimId])) else None
  }

  function Slice(queries: map<string, Query>, events: seq<Event>, c: string): seq<Event> {
    if events == [] then []
    else
      var n := |events| - 1;
      Slice(queries, events[..n], c) + if Owner(queries, events[n]) == Some(c) then [events[n]] else []
  }

  function Ids(events: seq<Event>): set<string> {
    set i | 0 <= i < |events| :: events[i].id
  }

  ghost predicate DistinctIds(events: seq<Event>) {
    forall i, j | 0 <= i < j < |events| :: events[i].id != events[j].id
  }

  function EdgesOf(edges: seq<Edge>, c: string): seq<Edge> {
    if edges == [] then []
    else
      var n := |edges| - 1;
      EdgesOf(edges[..n], c) + if edges[n].claimId == c then [edges[n]] else []
  }

  function QueriesOf(queries: map<string, Query>, c: string): map<string, Query> {
    map q | q in queries && queries[q].claimId == c :: queries[q]
  }

  function PassagesOf(queries: map<string, Query>, passages: map<string, Passage>, c: string): map<string, Passage> {
    map p | p in passages && passages[p].queryId in queries && queries[passages[p].queryId].claimId == c
      :: passages[p]
  }

  /** The part of a graph about one claim. */
  function View(g: Graph, c: string, ids: set<string>): Graph {
    Graph(map k | k in g.claims && k == c :: g.claims[k],
          QueriesOf(g.queries, c), PassagesOf(g.queries, g.passages, c), EdgesOf(g.edges, c), ids)
  }

  lemma EdgesOfSnoc(edges: seq<Edge>, e: Edge, c: string)
    ensures EdgesOf(edges + [e], c) == EdgesOf(edges, c) + if e.claimId == c then [e] else []
  {
    assert (edges + [e])[..|edges|] == edges;
  }

  lemma {:induction false} EdgesOfHas(edges: seq<Edge>, c: string, e: Edge)
    requires e.claimId == c
    ensures e in EdgesOf(edges, c) <==> e in edges
  {
    if edges != [] {
      var n := |edges| - 1;
      EdgesOfHas(edges[..n], c, e);
      assert edges == edges[..n] + [edges[n]];
    }
  }

  lemma SameRelations(edges: seq<Edge>, c: string, r: Relation)
    ensures HasEdge(EdgesOf(edges, c), c, r) <==> HasEdge(edges, c, r)
  {
    hide EdgesOf;
    var part := EdgesOf(edges, c);
    if i :| 0 <= i < |edges| && edges[i].claimId == c && edges[i].relation == r {
      EdgesOfHas(edges, c, edges[i]);
      var j :| 0 <= j < |part| && part[j] == edges[i];
    }
    if j :| 0 <= j < |part| && part[j].claimId == c && part[j].relation == r {
      EdgesOfHas(edges, c, part[j]);
      var i :| 0 <= i < |edges| && edges[i] == part[j];
    }
  }

  lemma SameCounters(queries: map<string, Query>, c: string)
    ensures Countered(QueriesOf(queries, c), c) <==> Countered(queries, c)
  {
    if q :| q in queries && queries[q].claimId == c && queries[q].intent == Counter {
      assert q in QueriesOf(queries, c);
    }
  }

  lemma SameBarrier(g: Graph, c: string, to: ClaimState, p: Payload)
    ensures Barrier(QueriesOf(g.queries, c), EdgesOf(g.edges, c), c, to, p) == Barrier(g.queries, g.edges, c, to, p)
  {
    hide HasEdge, Countered, EdgesOf, QueriesOf, Blank, Str;
    SameCounters(g.queries, c);
    SameRelations(g.edges, c, Supports);
    SameRelations(g.edges, c, Bounds);
    SameRelations(g.edges, c, Contradicts);
    SameRelations(g.edges, c, PrecedentFor);
  }

  // ---------------------------------------------------------------- one event of the claim itself

  lemma OwnProposal(g: Graph, p: Payload, c: string, ids: set<string>)
    requires Propose(g, p).Success? && Str(p[ClaimId]) == c
    ensures Propose(View(g, c, ids), p) == Success(View(Propose(g, p).value, c, ids))
  {
    hide Str, EdgesOf, QueriesOf, PassagesOf;
    assert View(Propose(g, p).value, c, ids).claims
        == View(g, c, ids).claims[c := Propose(g, p).value.claims[c]];
  }

  lemma OwnQuery(g: Graph, p: Payload, c: string, ids: set<string>)
    requires PassagesOwned(g.queries, g.passages)
    requires Execute(g, p).Success? && Str(p[ClaimId]) == c
    ensures Execute(View(g, c, ids), p) == Success(View(Execute(g, p).value, c, ids))
  {
    hide Str, EdgesOf, ParseIntent;
    var h, q := Execute(g, p).value, Str(p[QueryId]);
    assert QueriesOf(h.queries, c) == QueriesOf(g.queries, c)[q := h.queries[q]];
    assert PassagesOf(h.queries, h.passages, c) == PassagesOf(g.queries, g.passages, c);
  }

  lemma OwnPassage(g: Graph, p: Payload, c: string, ids: set<string>)
    requires Observe(g, p).Success? && g.queries[Str(p[QueryId])].claimId == c
    ensures Observe(View(g, c, ids), p) == Success(View(Observe(g, p).value, c, ids))
  {
    hide Str, EdgesOf, Hex64;
    var h, id := Observe(g, p).value, Str(p[PassageId]);
    assert PassagesOf(h.queries, h.passages, c) == PassagesOf(g.queries, g.passages, c)[id := h.passages[id]];
  }

  lemma OwnLink(g: Graph, p: Payload, c: string, ids: set<string>)
    requires Link(g, p).Success? && Str(p[ClaimId]) == c
    ensures Link(View(g, c, ids), p) == Success(View(Link(g, p).value, c, ids))
  {
    hide Str, EdgesOf, ParseRelation, Matches;
    var h := Link(g, p).value;
    var e := h.edges[|g.edges|];
    EdgesOfSnoc(g.edges, e, c);
    EdgesOfHas(g.edges, c, e);
  }

  lemma OwnTransition(g: Graph, p: Payload, c: string, ids: set<string>)
    requires Transition(g, p).Success? && Str(p[ClaimId]) == c
    ensures Transition(View(g, c, ids), p) == Success(View(Transition(g, p).value, c, ids))
  {
    hide Str, EdgesOf, QueriesOf, PassagesOf, Barrier, ParseState, Allowed, Moved;
    SameBarrier(g, c, ParseState(Str(p[ToState])).value, p);
    assert View(Transition(g, p).value, c, ids).claims
        == View(g, c, ids).claims[c := Transition(g, p).value.claims[c]];
  }

  lemma SeenInView(g: Graph, c: string, ids: set<string>, id: string)
    ensures View(g, c, ids).(applied := ids + {id}) == View(g, c, ids + {id})
    ensures forall seen :: View(g.(applied := seen), c, ids) == View(g, c, ids)
  {
    hide EdgesOf, QueriesOf, PassagesOf;
  }

  /** An event of the claim does to the claim's own part exactly what it does to the whole. */
  lemma OwnEvent(g: Graph, e: Event, c: string, ids: set<string>)
    requires Sound(g) && Applied(g, e).Success? && e.id !in g.applied && e.id !in ids
    requires Owner(Applied(g, e).value.queries, e) == Some(c)
    ensures Applied(View(g, c, ids), e) == Success(View(Applied(g, e).value, c, ids + {e.id}))
  {
    hide Str, Propose, Execute, Observe, Link, Transition, View, Sound;
    SoundParts(g);
    var h := Handled(g, e).value;
    ViewApplied(g, c, ids);
    OwnerClaim(g, e, c);
    match e.kind {
      case ClaimProposed => OwnProposal(g, e.payload, c, ids);
      case QueryExecuted => OwnQuery(g, e.payload, c, ids);
      case PassageObserved => OwnPassage(g, e.payload, c, ids);
      case EvidenceLinked => OwnLink(g, e.payload, c, ids);
      case ClaimTransitioned => OwnTransition(g, e.payload, c, ids);
      case Unrelated(_) =>
    }
    assert Handled(View(g, c, ids), e) == Success(View(h, c, ids));
    ViewApplied(h, c, ids);
    SeenInView(h, c, ids, e.id);
    assert Applied(g, e).value == h.(applied := h.applied + {e.id});
    SeenInView(h, c, ids + {e.id}, e.id);
  }

  lemma ViewApplied(g: Graph, c: string, ids: set<string>)
    ensures View(g, c, ids).applied == ids
  {
  }

  lemma OwnerClaim(g: Graph, e: Event, c: string)
    requires Applied(g, e).Success? && e.id !in g.applied
    requires Owner(Applied(g, e).value.queries, e) == Some(c)
    ensures e.kind.PassageObserved? ==>
      QueryId in e.payload && Str(e.payload[QueryId]) in g.queries && g.queries[Str(e.payload[QueryId])].claimId == c
    ensures !e.kind.PassageObserved? && !e.kind.Unrelated? ==> ClaimId in e.payload && Str(e.payload[ClaimId]) == c
  {
    hide Str, Propose, Execute, Link, Transition;
  }

  // ---------------------------------------------------------------- one event of another claim

  lemma OtherQuery(g: Graph, p: Payload, c: string, ids: set<string>)
    requires PassagesOwned(g.queries, g.passages)
    requires Execute(g, p).Success? && Str(p[ClaimId]) != c
    ensures View(Execute(g, p).value, c, ids) == View(g, c, ids)
  {
    hide Str, EdgesOf, ParseIntent;
    var h := Execute(g, p).value;
    assert QueriesOf(h.queries, c) == QueriesOf(g.queries, c);
    assert PassagesOf(h.queries, h.passages, c) == PassagesOf(g.queries, g.passages, c);
  }

  lemma OtherPassage(g: Graph, p: Payload, c: string, ids: set<string>)
    requires Observe(g, p).Success? && g.queries[Str(p[QueryId])].claimId != c
    ensures View(Observe(g, p).value, c, ids) == View(g, c, ids)
  {
    hide Str, EdgesOf, Hex64;
    var h := Observe(g, p).value;
    assert PassagesOf(h.queries, h.passages, c) == PassagesOf(g.queries, g.passages, c);
  }

  lemma OtherLink(g: Graph, p: Payload, c: string, ids: set<string>)
    requires Link(g, p).Success? && Str(p[ClaimId]) != c
    ensures View(Link(g, p).value, c, ids) == View(g, c, ids)
  {
    hide Str, EdgesOf, ParseRelation, Matches, QueriesOf, PassagesOf;
    EdgesOfSnoc(g.edges, Link(g, p).value.edges[|g.edges|], c);
  }

  lemma OtherClaim(g: Graph, h: Graph, k: string, c: string, ids: set<string>)
    requires k != c && k in h.claims && h == g.(claims := g.claims[k := h.claims[k]])
    ensures View(h, c, ids) == View(g, c, ids)
  {
    hide EdgesOf, QueriesOf, PassagesOf;
    assert View(h, c, ids).claims == View(g, c, ids).claims;
  }

  /** An event of another claim, or of none, leaves the claim's part as it is. */
  lemma OtherEvent(g: Graph, e: Event, c: string, ids: set<string>)
    requires Sound(g) && Applied(g, e).Success?
    requires Owner(Applied(g, e).value.queries, e) != Some(c)
    ensures View(Applied(g, e).value, c, ids) == View(g, c, ids)
  {
    hide Str, ParseState, Barrier, Allowed, Moved, Sound, View, Execute, Observe, Link;
    SoundParts(g);
    if e.id !in g.applied {
      var h, p := Handled(g, e).value, e.payload;
      SeenInView(h, c, ids, e.id);
      OtherOwner(g, e, c);
      match e.kind {
        case ClaimProposed => OtherClaim(g, h, Str(p[ClaimId]), c, ids);
        case QueryExecuted => OtherQuery(g, p, c, ids);
        case PassageObserved => OtherPassage(g, p, c, ids);
        case EvidenceLinked => OtherLink(g, p, c, ids);
        case ClaimTransitioned => OtherClaim(g, h, Str(p[ClaimId]), c, ids);
        case Unrelated(_) =>
      }
    }
  }

  lemma OtherOwner(g: Graph, e: Event, c: string)
    requires Applied(g, e).Success? && e.id !in g.applied
    requires Owner(Applied(g, e).value.queries, e) != Some(c)
    ensures e.kind.PassageObserved? ==>
      QueryId in e.payload && Str(e.payload[QueryId]) in g.queries && g.queries[Str(e.payload[QueryId])].claimId != c
    ensures !e.kind.PassageObserved? && !e.kind.Unrelated? ==> ClaimId in e.payload && Str(e.payload[ClaimId]) != c
  {
    hide Str, ParseIntent, ParseRelation, ParseState, Barrier, Allowed, Moved, Matches, Hex64;
  }

  // ---------------------------------------------------------------- whole logs

  /** Ownership does not change as the graph grows. */
  lemma OwnerStands(g: Graph, e: Event, final: Graph)
    requires Applied(g, e).Success? && e.id !in g.applied
    requires Evolves(Applied(g, e).value, final)
    ensures Owner(final.queries, e) == Owner(Applied(g, e).value.queries, e)
  {
    hide Str, Propose, Execute, Link, Transition;
  }

  lemma {:induction false} SliceIds(queries: map<string, Query>, events: seq<Event>, c: string, id: string)
    requires id in Ids(Slice(queries, events, c))
    ensures id in Ids(events)
  {
    hide Owner;
    var n := |events| - 1;
    var part := Slice(queries, events, c);
    var i :| 0 <= i < |part| && part[i].id == id;
    if i < |Slice(queries, events[..n], c)| {
      assert Slice(queries, events[..n], c)[i].id == id;
      SliceIds(queries, events[..n], c, id);
      var j :| 0 <= j < n && events[..n][j].id == id;
      assert events[j].id == id;
    } else {
      assert events[n].id == id;
    }
  }

  lemma {:induction false} AppliedIds(g: Graph, events: seq<Event>)
    requires ProjectFrom(g, events).Success?
    ensures ProjectFrom(g, events).value.applied == g.applied + Ids(events)
  {
    hide Propose, Execute, Observe, Link, Transition;
    if events != [] {
      var n := |events| - 1;
      AppliedIds(g, events[..n]);
      if events[n].id !in ProjectFrom(g, events[..n]).value.applied {
        HandledKeepsSeen(ProjectFrom(g, events[..n]).value, events[n]);
      }
      assert Ids(events) == Ids(events[..n]) + {events[n].id} by {
        forall i | 0 <= i < |events|
          ensures events[i].id in Ids(events[..n]) + {events[n].id}
        {
          if i < n {
            assert events[..n][i].id == events[i].id;
          }
        }
        forall i | 0 <= i < n
          ensures events[..n][i].id in Ids(events)
        {
          assert events[..n][i] == events[i];
        }
      }
    }
  }

  lemma HandledKeepsSeen(g: Graph, e: Event)
    requires Handled(g, e).Success?
    ensures Handled(g, e).value.applied == g.applied
  {
    hide Str, ParseIntent, ParseRelation, ParseState, Barrier, Matches, Hex64, Moved;
  }

  lemma IdsSnoc(events: seq<Event>, e: Event)
    ensures Ids(events + [e]) == Ids(events) + {e.id}
  {
    var all := events + [e];
    forall i | 0 <= i < |events|
      ensures events[i].id in Ids(all)
    {
      assert all[i] == events[i];
    }
    assert all[|events|] == e;
  }

  lemma {:induction false} SliceProjects(events: seq<Event>, final: Graph, c: string)
    requires Project(events).Success? && DistinctIds(events)
    requires Evolves(Project(events).value, final)
    ensures var part := Slice(final.queries, events, c);
      Project(part) == Success(View(Project(events).value, c, Ids(part)))
  {
    hide Applied, View, Owner, Evolves, Sound, Ids;
    if events == [] {
      EmptyView(c);
    } else {
      var n := |events| - 1;
      var g, h, e := Project(events[..n]).value, Project(events).value, events[n];
      EmptyIsSound();
      ProjectionKeeps(EMPTY, events[..n]);
      ApplyKeeps(g, e);
      EvolvesTransitively(g, h, final);
      SliceProjects(events[..n], final, c);
      var part := Slice(final.queries, events[..n], c);
      FreshInSlice(events, final.queries, c, g);
      OwnerStands(g, e, final);
      if Owner(final.queries, e) == Some(c) {
        OwnEvent(g, e, c, Ids(part));
        IdsSnoc(part, e);
        assert (part + [e])[..|part|] == part;
      } else {
        OtherEvent(g, e, c, Ids(part));
        assert part + [] == part;
      }
    }
  }

  lemma EmptyIsSound()
    ensures Sound(EMPTY)
  {
  }

  lemma EmptyView(c: string)
    ensures View(EMPTY, c, Ids([])) == EMPTY
  {
  }

  /** With distinct identifiers the next event is new to the whole and to every slice. */
  lemma FreshInSlice(events: seq<Event>, queries: map<string, Query>, c: string, g: Graph)
    requires events != [] && DistinctIds(events)
    requires Project(events[..|events| - 1]) == Success(g)
    ensures events[|events| - 1].id !in g.applied
    ensures events[|events| - 1].id !in Ids(Slice(queries, events[..|events| - 1], c))
  {
    hide Applied, Slice, ProjectFrom;
    var n := |events| - 1;
    AppliedIds(EMPTY, events[..n]);
    if events[n].id in Ids(Slice(queries, events[..n], c)) {
      SliceIds(queries, events[..n], c, events[n].id);
    }
    assert forall i | 0 <= i < n :: events[..n][i] == events[i];
  }

  /**
   Non-interference: a projection of distinct events, cut down to the events of one claim, also
   projects, to the same claim record and the same queries, passages and edges of that claim.
   */
  lemma ClaimsDoNotInterfere(events: seq<Event>, c: string)
    requires Project(events).Success? && DistinctIds(events)
    ensures var g := Project(events).value;
      var part := Slice(g.queries, events, c);
      && Project(part) == Success(View(g, c, Ids(part)))
      && (c in g.claims ==> c in Project(part).value.claims && Project(part).value.claims[c] == g.claims[c])
  {
    hide Applied, Owner, Evolves, Slice, ProjectFrom;
    var g := Project(events).value;
    EvolvesAtOnce(g);
    SliceProjects(events, g, c);
  }

  /** Two logs that agree on the events of a claim, however the rest is interleaved, agree on it. */
  lemma InterleavingIsIrrelevant(events: seq<Event>, others: seq<Event>, c: string)
    requires Project(events).Success? && DistinctIds(events)
    requires Project(others).Success? && DistinctIds(others)
    requires Slice(Project(events).value.queries, events, c) == Slice(Project(others).value.queries, others, c)
    ensures View(Project(events).value, c, {}) == View(Project(others).value, c, {})
  {
    hide EdgesOf, QueriesOf, PassagesOf, Slice, ProjectFrom, Ids;
    ClaimsDoNotInterfere(events, c);
    ClaimsDoNotInterfere(others, c);
  }

  // ---------------------------------------------------------------- projecting a ledger

  /** The events of a ledger as the projection reads them. */
  function FromLedger(events: seq<EventLedger.Event<Payload>>, kind: string -> EventKind): (r: seq<Event>)
    ensures |r| == |events|
  {
    seq(|events|, i requires 0 <= i < |events| =>
      var u := events[i].content;
      Event(u.eventId, kind(u.meaning.eventType), u.meaning.payload))
  }

  /** A verified ledger meets the condition of the theorem above. */
  lemma {:induction false} VerifiedLedgerHasDistinctIds(
      codec: EventLedger.Codec<Payload>, events: seq<EventLedger.Event<Payload>>, kind: string -> EventKind)
    requires EventLedger.Chained(codec, events)
    ensures DistinctIds(FromLedger(events, kind))
  {
    hide EventLedger.Valid;
    if events != [] {
      var n := |events| - 1;
      VerifiedLedgerHasDistinctIds(codec, events[..n], kind);
      var r, before := FromLedger(events, kind), FromLedger(events[..n], kind);
      forall i, j | 0 <= i < j < |r|
        ensures r[i].id != r[j].id
      {
        assert r[i] == before[i];
        if j < n {
          assert r[j] == before[j];
        } else {
          assert events[..n][i].content.eventId != events[n].content.eventId;
        }
      }
    }
  }
}
