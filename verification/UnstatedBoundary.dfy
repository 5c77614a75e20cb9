/**
 Published decisions without a stated limit: a log in which a claim is supported, challenged and bounded,
 and then decided with any JSON value as its boundary.  The graph accepts it unless the value renders as
 blank text, and has no issue with its publication.
 */
module UnstatedBoundary {
  import opened Wrappers
  import opened EvidenceGraph

  function Zeros(): (digest: string)
    ensures Hex64(digest)
  {
    seq(64, _ => '0')
  }

  const PROPOSED := Event("1", ClaimProposed, map[ClaimId := Text("c"), ClaimText := Text("claim"), Scope := Text("all")])
  const FOR := Event("2", QueryExecuted, map[QueryId := Text("p"), ClaimId := Text("c"), ClaimText := Text("for"),
                                             IntentName := Text("support")])
  const AGAINST := Event("3", QueryExecuted, map[QueryId := Text("q"), ClaimId := Text("c"), ClaimText := Text("against"),
                                                 IntentName := Text("counterevidence")])
  const SUPPORTING := Event("4", PassageObserved, map[PassageId := Text("x"), DocId := Text("d"), QueryId := Text("p"),
                                                      Digest := Text(Zeros()), Page := Whole(1)])
  const BOUNDING := Event("5", PassageObserved, map[PassageId := Text("y"), DocId := Text("d"), QueryId := Text("q"),
                                                    Digest := Text(Zeros()), Page := Whole(2)])
  const SUPPORTS := Event("6", EvidenceLinked, map[ClaimId := Text("c"), PassageId := Text("x"),
                                                   RelationName := Text("SUPPORTS")])
  const BOUNDS := Event("7", EvidenceLinked, map[ClaimId := Text("c"), PassageId := Text("y"),
                                                 RelationName := Text("BOUNDS")])
  const CHALLENGED := Event("8", ClaimTransitioned, map[ClaimId := Text("c"), ToState := Text("CHALLENGED"),
                                                        Reason := Text("tested")])

  function DecidedOn(to: string, boundary: Field): Event {
    Event("9", ClaimTransitioned, map[ClaimId := Text("c"), ToState := Text(to), Reason := Text("held"),
                                      Boundary := boundary])
  }

  function Log(to: string, boundary: Field): seq<Event> {
    [PROPOSED, FOR, AGAINST, SUPPORTING, BOUNDING, SUPPORTS, BOUNDS, CHALLENGED, DecidedOn(to, boundary)]
  }

  const NEW_CLAIM := Claim("claim", "all", Proposed, "", "", 1)
  const TESTED_CLAIM := Claim("claim", "all", Challenged, "", "tested", 2)
  const FOR_QUERY := Query("c", "for", Support, 0)
  const AGAINST_QUERY := Query("c", "against", Counter, 0)
  const FIRST_PAGE := Passage("d", "p", Zeros(), None, Some(1))
  const SECOND_PAGE := Passage("d", "q", Zeros(), None, Some(2))
  const SUPPORT_EDGE := Edge("c", "x", Supports)
  const BOUND_EDGE := Edge("c", "y", Bounds)

  const QUERIES := map["p" := FOR_QUERY, "q" := AGAINST_QUERY]
  const PASSAGES := map["x" := FIRST_PAGE, "y" := SECOND_PAGE]
  const EDGES := [SUPPORT_EDGE, BOUND_EDGE]

  lemma ProposedTaken()
    ensures Applied(EMPTY, PROPOSED)
         == Success(Graph(map["c" := NEW_CLAIM], map[], map[], [], {"1"}))
  {
    assert |"c"| > 0 && |"claim"| > 0 && |"all"| > 0;
    var g := Applied(EMPTY, PROPOSED).value;
    assert g.claims == map["c" := NEW_CLAIM] && g.applied == {"1"};
  }

  lemma ForTaken()
    ensures Applied(Graph(map["c" := NEW_CLAIM], map[], map[], [], {"1"}), FOR)
         == Success(Graph(map["c" := NEW_CLAIM], map["p" := FOR_QUERY], map[], [], {"1", "2"}))
  {
    assert |"p"| > 0 && |"c"| > 0 && |"for"| > 0 && |"support"| > 0;
    var g := Applied(Graph(map["c" := NEW_CLAIM], map[], map[], [], {"1"}), FOR).value;
    assert g.queries == map["p" := FOR_QUERY] && g.applied == {"1", "2"};
  }

  lemma AgainstTaken()
    ensures Applied(Graph(map["c" := NEW_CLAIM], map["p" := FOR_QUERY], map[], [], {"1", "2"}), AGAINST)
         == Success(Graph(map["c" := NEW_CLAIM], QUERIES, map[], [], {"1", "2", "3"}))
  {
    assert |"q"| > 0 && |"c"| > 0 && |"against"| > 0 && |"counterevidence"| > 0;
    var g := Applied(Graph(map["c" := NEW_CLAIM], map["p" := FOR_QUERY], map[], [], {"1", "2"}), AGAINST).value;
    assert g.queries == QUERIES && g.applied == {"1", "2", "3"};
  }

  lemma SupportingTaken()
    ensures Applied(Graph(map["c" := NEW_CLAIM], QUERIES, map[], [], {"1", "2", "3"}), SUPPORTING)
         == Success(Graph(map["c" := NEW_CLAIM], QUERIES, map["x" := FIRST_PAGE], [], {"1", "2", "3", "4"}))
  {
    assert |"x"| > 0 && |"d"| > 0 && |"p"| > 0;
    var g := Applied(Graph(map["c" := NEW_CLAIM], QUERIES, map[], [], {"1", "2", "3"}), SUPPORTING).value;
    assert g.passages == map["x" := FIRST_PAGE] && g.applied == {"1", "2", "3", "4"};
  }

  lemma BoundingTaken()
    ensures Applied(Graph(map["c" := NEW_CLAIM], QUERIES, map["x" := FIRST_PAGE], [], {"1", "2", "3", "4"}), BOUNDING)
         == Success(Graph(map["c" := NEW_CLAIM], QUERIES, PASSAGES, [], {"1", "2", "3", "4", "5"}))
  {
    assert |"y"| > 0 && |"d"| > 0 && |"q"| > 0;
    var g := Applied(Graph(map["c" := NEW_CLAIM], QUERIES, map["x" := FIRST_PAGE], [], {"1", "2", "3", "4"}), BOUNDING).value;
    assert g.passages == PASSAGES && g.applied == {"1", "2", "3", "4", "5"};
  }

  lemma SupportsTaken()
    ensures Applied(Graph(map["c" := NEW_CLAIM], QUERIES, PASSAGES, [], {"1", "2", "3", "4", "5"}), SUPPORTS)
         == Success(Graph(map["c" := NEW_CLAIM], QUERIES, PASSAGES, [SUPPORT_EDGE], {"1", "2", "3", "4", "5", "6"}))
  {
    assert |"c"| > 0 && |"x"| > 0 && |"SUPPORTS"| > 0;
    var g := Applied(Graph(map["c" := NEW_CLAIM], QUERIES, PASSAGES, [], {"1", "2", "3", "4", "5"}), SUPPORTS).value;
    assert g.edges == [SUPPORT_EDGE] && g.applied == {"1", "2", "3", "4", "5", "6"};
  }

  lemma BoundsTaken()
    ensures Applied(Graph(map["c" := NEW_CLAIM], QUERIES, PASSAGES, [SUPPORT_EDGE], {"1", "2", "3", "4", "5", "6"}), BOUNDS)
         == Success(Graph(map["c" := NEW_CLAIM], QUERIES, PASSAGES, EDGES, {"1", "2", "3", "4", "5", "6", "7"}))
  {
    assert |"c"| > 0 && |"y"| > 0 && |"BOUNDS"| > 0;
    var g := Applied(Graph(map["c" := NEW_CLAIM], QUERIES, PASSAGES, [SUPPORT_EDGE], {"1", "2", "3", "4", "5", "6"}), BOUNDS).value;
    assert g.edges == EDGES && g.applied == {"1", "2", "3", "4", "5", "6", "7"};
  }

  lemma ChallengedTaken()
    ensures Applied(Graph(map["c" := NEW_CLAIM], QUERIES, PASSAGES, EDGES, {"1", "2", "3", "4", "5", "6", "7"}), CHALLENGED)
         == Success(Graph(map["c" := TESTED_CLAIM], QUERIES, PASSAGES, EDGES, {"1", "2", "3", "4", "5", "6", "7", "8"}))
  {
    assert |"c"| > 0 && |"CHALLENGED"| > 0 && |"tested"| > 0;
    assert "q" in QUERIES && QUERIES["q"].intent == Counter;
    var g := Applied(Graph(map["c" := NEW_CLAIM], QUERIES, PASSAGES, EDGES, {"1", "2", "3", "4", "5", "6", "7"}), CHALLENGED).value;
    assert g.claims == map["c" := TESTED_CLAIM] && g.applied == {"1", "2", "3", "4", "5", "6", "7", "8"};
  }

  lemma Extended(log: seq<Event>, n: nat, g: Graph, h: Graph)
    requires n < |log| && Project(log[..n]) == Success(g) && Applied(g, log[n]) == Success(h)
    ensures Project(log[..n + 1]) == Success(h)
  {
    hide Applied;
    assert log[..n + 1][..n] == log[..n];
  }

  lemma NothingProjected(log: seq<Event>)
    ensures Project(log[..0]) == Success(EMPTY)
  {
  }

  /** The graph before the decision. */
  function Tested(): Graph {
    Graph(map["c" := TESTED_CLAIM], QUERIES, PASSAGES, EDGES, {"1", "2", "3", "4", "5", "6", "7", "8"})
  }

  lemma TestedIsProjected(to: string, boundary: Field)
    ensures Project(Log(to, boundary)[..8]) == Success(Tested())
  {
    hide Project, Applied;
    var log := Log(to, boundary);
    NothingProjected(log);
    ProposedTaken();
    Extended(log, 0, EMPTY, Graph(map["c" := NEW_CLAIM], map[], map[], [], {"1"}));
    ForTaken();
    Extended(log, 1, Graph(map["c" := NEW_CLAIM], map[], map[], [], {"1"}), Graph(map["c" := NEW_CLAIM], map["p" := FOR_QUERY], map[], [], {"1", "2"}));
    AgainstTaken();
    Extended(log, 2, Graph(map["c" := NEW_CLAIM], map["p" := FOR_QUERY], map[], [], {"1", "2"}), Graph(map["c" := NEW_CLAIM], QUERIES, map[], [], {"1", "2", "3"}));
    SupportingTaken();
    Extended(log, 3, Graph(map["c" := NEW_CLAIM], QUERIES, map[], [], {"1", "2", "3"}), Graph(map["c" := NEW_CLAIM], QUERIES, map["x" := FIRST_PAGE], [], {"1", "2", "3", "4"}));
    BoundingTaken();
    Extended(log, 4, Graph(map["c" := NEW_CLAIM], QUERIES, map["x" := FIRST_PAGE], [], {"1", "2", "3", "4"}), Graph(map["c" := NEW_CLAIM], QUERIES, PASSAGES, [], {"1", "2", "3", "4", "5"}));
    SupportsTaken();
    Extended(log, 5, Graph(map["c" := NEW_CLAIM], QUERIES, PASSAGES, [], {"1", "2", "3", "4", "5"}), Graph(map["c" := NEW_CLAIM], QUERIES, PASSAGES, [SUPPORT_EDGE], {"1", "2", "3", "4", "5", "6"}));
    BoundsTaken();
    Extended(log, 6, Graph(map["c" := NEW_CLAIM], QUERIES, PASSAGES, [SUPPORT_EDGE], {"1", "2", "3", "4", "5", "6"}), Graph(map["c" := NEW_CLAIM], QUERIES, PASSAGES, EDGES, {"1", "2", "3", "4", "5", "6", "7"}));
    ChallengedTaken();
    Extended(log, 7, Graph(map["c" := NEW_CLAIM], QUERIES, PASSAGES, EDGES, {"1", "2", "3", "4", "5", "6", "7"}), Graph(map["c" := TESTED_CLAIM], QUERIES, PASSAGES, EDGES, {"1", "2", "3", "4", "5", "6", "7", "8"}));
  }

  lemma AnyRenderingIsABoundary(to: string, state: ClaimState, boundary: Field)
    requires ParseState(to) == Some(state) && (state.Survived? || state.Narrowed?)
    ensures Applied(Tested(), DecidedOn(to, boundary)).Success? <==> !Blank(Str(boundary))
    ensures !Blank(Str(boundary)) ==>
      Applied(Tested(), DecidedOn(to, boundary)).value.claims
      == map["c" := Claim("claim", "all", state, Str(boundary), "held", 3)]
  {
    hide ParseState, Blank, HasEdge, Countered, Str;
    NoState();
    EvidenceHeld();
    TextsRender(to);
    assert |"c"| > 0 && |"held"| > 0;
    if !Blank(Str(boundary)) {
      var g := Applied(Tested(), DecidedOn(to, boundary)).value;
      assert g.claims == map["c" := Claim("claim", "all", state, Str(boundary), "held", 3)];
    }
  }

  lemma TextsRender(to: string)
    ensures Str(Text("c")) == "c" && Str(Text("held")) == "held" && Str(Text(to)) == to
  {
  }

  lemma EvidenceHeld()
    ensures HasEdge(EDGES, "c", Supports) && HasEdge(EDGES, "c", Bounds) && Countered(QUERIES, "c")
  {
    assert "q" in QUERIES && QUERIES["q"].intent == Counter;
    assert EDGES[0].relation == Supports && EDGES[1].relation == Bounds;
  }

  lemma NoState()
    ensures ParseState("") == None
  {
  }

  /**
   For SURVIVED and for NARROWED, and whatever JSON value is given for the boundary: the log projects exactly
   when the value does not render as blank text.  The claim is then published with that rendering as its
   boundary, although nothing but a text states one.
   */
  lemma UnstatedIsPublished(to: string, state: ClaimState, boundary: Field)
    requires ParseState(to) == Some(state) && (state.Survived? || state.Narrowed?)
    ensures var log := Log(to, boundary);
      && (Project(log).Success? <==> !Blank(Str(boundary)))
      && (boundary.Null? || boundary.Whole? || boundary.Flag? ==> Project(log).Success?)
      && (Project(log).Success? ==>
            var claims := Project(log).value.claims;
            && "c" in claims && claims["c"].state == state && claims["c"].boundary == Str(boundary)
            && Issues(claims) == {} && (StatesBoundary(log[8].payload) <==> boundary.Text?))
  {
    hide Applied, ParseState, Blank, Str;
    var log := Log(to, boundary);
    TestedIsProjected(to, boundary);
    AnyRenderingIsABoundary(to, state, boundary);
    ProjectLast(log);
    if boundary.Null? || boundary.Whole? || boundary.Flag? {
      RenderedIsNotBlank(boundary);
    }
    if !Blank(Str(boundary)) {
      var claims := Project(log).value.claims;
      assert claims == map["c" := Claim("claim", "all", state, Str(boundary), "held", 3)];
      PublicationReduces(log);
      StatedIsText(log[8].payload);
    }
  }

  lemma ProjectLast(log: seq<Event>)
    requires |log| == 9 && Project(log[..8]).Success?
    ensures Project(log) == Applied(Project(log[..8]).value, log[8])
  {
    hide Applied;
    assert log[..|log| - 1] == log[..8];
  }

  lemma StatedIsText(p: Payload)
    requires Boundary in p && !Blank(Str(p[Boundary]))
    ensures StatesBoundary(p) <==> p[Boundary].Text?
  {
    hide Blank;
  }
}
