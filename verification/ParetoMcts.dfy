/**
 The tree search of `src/discovery/pareto_mcts.py`.  Nodes live in an arena and refer to each other
 by index.  The expander (with its proposals in search order), the evaluator, the gates and the
 digest of a hypothesis are parameters; arithmetic is over exact reals and any square root.
 */
module ParetoMcts {
  import opened Wrappers
  import opened ParetoFront

  datatype Hypothesis = Hypothesis(
    id: string, claim: string, boundary: string, support: seq<string>, counterQueries: seq<string>,
    physicalChecks: seq<string>)

  datatype Expansion = Expansion(action: string, hypothesis: Hypothesis, prior: real)

  datatype Config = Config(
    proposals: Hypothesis -> seq<Expansion>,
    evaluator: Hypothesis -> Vector,
    plausible: (Hypothesis, Vector) -> bool,
    gate: (Hypothesis, Vector) -> bool,
    admits: Expansion -> bool,
    digest: Hypothesis -> string,
    root: real -> real,
    exploration: real,
    maxDepth: nat)

  datatype Node = Node(
    hypothesis: Hypothesis, action: string, prior: real, parent: int, depth: nat,
    visits: nat, valueSum: Vector, children: seq<nat>, expanded: bool)

  /** One evaluation: the nodes from the root to the evaluated one, and the reward passed up. */
  datatype Visit = Visit(path: seq<nat>, reward: Vector)

  datatype Search = Search(
    nodes: seq<Node>, trace: seq<Visit>, candidates: seq<SearchResult>,
    evaluated: nat, rejected: nat, rejectedPlausibility: nat)

  const ZERO: Vector := [0.0, 0.0, 0.0, 0.0, 0.0, 0.0, 0.0]

  const WEIGHT_BANK: seq<Vector> := [
    [1.0, 1.0, 1.0, 1.0, 1.0, 1.0, 1.0],
    [2.0, 1.0, 2.0, 1.0, 2.0, 2.0, 1.0],
    [1.0, 2.0, 1.0, 2.0, 1.0, 2.0, 1.0],
    [2.0, 2.0, 2.0, 0.5, 1.0, 1.0, 0.5],
    [0.5, 1.0, 1.0, 2.0, 2.0, 1.0, 2.0]]

  function Total(v: Vector): real {
    v[0] + v[1] + v[2] + v[3] + v[4] + v[5] + v[6]
  }

  function Dot(a: Vector, b: Vector): real {
    a[0] * b[0] + a[1] * b[1] + a[2] * b[2] + a[3] * b[3] + a[4] * b[4] + a[5] * b[5] + a[6] * b[6]
  }

  function Plus(a: Vector, b: Vector): Vector {
    [a[0] + b[0], a[1] + b[1], a[2] + b[2], a[3] + b[3], a[4] + b[4], a[5] + b[5], a[6] + b[6]]
  }

  function Over(a: Vector, k: real): Vector
    requires k != 0.0
  {
    [a[0] / k, a[1] / k, a[2] / k, a[3] / k, a[4] / k, a[5] / k, a[6] / k]
  }

  /** The normalised scalarisation of an iteration. */
  function Weights(iteration: nat): Vector {
    var w := WEIGHT_BANK[iteration % 5];
    Over(w, Total(w))
  }

  // ---------------------------------------------------------------- the tree

  ghost predicate ParentOk(nodes: seq<Node>, n: nat)
    requires n < |nodes|
  {
    var p := nodes[n].parent;
    if n == 0 then p == -1 && nodes[n].depth == 0
    else 0 <= p < n && n in nodes[p].children && nodes[n].depth == nodes[p].depth + 1
  }

  ghost predicate ChildrenOk(nodes: seq<Node>, n: nat)
    requires n < |nodes|
  {
    var cs := nodes[n].children;
    && (forall j | 0 <= j < |cs| :: n < cs[j] < |nodes| && nodes[cs[j]].parent == n)
    && (forall i, j | 0 <= i < j < |cs| :: cs[i] < cs[j])
    && (cs != [] ==> nodes[n].expanded)
  }

  ghost predicate Tree(nodes: seq<Node>, maxDepth: nat) {
    && nodes != []
    && (forall n | 0 <= n < |nodes| :: ParentOk(nodes, n))
    && (forall n | 0 <= n < |nodes| :: ChildrenOk(nodes, n))
    && (forall n | 0 <= n < |nodes| :: nodes[n].depth <= maxDepth)
  }

  function SumVisits(nodes: seq<Node>, cs: seq<nat>): nat
    requires forall j | 0 <= j < |cs| :: cs[j] < |nodes|
  {
    if cs == [] then 0 else SumVisits(nodes, cs[..|cs| - 1]) + nodes[cs[|cs| - 1]].visits
  }

  /** A node with children has been visited once for itself and once for each visit below it. */
  ghost predicate Balanced(nodes: seq<Node>, n: nat)
    requires n < |nodes|
  {
    ChildrenOk(nodes, n)
    && (nodes[n].children != [] ==> nodes[n].visits == 1 + SumVisits(nodes, nodes[n].children))
  }

  /** Progressive widening: nothing is expanded before its own evaluation, or left so after the next. */
  ghost predicate Widened(nodes: seq<Node>, maxDepth: nat, n: nat)
    requires n < |nodes|
  {
    && (nodes[n].visits == 0 ==> !nodes[n].expanded)
    && (nodes[n].depth < maxDepth && !nodes[n].expanded ==> nodes[n].visits <= 1)
  }

  /** The nodes from the root down to `n`. */
  function Above(nodes: seq<Node>, n: nat): (path: seq<nat>)
    requires n < |nodes| && forall k | 0 < k < |nodes| :: 0 <= nodes[k].parent < k
    ensures path != [] && path[|path| - 1] == n
    decreases n
  {
    if n == 0 then [0] else Above(nodes, nodes[n].parent) + [n]
  }

  function Last(path: seq<nat>): nat
    requires path != []
  {
    path[|path| - 1]
  }

  /** How often the evaluations so far passed through `n`. */
  function Passes(trace: seq<Visit>, n: nat): nat {
    if trace == [] then 0
    else Passes(trace[..|trace| - 1], n) + if n in trace[|trace| - 1].path then 1 else 0
  }

  /** The rewards earned at `n` or below it. */
  function Earned(trace: seq<Visit>, n: nat): Vector {
    if trace == [] then ZERO
    else
      var before := Earned(trace[..|trace| - 1], n);
      if n in trace[|trace| - 1].path then Plus(before, trace[|trace| - 1].reward) else before
  }

  ghost predicate Recorded(nodes: seq<Node>, trace: seq<Visit>, n: nat)
    requires n < |nodes|
  {
    nodes[n].visits == Passes(trace, n) && nodes[n].valueSum == Earned(trace, n)
  }

  ghost predicate VisitOk(nodes: seq<Node>, v: Visit)
    requires forall k | 0 < k < |nodes| :: 0 <= nodes[k].parent < k
  {
    v.path != [] && Last(v.path) < |nodes| && v.path == Above(nodes, Last(v.path)) && Normalized(v.reward)
  }

  ghost predicate TreeInv(nodes: seq<Node>, trace: seq<Visit>, maxDepth: nat) {
    && Tree(nodes, maxDepth)
    && (forall n | 0 <= n < |nodes| :: Balanced(nodes, n))
    && (forall n | 0 <= n < |nodes| :: Widened(nodes, maxDepth, n))
    && (forall n | 0 <= n < |nodes| :: Recorded(nodes, trace, n))
    && Parented(nodes)
    && (forall i | 0 <= i < |trace| :: VisitOk(nodes, trace[i]))
  }

  ghost predicate Parented(nodes: seq<Node>) {
    forall k | 0 < k < |nodes| :: 0 <= nodes[k].parent < k
  }

  ghost predicate Inv(cfg: Config, s: Search) {
    && TreeInv(s.nodes, s.trace, cfg.maxDepth)
    && s.evaluated == |s.trace|
    && |s.candidates| + s.rejected == s.evaluated
    && s.rejectedPlausibility <= s.rejected
  }

  // ---------------------------------------------------------------- selection

  datatype Score = Score(value: real, prior: real, id: string)

  predicate Greater(a: Score, b: Score) {
    a.value > b.value
    || (a.value == b.value && (a.prior > b.prior || (a.prior == b.prior && StringLess(b.id, a.id))))
  }

  function MeanValues(node: Node): Vector {
    if node.visits == 0 then ZERO else Over(node.valueSum, node.visits as real)
  }

  function ScoreOf(cfg: Config, parent: Node, child: Node, weights: Vector): Score {
    var scale := cfg.root(if parent.visits > 1 then parent.visits as real else 1.0);
    var explore := cfg.exploration * child.prior * scale / (1 + child.visits) as real;
    Score(Dot(weights, MeanValues(child)) + explore, child.prior, child.hypothesis.id)
  }

  /** The first of `cs` with the greatest score. */
  function Best(cfg: Config, nodes: seq<Node>, n: nat, cs: seq<nat>, weights: Vector): (c: nat)
    requires n < |nodes| && cs != [] && forall j | 0 <= j < |cs| :: cs[j] < |nodes|
    ensures c in cs
  {
    var last := cs[|cs| - 1];
    if |cs| == 1 then last
    else
      var c := Best(cfg, nodes, n, cs[..|cs| - 1], weights);
      if Greater(ScoreOf(cfg, nodes[n], nodes[last], weights), ScoreOf(cfg, nodes[n], nodes[c], weights))
      then last else c
  }

  lemma GreaterOver(a: Score, b: Score, c: Score)
    requires Greater(a, b) && !Greater(c, b)
    ensures Greater(a, c)
  {
    StringLessTotal(b.id, c.id);
    if StringLess(c.id, b.id) && StringLess(b.id, a.id) {
      StringLessTransitive(c.id, b.id, a.id);
    }
  }

  lemma GreaterIsStrict(a: Score, b: Score)
    ensures !Greater(a, a) && !(Greater(a, b) && Greater(b, a))
  {
    StringLessTotal(a.id, b.id);
  }

  /** No child scores higher than the selected one, and none before it as high: `max` keeps the first. */
  lemma {:induction false} BestIsFirstGreatestChild(cfg: Config, nodes: seq<Node>, n: nat, cs: seq<nat>, weights: Vector)
    returns (i: nat)
    requires n < |nodes| && cs != [] && forall j | 0 <= j < |cs| :: cs[j] < |nodes|
    ensures i < |cs| && cs[i] == Best(cfg, nodes, n, cs, weights)
    ensures forall j | 0 <= j < |cs| ::
      !Greater(ScoreOf(cfg, nodes[n], nodes[cs[j]], weights), ScoreOf(cfg, nodes[n], nodes[cs[i]], weights))
    ensures forall j | 0 <= j < i ::
      Greater(ScoreOf(cfg, nodes[n], nodes[cs[i]], weights), ScoreOf(cfg, nodes[n], nodes[cs[j]], weights))
  {
    hide ScoreOf, Greater;
    var last := |cs| - 1;
    i := 0;
    if last > 0 {
      i := BestIsFirstGreatestChild(cfg, nodes, n, cs[..last], weights);
    }
    var best, latest := ScoreOf(cfg, nodes[n], nodes[cs[i]], weights), ScoreOf(cfg, nodes[n], nodes[cs[last]], weights);
    GreaterIsStrict(latest, best);
    if last > 0 && Greater(latest, best) {
      forall j | 0 <= j < last
        ensures Greater(latest, ScoreOf(cfg, nodes[n], nodes[cs[j]], weights))
        ensures !Greater(ScoreOf(cfg, nodes[n], nodes[cs[j]], weights), latest)
      {
        assert cs[..last][j] == cs[j];
        GreaterOver(latest, best, ScoreOf(cfg, nodes[n], nodes[cs[j]], weights));
        GreaterIsStrict(latest, ScoreOf(cfg, nodes[n], nodes[cs[j]], weights));
      }
      i := last;
    }
    GreaterIsStrict(ScoreOf(cfg, nodes[n], nodes[cs[i]], weights), latest);
  }

  /** The selection loop: down the best children until an unvisited or childless node. */
  function Descent(cfg: Config, nodes: seq<Node>, n: nat, weights: Vector): (path: seq<nat>)
    requires n < |nodes| && forall k | 0 <= k < |nodes| :: ChildrenOk(nodes, k)
    ensures path != [] && forall i | 0 <= i < |path| :: path[i] < |nodes|
    decreases |nodes| - n
  {
    if !nodes[n].expanded || nodes[n].children == [] then [n]
    else
      assert ChildrenOk(nodes, n);
      var c := Best(cfg, nodes, n, nodes[n].children, weights);
      if nodes[c].visits == 0 then [n, c] else [n] + Descent(cfg, nodes, c, weights)
  }

  // ---------------------------------------------------------------- expansion

  /** The proposals that become children: first of each digest, and admitted by the pruning rule. */
  function Admitted(cfg: Config, ps: seq<Expansion>): seq<Expansion> {
    if ps == [] then []
    else
      var n := |ps| - 1;
      Admitted(cfg, ps[..n])
      + if (exists i :: 0 <= i < n && cfg.digest(ps[i].hypothesis) == cfg.digest(ps[n].hypothesis)) || !cfg.admits(ps[n])
        then [] else [ps[n]]
  }

  function Fresh(p: Expansion, parent: int, depth: nat): Node {
    Node(p.hypothesis, p.action, p.prior, parent, depth, 0, ZERO, [], false)
  }

  function Numbers(from: nat, count: nat): (s: seq<nat>)
    ensures |s| == count && forall i | 0 <= i < count :: s[i] == from + i
  {
    seq(count, i requires 0 <= i < count => from + i)
  }

  function Sprouts(ps: seq<Expansion>, parent: int, depth: nat): (s: seq<Node>)
    ensures |s| == |ps| && forall i | 0 <= i < |ps| :: s[i] == Fresh(ps[i], parent, depth)
  {
    seq(|ps|, i requires 0 <= i < |ps| => Fresh(ps[i], parent, depth))
  }

  /** `_expand`. */
  function Expanded(cfg: Config, nodes: seq<Node>, n: nat): seq<Node>
    requires n < |nodes|
  {
    var ps := Admitted(cfg, cfg.proposals(nodes[n].hypothesis));
    nodes[n := nodes[n].(children := Numbers(|nodes|, |ps|), expanded := true)] + Sprouts(ps, n, nodes[n].depth + 1)
  }

  predicate Expandable(cfg: Config, node: Node) {
    node.visits > 0 && !node.expanded && node.depth < cfg.maxDepth
  }

  // ---------------------------------------------------------------- back-propagation

  function Bump(node: Node, reward: Vector): Node {
    node.(visits := node.visits + 1, valueSum := Plus(node.valueSum, reward))
  }

  /** `_backpropagate`. */
  function Bumped(nodes: seq<Node>, path: seq<nat>, reward: Vector): (r: seq<Node>)
    ensures |r| == |nodes|
    ensures forall i | 0 <= i < |nodes| :: r[i] == if i in path then Bump(nodes[i], reward) else nodes[i]
  {
    seq(|nodes|, i requires 0 <= i < |nodes| => if i in path then Bump(nodes[i], reward) else nodes[i])
  }

  // ---------------------------------------------------------------- one iteration

  function Start(h: Hypothesis): Search {
    Search([Node(h, "ROOT", 1.0, -1, 0, 0, ZERO, [], false)], [], [], 0, 0, 0)
  }

  /** The tree and the path once a leaf has been chosen, and widened if it is due. */
  function Chosen(cfg: Config, nodes: seq<Node>, weights: Vector): (r: (seq<Node>, seq<nat>))
    requires nodes != [] && forall k | 0 <= k < |nodes| :: ChildrenOk(nodes, k)
    ensures r.1 != [] && forall i | 0 <= i < |r.1| :: r.1[i] < |r.0|
  {
    var path := Descent(cfg, nodes, 0, weights);
    var leaf := Last(path);
    if !Expandable(cfg, nodes[leaf]) then (nodes, path)
    else
      var grown := Expanded(cfg, nodes, leaf);
      if grown[leaf].children == [] then (grown, path)
      else
        assert forall j | 0 <= j < |grown[leaf].children| :: grown[leaf].children[j] < |grown|;
        (grown, path + [Best(cfg, grown, leaf, grown[leaf].children, weights)])
  }

  function Actions(nodes: seq<Node>, path: seq<nat>): seq<string>
    requires forall i | 0 <= i < |path| :: path[i] < |nodes|
  {
    seq(|path|, i requires 0 <= i < |path| => nodes[path[i]].action)
  }

  /** Evaluate the end of the path, judge it, and pass the reward up. */
  function Evaluated(cfg: Config, s: Search, nodes: seq<Node>, path: seq<nat>): Search
    requires path != [] && forall i | 0 <= i < |path| :: path[i] < |nodes|
  {
    var h := nodes[Last(path)].hypothesis;
    var objectives := cfg.evaluator(h);
    var plausible := cfg.plausible(h, objectives);
    var accepted := plausible && cfg.gate(h, objectives);
    var reward := if accepted then objectives else ZERO;
    Search(
      Bumped(nodes, path, reward), s.trace + [Visit(path, reward)],
      if accepted then s.candidates + [SearchResult(h.id, objectives, Actions(nodes, path[1..]), s.evaluated)]
      else s.candidates,
      s.evaluated + 1,
      if accepted then s.rejected else s.rejected + 1,
      if plausible then s.rejectedPlausibility else s.rejectedPlausibility + 1)
  }

  function Iterated(cfg: Config, s: Search): Search
    requires s.nodes != [] && forall k | 0 <= k < |s.nodes| :: ChildrenOk(s.nodes, k)
  {
    var (nodes, path) := Chosen(cfg, s.nodes, Weights(s.evaluated));
    Evaluated(cfg, s, nodes, path)
  }

  // ---------------------------------------------------------------- paths

  /** A chain of parents and children. */
  ghost predicate Chain(nodes: seq<Node>, path: seq<nat>) {
    && (forall i | 0 <= i < |path| :: path[i] < |nodes|)
    && (forall i | 0 < i < |path| :: nodes[path[i]].parent == path[i - 1])
    && (forall i, j | 0 <= i < j < |path| :: path[i] < path[j])
  }

  lemma {:induction false} AboveIsChain(nodes: seq<Node>, n: nat)
    requires Parented(nodes) && n < |nodes|
    ensures Chain(nodes, Above(nodes, n)) && Above(nodes, n)[0] == 0
    decreases n
  {
    if n > 0 {
      var p := nodes[n].parent;
      AboveIsChain(nodes, p);
      var up, path := Above(nodes, p), Above(nodes, n);
      forall i, j | 0 <= i < j < |path|
        ensures path[i] < path[j]
      {
        if j == |path| - 1 {
          assert up[i] <= up[|up| - 1];
        }
      }
    }
  }

  /** Nodes that keep their parents keep their way to the root. */
  lemma {:induction false} AboveStands(nodes: seq<Node>, more: seq<Node>, n: nat)
    requires Parented(nodes) && Parented(more) && n < |nodes| <= |more|
    requires forall k | 0 <= k < |nodes| :: more[k].parent == nodes[k].parent
    ensures Above(more, n) == Above(nodes, n)
    decreases n
  {
    if n > 0 {
      AboveStands(nodes, more, nodes[n].parent);
    }
  }

  lemma ChildStep(nodes: seq<Node>, maxDepth: nat, n: nat, c: nat)
    requires Tree(nodes, maxDepth) && Parented(nodes) && n < |nodes| && c in nodes[n].children
    ensures n < c < |nodes| && Above(nodes, c) == Above(nodes, n) + [c]
  {
    assert ChildrenOk(nodes, n);
  }

  lemma UnvisitedIsChildless(nodes: seq<Node>, maxDepth: nat, n: nat)
    requires Tree(nodes, maxDepth) && n < |nodes| && Widened(nodes, maxDepth, n)
    requires nodes[n].visits == 0 || !nodes[n].expanded
    ensures nodes[n].children == []
  {
    assert ChildrenOk(nodes, n);
  }

  lemma TreeChildren(nodes: seq<Node>, maxDepth: nat)
    requires Tree(nodes, maxDepth)
    ensures nodes != [] && forall k | 0 <= k < |nodes| :: ChildrenOk(nodes, k)
  {
  }

  lemma Joined(up: seq<nat>, n: nat, c: nat, rest: seq<nat>)
    requires rest != [] && rest[0] == c
    ensures ([n] + rest)[1..] == rest
    ensures (up + [c]) + rest[1..] == up + rest
  {
    assert rest == [c] + rest[1..];
  }

  lemma DescentEnds(cfg: Config, nodes: seq<Node>, n: nat, weights: Vector)
    requires n < |nodes| && forall k | 0 <= k < |nodes| :: ChildrenOk(nodes, k)
    requires !nodes[n].expanded || nodes[n].children == []
    ensures Descent(cfg, nodes, n, weights) == [n]
  {
  }

  /** One turn of the selection loop. */
  lemma DescentTurn(cfg: Config, nodes: seq<Node>, n: nat, weights: Vector) returns (c: nat)
    requires n < |nodes| && forall k | 0 <= k < |nodes| :: ChildrenOk(nodes, k)
    requires nodes[n].expanded && nodes[n].children != []
    ensures n < c < |nodes| && c in nodes[n].children
    ensures forall j | 0 <= j < |nodes[n].children| :: nodes[n].children[j] < |nodes|
    ensures c == Best(cfg, nodes, n, nodes[n].children, weights)
    ensures nodes[c].visits == 0 ==> Descent(cfg, nodes, n, weights) == [n, c]
    ensures nodes[c].visits != 0 ==> Descent(cfg, nodes, n, weights) == [n] + Descent(cfg, nodes, c, weights)
  {
    hide Best;
    assert ChildrenOk(nodes, n);
    c := Best(cfg, nodes, n, nodes[n].children, weights);
  }

  lemma {:induction false} DescentIsAbove(cfg: Config, nodes: seq<Node>, n: nat, weights: Vector)
    requires Tree(nodes, cfg.maxDepth) && Parented(nodes) && n < |nodes|
    requires forall k | 0 <= k < |nodes| :: ChildrenOk(nodes, k)
    requires forall k | 0 <= k < |nodes| :: Widened(nodes, cfg.maxDepth, k)
    ensures var path := Descent(cfg, nodes, n, weights);
      && path[0] == n
      && Above(nodes, Last(path)) == Above(nodes, n) + path[1..]
      && nodes[Last(path)].children == []
    decreases |nodes| - n
  {
    hide Best, Tree, ParentOk, ChildrenOk, Widened, Above;
    if nodes[n].expanded && nodes[n].children != [] {
      var c := DescentTurn(cfg, nodes, n, weights);
      ChildStep(nodes, cfg.maxDepth, n, c);
      if nodes[c].visits != 0 {
        DescentIsAbove(cfg, nodes, c, weights);
        Joined(Above(nodes, n), n, c, Descent(cfg, nodes, c, weights));
      } else {
        UnvisitedIsChildless(nodes, cfg.maxDepth, c);
      }
    } else if !nodes[n].expanded {
      UnvisitedIsChildless(nodes, cfg.maxDepth, n);
    }
  }

  // ---------------------------------------------------------------- widening keeps the invariant

  lemma {:induction false} SumStands(nodes: seq<Node>, more: seq<Node>, cs: seq<nat>)
    requires |nodes| <= |more|
    requires forall j | 0 <= j < |cs| :: cs[j] < |nodes| && more[cs[j]].visits == nodes[cs[j]].visits
    ensures SumVisits(more, cs) == SumVisits(nodes, cs)
  {
    if cs != [] {
      SumStands(nodes, more, cs[..|cs| - 1]);
    }
  }

  lemma {:induction false} SumOfUnvisited(nodes: seq<Node>, cs: seq<nat>)
    requires forall j | 0 <= j < |cs| :: cs[j] < |nodes| && nodes[cs[j]].visits == 0
    ensures SumVisits(nodes, cs) == 0
  {
    if cs != [] {
      SumOfUnvisited(nodes, cs[..|cs| - 1]);
    }
  }

  lemma {:induction false} NeverPassed(trace: seq<Visit>, n: nat)
    requires forall i | 0 <= i < |trace| :: n !in trace[i].path
    ensures Passes(trace, n) == 0 && Earned(trace, n) == ZERO
  {
    if trace != [] {
      NeverPassed(trace[..|trace| - 1], n);
    }
  }

  lemma PathsAreOld(nodes: seq<Node>, trace: seq<Visit>, n: nat)
    requires Parented(nodes) && n >= |nodes|
    requires forall i | 0 <= i < |trace| :: VisitOk(nodes, trace[i])
    ensures forall i | 0 <= i < |trace| :: n !in trace[i].path
  {
    forall i | 0 <= i < |trace|
      ensures n !in trace[i].path
    {
      assert VisitOk(nodes, trace[i]);
      AboveIsChain(nodes, Last(trace[i].path));
    }
  }

  lemma VisitsStand(nodes: seq<Node>, more: seq<Node>, trace: seq<Visit>)
    requires Parented(nodes) && Parented(more) && |nodes| <= |more|
    requires forall k | 0 <= k < |nodes| :: more[k].parent == nodes[k].parent
    requires forall i | 0 <= i < |trace| :: VisitOk(nodes, trace[i])
    ensures forall i | 0 <= i < |trace| :: VisitOk(more, trace[i])
  {
    hide Normalized;
    forall i | 0 <= i < |trace|
      ensures VisitOk(more, trace[i])
    {
      assert VisitOk(nodes, trace[i]);
      AboveStands(nodes, more, Last(trace[i].path));
    }
  }

  lemma SproutedTree(cfg: Config, nodes: seq<Node>, n: nat)
    requires Tree(nodes, cfg.maxDepth) && n < |nodes| && Expandable(cfg, nodes[n])
    ensures Tree(Expanded(cfg, nodes, n), cfg.maxDepth)
  {
    hide Admitted;
    var grown := Expanded(cfg, nodes, n);
    assert ChildrenOk(nodes, n);
    forall k | 0 <= k < |grown|
      ensures ParentOk(grown, k)
    {
      if k < |nodes| {
        assert ParentOk(nodes, k);
      } else {
        assert grown[n].children[k - |nodes|] == k;
      }
    }
    forall k | 0 <= k < |grown|
      ensures ChildrenOk(grown, k)
    {
      if k < |nodes| {
        assert ChildrenOk(nodes, k);
      }
    }
  }

  lemma TreeIsParented(nodes: seq<Node>, maxDepth: nat)
    requires Tree(nodes, maxDepth)
    ensures Parented(nodes)
  {
    forall k | 0 < k < |nodes|
      ensures 0 <= nodes[k].parent < k
    {
      assert ParentOk(nodes, k);
    }
  }

  /** Expanding a node that is due for it keeps the whole invariant. */
  lemma ExpansionKeeps(cfg: Config, nodes: seq<Node>, trace: seq<Visit>, n: nat)
    requires TreeInv(nodes, trace, cfg.maxDepth) && n < |nodes| && Expandable(cfg, nodes[n])
    ensures TreeInv(Expanded(cfg, nodes, n), trace, cfg.maxDepth)
  {
    hide Admitted, Normalized, ParentOk, Tree, VisitOk, Above;
    var grown := Expanded(cfg, nodes, n);
    SproutedTree(cfg, nodes, n);
    TreeIsParented(grown, cfg.maxDepth);
    VisitsStand(nodes, grown, trace);
    forall k | 0 <= k < |grown|
      ensures Recorded(grown, trace, k)
    {
      if k < |nodes| {
        assert Recorded(nodes, trace, k);
      } else {
        PathsAreOld(nodes, trace, k);
        NeverPassed(trace, k);
      }
    }
    forall k | 0 <= k < |grown|
      ensures Widened(grown, cfg.maxDepth, k)
    {
      if k < |nodes| {
        assert Widened(nodes, cfg.maxDepth, k);
      }
    }
    forall k | 0 <= k < |grown|
      ensures Balanced(grown, k)
    {
      ExpandedBalance(cfg, nodes, grown, n, k);
    }
  }

  lemma ExpandedBalance(cfg: Config, nodes: seq<Node>, grown: seq<Node>, n: nat, k: nat)
    requires Tree(nodes, cfg.maxDepth) && Tree(grown, cfg.maxDepth)
    requires n < |nodes| && k < |grown| && Expandable(cfg, nodes[n]) && grown == Expanded(cfg, nodes, n)
    requires forall j | 0 <= j < |nodes| :: Balanced(nodes, j)
    requires forall j | 0 <= j < |nodes| :: Widened(nodes, cfg.maxDepth, j)
    ensures Balanced(grown, k)
  {
    hide Admitted, ParentOk;
    assert ChildrenOk(grown, k);
    if k == n {
      assert Widened(nodes, cfg.maxDepth, n);
      SumOfUnvisited(grown, grown[n].children);
    } else if k < |nodes| {
      assert Balanced(nodes, k) && ChildrenOk(nodes, k);
      SumStands(nodes, grown, nodes[k].children);
    }
  }

  /** The chosen path is the way from the root to a childless node that is not due for expansion. */
  lemma ChoiceKeeps(cfg: Config, nodes: seq<Node>, trace: seq<Visit>, weights: Vector)
    requires TreeInv(nodes, trace, cfg.maxDepth)
    ensures var (grown, path) := Chosen(cfg, nodes, weights);
      && TreeInv(grown, trace, cfg.maxDepth)
      && path == Above(grown, Last(path))
      && grown[Last(path)].children == [] && !Expandable(cfg, grown[Last(path)])
  {
    hide Admitted, Normalized, ParentOk, VisitOk, Best, Balanced, Recorded;
    TreeChildren(nodes, cfg.maxDepth);
    var path := Descent(cfg, nodes, 0, weights);
    var leaf := Last(path);
    DescentIsAbove(cfg, nodes, 0, weights);
    assert [0] + path[1..] == path;
    if Expandable(cfg, nodes[leaf]) {
      var grown := Expanded(cfg, nodes, leaf);
      ExpansionKeeps(cfg, nodes, trace, leaf);
      AboveStands(nodes, grown, leaf);
      if grown[leaf].children != [] {
        var c := Best(cfg, grown, leaf, grown[leaf].children, weights);
        assert ChildrenOk(grown, leaf);
        assert grown[c].parent == leaf;
        assert Above(grown, c) == Above(grown, leaf) + [c];
        assert grown[c].children == [] && grown[c].visits == 0;
      }
    }
  }

  // ---------------------------------------------------------------- passing the reward up

  function CountIn(cs: seq<nat>, path: seq<nat>): nat {
    if cs == [] then 0
    else CountIn(cs[..|cs| - 1], path) + if cs[|cs| - 1] in path then 1 else 0
  }

  lemma {:induction false} SumBumped(nodes: seq<Node>, cs: seq<nat>, path: seq<nat>, reward: Vector)
    requires forall j | 0 <= j < |cs| :: cs[j] < |nodes|
    ensures SumVisits(Bumped(nodes, path, reward), cs) == SumVisits(nodes, cs) + CountIn(cs, path)
  {
    if cs != [] {
      SumBumped(nodes, cs[..|cs| - 1], path, reward);
    }
  }

  lemma {:induction false} CountNone(cs: seq<nat>, path: seq<nat>)
    requires forall j | 0 <= j < |cs| :: cs[j] !in path
    ensures CountIn(cs, path) == 0
  {
    if cs != [] {
      CountNone(cs[..|cs| - 1], path);
    }
  }

  lemma {:induction false} CountOne(cs: seq<nat>, path: seq<nat>, c: nat)
    requires c in cs && c in path
    requires forall i, j | 0 <= i < j < |cs| :: cs[i] < cs[j]
    requires forall j | 0 <= j < |cs| && cs[j] in path :: cs[j] == c
    ensures CountIn(cs, path) == 1
  {
    var n := |cs| - 1;
    if cs[n] == c {
      assert forall j | 0 <= j < n :: cs[j] < cs[n];
      CountNone(cs[..n], path);
    } else {
      assert c in cs[..n];
      CountOne(cs[..n], path, c);
    }
  }

  /** A path to a childless node goes through exactly one child of each earlier node, and no other. */
  lemma PathChildren(nodes: seq<Node>, maxDepth: nat, path: seq<nat>, n: nat)
    requires Tree(nodes, maxDepth) && Chain(nodes, path) && path != [] && path[0] == 0
    requires nodes[Last(path)].children == [] && n < |nodes| && nodes[n].children != []
    ensures CountIn(nodes[n].children, path) == if n in path then 1 else 0
  {
    var cs := nodes[n].children;
    assert ChildrenOk(nodes, n);
    forall j | 0 <= j < |cs| && cs[j] in path
      ensures exists i :: 0 < i < |path| && path[i] == cs[j] && path[i - 1] == n
    {
      var i :| 0 <= i < |path| && path[i] == cs[j];
      assert i > 0;
      assert nodes[path[i]].parent == path[i - 1];
    }
    if n in path {
      var k :| 0 <= k < |path| && path[k] == n;
      assert k < |path| - 1;
      var c := path[k + 1];
      assert nodes[c].parent == path[k];
      assert ParentOk(nodes, c);
      assert c in cs;
      forall j | 0 <= j < |cs| && cs[j] in path
        ensures cs[j] == c
      {
        var i :| 0 < i < |path| && path[i] == cs[j] && path[i - 1] == n;
        assert i - 1 == k;
      }
      CountOne(cs, path, c);
    } else {
      CountNone(cs, path);
    }
  }

  lemma BumpedTree(nodes: seq<Node>, maxDepth: nat, path: seq<nat>, reward: Vector)
    requires Tree(nodes, maxDepth)
    ensures Tree(Bumped(nodes, path, reward), maxDepth)
  {
    var after := Bumped(nodes, path, reward);
    forall n | 0 <= n < |after|
      ensures ParentOk(after, n) && ChildrenOk(after, n)
    {
      assert ParentOk(nodes, n) && ChildrenOk(nodes, n);
    }
  }

  lemma BumpedBalance(nodes: seq<Node>, maxDepth: nat, path: seq<nat>, reward: Vector, n: nat)
    requires Tree(nodes, maxDepth) && Tree(Bumped(nodes, path, reward), maxDepth)
    requires Chain(nodes, path) && path != [] && path[0] == 0 && nodes[Last(path)].children == []
    requires n < |nodes| && Balanced(nodes, n)
    ensures Balanced(Bumped(nodes, path, reward), n)
  {
    hide ParentOk;
    var after := Bumped(nodes, path, reward);
    assert ChildrenOk(after, n) && ChildrenOk(nodes, n);
    if nodes[n].children != [] {
      PathChildren(nodes, maxDepth, path, n);
      SumBumped(nodes, nodes[n].children, path, reward);
    }
  }

  lemma BumpedRecord(nodes: seq<Node>, trace: seq<Visit>, path: seq<nat>, reward: Vector, n: nat)
    requires n < |nodes| && Recorded(nodes, trace, n)
    ensures Recorded(Bumped(nodes, path, reward), trace + [Visit(path, reward)], n)
  {
    hide Plus;
    var longer := trace + [Visit(path, reward)];
    assert longer[..|longer| - 1] == trace;
  }

  lemma OneMoreVisit(nodes: seq<Node>, after: seq<Node>, trace: seq<Visit>, v: Visit)
    requires Parented(nodes) && Parented(after) && |nodes| == |after|
    requires forall k | 0 <= k < |nodes| :: after[k].parent == nodes[k].parent
    requires VisitOk(nodes, v) && forall i | 0 <= i < |trace| :: VisitOk(nodes, trace[i])
    ensures forall i | 0 <= i < |trace + [v]| :: VisitOk(after, (trace + [v])[i])
  {
    VisitsStand(nodes, after, trace + [v]);
  }

  /** Passing a reward up a path from the root to a childless node keeps the whole invariant. */
  lemma BackpropagationKeeps(cfg: Config, nodes: seq<Node>, trace: seq<Visit>, path: seq<nat>, reward: Vector)
    requires TreeInv(nodes, trace, cfg.maxDepth) && Normalized(reward)
    requires path != [] && Last(path) < |nodes| && path == Above(nodes, Last(path))
    requires nodes[Last(path)].children == [] && !Expandable(cfg, nodes[Last(path)])
    ensures TreeInv(Bumped(nodes, path, reward), trace + [Visit(path, reward)], cfg.maxDepth)
  {
    hide Normalized, ParentOk, Tree, Above, Balanced, Recorded, Widened, Expandable, Chain;
    var after := Bumped(nodes, path, reward);
    BumpedTree(nodes, cfg.maxDepth, path, reward);
    TreeIsParented(after, cfg.maxDepth);
    AboveIsChain(nodes, Last(path));
    OneMoreVisit(nodes, after, trace, Visit(path, reward));
    forall n | 0 <= n < |after|
      ensures Balanced(after, n) && Widened(after, cfg.maxDepth, n)
      ensures Recorded(after, trace + [Visit(path, reward)], n)
    {
      BumpedBalance(nodes, cfg.maxDepth, path, reward, n);
      BumpedRecord(nodes, trace, path, reward, n);
      BumpedWidening(cfg, nodes, path, reward, n);
    }
  }

  lemma BumpedWidening(cfg: Config, nodes: seq<Node>, path: seq<nat>, reward: Vector, n: nat)
    requires Tree(nodes, cfg.maxDepth) && Chain(nodes, path) && path != []
    requires n < |nodes| && Widened(nodes, cfg.maxDepth, n) && !Expandable(cfg, nodes[Last(path)])
    ensures Widened(Bumped(nodes, path, reward), cfg.maxDepth, n)
  {
    if n in path && n != Last(path) {
      var k :| 0 <= k < |path| && path[k] == n;
      assert nodes[path[k + 1]].parent == n;
      assert ParentOk(nodes, path[k + 1]);
      assert ChildrenOk(nodes, n);
    }
  }

  // ---------------------------------------------------------------- whole searches

  ghost predicate Sane(cfg: Config) {
    forall h :: Normalized(cfg.evaluator(h))
  }

  lemma ZeroNormalized()
    ensures Normalized(ZERO)
  {
  }

  lemma InvGivesChildren(cfg: Config, s: Search)
    requires Inv(cfg, s)
    ensures s.nodes != [] && forall k | 0 <= k < |s.nodes| :: ChildrenOk(s.nodes, k)
  {
  }

  /** One iteration of the search keeps every account of the tree. */
  lemma IterationKeeps(cfg: Config, s: Search)
    requires Sane(cfg) && Inv(cfg, s)
    ensures s.nodes != [] && forall k | 0 <= k < |s.nodes| :: ChildrenOk(s.nodes, k)
    ensures Inv(cfg, Iterated(cfg, s))
  {
    hide Normalized, Chosen, Weights, Bumped, Above, Expandable;
    InvGivesChildren(cfg, s);
    var (nodes, path) := Chosen(cfg, s.nodes, Weights(s.evaluated));
    ChoiceKeeps(cfg, s.nodes, s.trace, Weights(s.evaluated));
    ZeroNormalized();
    EvaluationKeeps(cfg, s, nodes, path);
  }

  lemma EvaluationKeeps(cfg: Config, s: Search, nodes: seq<Node>, path: seq<nat>)
    requires Sane(cfg) && Inv(cfg, s) && TreeInv(nodes, s.trace, cfg.maxDepth)
    requires path != [] && forall i | 0 <= i < |path| :: path[i] < |nodes|
    requires path == Above(nodes, Last(path))
    requires nodes[Last(path)].children == [] && !Expandable(cfg, nodes[Last(path)])
    ensures Inv(cfg, Evaluated(cfg, s, nodes, path))
  {
    hide Normalized, Bumped, Above, Expandable, TreeInv, Actions;
    ZeroNormalized();
    var h := nodes[Last(path)].hypothesis;
    var objectives := cfg.evaluator(h);
    if cfg.plausible(h, objectives) && cfg.gate(h, objectives) {
      BackpropagationKeeps(cfg, nodes, s.trace, path, objectives);
    } else {
      BackpropagationKeeps(cfg, nodes, s.trace, path, ZERO);
    }
  }

  lemma StartInv(cfg: Config, h: Hypothesis)
    ensures Inv(cfg, Start(h))
  {
    var nodes := Start(h).nodes;
    assert ParentOk(nodes, 0) && ChildrenOk(nodes, 0);
    assert Passes([], 0) == 0 && Earned([], 0) == ZERO;
  }

  /** The search after `n` iterations. */
  ghost function Searched(cfg: Config, h: Hypothesis, n: nat): (s: Search)
    requires Sane(cfg)
    ensures Inv(cfg, s) && s.evaluated == n
  {
    if n == 0 then
      StartInv(cfg, h);
      Start(h)
    else
      var s := Searched(cfg, h, n - 1);
      IterationKeeps(cfg, s);
      Iterated(cfg, s)
  }

  lemma {:induction false} EarnedBounds(nodes: seq<Node>, trace: seq<Visit>, n: nat)
    requires Parented(nodes) && forall i | 0 <= i < |trace| :: VisitOk(nodes, trace[i])
    ensures forall k | 0 <= k < OBJECTIVES :: 0.0 <= Earned(trace, n)[k] <= Passes(trace, n) as real
  {
    hide Above;
    if trace != [] {
      EarnedBounds(nodes, trace[..|trace| - 1], n);
      assert VisitOk(nodes, trace[|trace| - 1]);
    }
  }

  lemma {:induction false} RootIsAlwaysPassed(nodes: seq<Node>, trace: seq<Visit>)
    requires Parented(nodes) && forall i | 0 <= i < |trace| :: VisitOk(nodes, trace[i])
    ensures Passes(trace, 0) == |trace|
  {
    if trace != [] {
      RootIsAlwaysPassed(nodes, trace[..|trace| - 1]);
      var v := trace[|trace| - 1];
      assert VisitOk(nodes, v);
      AboveIsChain(nodes, Last(v.path));
    }
  }

  lemma {:induction false} AboveLength(nodes: seq<Node>, maxDepth: nat, n: nat)
    requires Tree(nodes, maxDepth) && Parented(nodes) && n < |nodes|
    ensures |Above(nodes, n)| == nodes[n].depth + 1
    decreases n
  {
    assert ParentOk(nodes, n);
    if n > 0 {
      AboveLength(nodes, maxDepth, nodes[n].parent);
    }
  }

  /** The selection loop ends after at most `max_depth` turns. */
  lemma DescentIsShort(cfg: Config, h: Hypothesis, iterations: nat, weights: Vector)
    requires Sane(cfg)
    ensures var s := Searched(cfg, h, iterations);
      s.nodes != [] && (forall k | 0 <= k < |s.nodes| :: ChildrenOk(s.nodes, k))
      && |Descent(cfg, s.nodes, 0, weights)| <= cfg.maxDepth + 1
  {
    hide Searched, Descent, Above, Tree, ChildrenOk;
    var s := Searched(cfg, h, iterations);
    InvGivesChildren(cfg, s);
    DescentIsAbove(cfg, s.nodes, 0, weights);
    var path := Descent(cfg, s.nodes, 0, weights);
    RootPath(s.nodes);
    AboveLength(s.nodes, cfg.maxDepth, Last(path));
    assert |path| == |[0] + path[1..]|;
    TreeDepth(s.nodes, cfg.maxDepth, Last(path));
  }

  lemma RootPath(nodes: seq<Node>)
    requires nodes != [] && Parented(nodes)
    ensures Above(nodes, 0) == [0]
  {
  }

  lemma TreeDepth(nodes: seq<Node>, maxDepth: nat, n: nat)
    requires Tree(nodes, maxDepth) && n < |nodes|
    ensures nodes[n].depth <= maxDepth
  {
  }

  /**
   After any number of iterations: a node with children has 1 + the visits of its children, the root
   has been visited once per iteration, every value sum is what the evaluations at or below its node
   earned and lies between zero and the visits, no node is deeper than allowed, and every iteration
   either accepted or rejected.
   */
  lemma SearchIsAccounted(cfg: Config, h: Hypothesis, iterations: nat)
    requires Sane(cfg)
    ensures var s := Searched(cfg, h, iterations);
      && s.nodes[0].visits == iterations
      && |s.candidates| + s.rejected == iterations && s.rejectedPlausibility <= s.rejected
      && Parented(s.nodes) && |s.trace| == iterations
      && (forall i | 0 <= i < |s.trace| ::
            var path := s.trace[i].path;
            path != [] && Last(path) < |s.nodes| && path == Above(s.nodes, Last(path)))
      && forall n | 0 <= n < |s.nodes| ::
           && ChildrenOk(s.nodes, n) && Balanced(s.nodes, n)
           && s.nodes[n].depth <= cfg.maxDepth
           && s.nodes[n].visits == Passes(s.trace, n)
           && s.nodes[n].valueSum == Earned(s.trace, n)
           && forall k | 0 <= k < OBJECTIVES :: 0.0 <= s.nodes[n].valueSum[k] <= s.nodes[n].visits as real
  {
    hide Searched, Above, ParentOk, ChildrenOk, Balanced;
    var s := Searched(cfg, h, iterations);
    RootIsAlwaysPassed(s.nodes, s.trace);
    assert forall i | 0 <= i < |s.trace| :: VisitOk(s.nodes, s.trace[i]);
    forall n | 0 <= n < |s.nodes|
      ensures Recorded(s.nodes, s.trace, n)
      ensures forall k | 0 <= k < OBJECTIVES :: 0.0 <= s.nodes[n].valueSum[k] <= s.nodes[n].visits as real
    {
      EarnedBounds(s.nodes, s.trace, n);
    }
  }

  // ---------------------------------------------------------------- what the archive holds

  /**
   A candidate is the verdict of one iteration on the node at the end of its path: that node's hypothesis,
   its objectives, which both gates let pass and which were passed up, and the actions that lead to it.
   */
  ghost predicate Found(cfg: Config, nodes: seq<Node>, trace: seq<Visit>, r: SearchResult) {
    && r.iteration < |trace|
    && var v := trace[r.iteration];
    && v.path != [] && (forall i | 0 <= i < |v.path| :: v.path[i] < |nodes|)
    && var h := nodes[Last(v.path)].hypothesis;
    && r.id == h.id && r.objectives == v.reward == cfg.evaluator(h)
    && cfg.plausible(h, r.objectives) && cfg.gate(h, r.objectives)
    && r.path == Actions(nodes, v.path[1..])
  }

  ghost predicate AllFound(cfg: Config, s: Search) {
    forall i | 0 <= i < |s.candidates| :: Found(cfg, s.nodes, s.trace, s.candidates[i])
  }

  /** The hypotheses and actions of the nodes that were there stay. */
  ghost predicate SameLabels(nodes: seq<Node>, more: seq<Node>) {
    |nodes| <= |more|
    && forall k | 0 <= k < |nodes| :: more[k].hypothesis == nodes[k].hypothesis && more[k].action == nodes[k].action
  }

  lemma ActionsStand(nodes: seq<Node>, more: seq<Node>, path: seq<nat>)
    requires SameLabels(nodes, more) && forall i | 0 <= i < |path| :: path[i] < |nodes|
    ensures Actions(more, path) == Actions(nodes, path)
  {
  }

  lemma FoundStands(cfg: Config, nodes: seq<Node>, more: seq<Node>, trace: seq<Visit>, longer: seq<Visit>, r: SearchResult)
    requires SameLabels(nodes, more) && trace <= longer && Found(cfg, nodes, trace, r)
    ensures Found(cfg, more, longer, r)
  {
    hide Actions;
    ActionsStand(nodes, more, trace[r.iteration].path[1..]);
  }

  lemma ChoiceKeepsLabels(cfg: Config, nodes: seq<Node>, weights: Vector)
    requires nodes != [] && forall k | 0 <= k < |nodes| :: ChildrenOk(nodes, k)
    ensures SameLabels(nodes, Chosen(cfg, nodes, weights).0)
  {
    hide Admitted, Descent, Best;
  }

  lemma EvaluationFinds(cfg: Config, s: Search, nodes: seq<Node>, path: seq<nat>)
    requires AllFound(cfg, s) && SameLabels(s.nodes, nodes) && s.evaluated == |s.trace|
    requires path != [] && forall i | 0 <= i < |path| :: path[i] < |nodes|
    ensures AllFound(cfg, Evaluated(cfg, s, nodes, path))
  {
    hide Actions;
    var t := Evaluated(cfg, s, nodes, path);
    ActionsStand(nodes, t.nodes, path[1..]);
    forall i | 0 <= i < |t.candidates|
      ensures Found(cfg, t.nodes, t.trace, t.candidates[i])
    {
      if i < |s.candidates| {
        FoundStands(cfg, s.nodes, t.nodes, s.trace, t.trace, s.candidates[i]);
      }
    }
  }

  lemma {:induction false} CandidatesAreFound(cfg: Config, h: Hypothesis, iterations: nat)
    requires Sane(cfg)
    ensures AllFound(cfg, Searched(cfg, h, iterations))
  {
    hide Sane, TreeInv, Chosen, Evaluated, AllFound, Weights, SameLabels, ChildrenOk;
    if iterations == 0 {
      NothingFound(cfg, h);
    } else {
      var s := Searched(cfg, h, iterations - 1);
      CandidatesAreFound(cfg, h, iterations - 1);
      IterationKeeps(cfg, s);
      ChoiceKeepsLabels(cfg, s.nodes, Weights(s.evaluated));
      EvaluationFinds(cfg, s, Chosen(cfg, s.nodes, Weights(s.evaluated)).0, Chosen(cfg, s.nodes, Weights(s.evaluated)).1);
    }
  }

  lemma NothingFound(cfg: Config, h: Hypothesis)
    ensures AllFound(cfg, Start(h))
  {
  }

  /** Nothing reaches the returned archive but what an iteration found and both gates let pass. */
  lemma ArchiveIsVetted(cfg: Config, h: Hypothesis, iterations: nat, eps: real, id: string)
    requires Sane(cfg) && id in Archive(Searched(cfg, h, iterations).candidates, eps)
    ensures var s := Searched(cfg, h, iterations); Found(cfg, s.nodes, s.trace, Archive(s.candidates, eps)[id])
  {
    hide Searched, TreeInv, BestById, Dominated, Found;
    var s := Searched(cfg, h, iterations);
    CandidatesAreFound(cfg, h, iterations);
    BestAmong(s.candidates, eps);
    var r := Archive(s.candidates, eps)[id];
    assert r in s.candidates;
    var i :| 0 <= i < |s.candidates| && s.candidates[i] == r;
  }

  // ---------------------------------------------------------------- every verdict counts

  /** Both gates let the end of the path of `v` pass. */
  ghost predicate Passed(cfg: Config, nodes: seq<Node>, v: Visit)
    requires v.path != [] && Last(v.path) < |nodes|
  {
    var h := nodes[Last(v.path)].hypothesis;
    cfg.plausible(h, cfg.evaluator(h)) && cfg.gate(h, cfg.evaluator(h))
  }

  ghost predicate Located(nodes: seq<Node>, v: Visit) {
    v.path != [] && Last(v.path) < |nodes|
  }

  ghost predicate Listed(candidates: seq<SearchResult>, i: nat) {
    exists j :: 0 <= j < |candidates| && candidates[j].iteration == i
  }

  /** The reward is what the node earned, and there is a candidate of that iteration, exactly if it passed. */
  ghost predicate Judged(cfg: Config, nodes: seq<Node>, candidates: seq<SearchResult>, v: Visit, i: nat) {
    && Located(nodes, v)
    && v.reward == (if Passed(cfg, nodes, v) then cfg.evaluator(nodes[Last(v.path)].hypothesis) else ZERO)
    && (Passed(cfg, nodes, v) <==> Listed(candidates, i))
  }

  ghost predicate AllJudged(cfg: Config, s: Search) {
    forall i | 0 <= i < |s.trace| :: Judged(cfg, s.nodes, s.candidates, s.trace[i], i)
  }

  /** Candidates are in the order of their iterations, one at most of each. */
  ghost predicate InOrder(candidates: seq<SearchResult>, n: nat) {
    && (forall j | 0 <= j < |candidates| :: candidates[j].iteration < n)
    && (forall j, k | 0 <= j < k < |candidates| :: candidates[j].iteration < candidates[k].iteration)
  }

  ghost predicate Implausible(cfg: Config, nodes: seq<Node>, v: Visit) {
    Located(nodes, v)
    && var h := nodes[Last(v.path)].hypothesis; !cfg.plausible(h, cfg.evaluator(h))
  }

  /** How many of the evaluated nodes the plausibility check turned down. */
  ghost function ImplausibleCount(cfg: Config, nodes: seq<Node>, trace: seq<Visit>): nat {
    if trace == [] then 0
    else ImplausibleCount(cfg, nodes, trace[..|trace| - 1]) + if Implausible(cfg, nodes, trace[|trace| - 1]) then 1 else 0
  }

  lemma JudgedStands(cfg: Config, nodes: seq<Node>, more: seq<Node>, candidates: seq<SearchResult>,
                     longer: seq<SearchResult>, v: Visit, i: nat)
    requires SameLabels(nodes, more) && Judged(cfg, nodes, candidates, v, i)
    requires Listed(longer, i) <==> Listed(candidates, i)
    ensures Judged(cfg, more, longer, v, i)
  {
    hide Listed;
  }

  lemma {:induction false} ImplausibleStands(cfg: Config, nodes: seq<Node>, more: seq<Node>, trace: seq<Visit>)
    requires SameLabels(nodes, more) && forall i | 0 <= i < |trace| :: Located(nodes, trace[i])
    ensures ImplausibleCount(cfg, more, trace) == ImplausibleCount(cfg, nodes, trace)
  {
    if trace != [] {
      ImplausibleStands(cfg, nodes, more, trace[..|trace| - 1]);
      assert Located(nodes, trace[|trace| - 1]);
    }
  }

  lemma ListedSnoc(candidates: seq<SearchResult>, r: SearchResult, i: nat)
    ensures Listed(candidates + [r], i) <==> Listed(candidates, i) || r.iteration == i
  {
    var all := candidates + [r];
    assert all[|candidates|] == r;
    if j :| 0 <= j < |candidates| && candidates[j].iteration == i {
      assert all[j].iteration == i;
    }
  }

  /** What one evaluation adds to the accounts. */
  lemma EvaluationAdds(cfg: Config, s: Search, nodes: seq<Node>, path: seq<nat>)
    requires SameLabels(s.nodes, nodes) && s.evaluated == |s.trace|
    requires path != [] && forall i | 0 <= i < |path| :: path[i] < |nodes|
    ensures var t := Evaluated(cfg, s, nodes, path); var n := |s.trace|;
      && SameLabels(s.nodes, t.nodes) && t.evaluated == |t.trace| == n + 1 && t.trace[..n] == s.trace
      && Located(t.nodes, t.trace[n])
      && t.trace[n].reward
         == (if Passed(cfg, t.nodes, t.trace[n]) then cfg.evaluator(t.nodes[Last(t.trace[n].path)].hypothesis) else ZERO)
      && t.rejectedPlausibility == s.rejectedPlausibility + (if Implausible(cfg, t.nodes, t.trace[n]) then 1 else 0)
      && (!Passed(cfg, t.nodes, t.trace[n]) ==> t.candidates == s.candidates)
      && (Passed(cfg, t.nodes, t.trace[n]) ==>
            |t.candidates| == |s.candidates| + 1
            && t.candidates == s.candidates + [t.candidates[|s.candidates|]]
            && t.candidates[|s.candidates|].iteration == n)
  {
    hide Actions;
    var t := Evaluated(cfg, s, nodes, path);
    assert t.trace[|s.trace|].path == path;
    assert t.nodes[Last(path)].hypothesis == nodes[Last(path)].hypothesis;
  }

  lemma EvaluationJudges(cfg: Config, s: Search, nodes: seq<Node>, path: seq<nat>)
    requires AllJudged(cfg, s) && InOrder(s.candidates, |s.trace|)
    requires SameLabels(s.nodes, nodes) && s.evaluated == |s.trace|
    requires path != [] && forall i | 0 <= i < |path| :: path[i] < |nodes|
    ensures AllJudged(cfg, Evaluated(cfg, s, nodes, path))
  {
    hide Listed, Evaluated, SameLabels, Passed, InOrder;
    var t, n := Evaluated(cfg, s, nodes, path), |s.trace|;
    EvaluationAdds(cfg, s, nodes, path);
    NotYetListed(s.candidates, n);
    forall i | 0 <= i < |t.trace|
      ensures Judged(cfg, t.nodes, t.candidates, t.trace[i], i)
    {
      if |t.candidates| > |s.candidates| {
        ListedSnoc(s.candidates, t.candidates[|s.candidates|], i);
      }
      if i < n {
        assert t.trace[..n][i] == t.trace[i];
        JudgedStands(cfg, s.nodes, t.nodes, s.candidates, t.candidates, s.trace[i], i);
      }
    }
  }

  lemma EvaluationOrders(cfg: Config, s: Search, nodes: seq<Node>, path: seq<nat>)
    requires InOrder(s.candidates, |s.trace|) && SameLabels(s.nodes, nodes) && s.evaluated == |s.trace|
    requires path != [] && forall i | 0 <= i < |path| :: path[i] < |nodes|
    ensures InOrder(Evaluated(cfg, s, nodes, path).candidates, |s.trace| + 1)
  {
    hide Evaluated, SameLabels, Passed;
    EvaluationAdds(cfg, s, nodes, path);
  }

  lemma EvaluationCounts(cfg: Config, s: Search, nodes: seq<Node>, path: seq<nat>)
    requires AllJudged(cfg, s) && SameLabels(s.nodes, nodes) && s.evaluated == |s.trace|
    requires s.rejectedPlausibility == ImplausibleCount(cfg, s.nodes, s.trace)
    requires path != [] && forall i | 0 <= i < |path| :: path[i] < |nodes|
    ensures var t := Evaluated(cfg, s, nodes, path); t.rejectedPlausibility == ImplausibleCount(cfg, t.nodes, t.trace)
  {
    hide Evaluated, SameLabels, Passed, Listed, Implausible;
    EvaluationAdds(cfg, s, nodes, path);
    var t := Evaluated(cfg, s, nodes, path);
    forall i | 0 <= i < |s.trace|
      ensures Located(s.nodes, s.trace[i])
    {
      assert Judged(cfg, s.nodes, s.candidates, s.trace[i], i);
    }
    ImplausibleStands(cfg, s.nodes, t.nodes, s.trace);
  }

  lemma NotYetListed(candidates: seq<SearchResult>, n: nat)
    requires InOrder(candidates, n)
    ensures !Listed(candidates, n)
  {
  }

  /**
   No verdict is lost: each iteration whose node both gates let pass earns its objectives and yields one
   candidate, each other one earns nothing and yields none, and the plausibility count is exact.
   */
  lemma {:induction false} EveryVerdictCounts(cfg: Config, h: Hypothesis, iterations: nat)
    requires Sane(cfg)
    ensures var s := Searched(cfg, h, iterations);
      && |s.trace| == iterations && AllJudged(cfg, s) && InOrder(s.candidates, iterations)
      && s.rejectedPlausibility == ImplausibleCount(cfg, s.nodes, s.trace)
  {
    hide Sane, TreeInv, Chosen, Evaluated, AllJudged, Weights, SameLabels, ChildrenOk, InOrder, ImplausibleCount;
    if iterations == 0 {
      NothingJudged(cfg, h);
    } else {
      var s := Searched(cfg, h, iterations - 1);
      EveryVerdictCounts(cfg, h, iterations - 1);
      IterationKeeps(cfg, s);
      ChoiceKeepsLabels(cfg, s.nodes, Weights(s.evaluated));
      var (nodes, path) := Chosen(cfg, s.nodes, Weights(s.evaluated));
      EvaluationAdds(cfg, s, nodes, path);
      EvaluationJudges(cfg, s, nodes, path);
      EvaluationOrders(cfg, s, nodes, path);
      EvaluationCounts(cfg, s, nodes, path);
    }
  }

  lemma NothingJudged(cfg: Config, h: Hypothesis)
    ensures var s := Start(h); AllJudged(cfg, s) && InOrder(s.candidates, 0) && ImplausibleCount(cfg, s.nodes, s.trace) == 0
  {
  }

  // ---------------------------------------------------------------- what selection and expansion prefer

  /** The proposal is admitted, and the first with its digest. */
  ghost predicate Taken(cfg: Config, ps: seq<Expansion>, n: nat)
    requires n < |ps|
  {
    cfg.admits(ps[n]) && forall i | 0 <= i < n :: cfg.digest(ps[i].hypothesis) != cfg.digest(ps[n].hypothesis)
  }

  lemma TakenInPrefix(cfg: Config, ps: seq<Expansion>, m: nat, n: nat)
    requires n < m <= |ps|
    ensures Taken(cfg, ps[..m], n) <==> Taken(cfg, ps, n)
  {
    assert forall i | 0 <= i <= n :: ps[..m][i] == ps[i];
  }

  lemma LastTaken(cfg: Config, ps: seq<Expansion>)
    requires ps != []
    ensures var n := |ps| - 1;
      Admitted(cfg, ps) == Admitted(cfg, ps[..n]) + if Taken(cfg, ps, n) then [ps[n]] else []
  {
  }

  /** The proposals that become children, by their places: exactly the taken ones, in order. */
  lemma {:induction false} AdmittedExactly(cfg: Config, ps: seq<Expansion>) returns (at: seq<nat>)
    ensures |at| == |Admitted(cfg, ps)|
    ensures forall j | 0 <= j < |at| :: at[j] < |ps| && Admitted(cfg, ps)[j] == ps[at[j]]
    ensures forall j, k | 0 <= j < k < |at| :: at[j] < at[k]
    ensures forall n | 0 <= n < |ps| :: n in at <==> Taken(cfg, ps, n)
  {
    hide Taken, Admitted;
    if ps == [] {
      NoneTaken(cfg);
      at := [];
    } else {
      var n := |ps| - 1;
      var before := AdmittedExactly(cfg, ps[..n]);
      LastTaken(cfg, ps);
      at := before + if Taken(cfg, ps, n) then [n] else [];
      forall k | 0 <= k < |ps|
        ensures k in at <==> Taken(cfg, ps, k)
      {
        if k < n {
          TakenInPrefix(cfg, ps, n, k);
        }
      }
    }
  }

  lemma NoneTaken(cfg: Config)
    ensures Admitted(cfg, []) == []
  {
  }

  /** The weights of every iteration are positive and sum to one. */
  lemma WeightsAreNormalised(iteration: nat)
    ensures Total(Weights(iteration)) == 1.0
    ensures forall k | 0 <= k < OBJECTIVES :: 0.0 < Weights(iteration)[k] < 1.0
  {
    var i := iteration % 5;
    assert i == 0 || i == 1 || i == 2 || i == 3 || i == 4;
  }

  /** The mean of a visited node is the share of a visit in what it earned. */
  lemma MeanIsAverage(node: Node)
    ensures node.visits == 0 ==> MeanValues(node) == ZERO
    ensures node.visits > 0 ==>
      forall k | 0 <= k < OBJECTIVES :: MeanValues(node)[k] * node.visits as real == node.valueSum[k]
  {
    if node.visits > 0 {
      forall k | 0 <= k < OBJECTIVES
        ensures MeanValues(node)[k] == node.valueSum[k] / node.visits as real
      {
        assert k == 0 || k == 1 || k == 2 || k == 3 || k == 4 || k == 5 || k == 6;
      }
    }
  }

  /** What exploration compares: the prior over one more than the visits. */
  function Urge(node: Node): real {
    node.prior / (1 + node.visits) as real
  }

  /**
   Of two children with the same scalarised mean, the one with more prior to a visit is selected first; without
   exploration only the means decide.
   */
  lemma ExplorationDecides(cfg: Config, parent: Node, a: Node, b: Node, weights: Vector)
    requires forall x | x >= 1.0 :: cfg.root(x) > 0.0
    ensures cfg.exploration > 0.0 && Dot(weights, MeanValues(a)) == Dot(weights, MeanValues(b)) && Urge(a) > Urge(b) ==>
      Greater(ScoreOf(cfg, parent, a, weights), ScoreOf(cfg, parent, b, weights))
    ensures cfg.exploration == 0.0 && Dot(weights, MeanValues(a)) > Dot(weights, MeanValues(b)) ==>
      Greater(ScoreOf(cfg, parent, a, weights), ScoreOf(cfg, parent, b, weights))
  {
    hide Dot, MeanValues;
    var scale := cfg.root(if parent.visits > 1 then parent.visits as real else 1.0);
    Bonus(cfg.exploration, a.prior, scale, (1 + a.visits) as real);
    Bonus(cfg.exploration, b.prior, scale, (1 + b.visits) as real);
    var k := cfg.exploration * scale;
    assert ScoreOf(cfg, parent, a, weights).value == Dot(weights, MeanValues(a)) + k * Urge(a);
    assert ScoreOf(cfg, parent, b, weights).value == Dot(weights, MeanValues(b)) + k * Urge(b);
    if cfg.exploration > 0.0 && Urge(a) > Urge(b) {
      PositiveProduct(cfg.exploration, scale);
      MoreOf(k, Urge(b), Urge(a));
    }
  }

  lemma Bonus(e: real, p: real, scale: real, n: real)
    requires n > 0.0
    ensures e * p * scale / n == e * scale * (p / n)
  {
    var q := p / n;
    assert q * n == p;
    assert e * p * scale == e * scale * q * n;
  }

  lemma PositiveProduct(a: real, b: real)
    requires a > 0.0 && b > 0.0
    ensures a * b > 0.0
  {
  }

  lemma MoreOf(k: real, a: real, b: real)
    requires k > 0.0 && a < b
    ensures k * a < k * b
  {
  }

  // ---------------------------------------------------------------- the search in place

  lemma {:induction false} BumpedOneMore(nodes: seq<Node>, path: seq<nat>, i: nat, reward: Vector)
    requires Chain(nodes, path) && i < |path|
    ensures var before := Bumped(nodes, path[..i], reward);
      Bumped(nodes, path[..i + 1], reward) == before[path[i] := Bump(before[path[i]], reward)]
  {
    hide Bump;
    var n := path[i];
    assert path[..i + 1] == path[..i] + [n];
    assert n !in path[..i];
  }

  class TreeSearch {
    const cfg: Config
    var nodes: seq<Node>
    var trace: seq<Visit>
    var candidates: seq<SearchResult>
    var evaluated: nat
    var rejected: nat
    var rejectedPlausibility: nat

    function Contents(): Search
      reads this
    {
      Search(nodes, trace, candidates, evaluated, rejected, rejectedPlausibility)
    }

    constructor (cfg: Config, h: Hypothesis)
      ensures this.cfg == cfg && Contents() == Start(h)
    {
      this.cfg := cfg;
      nodes := [Node(h, "ROOT", 1.0, -1, 0, 0, ZERO, [], false)];
      trace, candidates, evaluated, rejected, rejectedPlausibility := [], [], 0, 0, 0;
    }

    /** `_select_child`; what `Best` is, `BestIsFirstGreatestChild` says. */
    method SelectChild(n: nat, weights: Vector) returns (c: nat)
      requires n < |nodes| && nodes[n].children != []
      requires forall j | 0 <= j < |nodes[n].children| :: nodes[n].children[j] < |nodes|
      ensures c in nodes[n].children && c == Best(cfg, nodes, n, nodes[n].children, weights)
    {
      hide ScoreOf, Greater;
      var cs := nodes[n].children;
      c := cs[0];
      assert cs[..1] == [cs[0]];
      for i := 1 to |cs|
        invariant c == Best(cfg, nodes, n, cs[..i], weights) && c in cs
      {
        assert cs[..i + 1][..i] == cs[..i];
        if Greater(ScoreOf(cfg, nodes[n], nodes[cs[i]], weights), ScoreOf(cfg, nodes[n], nodes[c], weights)) {
          c := cs[i];
        }
      }
      assert cs[..|cs|] == cs;
    }

    /** `_expand`. */
    method Expand(n: nat)
      requires n < |nodes|
      modifies this`nodes
      ensures nodes == Expanded(cfg, old(nodes), n)
    {
      var proposals := cfg.proposals(nodes[n].hypothesis);
      var admitted: seq<Expansion> := [];
      var seen: set<string> := {};
      for i := 0 to |proposals|
        invariant admitted == Admitted(cfg, proposals[..i])
        invariant forall d :: d in seen <==> exists j :: 0 <= j < i && cfg.digest(proposals[j].hypothesis) == d
      {
        var proposal := proposals[i];
        var digest := cfg.digest(proposal.hypothesis);
        assert proposals[..i + 1][..i] == proposals[..i];
        if digest !in seen {
          seen := seen + {digest};
          if cfg.admits(proposal) {
            admitted := admitted + [proposal];
          }
        }
      }
      assert proposals[..|proposals|] == proposals;
      var sprouts := Sprouts(admitted, n, nodes[n].depth + 1);
      nodes := nodes[n := nodes[n].(children := Numbers(|nodes|, |admitted|), expanded := true)] + sprouts;
    }

    /** `_backpropagate`. */
    method Backpropagate(path: seq<nat>, reward: Vector)
      requires Chain(nodes, path)
      modifies this`nodes
      ensures nodes == Bumped(old(nodes), path, reward)
    {
      hide Bump;
      assert nodes == Bumped(nodes, path[..0], reward);
      for i := 0 to |path|
        invariant nodes == Bumped(old(nodes), path[..i], reward)
      {
        BumpedOneMore(old(nodes), path, i, reward);
        nodes := nodes[path[i] := Bump(nodes[path[i]], reward)];
      }
      assert path[..|path|] == path;
    }

    /** The selection loop of one iteration, down from the root. */
    method Descend(weights: Vector) returns (path: seq<nat>)
      requires Tree(nodes, cfg.maxDepth)
      ensures nodes != [] && (forall k | 0 <= k < |nodes| :: ChildrenOk(nodes, k))
      ensures path == Descent(cfg, nodes, 0, weights)
    {
      hide Tree, ChildrenOk, Best, Descent;
      TreeChildren(nodes, cfg.maxDepth);
      var node := 0;
      path := [node];
      while nodes[node].expanded && nodes[node].children != []
        invariant node < |nodes| && path != [] && Last(path) == node
        invariant path[..|path| - 1] + Descent(cfg, nodes, node, weights) == Descent(cfg, nodes, 0, weights)
        decreases |nodes| - node
      {
        ghost var next := DescentTurn(cfg, nodes, node, weights);
        node := SelectChild(node, weights);
        assert path == path[..|path| - 1] + [Last(path)];
        path := path + [node];
        if nodes[node].visits == 0 {
          return;
        }
      }
      DescentEnds(cfg, nodes, node, weights);
      assert path == path[..|path| - 1] + [Last(path)];
    }

    /** Choose a leaf, and widen the tree below it if it is due. */
    method Choose(weights: Vector) returns (path: seq<nat>)
      requires Tree(nodes, cfg.maxDepth)
      modifies this`nodes
      ensures old(nodes) != [] && forall k | 0 <= k < |old(nodes)| :: ChildrenOk(old(nodes), k)
      ensures (nodes, path) == Chosen(cfg, old(nodes), weights)
    {
      hide Tree, ChildrenOk, Descent, Best, Expanded;
      path := Descend(weights);
      var node := Last(path);
      if Expandable(cfg, nodes[node]) {
        SproutBounds(cfg, nodes, node);
        Expand(node);
        if nodes[node].children != [] {
          node := SelectChild(node, weights);
          path := path + [node];
        }
      }
    }

    /** Evaluate the end of the path, judge it, record it and pass the reward up. */
    method Evaluate(path: seq<nat>)
      requires path != [] && Chain(nodes, path)
      modifies this
      ensures Contents() == Evaluated(cfg, old(Contents()), old(nodes), path)
    {
      hide Bumped, Actions, Chain;
      ChainBounds(nodes, path);
      var h := nodes[Last(path)].hypothesis;
      var objectives := cfg.evaluator(h);
      var iteration := evaluated;
      evaluated := evaluated + 1;
      var plausible := cfg.plausible(h, objectives);
      var accepted := false;
      if plausible {
        accepted := cfg.gate(h, objectives);
      } else {
        rejectedPlausibility := rejectedPlausibility + 1;
      }
      var reward := if accepted then objectives else ZERO;
      if accepted {
        candidates := candidates + [SearchResult(h.id, objectives, Actions(nodes, path[1..]), iteration)];
      } else {
        rejected := rejected + 1;
      }
      Backpropagate(path, reward);
      trace := trace + [Visit(path, reward)];
    }

    /** One turn of the loop in `search`. */
    method Iterate()
      requires Sane(cfg) && Inv(cfg, Contents())
      modifies this
      ensures old(nodes) != [] && forall k | 0 <= k < |old(nodes)| :: ChildrenOk(old(nodes), k)
      ensures Contents() == Iterated(cfg, old(Contents())) && Inv(cfg, Contents())
    {
      hide Tree, ChildrenOk, Inv, Normalized, Sane, Evaluated, Chosen, Above, Weights, Expandable;
      IterationKeeps(cfg, Contents());
      TreeOfInv(cfg, Contents());
      ChoiceKeeps(cfg, nodes, trace, Weights(evaluated));
      var path := Choose(Weights(evaluated));
      PathIsChain(nodes, path);
      ChainBounds(nodes, path);
      EvaluationReadsNoTree(cfg, old(Contents()), nodes, path);
      Evaluate(path);
    }

    /** `search`. */
    method Run(iterations: nat, eps: real, ghost h: Hypothesis) returns (archive: map<string, SearchResult>)
      requires Sane(cfg) && Contents() == Start(h)
      modifies this
      ensures Contents() == Searched(cfg, h, iterations)
      ensures archive == Archive(candidates, eps)
    {
      hide Inv, Normalized, Sane, Iterated;
      StartInv(cfg, h);
      for i := 0 to iterations
        invariant Contents() == Searched(cfg, h, i) && Inv(cfg, Contents())
      {
        Iterate();
      }
      archive := ComputeFront(candidates, eps);
    }
  }

  lemma TreeOfInv(cfg: Config, s: Search)
    requires Inv(cfg, s)
    ensures TreeInv(s.nodes, s.trace, cfg.maxDepth) && Tree(s.nodes, cfg.maxDepth)
  {
  }

  lemma SproutBounds(cfg: Config, nodes: seq<Node>, n: nat)
    requires n < |nodes|
    ensures var grown := Expanded(cfg, nodes, n);
      n < |grown| && forall j | 0 <= j < |grown[n].children| :: grown[n].children[j] < |grown|
  {
    hide Admitted;
  }

  /** Apart from the given tree, an evaluation reads only the accounts. */
  lemma EvaluationReadsNoTree(cfg: Config, s: Search, nodes: seq<Node>, path: seq<nat>)
    requires path != [] && forall i | 0 <= i < |path| :: path[i] < |nodes|
    ensures Evaluated(cfg, s.(nodes := nodes), nodes, path) == Evaluated(cfg, s, nodes, path)
  {
  }

  lemma ChainBounds(nodes: seq<Node>, path: seq<nat>)
    requires Chain(nodes, path)
    ensures forall i | 0 <= i < |path| :: path[i] < |nodes|
  {
  }

  lemma PathIsChain(nodes: seq<Node>, path: seq<nat>)
    requires Parented(nodes) && path != [] && Last(path) < |nodes| && path == Above(nodes, Last(path))
    ensures Chain(nodes, path)
  {
    AboveIsChain(nodes, Last(path));
  }
}
