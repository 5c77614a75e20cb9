/**
 The non-dominated archive of `src/discovery/pareto_mcts.py`.  With the tolerance at zero it is the
 Pareto front of the best revision of each hypothesis; with a tolerance strictly between zero and
 one domination is not transitive, and the archive of a non-empty input can be empty.
 */
module ParetoFront {
  import opened Wrappers

  const OBJECTIVES := 7

  type Vector = v: seq<real> | |v| == OBJECTIVES witness [0.0, 0.0, 0.0, 0.0, 0.0, 0.0, 0.0]

  datatype SearchResult = SearchResult(id: string, objectives: Vector, path: seq<string>, iteration: nat)

  /** `ObjectiveVector.__post_init__`. */
  predicate Normalized(v: Vector) {
    forall i | 0 <= i < OBJECTIVES :: 0.0 <= v[i] <= 1.0
  }

  predicate AtLeast(l: Vector, r: Vector, eps: real) {
    forall i | 0 <= i < OBJECTIVES :: l[i] + eps >= r[i]
  }

  predicate Beyond(l: Vector, r: Vector, eps: real) {
    exists i | 0 <= i < OBJECTIVES :: l[i] > r[i] + eps
  }

  predicate Dominates(l: Vector, r: Vector, eps: real) {
    AtLeast(l, r, eps) && Beyond(l, r, eps)
  }

  /** The order of tuples. */
  predicate LexLess(a: seq<real>, b: seq<real>)
    requires |a| == |b|
  {
    a != [] && (a[0] < b[0] || (a[0] == b[0] && LexLess(a[1..], b[1..])))
  }

  /** Whether `r` takes the place of the revision kept so far. */
  predicate Replaces(r: SearchResult, kept: SearchResult, eps: real) {
    || Dominates(r.objectives, kept.objectives, eps)
    || (!Dominates(kept.objectives, r.objectives, eps) && LexLess(kept.objectives, r.objectives))
  }

  function Keep(best: map<string, SearchResult>, r: SearchResult, eps: real): map<string, SearchResult> {
    if r.id in best && !Replaces(r, best[r.id], eps) then best else best[r.id := r]
  }

  function BestById(results: seq<SearchResult>, eps: real): map<string, SearchResult> {
    if results == [] then map[]
    else Keep(BestById(results[..|results| - 1], eps), results[|results| - 1], eps)
  }

  predicate Dominated(best: map<string, SearchResult>, id: string, eps: real)
    requires id in best
  {
    exists other | other in best :: other != id && Dominates(best[other].objectives, best[id].objectives, eps)
  }

  /** `pareto_front`; the archive is listed in the order of its keys. */
  function Front(best: map<string, SearchResult>, eps: real): map<string, SearchResult> {
    map id | id in best && !Dominated(best, id, eps) :: best[id]
  }

  function Archive(results: seq<SearchResult>, eps: real): map<string, SearchResult> {
    Front(BestById(results, eps), eps)
  }

  // ---------------------------------------------------------------- the order of tuples

  lemma {:induction false} LexTransitive(a: seq<real>, b: seq<real>, c: seq<real>)
    requires |a| == |b| == |c| && LexLess(a, b) && LexLess(b, c)
    ensures LexLess(a, c)
  {
    if a[0] == b[0] == c[0] {
      LexTransitive(a[1..], b[1..], c[1..]);
    }
  }

  lemma {:induction false} LexTotal(a: seq<real>, b: seq<real>)
    requires |a| == |b|
    ensures a != b ==> LexLess(a, b) || LexLess(b, a)
    ensures !(LexLess(a, b) && LexLess(b, a))
    ensures !LexLess(a, a)
  {
    if a != [] {
      LexTotal(a[1..], b[1..]);
      assert a == [a[0]] + a[1..] && b == [b[0]] + b[1..];
    }
  }

  lemma {:induction false} BetterIsLexGreater(l: seq<real>, r: seq<real>)
    requires |l| == |r| && l != r
    requires forall i | 0 <= i < |l| :: l[i] >= r[i]
    ensures LexLess(r, l)
  {
    assert l == [l[0]] + l[1..] && r == [r[0]] + r[1..];
    if l[0] == r[0] {
      BetterIsLexGreater(l[1..], r[1..]);
    }
  }

  /** With tolerance zero: no objective worse, and not the same vector. */
  lemma DominatesExactly(l: Vector, r: Vector)
    ensures Dominates(l, r, 0.0) <==> (forall i | 0 <= i < OBJECTIVES :: l[i] >= r[i]) && l != r
  {
    if forall i | 0 <= i < OBJECTIVES :: l[i] >= r[i] {
      if l != r {
        assert exists i :: 0 <= i < OBJECTIVES && l[i] != r[i];
      }
    } else {
      var i :| 0 <= i < OBJECTIVES && l[i] < r[i];
      assert l[i] + 0.0 < r[i];
    }
  }

  /** The first difference decides. */
  lemma {:induction false} LexByFirstDifference(a: seq<real>, b: seq<real>)
    requires |a| == |b|
    ensures LexLess(a, b) <==> exists k :: 0 <= k < |a| && a[k] < b[k] && a[..k] == b[..k]
  {
    if a != [] {
      LexByFirstDifference(a[1..], b[1..]);
      if k :| 0 <= k < |a| && a[k] < b[k] && a[..k] == b[..k] {
        if k > 0 {
          assert a[..k][0] == b[..k][0];
          assert a[1..][..k - 1] == a[..k][1..] == b[..k][1..] == b[1..][..k - 1];
          assert a[1..][k - 1] < b[1..][k - 1];
        }
      }
      if LexLess(a, b) {
        if a[0] < b[0] {
          assert a[..0] == b[..0];
        } else {
          var k :| 0 <= k < |a| - 1 && a[1..][k] < b[1..][k] && a[1..][..k] == b[1..][..k];
          assert a[..k + 1] == [a[0]] + a[1..][..k] == [b[0]] + b[1..][..k] == b[..k + 1];
          assert a[k + 1] < b[k + 1];
        }
      }
    }
  }

  /** Exact domination implies the tuple order, so the tie-break never overrules it. */
  lemma DominationIsLexGreater(l: Vector, r: Vector)
    requires Dominates(l, r, 0.0)
    ensures LexLess(r, l)
  {
    var i :| 0 <= i < OBJECTIVES && l[i] > r[i] + 0.0;
    assert forall k | 0 <= k < OBJECTIVES :: l[k] + 0.0 >= r[k];
    BetterIsLexGreater(l, r);
  }

  lemma DominatesTransitive(a: Vector, b: Vector, c: Vector)
    requires Dominates(a, b, 0.0) && Dominates(b, c, 0.0)
    ensures Dominates(a, c, 0.0)
  {
    var i :| 0 <= i < OBJECTIVES && a[i] > b[i] + 0.0;
    assert b[i] + 0.0 >= c[i];
    assert a[i] > c[i] + 0.0;
    forall k | 0 <= k < OBJECTIVES
      ensures a[k] + 0.0 >= c[k]
    {
      assert a[k] + 0.0 >= b[k] && b[k] + 0.0 >= c[k];
    }
  }

  lemma ReplacesExactly(r: SearchResult, kept: SearchResult)
    ensures Replaces(r, kept, 0.0) <==> LexLess(kept.objectives, r.objectives)
  {
    hide Dominates;
    if Dominates(r.objectives, kept.objectives, 0.0) {
      DominationIsLexGreater(r.objectives, kept.objectives);
    }
    if Dominates(kept.objectives, r.objectives, 0.0) {
      DominationIsLexGreater(kept.objectives, r.objectives);
      LexTotal(kept.objectives, r.objectives);
    }
  }

  // ---------------------------------------------------------------- the best revision of each hypothesis

  /** `results[k]` is the first result of its hypothesis with the greatest objective tuple. */
  ghost predicate FirstGreatest(results: seq<SearchResult>, k: nat) {
    && k < |results|
    && (forall j | 0 <= j < |results| && results[j].id == results[k].id ::
          !LexLess(results[k].objectives, results[j].objectives))
    && (forall j | 0 <= j < k && results[j].id == results[k].id ::
          LexLess(results[j].objectives, results[k].objectives))
  }

  /** The fold keeps, per hypothesis, the first result with the greatest objective tuple. */
  lemma {:induction false} BestIsFirstGreatest(results: seq<SearchResult>)
    ensures forall r | r in results :: r.id in BestById(results, 0.0)
    ensures forall id | id in BestById(results, 0.0) ::
      exists k :: 0 <= k < |results| && FirstGreatest(results, k) && results[k].id == id && BestById(results, 0.0)[id] == results[k]
  {
    hide Replaces, LexLess, FirstGreatest;
    if results != [] {
      var n := |results| - 1;
      var before, best := BestById(results[..n], 0.0), BestById(results, 0.0);
      BestIsFirstGreatest(results[..n]);
      forall id | id in best
        ensures exists k :: 0 <= k < |results| && FirstGreatest(results, k) && results[k].id == id && best[id] == results[k]
      {
        if id in before {
          var k :| 0 <= k < n && FirstGreatest(results[..n], k) && results[..n][k].id == id && before[id] == results[..n][k];
          GreatestAfter(results, k);
        } else {
          OnlyOne(results, id);
        }
      }
      forall r | r in results
        ensures r.id in best
      {
        assert r in results[..n] || r == results[n];
      }
    }
  }

  lemma OnlyOne(results: seq<SearchResult>, id: string)
    requires results != [] && results[|results| - 1].id == id
    requires forall r | r in results[..|results| - 1] :: r.id != id
    ensures FirstGreatest(results, |results| - 1)
  {
    hide LexLess;
    var n := |results| - 1;
    LexTotal(results[n].objectives, results[n].objectives);
    assert forall j | 0 <= j < n :: results[j] in results[..n];
  }

  lemma GreatestAfter(results: seq<SearchResult>, k: nat)
    requires results != [] && FirstGreatest(results[..|results| - 1], k)
    ensures var n := |results| - 1;
      FirstGreatest(results, if results[n].id == results[k].id && Replaces(results[n], results[k], 0.0) then n else k)
  {
    hide LexLess, Replaces;
    var n := |results| - 1;
    var before := results[..n];
    assert forall j | 0 <= j < n :: before[j] == results[j];
    if results[n].id == results[k].id {
      ReplacesExactly(results[n], results[k]);
      LexTotal(results[k].objectives, results[n].objectives);
      LexTotal(results[n].objectives, results[n].objectives);
      if LexLess(results[k].objectives, results[n].objectives) {
        forall j | 0 <= j < n && results[j].id == results[n].id
          ensures LexLess(results[j].objectives, results[n].objectives)
        {
          assert !LexLess(results[k].objectives, before[j].objectives);
          LexTotal(results[k].objectives, results[j].objectives);
          if results[j].objectives != results[k].objectives {
            LexTransitive(results[j].objectives, results[k].objectives, results[n].objectives);
          }
        }
        forall j | 0 <= j < |results| && results[j].id == results[n].id
          ensures !LexLess(results[n].objectives, results[j].objectives)
        {
          LexTotal(results[j].objectives, results[n].objectives);
        }
      }
    }
  }

  ghost predicate Appears(results: seq<SearchResult>, id: string, v: Vector) {
    exists i :: 0 <= i < |results| && results[i].id == id && results[i].objectives == v
  }

  /** The same objectives for the same hypotheses, in whatever order and number. */
  ghost predicate SameFindings(a: seq<SearchResult>, b: seq<SearchResult>) {
    forall id, v: Vector :: Appears(a, id, v) <==> Appears(b, id, v)
  }

  lemma GreatestOverall(results: seq<SearchResult>, id: string)
    requires id in BestById(results, 0.0)
    ensures Appears(results, id, BestById(results, 0.0)[id].objectives)
    ensures forall v: Vector | Appears(results, id, v) :: !LexLess(BestById(results, 0.0)[id].objectives, v)
  {
    hide BestById, LexLess;
    BestIsFirstGreatest(results);
    var k :| 0 <= k < |results| && FirstGreatest(results, k) && results[k].id == id && BestById(results, 0.0)[id] == results[k];
  }

  lemma AppearingIsKnown(results: seq<SearchResult>, id: string, v: Vector)
    requires Appears(results, id, v)
    ensures id in BestById(results, 0.0)
  {
    hide BestById, LexLess;
    BestIsFirstGreatest(results);
    var i :| 0 <= i < |results| && results[i].id == id && results[i].objectives == v;
    assert results[i] in results;
  }

  /** The kept objectives do not depend on the order in which the results arrive. */
  lemma ArrivalOrderIsIrrelevant(a: seq<SearchResult>, b: seq<SearchResult>, id: string)
    requires SameFindings(a, b) && id in BestById(a, 0.0)
    ensures id in BestById(b, 0.0) && BestById(b, 0.0)[id].objectives == BestById(a, 0.0)[id].objectives
  {
    hide BestById, LexLess, Appears;
    GreatestOverall(a, id);
    AppearingIsKnown(b, id, BestById(a, 0.0)[id].objectives);
    GreatestOverall(b, id);
    LexTotal(BestById(a, 0.0)[id].objectives, BestById(b, 0.0)[id].objectives);
  }

  lemma DominatedEitherWay(a: seq<SearchResult>, b: seq<SearchResult>, id: string)
    requires SameFindings(a, b) && id in BestById(a, 0.0) && id in BestById(b, 0.0)
    requires Dominated(BestById(a, 0.0), id, 0.0)
    ensures Dominated(BestById(b, 0.0), id, 0.0)
  {
    hide BestById, Dominates, Appears;
    var other :| other in BestById(a, 0.0) && other != id
              && Dominates(BestById(a, 0.0)[other].objectives, BestById(a, 0.0)[id].objectives, 0.0);
    ArrivalOrderIsIrrelevant(a, b, id);
    ArrivalOrderIsIrrelevant(a, b, other);
  }

  /** Nor does the archive at tolerance zero: the same hypotheses with the same objectives. */
  lemma ArchiveIgnoresArrivalOrder(a: seq<SearchResult>, b: seq<SearchResult>)
    requires SameFindings(a, b)
    ensures Archive(a, 0.0).Keys == Archive(b, 0.0).Keys
    ensures forall id | id in Archive(a, 0.0) :: Archive(b, 0.0)[id].objectives == Archive(a, 0.0)[id].objectives
  {
    hide BestById, Dominated, Appears;
    forall id
      ensures id in Archive(a, 0.0) <==> id in Archive(b, 0.0)
      ensures id in Archive(a, 0.0) ==> Archive(b, 0.0)[id].objectives == Archive(a, 0.0)[id].objectives
    {
      if id in BestById(a, 0.0) {
        ArrivalOrderIsIrrelevant(a, b, id);
        if Dominated(BestById(a, 0.0), id, 0.0) {
          DominatedEitherWay(a, b, id);
        }
      }
      if id in BestById(b, 0.0) {
        ArrivalOrderIsIrrelevant(b, a, id);
        if Dominated(BestById(b, 0.0), id, 0.0) {
          DominatedEitherWay(b, a, id);
        }
      }
    }
  }

  // ---------------------------------------------------------------- the archive

  /** A hypothesis of `some` whose tuple no other one of `some` exceeds. */
  lemma LexGreatestExists(best: map<string, SearchResult>, some: set<string>) returns (top: string)
    requires some != {} && some <= best.Keys
    ensures top in some
    ensures forall id | id in some :: !LexLess(best[top].objectives, best[id].objectives)
    decreases |some|
  {
    hide LexLess;
    var first :| first in some;
    top := first;
    LexTotal(best[first].objectives, best[first].objectives);
    var rest := some - {first};
    assert some == rest + {first};
    if rest != {} {
      var other := LexGreatestExists(best, rest);
      LexTotal(best[first].objectives, best[other].objectives);
      if LexLess(best[first].objectives, best[other].objectives) {
        top := other;
      } else {
        forall id | id in rest
          ensures !LexLess(best[first].objectives, best[id].objectives)
        {
          LexTotal(best[other].objectives, best[id].objectives);
          if best[id].objectives != best[other].objectives && LexLess(best[first].objectives, best[id].objectives) {
            LexTransitive(best[first].objectives, best[id].objectives, best[other].objectives);
          }
        }
      }
    }
  }

  /** Whatever is left out is dominated by something that is kept. */
  lemma LeftOutIsDominated(best: map<string, SearchResult>, id: string)
    requires id in best && id !in Front(best, 0.0)
    ensures exists top :: top in Front(best, 0.0) && Dominates(best[top].objectives, best[id].objectives, 0.0)
  {
    hide Dominates, LexLess;
    var above := set other | other in best && Dominates(best[other].objectives, best[id].objectives, 0.0);
    var other :| other in best && other != id && Dominates(best[other].objectives, best[id].objectives, 0.0);
    assert other in above;
    var top := LexGreatestExists(best, above);
    if Dominated(best, top, 0.0) {
      var higher :| higher in best && higher != top && Dominates(best[higher].objectives, best[top].objectives, 0.0);
      DominatesTransitive(best[higher].objectives, best[top].objectives, best[id].objectives);
      assert higher in above;
      DominationIsLexGreater(best[higher].objectives, best[top].objectives);
    }
    assert top in Front(best, 0.0);
  }

  /**
   The exact archive: it is empty only for an empty input, no member dominates another, and every
   best revision that is left out is dominated by a member.
   */
  lemma ExactArchive(results: seq<SearchResult>)
    ensures var best, front := BestById(results, 0.0), Archive(results, 0.0);
      && (results != [] ==> front != map[])
      && (forall a, b | a in front && b in front :: !Dominates(front[a].objectives, front[b].objectives, 0.0))
      && (forall id | id in best && id !in front ::
            exists top :: top in front && Dominates(front[top].objectives, best[id].objectives, 0.0))
  {
    hide BestById, Dominates;
    var best, front := BestById(results, 0.0), Archive(results, 0.0);
    BestIsFirstGreatest(results);
    if results != [] {
      assert results[0] in results;
      var id := results[0].id;
      if id !in front {
        LeftOutIsDominated(best, id);
      }
    }
    forall a, b | a in front && b in front
      ensures !Dominates(front[a].objectives, front[b].objectives, 0.0)
    {
      if a == b {
        NotOverItself(front[a].objectives, 0.0);
      }
    }
    forall id | id in best && id !in front
      ensures exists top :: top in front && Dominates(front[top].objectives, best[id].objectives, 0.0)
    {
      LeftOutIsDominated(best, id);
      var top :| top in front && Dominates(best[top].objectives, best[id].objectives, 0.0);
      assert front[top] == best[top];
    }
  }

  lemma NotOverItself(v: Vector, eps: real)
    requires eps >= 0.0
    ensures !Dominates(v, v, eps)
  {
  }

  // ---------------------------------------------------------------- the tolerance

  /** No two values of one objective lie within `eps` of each other without being equal. */
  ghost predicate Separated(results: seq<SearchResult>, eps: real) {
    forall i, j, k | 0 <= i < |results| && 0 <= j < |results| && 0 <= k < OBJECTIVES ::
      results[i].objectives[k] > results[j].objectives[k] ==>
        results[i].objectives[k] > results[j].objectives[k] + eps
  }

  lemma SeparatedDominates(results: seq<SearchResult>, eps: real, a: SearchResult, b: SearchResult)
    requires eps >= 0.0 && Separated(results, eps) && a in results && b in results
    ensures Dominates(a.objectives, b.objectives, eps) <==> Dominates(a.objectives, b.objectives, 0.0)
  {
    var i :| 0 <= i < |results| && results[i] == a;
    var j :| 0 <= j < |results| && results[j] == b;
    var l, r := a.objectives, b.objectives;
    forall k | 0 <= k < OBJECTIVES
      ensures l[k] > r[k] ==> l[k] > r[k] + eps
      ensures r[k] > l[k] ==> r[k] > l[k] + eps
    {
      assert results[i].objectives[k] == l[k] && results[j].objectives[k] == r[k];
    }
    assert AtLeast(l, r, eps) <==> AtLeast(l, r, 0.0);
    assert Beyond(l, r, eps) <==> Beyond(l, r, 0.0);
  }

  lemma {:induction false} BestAmong(results: seq<SearchResult>, eps: real)
    ensures forall id | id in BestById(results, eps) :: BestById(results, eps)[id] in results
  {
    hide Replaces;
    if results != [] {
      BestAmong(results[..|results| - 1], eps);
      assert forall r | r in results[..|results| - 1] :: r in results;
      assert results[|results| - 1] in results;
    }
  }

  lemma {:induction false} SeparatedBest(results: seq<SearchResult>, eps: real)
    requires eps >= 0.0 && Separated(results, eps)
    ensures BestById(results, eps) == BestById(results, 0.0)
  {
    hide Dominates, LexLess;
    if results != [] {
      var n := |results| - 1;
      SeparatedPart(results, eps);
      SeparatedBest(results[..n], eps);
      BestAmong(results[..n], eps);
      var best, r := BestById(results[..n], eps), results[n];
      if r.id in best {
        assert best[r.id] in results[..n];
        SeparatedDominates(results, eps, r, best[r.id]);
        SeparatedDominates(results, eps, best[r.id], r);
      }
    }
  }

  lemma SeparatedPart(results: seq<SearchResult>, eps: real)
    requires results != [] && Separated(results, eps)
    ensures Separated(results[..|results| - 1], eps)
  {
    var part := results[..|results| - 1];
    forall i, j, k | 0 <= i < |part| && 0 <= j < |part| && 0 <= k < OBJECTIVES && part[i].objectives[k] > part[j].objectives[k]
      ensures part[i].objectives[k] > part[j].objectives[k] + eps
    {
      assert results[i].objectives[k] > results[j].objectives[k];
    }
  }

  /** On separated inputs the tolerance makes no difference, and the archive is the exact one. */
  lemma SeparatedArchiveIsExact(results: seq<SearchResult>, eps: real)
    requires eps >= 0.0 && Separated(results, eps)
    ensures Archive(results, eps) == Archive(results, 0.0)
  {
    hide Dominates, BestById, Separated;
    SeparatedBest(results, eps);
    BestAmong(results, eps);
    var best := BestById(results, eps);
    forall id, other | id in best && other in best
      ensures Dominates(best[other].objectives, best[id].objectives, eps)
        <==> Dominates(best[other].objectives, best[id].objectives, 0.0)
    {
      SeparatedDominates(results, eps, best[other], best[id]);
    }
    forall id | id in best
      ensures Dominated(best, id, eps) <==> Dominated(best, id, 0.0)
    {
    }
  }

  /** Three hypotheses that dominate each other in a circle under the tolerance `eps`. */
  function Circle(eps: real): (r: seq<SearchResult>)
    ensures |r| == 3
  {
    var top := if 2.0 * eps < 1.0 then 2.0 * eps else 1.0;
    var mid := top / 2.0;
    [SearchResult("a", [top, mid, 0.0, 0.0, 0.0, 0.0, 0.0], [], 0),
     SearchResult("b", [0.0, top, mid, 0.0, 0.0, 0.0, 0.0], [], 1),
     SearchResult("c", [mid, 0.0, top, 0.0, 0.0, 0.0, 0.0], [], 2)]
  }

  lemma CircleBest(eps: real)
    ensures BestById(Circle(eps), eps)
         == map["a" := Circle(eps)[0], "b" := Circle(eps)[1], "c" := Circle(eps)[2]]
  {
    hide Replaces;
    var r := Circle(eps);
    assert "a"[0] != "b"[0] && "a"[0] != "c"[0] && "b"[0] != "c"[0];
    assert r[..2][..1] == r[..1] && r[..1][..0] == [];
    assert BestById(r[..1], eps) == map["a" := r[0]];
    assert BestById(r[..2], eps) == map["a" := r[0], "b" := r[1]];
  }

  lemma CircleNormalized(eps: real)
    requires 0.0 < eps < 1.0
    ensures forall i | 0 <= i < 3 :: Normalized(Circle(eps)[i].objectives)
  {
  }

  /** With any tolerance strictly between zero and one the archive of a circle is empty. */
  lemma CircleArchiveIsEmpty(eps: real)
    requires 0.0 < eps < 1.0
    ensures Archive(Circle(eps), eps) == map[]
  {
    hide BestById, Circle, Dominates;
    CircleBest(eps);
    CircleDominates(eps);
    EmptyCircle(BestById(Circle(eps), eps), Circle(eps)[0], Circle(eps)[1], Circle(eps)[2], eps);
  }

  lemma EmptyCircle(best: map<string, SearchResult>, a: SearchResult, b: SearchResult, c: SearchResult, eps: real)
    requires best == map["a" := a, "b" := b, "c" := c]
    requires Dominates(a.objectives, b.objectives, eps) && Dominates(b.objectives, c.objectives, eps)
    requires Dominates(c.objectives, a.objectives, eps)
    ensures Front(best, eps) == map[]
  {
    hide Dominates;
    assert "a"[0] != "b"[0] && "a"[0] != "c"[0] && "b"[0] != "c"[0];
    assert best["a"] == a && best["b"] == b && best["c"] == c;
    assert Dominated(best, "a", eps) && Dominated(best, "b", eps) && Dominated(best, "c", eps);
    assert forall id | id in best :: id == "a" || id == "b" || id == "c";
  }

  lemma CircleDominates(eps: real)
    requires 0.0 < eps < 1.0
    ensures var r := Circle(eps);
      && Dominates(r[0].objectives, r[1].objectives, eps)
      && Dominates(r[1].objectives, r[2].objectives, eps)
      && Dominates(r[2].objectives, r[0].objectives, eps)
  {
    var r := Circle(eps);
    var a, b, c := r[0].objectives, r[1].objectives, r[2].objectives;
    assert a[0] > b[0] + eps && b[1] > c[1] + eps && c[2] > a[2] + eps;
  }

  ghost predicate AllNormalized(results: seq<SearchResult>) {
    forall i | 0 <= i < |results| :: Normalized(results[i].objectives)
  }

  /** Every non-empty input has a non-empty archive exactly when the tolerance is zero, or one or more. */
  lemma NeverEmptyExactlyAtTheEnds(eps: real)
    requires eps >= 0.0
    ensures (forall results: seq<SearchResult> | results != [] && AllNormalized(results) :: Archive(results, eps) != map[])
      <==> eps == 0.0 || eps >= 1.0
  {
    hide Archive, Normalized;
    if 0.0 < eps < 1.0 {
      CircleNormalized(eps);
      CircleArchiveIsEmpty(eps);
      assert AllNormalized(Circle(eps)) && Archive(Circle(eps), eps) == map[];
    } else if eps == 0.0 {
      forall results: seq<SearchResult> | results != []
        ensures Archive(results, eps) != map[]
      {
        ExactArchive(results);
      }
    } else {
      forall results: seq<SearchResult> | results != [] && AllNormalized(results)
        ensures Archive(results, eps) != map[]
      {
        WideArchive(results, eps);
      }
    }
  }

  lemma WideArchive(results: seq<SearchResult>, eps: real)
    requires eps >= 1.0 && results != [] && AllNormalized(results)
    ensures Archive(results, eps) != map[]
  {
    hide BestById;
    var best := BestById(results, eps);
    BestAmong(results, eps);
    LastIsKnown(results, eps);
    var id := results[|results| - 1].id;
    forall other | other in best
      ensures !Dominates(best[other].objectives, best[id].objectives, eps)
    {
      var i :| 0 <= i < |results| && results[i] == best[other];
      var j :| 0 <= j < |results| && results[j] == best[id];
      assert Normalized(results[i].objectives) && Normalized(results[j].objectives);
    }
    assert id in Archive(results, eps);
  }

  lemma LastIsKnown(results: seq<SearchResult>, eps: real)
    requires results != []
    ensures results[|results| - 1].id in BestById(results, eps)
  {
  }

  // ---------------------------------------------------------------- the archive as loops

  /** `pareto_front`. */
  method ComputeFront(results: seq<SearchResult>, eps: real) returns (front: map<string, SearchResult>)
    ensures front == Archive(results, eps)
  {
    hide Dominates, LexLess;
    var best: map<string, SearchResult> := map[];
    for i := 0 to |results|
      invariant best == BestById(results[..i], eps)
    {
      var result := results[i];
      assert results[..i + 1][..i] == results[..i];
      if result.id !in best || Dominates(result.objectives, best[result.id].objectives, eps) {
        best := best[result.id := result];
      } else if !Dominates(best[result.id].objectives, result.objectives, eps) {
        if LexLess(best[result.id].objectives, result.objectives) {
          best := best[result.id := result];
        }
      }
    }
    assert results[..|results|] == results;
    front := map[];
    var rest := best.Keys;
    while rest != {}
      invariant rest <= best.Keys
      invariant front == map id | id in best && id !in rest && !Dominated(best, id, eps) :: best[id]
    {
      var id :| id in rest;
      var beaten := exists other | other in best :: other != id && Dominates(best[other].objectives, best[id].objectives, eps);
      if !beaten {
        front := front[id := best[id]];
      }
      rest := rest - {id};
    }
  }
}
