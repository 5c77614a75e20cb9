/**
 Holm-Bonferroni adjustment, as `src/experiments/scoring.py` and `src/evaluation/statistics.py`
 each compute it: one pass over the ascending p-values with a running maximum.  The sort is a
 parameter, any ascending listing of the indices; the result is shown not to depend on it.
 */
module Holm {

  /** `order` lists every index once, by ascending p-value; ties in any order. */
  ghost predicate Sorts(p: seq<real>, order: seq<nat>) {
    && |order| == |p|
    && (forall k | 0 <= k < |order| :: order[k] < |p|)
    && (forall j, k | 0 <= j < k < |order| :: order[j] != order[k] && p[order[j]] <= p[order[k]])
    && (forall i | 0 <= i < |p| :: i in order)
  }

  /** The p-values lie between zero and one. */
  ghost predicate Probabilities(p: seq<real>) {
    forall i | 0 <= i < |p| :: 0.0 <= p[i] <= 1.0
  }

  function Capped(x: real): real {
    if x < 1.0 then x else 1.0
  }

  function Larger(a: real, b: real): real {
    if a >= b then a else b
  }

  /** The p-value of rank `k`, times the number of hypotheses still open. */
  function Scaled(p: seq<real>, order: seq<nat>, k: nat): real
    requires k < |order| == |p| && order[k] < |p|
  {
    (|p| - k) as real * p[order[k]]
  }

  /** `running` after ranks `0`, ..., `k - 1`. */
  function Running(p: seq<real>, order: seq<nat>, k: nat): real
    requires k <= |order| == |p| && forall j | 0 <= j < |order| :: order[j] < |p|
  {
    if k == 0 then 0.0 else Larger(Running(p, order, k - 1), Capped(Scaled(p, order, k - 1)))
  }

  // ---------------------------------------------------------------- a definition without an order

  /** How many p-values are strictly below `x`. */
  function Below(p: seq<real>, x: real): nat {
    if p == [] then 0 else Below(p[..|p| - 1], x) + if p[|p| - 1] < x then 1 else 0
  }

  /** The contribution of hypothesis `j`: its p-value times the hypotheses with none smaller. */
  function Weighted(p: seq<real>, j: nat): real
    requires j < |p|
  {
    Capped((|p| - Below(p, p[j])) as real * p[j])
  }

  /** `v` is the greatest contribution among the hypotheses with a p-value up to that of `i`. */
  ghost predicate IsHolm(p: seq<real>, i: nat, v: real)
    requires i < |p|
  {
    && (forall j | 0 <= j < |p| && p[j] <= p[i] :: Weighted(p, j) <= v)
    && (exists j :: 0 <= j < |p| && p[j] <= p[i] && Weighted(p, j) == v)
  }

  lemma {:induction false} BelowBounds(p: seq<real>, x: real)
    ensures Below(p, x) <= |p|
    ensures (exists i :: 0 <= i < |p| && !(p[i] < x)) ==> Below(p, x) < |p|
  {
    if p != [] {
      BelowBounds(p[..|p| - 1], x);
      if i :| 0 <= i < |p| && !(p[i] < x) {
        if i < |p| - 1 {
          assert !(p[..|p| - 1][i] < x);
        }
      }
    }
  }

  /** How many of the first `n` ranks are strictly below `x`. */
  function RanksBelow(p: seq<real>, order: seq<nat>, x: real, n: nat): nat
    requires n <= |order| && forall j | 0 <= j < |order| :: order[j] < |p|
  {
    if n == 0 then 0 else RanksBelow(p, order, x, n - 1) + if p[order[n - 1]] < x then 1 else 0
  }

  function IndicesBelow(p: seq<real>, x: real): set<nat> {
    set i | 0 <= i < |p| && p[i] < x
  }

  lemma {:induction false} BelowIsSize(p: seq<real>, x: real)
    ensures Below(p, x) == |IndicesBelow(p, x)|
  {
    if p != [] {
      var n := |p| - 1;
      BelowIsSize(p[..n], x);
      assert IndicesBelow(p, x) == IndicesBelow(p[..n], x) + if p[n] < x then {n} else {};
    }
  }

  lemma {:induction false} RanksAreSize(p: seq<real>, order: seq<nat>, x: real, n: nat)
    requires n <= |order| && forall j | 0 <= j < |order| :: order[j] < |p|
    requires forall j, k | 0 <= j < k < |order| :: order[j] != order[k]
    ensures RanksBelow(p, order, x, n) == |set k | 0 <= k < n && p[order[k]] < x :: order[k]|
  {
    if n > 0 {
      RanksAreSize(p, order, x, n - 1);
      var before := set k | 0 <= k < n - 1 && p[order[k]] < x :: order[k];
      var now := set k | 0 <= k < n && p[order[k]] < x :: order[k];
      assert now == before + if p[order[n - 1]] < x then {order[n - 1]} else {};
      assert order[n - 1] !in before;
    }
  }

  lemma RanksCountAll(p: seq<real>, order: seq<nat>, x: real)
    requires Sorts(p, order)
    ensures RanksBelow(p, order, x, |order|) == Below(p, x)
  {
    RanksAreSize(p, order, x, |order|);
    BelowIsSize(p, x);
    var listed := set k | 0 <= k < |order| && p[order[k]] < x :: order[k];
    forall i | i in IndicesBelow(p, x)
      ensures i in listed
    {
      assert i in order;
      var k :| 0 <= k < |order| && order[k] == i;
    }
    assert listed == IndicesBelow(p, x);
  }

  /** In an ascending order the values below that of rank `k` come before it. */
  lemma {:induction false} RanksStop(p: seq<real>, order: seq<nat>, k: nat, n: nat)
    requires Sorts(p, order) && k < |order| && n <= |order|
    ensures n <= k ==> RanksBelow(p, order, p[order[k]], n) <= n
    ensures n > k ==> RanksBelow(p, order, p[order[k]], n) == RanksBelow(p, order, p[order[k]], k) <= k
    decreases n
  {
    if n > 0 {
      RanksStop(p, order, k, n - 1);
      if n - 1 > k {
        assert p[order[k]] <= p[order[n - 1]];
      }
    }
  }

  lemma {:induction false} RanksFull(p: seq<real>, order: seq<nat>, x: real, n: nat)
    requires n <= |order| && (forall j | 0 <= j < |order| :: order[j] < |p|)
    requires forall j | 0 <= j < n :: p[order[j]] < x
    ensures RanksBelow(p, order, x, n) == n
  {
    if n > 0 {
      RanksFull(p, order, x, n - 1);
    }
  }

  /** Rank `k` is at least the number of smaller values, and equal to it at the head of its tie. */
  lemma RankOfTie(p: seq<real>, order: seq<nat>, k: nat)
    requires Sorts(p, order) && k < |order|
    ensures Below(p, p[order[k]]) <= k
    ensures (forall j | 0 <= j < k :: p[order[j]] < p[order[k]]) ==> Below(p, p[order[k]]) == k
  {
    RanksCountAll(p, order, p[order[k]]);
    RanksStop(p, order, k, |order|);
    if forall j | 0 <= j < k :: p[order[j]] < p[order[k]] {
      RanksFull(p, order, p[order[k]], k);
    }
  }

  /** The head of the tie that rank `k` belongs to. */
  lemma {:induction false} TieHead(p: seq<real>, order: seq<nat>, k: nat) returns (head: nat)
    requires Sorts(p, order) && k < |order|
    ensures head <= k && p[order[head]] == p[order[k]] && Below(p, p[order[k]]) == head
    decreases k
  {
    if k > 0 && p[order[k - 1]] == p[order[k]] {
      head := TieHead(p, order, k - 1);
    } else {
      head := k;
      assert k > 0 ==> p[order[k - 1]] < p[order[k]];
      RankOfTie(p, order, k);
    }
  }

  lemma ScaledAtMostWeighted(p: seq<real>, order: seq<nat>, k: nat)
    requires Sorts(p, order) && Probabilities(p) && k < |order|
    ensures Capped(Scaled(p, order, k)) <= Weighted(p, order[k])
    ensures Below(p, p[order[k]]) == k ==> Capped(Scaled(p, order, k)) == Weighted(p, order[k])
  {
    hide Below;
    RankOfTie(p, order, k);
    var x, a, b := p[order[k]], (|p| - k) as real, (|p| - Below(p, p[order[k]])) as real;
    assert x >= 0.0 && a <= b;
    Product(x, a, b);
  }

  lemma Product(x: real, a: real, b: real)
    requires x >= 0.0 && a <= b
    ensures a * x <= b * x
  {
  }

  /** The running maximum dominates each contribution met so far and is one of them. */
  lemma {:induction false} RunningIsMaximum(p: seq<real>, order: seq<nat>, k: nat)
    requires Sorts(p, order) && Probabilities(p) && k < |order|
    ensures forall j | 0 <= j <= k :: Capped(Scaled(p, order, j)) <= Running(p, order, k + 1)
    ensures exists j :: 0 <= j <= k && Running(p, order, k + 1) == Capped(Scaled(p, order, j))
    decreases k
  {
    hide Scaled, Capped;
    ScaledPositive(p, order, k);
    if k > 0 {
      RunningIsMaximum(p, order, k - 1);
      var j :| 0 <= j <= k - 1 && Running(p, order, k) == Capped(Scaled(p, order, j));
      assert Running(p, order, k + 1) == Capped(Scaled(p, order, j)) || Running(p, order, k + 1) == Capped(Scaled(p, order, k));
    } else {
      assert Running(p, order, 0) == 0.0;
      assert Running(p, order, 1) == Capped(Scaled(p, order, 0));
    }
  }

  lemma ScaledPositive(p: seq<real>, order: seq<nat>, k: nat)
    requires Sorts(p, order) && Probabilities(p) && k < |order|
    ensures Capped(Scaled(p, order, k)) >= 0.0
  {
    assert p[order[k]] >= 0.0;
    Product(p[order[k]], 0.0, (|p| - k) as real);
  }

  /** What the pass computes, without mention of the order it went in. */
  lemma RunningIsHolm(p: seq<real>, order: seq<nat>, k: nat)
    requires Sorts(p, order) && Probabilities(p) && k < |order|
    ensures IsHolm(p, order[k], Running(p, order, k + 1))
  {
    hide Running, Scaled, Weighted, Below, Capped;
    RunningIsMaximum(p, order, k);
    var v := Running(p, order, k + 1);
    forall i | 0 <= i < |p| && p[i] <= p[order[k]]
      ensures Weighted(p, i) <= v
    {
      assert i in order;
      var r :| 0 <= r < |order| && order[r] == i;
      HeadCovers(p, order, r, k, v);
    }
    var j :| 0 <= j <= k && v == Capped(Scaled(p, order, j));
    ScaledAtMostWeighted(p, order, j);
    assert p[order[j]] <= p[order[k]];
    assert Weighted(p, order[j]) == v;
  }

  lemma HeadCovers(p: seq<real>, order: seq<nat>, r: nat, k: nat, v: real)
    requires Sorts(p, order) && Probabilities(p) && r < |order| && k < |order| && p[order[r]] <= p[order[k]]
    requires forall j | 0 <= j <= k :: Capped(Scaled(p, order, j)) <= v
    ensures Weighted(p, order[r]) <= v
  {
    hide Scaled, Below, Capped;
    var head := TieHead(p, order, r);
    ScaledAtMostWeighted(p, order, head);
    WeightedOfEqual(p, order[head], order[r]);
    var first := TieHead(p, order, k);
  }

  lemma WeightedOfEqual(p: seq<real>, i: nat, j: nat)
    requires i < |p| && j < |p| && p[i] == p[j]
    ensures Weighted(p, i) == Weighted(p, j)
  {
  }

  lemma HolmIsUnique(p: seq<real>, i: nat, v: real, w: real)
    requires i < |p| && IsHolm(p, i, v) && IsHolm(p, i, w)
    ensures v == w
  {
    hide Weighted;
  }

  // ---------------------------------------------------------------- the promised properties

  lemma WeightedBounds(p: seq<real>, i: nat)
    requires Probabilities(p) && i < |p|
    ensures p[i] <= Weighted(p, i) <= 1.0
  {
    hide Below, Probabilities;
    BelowBounds(p, p[i]);
    InRange(p, i);
    CappedProduct(p[i], (|p| - Below(p, p[i])) as real);
  }

  lemma InRange(p: seq<real>, i: nat)
    requires Probabilities(p) && i < |p|
    ensures 0.0 <= p[i] <= 1.0
  {
  }

  lemma CappedProduct(x: real, k: real)
    requires 0.0 <= x <= 1.0 && k >= 1.0
    ensures x <= Capped(k * x) <= 1.0
  {
    Product(x, 1.0, k);
  }

  /** Adjusted values are at least the raw ones, at most one, and grow with them. */
  lemma HolmBounds(p: seq<real>, i: nat, v: real, j: nat, w: real)
    requires Probabilities(p) && i < |p| && j < |p| && IsHolm(p, i, v) && IsHolm(p, j, w)
    ensures p[i] <= v <= 1.0
    ensures p[i] <= p[j] ==> v <= w
  {
    hide Weighted, Probabilities;
    WeightedBounds(p, i);
    var k :| 0 <= k < |p| && p[k] <= p[i] && Weighted(p, k) == v;
    WeightedBounds(p, k);
  }

  // ---------------------------------------------------------------- what the adjustment is for

  /** With the least p-value among `nulls`, hypothesis `j` is still open against all of them. */
  lemma OpenAgainstNulls(p: seq<real>, nulls: set<nat>, j: nat)
    requires j < |p| && forall i | i in nulls :: i < |p| && p[i] >= p[j]
    ensures |nulls| <= |p| - Below(p, p[j])
  {
    BelowIsSize(p, p[j]);
    var below := IndicesBelow(p, p[j]);
    assert below !! nulls;
    Together(|p|, below + nulls);
    assert |below + nulls| == |below| + |nulls|;
  }

  lemma {:induction false} Together(n: nat, some: set<nat>)
    requires forall i | i in some :: i < n
    ensures |some| <= n
  {
    if n > 0 {
      Together(n - 1, some - {n - 1});
      assert some <= (some - {n - 1}) + {n - 1};
      assert |some| <= |some - {n - 1}| + 1;
    } else {
      assert some == {};
    }
  }

  lemma {:induction false} LeastOf(p: seq<real>, some: set<nat>) returns (j: nat)
    requires some != {} && forall i | i in some :: i < |p|
    ensures j in some && forall i | i in some :: p[j] <= p[i]
  {
    var k :| k in some;
    if some == {k} {
      j := k;
    } else {
      var rest := some - {k};
      assert some == rest + {k};
      j := LeastOf(p, rest);
      if p[k] < p[j] {
        j := k;
      }
    }
  }

  /**
   Family-wise error control: whatever hypotheses are true, if none of them has a p-value within its equal share of
   the level, none is rejected.  By the union bound the probability of a false rejection is at most the level.
   */
  lemma TrueNullsAreSpared(p: seq<real>, order: seq<nat>, alpha: real, nulls: set<nat>, k: nat)
    requires Sorts(p, order) && Probabilities(p) && 0.0 <= alpha < 1.0 && k < |order|
    requires order[k] in nulls && forall i | i in nulls :: i < |p| && |nulls| as real * p[i] > alpha
    ensures Running(p, order, k + 1) > alpha
  {
    hide Running, Below, Sorts, Probabilities;
    var j := LeastOf(p, nulls);
    OpenAgainstNulls(p, nulls, j);
    InRange(p, j);
    Product(p[j], |nulls| as real, (|p| - Below(p, p[j])) as real);
    assert Weighted(p, j) > alpha;
    RunningIsHolm(p, order, k);
    assert p[j] <= p[order[k]];
  }

  lemma WeightedAtMost(p: seq<real>, j: nat)
    requires Probabilities(p) && j < |p|
    ensures Weighted(p, j) <= |p| as real * p[j]
  {
    hide Below, Probabilities;
    InRange(p, j);
    Product(p[j], (|p| - Below(p, p[j])) as real, |p| as real);
  }

  /** It is never weaker than the adjustment by the number of all hypotheses. */
  lemma AtMostBonferroni(p: seq<real>, order: seq<nat>, k: nat)
    requires Sorts(p, order) && Probabilities(p) && k < |order|
    ensures Running(p, order, k + 1) <= |p| as real * p[order[k]]
  {
    hide Running, Weighted, Probabilities;
    RunningIsHolm(p, order, k);
    var i, v := order[k], Running(p, order, k + 1);
    var j :| 0 <= j < |p| && p[j] <= p[i] && Weighted(p, j) == v;
    WeightedAtMost(p, j);
    LeftProduct(|p| as real, p[j], p[i]);
  }

  lemma LeftProduct(k: real, x: real, y: real)
    requires k >= 0.0 && x <= y
    ensures k * x <= k * y
  {
  }

  /** The step-down procedure at level `alpha`: how many ranks are rejected before the first failure. */
  function Rejections(p: seq<real>, order: seq<nat>, alpha: real, k: nat): (n: nat)
    requires k <= |order| == |p| && forall j | 0 <= j < |order| :: order[j] < |p|
    ensures k <= n <= |order|
    decreases |order| - k
  {
    if k == |order| || p[order[k]] > alpha / (|p| - k) as real then k
    else Rejections(p, order, alpha, k + 1)
  }

  lemma {:induction false} RejectionsAre(p: seq<real>, order: seq<nat>, alpha: real, k: nat, r: nat)
    requires k <= r < |order| == |p| && forall j | 0 <= j < |order| :: order[j] < |p|
    ensures r < Rejections(p, order, alpha, k) <==> forall j | k <= j <= r :: Scaled(p, order, j) <= alpha
    decreases |order| - k
  {
    Threshold(p, order, alpha, k);
    hide Scaled;
    if p[order[k]] <= alpha / (|p| - k) as real {
      if k < r {
        RejectionsAre(p, order, alpha, k + 1, r);
      } else {
        assert Rejections(p, order, alpha, k + 1) >= k + 1;
      }
    }
  }

  lemma Threshold(p: seq<real>, order: seq<nat>, alpha: real, k: nat)
    requires k < |order| == |p| && order[k] < |p|
    ensures p[order[k]] <= alpha / (|p| - k) as real <==> Scaled(p, order, k) <= alpha
  {
    var m, x := (|p| - k) as real, p[order[k]];
    var q := alpha / m;
    assert q * m == alpha;
    if x <= q {
      Product(m, x, q);
    } else {
      Strictly(m, q, x);
    }
  }

  lemma Strictly(m: real, a: real, b: real)
    requires m > 0.0 && a < b
    ensures a * m < b * m
  {
  }

  lemma {:induction false} RunningWithin(p: seq<real>, order: seq<nat>, alpha: real, k: nat)
    requires Sorts(p, order) && Probabilities(p) && k <= |order| && 0.0 <= alpha < 1.0
    ensures Running(p, order, k) <= alpha <==> forall j | 0 <= j < k :: Scaled(p, order, j) <= alpha
  {
    hide Scaled;
    if k > 0 {
      RunningWithin(p, order, alpha, k - 1);
    }
  }

  /** Below level one, an adjusted value is within the level exactly when step-down rejects. */
  lemma AdjustedMatchesStepDown(p: seq<real>, order: seq<nat>, alpha: real, k: nat)
    requires Sorts(p, order) && Probabilities(p) && k < |order| && 0.0 <= alpha < 1.0
    ensures Running(p, order, k + 1) <= alpha <==> k < Rejections(p, order, alpha, 0)
  {
    hide Running, Scaled, Rejections;
    RunningWithin(p, order, alpha, k + 1);
    RejectionsAre(p, order, alpha, 0, k);
  }

  /** An adjusted value is within the level exactly when step-down rejects its rank. */
  predicate SameVerdict(p: seq<real>, order: seq<nat>, alpha: real, k: nat)
    requires k < |order| == |p| && forall j | 0 <= j < |order| :: order[j] < |p|
  {
    Running(p, order, k + 1) <= alpha <==> k < Rejections(p, order, alpha, 0)
  }

  ghost predicate AlwaysAgree(alpha: real) {
    forall p: seq<real>, order: seq<nat>, k: nat | Sorts(p, order) && Probabilities(p) && k < |order| ::
      SameVerdict(p, order, alpha, k)
  }

  /** `n` p-values of one, in the order of their indices. */
  function Ones(n: nat): (p: seq<real>)
    ensures |p| == n && forall i | 0 <= i < n :: p[i] == 1.0
  {
    seq(n, _ => 1.0)
  }

  function InOrder(n: nat): (order: seq<nat>)
    ensures |order| == n && forall i | 0 <= i < n :: order[i] == i
  {
    seq(n, i => i)
  }

  /** From level one on every adjusted value is within the level, but step-down still stops where there are enough. */
  lemma OnesPart(alpha: real, n: nat)
    requires 1.0 <= alpha < n as real
    ensures Sorts(Ones(n), InOrder(n)) && Probabilities(Ones(n)) && !SameVerdict(Ones(n), InOrder(n), alpha, 0)
  {
    var p, order := Ones(n), InOrder(n);
    forall i | 0 <= i < |p|
      ensures i in order
    {
      assert order[i] == i;
    }
    assert Scaled(p, order, 0) == n as real;
    Threshold(p, order, alpha, 0);
    assert Rejections(p, order, alpha, 0) == 0;
    assert Running(p, order, 0) == 0.0 && Running(p, order, 1) == 1.0;
  }

  /** The adjustment and the step-down procedure agree on all inputs exactly below level one. */
  lemma AgreeExactlyBelowOne(alpha: real)
    requires alpha >= 0.0
    ensures AlwaysAgree(alpha) <==> alpha < 1.0
  {
    hide Probabilities, SameVerdict;
    if alpha < 1.0 {
      forall p: seq<real>, order: seq<nat>, k: nat | Sorts(p, order) && Probabilities(p) && k < |order|
        ensures SameVerdict(p, order, alpha, k)
      {
        Agree(p, order, alpha, k);
      }
    } else {
      var n := alpha.Floor + 1;
      OnesPart(alpha, n);
    }
  }

  lemma Agree(p: seq<real>, order: seq<nat>, alpha: real, k: nat)
    requires Sorts(p, order) && Probabilities(p) && k < |order| && 0.0 <= alpha < 1.0
    ensures SameVerdict(p, order, alpha, k)
  {
    hide Running, Rejections;
    AdjustedMatchesStepDown(p, order, alpha, k);
  }

  // ---------------------------------------------------------------- the two implementations

  /** `holm` of `src/experiments/scoring.py`. */
  method Adjust(p: seq<real>, order: seq<nat>) returns (adjusted: seq<real>)
    requires Sorts(p, order) && Probabilities(p)
    ensures |adjusted| == |p| && forall i | 0 <= i < |p| :: IsHolm(p, i, adjusted[i])
  {
    hide IsHolm, Scaled, Capped;
    adjusted := seq(|p|, _ => 0.0);
    var running := 0.0;
    for rank := 0 to |order|
      invariant |adjusted| == |p| && running == Running(p, order, rank)
      invariant forall k | 0 <= k < rank :: IsHolm(p, order[k], adjusted[order[k]])
    {
      var index := order[rank];
      var value := Capped(Scaled(p, order, rank));
      running := Larger(running, value);
      RunningIsHolm(p, order, rank);
      adjusted := adjusted[index := running];
    }
    forall i | 0 <= i < |p|
      ensures IsHolm(p, i, adjusted[i])
    {
      assert i in order;
      var k :| 0 <= k < |order| && order[k] == i;
    }
  }

  class Result {
    const raw: real
    var holm: real

    constructor (raw: real)
      ensures this.raw == raw
    {
      this.raw, this.holm := raw, 0.0;
    }
  }

  ghost function RawValues(results: array<Result>): seq<real>
    reads results
  {
    seq(results.Length, i requires 0 <= i < results.Length reads results => results[i].raw)
  }

  /** `_holm` of `src/evaluation/statistics.py`, which writes into the result rows. */
  method AdjustInPlace(results: array<Result>, order: seq<nat>)
    requires forall i, j | 0 <= i < j < results.Length :: results[i] != results[j]
    requires Sorts(RawValues(results), order) && Probabilities(RawValues(results))
    modifies results[..]
    ensures RawValues(results) == old(RawValues(results))
    ensures forall i | 0 <= i < results.Length :: IsHolm(RawValues(results), i, results[i].holm)
  {
    hide IsHolm, Scaled, Capped;
    ghost var p := RawValues(results);
    var running := 0.0;
    var total := |order|;
    for rank := 0 to total
      invariant running == Running(p, order, rank) && RawValues(results) == p
      invariant forall k | 0 <= k < rank :: IsHolm(p, order[k], results[order[k]].holm)
    {
      var index := order[rank];
      var value := (total - rank) as real * results[index].raw;
      assert value == Scaled(p, order, rank) by { ScaledIs(p, order, rank); }
      running := Larger(running, Capped(value));
      RunningIsHolm(p, order, rank);
      results[index].holm := running;
    }
    forall i | 0 <= i < |p|
      ensures IsHolm(p, i, results[i].holm)
    {
      assert i in order;
      var k :| 0 <= k < |order| && order[k] == i;
    }
  }

  lemma ScaledIs(p: seq<real>, order: seq<nat>, k: nat)
    requires k < |order| == |p| && order[k] < |p|
    ensures Scaled(p, order, k) == (|order| - k) as real * p[order[k]]
  {
  }

  /** Ties may be sorted either way, and either implementation may run: the values are the same. */
  lemma ImplementationsAgree(p: seq<real>, a: seq<nat>, b: seq<nat>, j: nat, k: nat)
    requires Sorts(p, a) && Sorts(p, b) && Probabilities(p) && j < |a| && k < |b| && a[j] == b[k]
    ensures Running(p, a, j + 1) == Running(p, b, k + 1)
  {
    hide Running, IsHolm;
    RunningIsHolm(p, a, j);
    RunningIsHolm(p, b, k);
    HolmIsUnique(p, a[j], Running(p, a, j + 1), Running(p, b, k + 1));
  }
}
