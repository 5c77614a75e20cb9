/**
 Expected calibration error, computed twice in the repository: with a dictionary of bins in
 `src/experiments/scoring.py` and with ten half-open intervals in `src/evaluation/challenge.py`.
 Over exact reals the two agree, and the error is bounded by the absolute and squared errors.
 */
module Calibration {

  const BINS := 10

  /** A confidence and the outcome it was about: `0.0` or `1.0`. */
  datatype Judged = Judged(confidence: real, outcome: real)

  ghost predicate InRange(js: seq<Judged>) {
    forall i | 0 <= i < |js| :: 0.0 <= js[i].confidence <= 1.0 && (js[i].outcome == 0.0 || js[i].outcome == 1.0)
  }

  function Abs(x: real): real {
    if x < 0.0 then -x else x
  }

  /** `min(9, int(p * 10))`; on non-negative values `int` is the floor. */
  function BinOf(p: real): int {
    if (p * 10.0).Floor < 9 then (p * 10.0).Floor else 9
  }

  /** The interval test of the other implementation. */
  predicate InBin(p: real, b: nat) {
    b as real / 10.0 <= p < (b + 1) as real / 10.0 || (b == BINS - 1 && p == 1.0)
  }

  function Members(js: seq<Judged>, b: int): seq<Judged> {
    if js == [] then []
    else Members(js[..|js| - 1], b) + if BinOf(js[|js| - 1].confidence) == b then [js[|js| - 1]] else []
  }

  function Confidences(js: seq<Judged>): real {
    if js == [] then 0.0 else Confidences(js[..|js| - 1]) + js[|js| - 1].confidence
  }

  function Outcomes(js: seq<Judged>): real {
    if js == [] then 0.0 else Outcomes(js[..|js| - 1]) + js[|js| - 1].outcome
  }

  /** The sum of outcome minus confidence. */
  function Gap(js: seq<Judged>): real {
    if js == [] then 0.0 else Gap(js[..|js| - 1]) + (js[|js| - 1].outcome - js[|js| - 1].confidence)
  }

  /** The sum of the absolute errors. */
  function AbsoluteErrors(js: seq<Judged>): real {
    if js == [] then 0.0 else AbsoluteErrors(js[..|js| - 1]) + Abs(js[|js| - 1].outcome - js[|js| - 1].confidence)
  }

  function Square(x: real): real {
    x * x
  }

  /** The sum of the squared errors. */
  function SquaredErrors(js: seq<Judged>): real {
    if js == [] then 0.0
    else SquaredErrors(js[..|js| - 1]) + Square(js[|js| - 1].confidence - js[|js| - 1].outcome)
  }

  /** The error of the bins below `b`, times the number of predictions. */
  function Errors(js: seq<Judged>, b: nat): real {
    if b == 0 then 0.0 else Errors(js, b - 1) + Abs(Gap(Members(js, b - 1)))
  }

  /** The expected calibration error: the average distance, bin by bin, of confidence and outcome. */
  function Ece(js: seq<Judged>): real
    requires js != []
  {
    Errors(js, BINS) / |js| as real
  }

  function Mae(js: seq<Judged>): real
    requires js != []
  {
    AbsoluteErrors(js) / |js| as real
  }

  function Brier(js: seq<Judged>): real
    requires js != []
  {
    SquaredErrors(js) / |js| as real
  }

  // ---------------------------------------------------------------- the bins

  /** The two ways of choosing a bin agree on every confidence in range. */
  lemma BinsAgree(p: real, b: nat)
    requires 0.0 <= p <= 1.0 && b < BINS
    ensures InBin(p, b) <==> BinOf(p) == b
    ensures 0 <= BinOf(p) < BINS
    ensures BinOf(p) == b <==> b <= 9 && (b as real <= 10.0 * p < b as real + 1.0 || (b == 9 && p == 1.0))
  {
    var k := (p * 10.0).Floor;
    assert k as real <= p * 10.0 < (k + 1) as real;
    assert b as real / 10.0 <= p <==> b as real <= p * 10.0;
    assert p < (b + 1) as real / 10.0 <==> p * 10.0 < (b + 1) as real;
  }

  lemma {:induction false} GapSplits(js: seq<Judged>)
    ensures Gap(js) == Outcomes(js) - Confidences(js)
  {
    if js != [] {
      GapSplits(js[..|js| - 1]);
    }
  }

  // ---------------------------------------------------------------- bounds

  lemma {:induction false} GapWithin(js: seq<Judged>)
    ensures Abs(Gap(js)) <= AbsoluteErrors(js)
  {
    if js != [] {
      GapWithin(js[..|js| - 1]);
    }
  }

  /** The absolute errors of the bins below `b`. */
  function BinnedErrors(js: seq<Judged>, b: nat): real {
    if b == 0 then 0.0 else BinnedErrors(js, b - 1) + AbsoluteErrors(Members(js, b - 1))
  }

  lemma {:induction false} ErrorsWithin(js: seq<Judged>, b: nat)
    ensures 0.0 <= Errors(js, b) <= BinnedErrors(js, b)
  {
    hide Gap, AbsoluteErrors, Members;
    if b > 0 {
      ErrorsWithin(js, b - 1);
      GapWithin(Members(js, b - 1));
    }
  }

  /** One more prediction adds its error to exactly the bin it falls into. */
  lemma {:induction false} OneMoreError(js: seq<Judged>, j: Judged, b: nat)
    ensures BinnedErrors(js + [j], b)
         == BinnedErrors(js, b) + if 0 <= BinOf(j.confidence) < b then Abs(j.outcome - j.confidence) else 0.0
  {
    hide BinOf;
    var all := js + [j];
    assert all[..|all| - 1] == js;
    if b > 0 {
      OneMoreError(js, j, b - 1);
      var before := Members(js, b - 1);
      if BinOf(j.confidence) == b - 1 {
        assert (before + [j])[..|before|] == before;
      } else {
        assert before + [] == before;
      }
    }
  }

  lemma {:induction false} BinsOfNothing(b: nat)
    ensures BinnedErrors([], b) == 0.0
  {
    if b > 0 {
      BinsOfNothing(b - 1);
    }
  }

  lemma {:induction false} BinsPartition(js: seq<Judged>)
    requires InRange(js)
    ensures BinnedErrors(js, BINS) == AbsoluteErrors(js)
  {
    hide BinOf, Abs;
    if js == [] {
      BinsOfNothing(BINS);
    } else {
      var n := |js| - 1;
      BinsPartition(js[..n]);
      OneMoreError(js[..n], js[n], BINS);
      assert js[..n] + [js[n]] == js;
      BinsAgree(js[n].confidence, 0);
    }
  }

  lemma Divide(a: real, b: real, k: real)
    requires a <= b && k > 0.0
    ensures a / k <= b / k
  {
    var q, r := a / k, b / k;
    assert q * k == a && r * k == b;
    if r < q {
      Scale(r, q, k);
    }
  }

  lemma Scale(a: real, b: real, k: real)
    requires a < b && k > 0.0
    ensures a * k < b * k
  {
  }

  /** The calibration error is at most the mean absolute error. */
  lemma EceWithinMae(js: seq<Judged>)
    requires js != [] && InRange(js)
    ensures 0.0 <= Ece(js) <= Mae(js)
  {
    hide Errors, AbsoluteErrors, BinnedErrors;
    ErrorsWithin(js, BINS);
    BinsPartition(js);
    Divide(0.0, Errors(js, BINS), |js| as real);
    Divide(Errors(js, BINS), AbsoluteErrors(js), |js| as real);
  }

  /** Cauchy-Schwarz for the absolute errors, one prediction at a time. */
  lemma {:induction false} SquareOfErrors(js: seq<Judged>)
    ensures Square(AbsoluteErrors(js)) <= |js| as real * SquaredErrors(js)
    ensures AbsoluteErrors(js) >= 0.0 && SquaredErrors(js) >= 0.0
  {
    if js != [] {
      var n := |js| - 1;
      SquareOfErrors(js[..n]);
      var a, s, e := AbsoluteErrors(js[..n]), SquaredErrors(js[..n]), Abs(js[n].outcome - js[n].confidence);
      assert Square(js[n].confidence - js[n].outcome) == Square(e);
      CauchyStep(a, s, e, n as real);
    }
  }

  lemma CauchyStep(a: real, s: real, e: real, n: real)
    requires Square(a) <= n * s && s >= 0.0 && n >= 0.0 && a >= 0.0 && e >= 0.0
    requires n == 0.0 ==> s == 0.0
    ensures Square(a + e) <= (n + 1.0) * (s + Square(e)) && Square(e) >= 0.0
  {
    assert (n + 1.0) * (s + Square(e)) == n * s + s + n * Square(e) + Square(e);
    assert Square(a + e) == Square(a) + 2.0 * (a * e) + Square(e);
    Middle(a, s, e, n);
  }

  /** `2ae <= s + n e^2`, from `a^2 <= n s`. */
  lemma Middle(a: real, s: real, e: real, n: real)
    requires Square(a) <= n * s && s >= 0.0 && n >= 0.0 && a >= 0.0 && e >= 0.0
    requires n == 0.0 ==> s == 0.0
    ensures 2.0 * (a * e) <= s + n * Square(e)
  {
    if n == 0.0 {
      assert Square(a) <= 0.0;
      if a > 0.0 {
        Scale(0.0, a, a);
      }
    } else {
      var d := a - n * e;
      assert Square(d) >= 0.0;
      assert Square(d) == Square(a) - 2.0 * (n * (a * e)) + n * (n * Square(e));
      assert n * (s + n * Square(e) - 2.0 * (a * e)) == n * s + n * (n * Square(e)) - 2.0 * (n * (a * e));
      var f := s + n * Square(e) - 2.0 * (a * e);
      assert n * f >= 0.0;
      if f < 0.0 {
        Scale(f, 0.0, n);
      }
    }
  }

  /** The square of the calibration error is at most the Brier score. */
  lemma EceSquaredWithinBrier(js: seq<Judged>)
    requires js != [] && InRange(js)
    ensures Square(Ece(js)) <= Square(Mae(js)) <= Brier(js)
  {
    hide Ece, AbsoluteErrors, SquaredErrors, InRange;
    EceWithinMae(js);
    SquareOfErrors(js);
    Monotone(Ece(js), Mae(js));
    MeanSquare(AbsoluteErrors(js), SquaredErrors(js), |js| as real);
  }

  lemma Monotone(a: real, b: real)
    requires 0.0 <= a <= b
    ensures Square(a) <= Square(b)
  {
  }

  lemma MeanSquare(a: real, s: real, n: real)
    requires n > 0.0 && Square(a) <= n * s
    ensures Square(a / n) <= s / n
  {
    var q, r := a / n, s / n;
    assert q * n == a && r * n == s;
    assert Square(a) == Square(q) * n * n;
    assert n * s == r * n * n;
    if r < Square(q) {
      Scale(r, Square(q), n);
      Scale(r * n, Square(q) * n, n);
    }
  }

  // ---------------------------------------------------------------- what the bins keep apart

  lemma {:induction false} MembersTogether(js: seq<Judged>, ks: seq<Judged>, b: int)
    ensures Members(js + ks, b) == Members(js, b) + Members(ks, b)
  {
    hide BinOf;
    if ks == [] {
      assert js + ks == js;
    } else {
      var n := |ks| - 1;
      MembersTogether(js, ks[..n], b);
      assert (js + ks)[..|js + ks| - 1] == js + ks[..n];
    }
  }

  lemma {:induction false} GapTogether(js: seq<Judged>, ks: seq<Judged>)
    ensures Gap(js + ks) == Gap(js) + Gap(ks)
  {
    if ks == [] {
      assert js + ks == js;
    } else {
      var n := |ks| - 1;
      GapTogether(js, ks[..n]);
      assert (js + ks)[..|js + ks| - 1] == js + ks[..n];
    }
  }

  /** No interval has predictions of both. */
  ghost predicate Apart(js: seq<Judged>, ks: seq<Judged>) {
    forall b: nat, i, k | b < BINS && 0 <= i < |js| && 0 <= k < |ks| ::
      !(InBin(js[i].confidence, b) && InBin(ks[k].confidence, b))
  }

  lemma {:induction false} MemberIsIn(js: seq<Judged>, b: int)
    requires Members(js, b) != []
    ensures exists i :: 0 <= i < |js| && BinOf(js[i].confidence) == b
  {
    hide BinOf;
    var n := |js| - 1;
    if BinOf(js[n].confidence) != b {
      MemberIsIn(js[..n], b);
      var i :| 0 <= i < n && BinOf(js[..n][i].confidence) == b;
      assert js[i] == js[..n][i];
    }
  }

  lemma OneIsEmpty(js: seq<Judged>, ks: seq<Judged>, b: nat)
    requires InRange(js) && InRange(ks) && Apart(js, ks) && b < BINS
    ensures Members(js, b) == [] || Members(ks, b) == []
  {
    hide BinOf, InBin, Members;
    if Members(js, b) != [] && Members(ks, b) != [] {
      MemberIsIn(js, b);
      MemberIsIn(ks, b);
      var i :| 0 <= i < |js| && BinOf(js[i].confidence) == b;
      var k :| 0 <= k < |ks| && BinOf(ks[k].confidence) == b;
      BinsAgree(js[i].confidence, b);
      BinsAgree(ks[k].confidence, b);
    }
  }

  lemma {:induction false} ErrorsTogether(js: seq<Judged>, ks: seq<Judged>, b: nat)
    requires InRange(js) && InRange(ks) && Apart(js, ks) && b <= BINS
    ensures Errors(js + ks, b) == Errors(js, b) + Errors(ks, b)
  {
    hide Members, InRange, Apart, Gap;
    if b > 0 {
      ErrorsTogether(js, ks, b - 1);
      MembersTogether(js, ks, b - 1);
      OneIsEmpty(js, ks, b - 1);
      NoErrors(js);
      GapTogether(Members(js, b - 1), Members(ks, b - 1));
    }
  }

  function Weight(js: seq<Judged>): real {
    if js == [] then 0.0 else Ece(js) * |js| as real
  }

  lemma WeightIs(js: seq<Judged>)
    requires InRange(js)
    ensures Weight(js) == Errors(js, BINS)
  {
    hide Errors;
    if js == [] {
      ErrorsWithin(js, BINS);
      BinsOfNothing(BINS);
    } else {
      Requotient(Errors(js, BINS), |js| as real);
    }
  }

  lemma Requotient(a: real, k: real)
    requires k > 0.0
    ensures a / k * k == a
  {
  }

  /** Errors of different intervals do not cancel: they add up, each with the weight of its predictions. */
  lemma ErrorsAdd(js: seq<Judged>, ks: seq<Judged>)
    requires InRange(js) && InRange(ks) && Apart(js, ks)
    ensures Weight(js + ks) == Weight(js) + Weight(ks)
  {
    hide Errors, Weight, Apart;
    ErrorsTogether(js, ks, BINS);
    WeightIs(js);
    WeightIs(ks);
    WeightIs(js + ks);
  }

  lemma {:induction false} AllMembers(js: seq<Judged>, b: nat, c: int)
    requires InRange(js) && b < BINS && forall i | 0 <= i < |js| :: InBin(js[i].confidence, b)
    ensures Members(js, c) == if c == b then js else []
  {
    hide BinOf, InBin;
    if js != [] {
      var n := |js| - 1;
      AllMembers(js[..n], b, c);
      BinsAgree(js[n].confidence, b);
      assert js == js[..n] + [js[n]];
    }
  }

  lemma {:induction false} ErrorsOfOneBin(js: seq<Judged>, b: nat, k: nat)
    requires InRange(js) && b < BINS && forall i | 0 <= i < |js| :: InBin(js[i].confidence, b)
    ensures Errors(js, k) == if b < k then Abs(Gap(js)) else 0.0
  {
    hide Members, InRange, Gap, InBin;
    if k > 0 {
      ErrorsOfOneBin(js, b, k - 1);
      AllMembers(js, b, k - 1);
      NoErrors(js);
    }
  }

  /** Within one interval only the mean confidence and the mean outcome matter. */
  lemma OneBinIsExact(js: seq<Judged>, b: nat)
    requires InRange(js) && b < BINS && forall i | 0 <= i < |js| :: InBin(js[i].confidence, b)
    ensures Weight(js) == Abs(Outcomes(js) - Confidences(js))
  {
    hide Errors, Weight, InBin;
    WeightIs(js);
    ErrorsOfOneBin(js, b, BINS);
    GapSplits(js);
  }

  /** The gaps of the bins below `b`. */
  function BinnedGaps(js: seq<Judged>, b: nat): real {
    if b == 0 then 0.0 else BinnedGaps(js, b - 1) + Gap(Members(js, b - 1))
  }

  lemma {:induction false} GapsWithin(js: seq<Judged>, b: nat)
    ensures Abs(BinnedGaps(js, b)) <= Errors(js, b)
  {
    hide Gap, Members;
    if b > 0 {
      GapsWithin(js, b - 1);
    }
  }

  lemma {:induction false} OneMoreGap(js: seq<Judged>, j: Judged, b: nat)
    ensures BinnedGaps(js + [j], b)
         == BinnedGaps(js, b) + if 0 <= BinOf(j.confidence) < b then j.outcome - j.confidence else 0.0
  {
    hide BinOf, Members;
    if b > 0 {
      OneMoreGap(js, j, b - 1);
      OneMember(js, j, b - 1);
      GapTogether(Members(js, b - 1), if BinOf(j.confidence) == b - 1 then [j] else []);
      NoErrors(js);
      assert Gap([j]) == j.outcome - j.confidence by { GapOfOne(j); }
    }
  }

  lemma GapOfOne(j: Judged)
    ensures Gap([j]) == j.outcome - j.confidence
  {
    assert [j][..0] == [];
  }

  lemma OneMember(js: seq<Judged>, j: Judged, b: int)
    ensures Members(js + [j], b) == Members(js, b) + if BinOf(j.confidence) == b then [j] else []
  {
    hide BinOf;
    assert (js + [j])[..|js|] == js;
  }

  lemma {:induction false} GapsPartition(js: seq<Judged>)
    requires InRange(js)
    ensures BinnedGaps(js, BINS) == Gap(js)
  {
    hide BinOf, BinnedGaps;
    if js == [] {
      GapsOfNothing(BINS);
    } else {
      var n := |js| - 1;
      GapsPartition(js[..n]);
      OneMoreGap(js[..n], js[n], BINS);
      assert js[..n] + [js[n]] == js;
      BinsAgree(js[n].confidence, 0);
    }
  }

  lemma {:induction false} GapsOfNothing(b: nat)
    ensures BinnedGaps([], b) == 0.0
  {
    if b > 0 {
      GapsOfNothing(b - 1);
    }
  }

  /** Binning never hides a bias: the error is at least the distance of the overall means. */
  lemma EceAtLeastBias(js: seq<Judged>)
    requires js != [] && InRange(js)
    ensures Weight(js) >= Abs(Outcomes(js) - Confidences(js))
  {
    hide Errors, Weight, BinnedGaps, Gap;
    WeightIs(js);
    GapsWithin(js, BINS);
    GapsPartition(js);
    GapSplits(js);
  }

  // ---------------------------------------------------------------- the two implementations

  function Average(total: real, count: nat): real
    requires count > 0
  {
    total / count as real
  }

  lemma BinShare(members: seq<Judged>, total: nat)
    requires members != [] && total > 0
    ensures |members| as real / total as real * Abs(Gap(members) / |members| as real)
         == Abs(Gap(members)) / total as real
  {
    hide Gap;
    ShareOf(|members| as real, total as real, Gap(members));
  }

  lemma ShareOf(k: real, t: real, g: real)
    requires k > 0.0 && t > 0.0
    ensures k / t * Abs(g / k) == Abs(g) / t
  {
    var q := g / k;
    assert q * k == g;
    assert Abs(q) * k == Abs(g) by {
      if q < 0.0 {
        Scale(q, 0.0, k);
        assert -q * k == -g;
      }
    }
    var s := k / t;
    assert s * t == k;
    assert (s * Abs(q)) * t == Abs(g);
  }

  lemma AddShare(a: real, b: real, t: real)
    requires t > 0.0
    ensures a / t + b / t == (a + b) / t
  {
  }

  /** What the dictionary of bins holds after `n` predictions. */
  ghost predicate Binned(bins: map<int, seq<Judged>>, js: seq<Judged>) {
    forall b :: if b in bins then bins[b] == Members(js, b) && bins[b] != [] else Members(js, b) == []
  }

  lemma OneMoreBinned(bins: map<int, seq<Judged>>, js: seq<Judged>, j: Judged)
    requires Binned(bins, js)
    ensures var b := BinOf(j.confidence);
      Binned(bins[b := (if b in bins then bins[b] else []) + [j]], js + [j])
  {
    hide BinOf;
    var b := BinOf(j.confidence);
    assert (js + [j])[..|js|] == js;
    forall c
      ensures Members(js + [j], c) == Members(js, c) + if c == b then [j] else []
    {
    }
  }

  lemma {:induction false} MembersInRange(js: seq<Judged>, b: int)
    requires InRange(js) && (b < 0 || b >= BINS)
    ensures Members(js, b) == []
  {
    hide BinOf;
    if js != [] {
      MembersInRange(js[..|js| - 1], b);
      BinsAgree(js[|js| - 1].confidence, 0);
    }
  }

  /** `score_method`: a dictionary of bins, filled in one pass.  Bins are summed in any order. */
  method EceOfBins(js: seq<Judged>) returns (ece: real)
    requires js != [] && InRange(js)
    ensures ece == Ece(js)
  {
    hide BinOf, Members, Errors, Gap;
    var bins: map<int, seq<Judged>> := map[];
    assert Binned(bins, []) by { NoBins(); }
    for i := 0 to |js|
      invariant Binned(bins, js[..i])
    {
      OneMoreBinned(bins, js[..i], js[i]);
      assert js[..i] + [js[i]] == js[..i + 1];
      var b := BinOf(js[i].confidence);
      bins := bins[b := (if b in bins then bins[b] else []) + [js[i]]];
    }
    assert js[..|js|] == js;
    ece := SumOfBins(bins, js);
  }

  lemma NoBins()
    ensures Binned(map[], [])
  {
  }

  lemma NoErrors(js: seq<Judged>)
    ensures Errors(js, 0) == 0.0 && Gap([]) == 0.0
  {
  }

  /** The final sum over the dictionary, by ascending bin. */
  method SumOfBins(bins: map<int, seq<Judged>>, js: seq<Judged>) returns (ece: real)
    requires js != [] && InRange(js) && Binned(bins, js)
    ensures ece == Ece(js)
  {
    hide BinOf, Members, Gap;
    ece := 0.0;
    NoErrors(js);
    for b := 0 to BINS
      invariant ece == Errors(js, b) / |js| as real
    {
      AddShare(Errors(js, b), Abs(Gap(Members(js, b))), |js| as real);
      if b in bins {
        BinShare(bins[b], |js|);
        ece := ece + |bins[b]| as real / |js| as real * Abs(Gap(bins[b]) / |bins[b]| as real);
      }
    }
    forall b | b in bins
      ensures 0 <= b < BINS
    {
      if b < 0 || b >= BINS {
        MembersInRange(js, b);
      }
    }
  }

  lemma {:induction false} SelectedAreMembers(js: seq<Judged>, k: nat, b: nat, selected: seq<Judged>)
    requires InRange(js) && k < |js| && b < BINS && selected == Members(js[..k], b)
    ensures Members(js[..k + 1], b) == selected + if InBin(js[k].confidence, b) then [js[k]] else []
  {
    hide BinOf, InBin;
    BinsAgree(js[k].confidence, b);
    assert js[..k + 1][..k] == js[..k];
  }

  /** `_ece`: ten intervals, each scanned over all predictions; an empty one is skipped. */
  method EceOfIntervals(js: seq<Judged>) returns (ece: real)
    requires js != [] && InRange(js)
    ensures ece == Ece(js)
  {
    hide Gap, Members, BinOf, InBin, Confidences, Outcomes, InRange;
    ece := 0.0;
    NoErrors(js);
    for b := 0 to BINS
      invariant ece == Errors(js, b) / |js| as real
    {
      var members: seq<Judged> := [];
      NoMembers(b);
      for k := 0 to |js|
        invariant members == Members(js[..k], b)
      {
        SelectedAreMembers(js, k, b, members);
        if InBin(js[k].confidence, b) {
          members := members + [js[k]];
        }
      }
      assert js[..|js|] == js;
      AddShare(Errors(js, b), Abs(Gap(members)), |js| as real);
      if members != [] {
        var confidence, accuracy := Average(Confidences(members), |members|), Average(Outcomes(members), |members|);
        GapSplits(members);
        AverageGap(members);
        BinShare(members, |js|);
        ece := ece + |members| as real / |js| as real * Abs(accuracy - confidence);
      }
    }
  }

  lemma NoMembers(b: int)
    ensures Members([], b) == []
  {
  }

  lemma AverageGap(js: seq<Judged>)
    requires js != []
    ensures Average(Outcomes(js), |js|) - Average(Confidences(js), |js|) == Gap(js) / |js| as real
  {
    hide Gap, Outcomes, Confidences;
    GapSplits(js);
    AddShare(Gap(js), Confidences(js), |js| as real);
  }
}
