/**
 The exact branch of the paired sign-flip test in `src/evaluation/statistics.py`: all `2^n` sign
 patterns are enumerated.  Over exact reals the p-value depends only on the magnitudes, and under
 random signs it is a valid p-value: at most a share `alpha` of the patterns reaches `alpha`.
 */
module SignTest {

  const SLACK := 0.000000000000001

  function Abs(x: real): real {
    if x < 0.0 then -x else x
  }

  function Sum(d: seq<real>): real {
    if d == [] then 0.0 else d[0] + Sum(d[1..])
  }

  function Power2(n: nat): (r: nat)
    ensures r > 0
  {
    if n == 0 then 1 else 2 * Power2(n - 1)
  }

  /** The sums of all sign patterns, in the order of `itertools.product((-1, 1), repeat=n)`. */
  function SignedSums(d: seq<real>, base: real): (sums: seq<real>)
    ensures |sums| == Power2(|d|)
  {
    if d == [] then [base] else SignedSums(d[1..], base - d[0]) + SignedSums(d[1..], base + d[0])
  }

  /** The statistic of one pattern, given its sum. */
  function Statistic(sum: real, n: nat): real
    requires n > 0
  {
    Abs(sum / n as real)
  }

  /** How many of `sums` have a statistic of at least `bar`. */
  function CountAtLeast(sums: seq<real>, n: nat, bar: real): (c: nat)
    requires n > 0
    ensures c <= |sums|
  {
    if sums == [] then 0
    else CountAtLeast(sums[..|sums| - 1], n, bar) + if Statistic(sums[|sums| - 1], n) >= bar then 1 else 0
  }

  function Extreme(d: seq<real>, sum: real): nat
    requires d != []
  {
    CountAtLeast(SignedSums(d, 0.0), |d|, Statistic(sum, |d|) - SLACK)
  }

  /** `_paired_sign_pvalue` for at most twenty differences. */
  function PValue(d: seq<real>): real
    requires d != []
  {
    Extreme(d, Sum(d)) as real / Power2(|d|) as real
  }

  lemma {:induction false} CountAppends(a: seq<real>, b: seq<real>, n: nat, bar: real)
    requires n > 0
    ensures CountAtLeast(a + b, n, bar) == CountAtLeast(a, n, bar) + CountAtLeast(b, n, bar)
  {
    hide Statistic;
    if b == [] {
      assert a + b == a;
    } else {
      CountAppends(a, b[..|b| - 1], n, bar);
      assert (a + b)[..|a + b| - 1] == a + b[..|b| - 1];
    }
  }

  // ---------------------------------------------------------------- only magnitudes matter

  ghost predicate SameMagnitudes(d: seq<real>, e: seq<real>) {
    |d| == |e| && forall i | 0 <= i < |d| :: e[i] == d[i] || e[i] == -d[i]
  }

  lemma {:induction false} SignsDoNotMatter(d: seq<real>, e: seq<real>, base: real, n: nat, bar: real)
    requires SameMagnitudes(d, e) && n > 0
    ensures CountAtLeast(SignedSums(e, base), n, bar) == CountAtLeast(SignedSums(d, base), n, bar)
  {
    hide CountAtLeast;
    if d != [] {
      var lo, hi := SignedSums(e[1..], base - e[0]), SignedSums(e[1..], base + e[0]);
      CountAppends(lo, hi, n, bar);
      CountAppends(SignedSums(d[1..], base - d[0]), SignedSums(d[1..], base + d[0]), n, bar);
      SignsDoNotMatter(d[1..], e[1..], base - e[0], n, bar);
      SignsDoNotMatter(d[1..], e[1..], base + e[0], n, bar);
      assert base - -d[0] == base + d[0] && base + -d[0] == base - d[0];
    }
  }

  lemma SameLength(d: seq<real>, e: seq<real>)
    requires SameMagnitudes(d, e)
    ensures |d| == |e|
  {
  }

  /** Against any pattern of signs the observed statistic is ranked in one and the same list. */
  lemma PValueOfFlipped(d: seq<real>, e: seq<real>)
    requires d != [] && SameMagnitudes(d, e)
    ensures PValue(e) == Extreme(d, Sum(e)) as real / Power2(|d|) as real
  {
    hide CountAtLeast, Statistic, SignedSums, Power2, SameMagnitudes;
    SameLength(d, e);
    SignsDoNotMatter(d, e, 0.0, |d|, Statistic(Sum(e), |d|) - SLACK);
  }

  /** `SignedSums` lists exactly the sums of the sign patterns. */
  lemma {:induction false} PatternIsListed(d: seq<real>, e: seq<real>, base: real)
    requires SameMagnitudes(d, e)
    ensures base + Sum(e) in SignedSums(d, base)
  {
    if d != [] {
      PatternIsListed(d[1..], e[1..], base + e[0]);
      assert base + Sum(e) == base + e[0] + Sum(e[1..]);
      assert e[0] == -d[0] ==> base + e[0] == base - d[0];
    } else {
      assert base + Sum(e) == base;
    }
  }

  lemma {:induction false} MemberCounts(sums: seq<real>, x: real, n: nat, bar: real)
    requires x in sums && n > 0 && Statistic(x, n) >= bar
    ensures CountAtLeast(sums, n, bar) >= 1
  {
    hide Statistic;
    var k := |sums| - 1;
    if sums[k] != x {
      assert x in sums[..k];
      MemberCounts(sums[..k], x, n, bar);
    }
  }

  /** A p-value is never zero and never above one. */
  lemma PValueBounds(d: seq<real>)
    requires d != []
    ensures 1.0 / Power2(|d|) as real <= PValue(d) <= 1.0
  {
    hide Power2, CountAtLeast, Statistic, SignedSums;
    PatternIsListed(d, d, 0.0);
    assert 0.0 + Sum(d) == Sum(d);
    MemberCounts(SignedSums(d, 0.0), Sum(d), |d|, Statistic(Sum(d), |d|) - SLACK);
    RatioBounds(Extreme(d, Sum(d)) as real, Power2(|d|) as real);
  }

  lemma RatioBounds(c: real, m: real)
    requires 1.0 <= c <= m
    ensures 1.0 / m <= c / m <= 1.0
  {
    var q, r := c / m, 1.0 / m;
    assert q * m == c && r * m == 1.0;
    if q > 1.0 {
      Strictly(1.0, q, m);
    }
    if q < r {
      Strictly(q, r, m);
    }
  }

  lemma Grows(k: real, a: real, b: real)
    requires k >= 0.0 && a <= b
    ensures a * k <= b * k
  {
  }

  // ---------------------------------------------------------------- the sign vectors

  /** The vectors of `some` with one more sign in front. */
  ghost function Prefixed(b: bool, some: set<seq<bool>>): set<seq<bool>> {
    set s | s in some :: [b] + s
  }

  lemma PrefixedHas(b: bool, some: set<seq<bool>>, s: seq<bool>)
    ensures s in Prefixed(b, some) <==> |s| > 0 && s[0] == b && s[1..] in some
  {
    if s in Prefixed(b, some) {
      var r :| r in some && s == [b] + r;
      assert s[1..] == r;
    }
    if |s| > 0 {
      assert s == [s[0]] + s[1..];
    }
  }

  lemma {:induction false} PrefixedSize(b: bool, some: set<seq<bool>>)
    ensures |Prefixed(b, some)| == |some|
  {
    if some == {} {
      assert Prefixed(b, some) == {};
    } else {
      var x :| x in some;
      PrefixedSize(b, some - {x});
      PrefixedHas(b, some - {x}, [b] + x);
      assert ([b] + x)[1..] == x;
      assert Prefixed(b, some) == Prefixed(b, some - {x}) + {[b] + x};
    }
  }

  lemma PrefixedApart(some: set<seq<bool>>, more: set<seq<bool>>)
    ensures Prefixed(false, some) !! Prefixed(true, more)
    ensures |Prefixed(false, some) + Prefixed(true, more)| == |some| + |more|
  {
    hide Prefixed;
    forall s: seq<bool>
      ensures !(s in Prefixed(false, some) && s in Prefixed(true, more))
    {
      PrefixedHas(false, some, s);
      PrefixedHas(true, more, s);
    }
    PrefixedSize(false, some);
    PrefixedSize(true, more);
  }

  /** All vectors of `n` signs. */
  ghost function Signs(n: nat): set<seq<bool>> {
    if n == 0 then {[]} else Prefixed(false, Signs(n - 1)) + Prefixed(true, Signs(n - 1))
  }

  lemma {:induction false} SignsAre(n: nat, s: seq<bool>)
    ensures s in Signs(n) <==> |s| == n
  {
    hide Prefixed;
    if n > 0 {
      PrefixedHas(false, Signs(n - 1), s);
      PrefixedHas(true, Signs(n - 1), s);
      if s != [] {
        SignsAre(n - 1, s[1..]);
      }
    }
  }

  /** The sum of the differences under a vector of signs; `true` keeps the sign. */
  ghost function Signed(d: seq<real>, s: seq<bool>): real
    requires |s| == |d|
  {
    if d == [] then 0.0 else (if s[0] then d[0] else -d[0]) + Signed(d[1..], s[1..])
  }

  /** The magnitude of the mean is at least `bar`. */
  ghost predicate FarOut(sum: real, n: nat, bar: real)
    requires n > 0
  {
    sum / n as real >= bar || -(sum / n as real) >= bar
  }

  ghost function FarSigns(d: seq<real>, base: real, n: nat, bar: real): set<seq<bool>>
    requires n > 0
  {
    set s | s in Signs(|d|) && |s| == |d| && FarOut(base + Signed(d, s), n, bar)
  }

  /** The vectors that begin with one sign are those of the rest. */
  lemma FarSignsSplit(d: seq<real>, base: real, n: nat, bar: real)
    requires n > 0 && d != []
    ensures |FarSigns(d, base, n, bar)|
         == |FarSigns(d[1..], base - d[0], n, bar)| + |FarSigns(d[1..], base + d[0], n, bar)|
  {
    hide FarOut, Signs, Prefixed, FarSigns;
    var minus, plus := FarSigns(d[1..], base - d[0], n, bar), FarSigns(d[1..], base + d[0], n, bar);
    PrefixedApart(minus, plus);
    forall s: seq<bool>
      ensures s in FarSigns(d, base, n, bar) <==> s in Prefixed(false, minus) + Prefixed(true, plus)
    {
      PrefixedHas(false, minus, s);
      PrefixedHas(true, plus, s);
      WithFirstSign(d, base, n, bar, s);
    }
    assert FarSigns(d, base, n, bar) == Prefixed(false, minus) + Prefixed(true, plus);
  }

  lemma WithFirstSign(d: seq<real>, base: real, n: nat, bar: real, s: seq<bool>)
    requires n > 0 && d != []
    ensures s in FarSigns(d, base, n, bar) <==>
      |s| > 0 && s[1..] in FarSigns(d[1..], if s[0] then base + d[0] else base - d[0], n, bar)
  {
    hide FarOut, Signs;
    SignsAre(|d|, s);
    if |s| > 0 {
      SignsAre(|d| - 1, s[1..]);
      if |s| == |d| {
        assert base + Signed(d, s) == (if s[0] then base + d[0] else base - d[0]) + Signed(d[1..], s[1..]);
      }
    }
  }

  /** The loop counts sign vectors. */
  lemma {:induction false} CountsSigns(d: seq<real>, base: real, n: nat, bar: real)
    requires n > 0
    ensures CountAtLeast(SignedSums(d, base), n, bar) == |FarSigns(d, base, n, bar)|
  {
    hide FarOut, Statistic, CountAtLeast, FarSigns;
    if d == [] {
      CountsOne(base, n, bar);
    } else {
      CountsSigns(d[1..], base - d[0], n, bar);
      CountsSigns(d[1..], base + d[0], n, bar);
      CountAppends(SignedSums(d[1..], base - d[0]), SignedSums(d[1..], base + d[0]), n, bar);
      FarSignsSplit(d, base, n, bar);
    }
  }

  lemma CountsOne(base: real, n: nat, bar: real)
    requires n > 0
    ensures CountAtLeast([base], n, bar) == |FarSigns([], base, n, bar)|
  {
    hide FarOut, Statistic;
    StatisticIsMagnitude(base, n, bar);
    assert [base][..0] == [];
    assert FarSigns([], base, n, bar) == if FarOut(base, n, bar) then {[]} else {} by {
      assert Signs(0) == {[]} && Signed([], []) == 0.0;
    }
  }

  lemma StatisticIsMagnitude(sum: real, n: nat, bar: real)
    requires n > 0
    ensures Statistic(sum, n) >= bar <==> FarOut(sum, n, bar)
  {
  }

  ghost predicate AsExtreme(d: seq<real>, s: seq<bool>)
    requires |s| == |d| > 0
  {
    var sum, observed, n := Signed(d, s), Sum(d), |d| as real;
    (if sum >= 0.0 then sum / n else -sum / n) >= (if observed >= 0.0 then observed / n else -observed / n) - 0.000000000000001
  }

  ghost function ExtremeSigns(d: seq<real>): set<seq<bool>>
    requires d != []
  {
    set s | s in Signs(|d|) && |s| == |d| && AsExtreme(d, s)
  }

  /**
   The p-value is two-sided: it is the share of the `2^n` sign vectors whose mean has, up to the slack, at
   least the magnitude of the observed mean.
   */
  lemma PValueCountsSigns(d: seq<real>)
    requires d != []
    ensures (forall s :: s in Signs(|d|) <==> |s| == |d|) && |Signs(|d|)| == Power2(|d|)
    ensures PValue(d) * Power2(|d|) as real == |ExtremeSigns(d)| as real
  {
    hide *;
    forall s
      ensures s in Signs(|d|) <==> |s| == |d|
    {
      SignsAre(|d|, s);
    }
    SignsCounted(|d|);
    ExtremeCountsSigns(d);
    PValueTimes(d);
  }

  lemma PValueTimes(d: seq<real>)
    requires d != []
    ensures PValue(d) * Power2(|d|) as real == Extreme(d, Sum(d)) as real
  {
    hide Power2, Extreme, Sum;
    QuotientTimes(Extreme(d, Sum(d)) as real, Power2(|d|) as real);
  }

  lemma ExtremeCountsSigns(d: seq<real>)
    requires d != []
    ensures Extreme(d, Sum(d)) == |ExtremeSigns(d)|
  {
    hide ExtremeSigns, FarSigns, FarOut, Statistic, CountAtLeast, SignedSums, Signs, Signed, Sum;
    CountsSigns(d, 0.0, |d|, Statistic(Sum(d), |d|) - SLACK);
    FarSignsAreExtreme(d);
  }

  lemma FarSignsAreExtreme(d: seq<real>)
    requires d != []
    ensures FarSigns(d, 0.0, |d|, Statistic(Sum(d), |d|) - SLACK) == ExtremeSigns(d)
  {
    hide AsExtreme, FarOut, Statistic, Signs, Signed, Sum;
    var bar := Statistic(Sum(d), |d|) - SLACK;
    forall s
      ensures s in FarSigns(d, 0.0, |d|, bar) <==> s in ExtremeSigns(d)
    {
      if |s| == |d| {
        FarIsExtreme(d, s);
      }
    }
  }

  lemma QuotientTimes(c: real, m: real)
    requires m > 0.0
    ensures c / m * m == c
  {
  }

  lemma FarIsExtreme(d: seq<real>, s: seq<bool>)
    requires |s| == |d| > 0
    ensures AsExtreme(d, s) <==> FarOut(0.0 + Signed(d, s), |d|, Statistic(Sum(d), |d|) - SLACK)
  {
    hide Signed, Sum;
    MeanSign(Signed(d, s), |d| as real);
    MeanSign(Sum(d), |d| as real);
  }

  lemma MeanSign(x: real, n: real)
    requires n > 0.0
    ensures x >= 0.0 <==> x / n >= 0.0
    ensures -x / n == -(x / n)
  {
    var q := x / n;
    assert q * n == x;
  }

  lemma {:induction false} SignsCounted(n: nat)
    ensures |Signs(n)| == Power2(n)
  {
    hide Prefixed;
    if n > 0 {
      SignsCounted(n - 1);
      PrefixedApart(Signs(n - 1), Signs(n - 1));
    }
  }

  lemma {:induction false} OppositeSum(d: seq<real>, e: seq<real>)
    requires |d| == |e| && forall i | 0 <= i < |d| :: e[i] == -d[i]
    ensures Sum(e) == -Sum(d)
  {
    if d != [] {
      OppositeSum(d[1..], e[1..]);
    }
  }

  /** The direction of the effect does not matter. */
  lemma PValueIsTwoSided(d: seq<real>, e: seq<real>)
    requires d != [] && |d| == |e| && forall i | 0 <= i < |d| :: e[i] == -d[i]
    ensures PValue(e) == PValue(d)
  {
    OppositeSum(d, e);
    MeanSign(Sum(d), |d| as real);
    assert Statistic(Sum(e), |d|) == Statistic(Sum(d), |d|);
    hide Statistic, CountAtLeast, SignedSums, Power2, Sum;
    PValueOfFlipped(d, e);
  }

  ghost function Magnitude(x: real): real {
    if x >= 0.0 then x else -x
  }

  /** Among data that differ in signs alone, a smaller sum has the larger p-value. */
  lemma SmallerSumLargerPValue(d: seq<real>, e: seq<real>)
    requires d != [] && SameMagnitudes(d, e) && Magnitude(Sum(e)) <= Magnitude(Sum(d))
    ensures PValue(e) >= PValue(d)
  {
    var n := |d|;
    SmallerStatistic(Sum(e), Sum(d), n);
    hide Statistic, SignedSums, Power2, Sum, SameMagnitudes;
    PValueOfFlipped(d, e);
    LowerBarCountsMore(SignedSums(d, 0.0), n, Statistic(Sum(e), n) - SLACK, Statistic(Sum(d), n) - SLACK);
    QuotientGrows(Extreme(d, Sum(d)) as real, Extreme(d, Sum(e)) as real, Power2(n) as real);
  }

  lemma SmallerStatistic(x: real, y: real, n: nat)
    requires n > 0 && Magnitude(x) <= Magnitude(y)
    ensures Statistic(x, n) <= Statistic(y, n)
  {
    MeanSign(x, n as real);
    MeanSign(y, n as real);
    QuotientGrows(Magnitude(x), Magnitude(y), n as real);
  }

  lemma QuotientGrows(a: real, b: real, m: real)
    requires a <= b && m > 0.0
    ensures a / m <= b / m
  {
    var q, r := a / m, b / m;
    assert q * m == a && r * m == b;
    if q > r {
      Strictly(r, q, m);
    }
  }

  // ---------------------------------------------------------------- validity

  /** A share of the `2^n` patterns. */
  function Share(alpha: real, n: nat): real {
    alpha * Power2(n) as real
  }

  predicate IsSignificant(d: seq<real>, sum: real, alpha: real)
    requires d != []
  {
    Extreme(d, sum) as real <= Share(alpha, |d|)
  }

  /** How many of `sums` come from a pattern that the test of `d` finds significant at `alpha`. */
  function Significant(d: seq<real>, sums: seq<real>, alpha: real): nat
    requires d != []
  {
    if sums == [] then 0
    else Significant(d, sums[..|sums| - 1], alpha) + if IsSignificant(d, sums[|sums| - 1], alpha) then 1 else 0
  }

  /** Significance is what the p-value of the data with that pattern of signs says. */
  lemma SignificantMeansPValue(d: seq<real>, e: seq<real>, alpha: real)
    requires d != [] && SameMagnitudes(d, e)
    ensures IsSignificant(d, Sum(e), alpha) <==> PValue(e) <= alpha
  {
    hide Extreme, SameMagnitudes, Power2;
    PValueOfFlipped(d, e);
    RatioWithin(Extreme(d, Sum(e)) as real, Power2(|d|) as real, alpha);
  }

  lemma RatioWithin(c: real, m: real, alpha: real)
    requires m > 0.0
    ensures c <= alpha * m <==> c / m <= alpha
  {
    var q := c / m;
    assert q * m == c;
    if q <= alpha {
      Grows(m, q, alpha);
    } else {
      Strictly(alpha, q, m);
    }
  }

  lemma Strictly(a: real, b: real, k: real)
    requires a < b && k > 0.0
    ensures a * k < b * k
  {
  }

  /** If any pattern is significant, one with the least statistic bounds the number of all. */
  lemma {:induction false} LeastSignificant(d: seq<real>, sums: seq<real>, alpha: real) returns (x: real)
    requires d != [] && Significant(d, sums, alpha) > 0
    ensures x in sums && IsSignificant(d, x, alpha)
    ensures Significant(d, sums, alpha) <= CountAtLeast(sums, |d|, Statistic(x, |d|))
  {
    hide IsSignificant, Statistic;
    var k := |sums| - 1;
    var last := sums[k];
    if Significant(d, sums[..k], alpha) == 0 {
      x := last;
    } else {
      x := LeastSignificant(d, sums[..k], alpha);
      assert x in sums;
      if IsSignificant(d, last, alpha) && Statistic(last, |d|) < Statistic(x, |d|) {
        LowerBarCountsMore(sums[..k], |d|, Statistic(last, |d|), Statistic(x, |d|));
        x := last;
      }
    }
  }

  lemma {:induction false} LowerBarCountsMore(sums: seq<real>, n: nat, low: real, high: real)
    requires n > 0 && low <= high
    ensures CountAtLeast(sums, n, high) <= CountAtLeast(sums, n, low)
  {
    hide Statistic;
    if sums != [] {
      LowerBarCountsMore(sums[..|sums| - 1], n, low, high);
    }
  }

  /**
   Validity of the exact test: of all `2^n` equally likely sign patterns, at most `alpha * 2^n` have
   a p-value of `alpha` or less.
   */
  lemma ExactTestIsValid(d: seq<real>, alpha: real)
    requires d != [] && alpha >= 0.0
    ensures Significant(d, SignedSums(d, 0.0), alpha) as real <= Share(alpha, |d|)
  {
    hide Significant, Share, CountAtLeast, SignedSums, Statistic;
    var sums := SignedSums(d, 0.0);
    if Significant(d, sums, alpha) > 0 {
      var x := LeastSignificant(d, sums, alpha);
      LowerBarCountsMore(sums, |d|, Statistic(x, |d|) - SLACK, Statistic(x, |d|));
    } else {
      ShareNonNegative(alpha, |d|);
    }
  }

  lemma ShareNonNegative(alpha: real, n: nat)
    requires alpha >= 0.0
    ensures Share(alpha, n) >= 0.0
  {
    Grows(Power2(n) as real, 0.0, alpha);
  }

  // ---------------------------------------------------------------- the loop

  /** The exact branch of `_paired_sign_pvalue`. */
  method PairedSignPValue(d: seq<real>) returns (p: real, total: nat)
    requires 0 < |d| <= 20
    ensures p == PValue(d) && total == Power2(|d|)
  {
    hide Power2, Statistic;
    var observed := Statistic(Sum(d), |d|);
    var sums := SignedSums(d, 0.0);
    var extreme := 0;
    total := 0;
    for i := 0 to |sums|
      invariant total == i && extreme == CountAtLeast(sums[..i], |d|, observed - SLACK)
    {
      assert sums[..i + 1][..i] == sums[..i];
      total := total + 1;
      if Statistic(sums[i], |d|) >= observed - SLACK {
        extreme := extreme + 1;
      }
    }
    assert sums[..|sums|] == sums;
    p := extreme as real / total as real;
  }
}
