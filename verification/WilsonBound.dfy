/**
 The Wilson lower bound of `src/learning/policy_store.py`, over exact reals and for any square root
 and any quantile.
 */
module WilsonBound {

  type Quantile = z: real | z > 0.0 witness 1.0

  /** The default of the `z` argument. */
  const Z: Quantile := 1.959963984540054

  ghost predicate IsRoot(root: real -> real) {
    forall x :: x >= 0.0 ==> root(x) >= 0.0 && root(x) * root(x) == x
  }

  function Proportion(successes: nat, trials: nat): real
    requires trials > 0
  {
    successes as real / trials as real
  }

  lemma QuotientPositive(a: real, b: real, n: real)
    requires a > 0.0 && b > 0.0 && n > 0.0
    ensures a * b / n > 0.0
  {
    Positive(a, b);
    Positive(a * b, 1.0 / n);
  }

  /** `z * z / trials`. */
  function Slack(z: Quantile, trials: nat): (q: real)
    requires trials > 0
    ensures q > 0.0
  {
    QuotientPositive(z, z, trials as real);
    z * z / trials as real
  }

  /** What stands under the square root. */
  function Spread(z: Quantile, p: real, trials: nat): real
    requires trials > 0
  {
    var n := trials as real;
    p * (1.0 - p) / n + z * z / (4.0 * n * n)
  }

  function Margin(root: real -> real, z: Quantile, p: real, trials: nat): real
    requires trials > 0
  {
    z * root(Spread(z, p, trials))
  }

  /** `_wilson_lower` before it is cut off at zero. */
  function RawLower(root: real -> real, z: Quantile, p: real, trials: nat): real
    requires trials > 0
  {
    var n := trials as real;
    (p + z * z / (2.0 * n) - Margin(root, z, p, trials)) / (1.0 + z * z / n)
  }

  /** `_wilson_lower`. */
  function Wilson(root: real -> real, z: Quantile, successes: nat, trials: nat): real {
    if trials == 0 then 0.0
    else
      var raw := RawLower(root, z, Proportion(successes, trials), trials);
      if raw >= 0.0 then raw else 0.0
  }

  lemma ProportionBounds(s: nat, n: nat)
    requires s <= n && n > 0
    ensures 0.0 <= Proportion(s, n) <= 1.0
  {
    var p := Proportion(s, n);
    assert p * n as real == s as real;
    assert s as real <= n as real;
  }

  lemma ProportionGrows(s: nat, t: nat, n: nat)
    requires s <= t && n > 0
    ensures Proportion(s, n) <= Proportion(t, n)
  {
    var p, r := Proportion(s, n), Proportion(t, n);
    assert p * n as real == s as real && r * n as real == t as real;
    assert s as real <= t as real;
    if p > r {
      ProductOrder(r, p, n as real);
    }
  }

  lemma ProductOrder(a: real, b: real, k: real)
    requires a < b && k > 0.0
    ensures a * k < b * k
  {
  }

  lemma Positive(a: real, b: real)
    requires a > 0.0 && b > 0.0
    ensures a * b > 0.0
  {
  }

  lemma NonNegative(a: real, b: real)
    requires a >= 0.0 && b >= 0.0
    ensures a * b >= 0.0
  {
  }

  lemma SquareOrder(a: real, b: real)
    requires b >= 0.0 && a * a <= b * b
    ensures a <= b
  {
    if a > b {
      assert (a - b) * (a + b) == a * a - b * b;
      Positive(a - b, a + b);
    }
  }

  lemma Scale(k: real, a: real, b: real)
    requires k >= 0.0 && a <= b
    ensures k * a <= k * b
  {
  }

  lemma SpreadPositive(z: Quantile, p: real, n: nat)
    requires 0.0 <= p <= 1.0 && n > 0
    ensures Spread(z, p, n) >= 0.0
  {
    var k := n as real;
    NonNegative(p, 1.0 - p);
    assert k * k > 0.0;
    assert z * z / (4.0 * k * k) >= 0.0;
    assert p * (1.0 - p) / k >= 0.0;
  }

  /** In terms of the slack `q`: the square of the margin. */
  lemma MarginSquared(root: real -> real, z: Quantile, p: real, n: nat)
    requires IsRoot(root) && 0.0 <= p <= 1.0 && n > 0
    ensures Margin(root, z, p, n) >= 0.0
    ensures Margin(root, z, p, n) * Margin(root, z, p, n) == Slack(z, n) * (p * (1.0 - p)) + Slack(z, n) * Slack(z, n) / 4.0
  {
    SpreadPositive(z, p, n);
    var r, x := root(Spread(z, p, n)), Spread(z, p, n);
    calc {
      Margin(root, z, p, n) * Margin(root, z, p, n);
      (z * r) * (z * r);
      z * z * (r * r);
      z * z * x;
      { SpreadInSlack(z, p * (1.0 - p), n as real); }
      Slack(z, n) * (p * (1.0 - p)) + Slack(z, n) * Slack(z, n) / 4.0;
    }
  }

  lemma SpreadInSlack(z: Quantile, v: real, k: real)
    requires k > 0.0
    ensures z * z * (v / k + z * z / (4.0 * k * k)) == z * z / k * v + z * z / k * (z * z / k) / 4.0
  {
    var i := 1.0 / k;
    assert v / k == v * i;
    assert z * z / k == z * z * i;
    assert 4.0 * k * k * (i * i / 4.0) == 1.0 by {
      assert k * i == 1.0;
      assert 4.0 * k * k * (i * i / 4.0) == (k * i) * (k * i);
    }
    assert z * z / (4.0 * k * k) == z * z * (i * i / 4.0);
  }

  lemma RawInSlack(root: real -> real, z: Quantile, p: real, n: nat)
    requires n > 0
    ensures RawLower(root, z, p, n) * (1.0 + Slack(z, n)) == p + Slack(z, n) / 2.0 - Margin(root, z, p, n)
  {
    hide Margin;
    var k := n as real;
    assert z * z / (2.0 * k) == z * z / k / 2.0;
    assert 1.0 + z * z / k > 0.0;
  }

  /** The margin outweighs the pull of the prior towards one half. */
  lemma MarginLarge(root: real -> real, z: Quantile, p: real, n: nat)
    requires IsRoot(root) && 0.0 <= p <= 1.0 && n > 0
    ensures Margin(root, z, p, n) >= Slack(z, n) * (0.5 - p)
    ensures Margin(root, z, p, n) <= p + Slack(z, n) / 2.0
  {
    hide Margin, Slack;
    var q, m := Slack(z, n), Margin(root, z, p, n);
    MarginSquared(root, z, p, n);
    var v := p * (1.0 - p);
    NonNegative(p, 1.0 - p);
    var a := q * (0.5 - p);
    assert a * a == q * q / 4.0 - q * q * v by { SquareOfPull(q, p); }
    NonNegative(q, v);
    NonNegative(q, q);
    NonNegative(q * q, v);
    SquareOrder(a, m);
    var c := p + q / 2.0;
    assert c * c - m * m == p * p + q * (p * p) by { CentreSquared(q, p); }
    NonNegative(p, p);
    NonNegative(q, p * p);
    SquareOrder(m, c);
  }

  lemma SquareOfPull(q: real, p: real)
    ensures (q * (0.5 - p)) * (q * (0.5 - p)) == q * q / 4.0 - q * q * (p * (1.0 - p))
  {
    var h := 0.5 - p;
    assert h * h == 0.25 - p * (1.0 - p);
    assert (q * h) * (q * h) == q * q * (h * h);
    Distribute(q * q, 0.25, p * (1.0 - p));
  }

  lemma Distribute(a: real, x: real, y: real)
    ensures a * (x - y) == a * x - a * y
  {
  }

  lemma CentreSquared(q: real, p: real)
    ensures (p + q / 2.0) * (p + q / 2.0) - (q * (p * (1.0 - p)) + q * q / 4.0) == p * p + q * (p * p)
  {
    assert p * (1.0 - p) == p - p * p;
    Distribute(q, p, p * p);
    assert (p + q / 2.0) * (p + q / 2.0) == p * p + p * q + q * q / 4.0;
  }

  /** The bound lies between zero and the observed rate, and needs no cutting off. */
  lemma WilsonBounds(root: real -> real, z: Quantile, successes: nat, trials: nat)
    requires IsRoot(root) && successes <= trials && trials > 0
    ensures 0.0 <= Wilson(root, z, successes, trials) <= Proportion(successes, trials)
    ensures Wilson(root, z, successes, trials) == RawLower(root, z, Proportion(successes, trials), trials)
  {
    hide Proportion, RawLower, Slack, Margin;
    var p, q := Proportion(successes, trials), Slack(z, trials);
    var raw := RawLower(root, z, p, trials);
    ProportionBounds(successes, trials);
    MarginLarge(root, z, p, trials);
    RawInSlack(root, z, p, trials);
    assert raw * (1.0 + q) >= 0.0;
    if raw < 0.0 {
      ProductOrder(raw, 0.0, 1.0 + q);
    }
    assert q * (0.5 - p) == q * 0.5 - q * p by { Distribute(q, 0.5, p); }
    assert raw * (1.0 + q) <= p + p * q;
    assert p + p * q == p * (1.0 + q);
    if raw > p {
      ProductOrder(p, raw, 1.0 + q);
    }
  }

  /** More successes out of as many trials never lower the bound. */
  lemma WilsonGrows(root: real -> real, z: Quantile, successes: nat, more: nat, trials: nat)
    requires IsRoot(root) && successes <= more <= trials && trials > 0
    ensures Wilson(root, z, successes, trials) <= Wilson(root, z, more, trials)
  {
    hide Proportion, RawLower, Slack, Margin;
    var a, b, q := Proportion(successes, trials), Proportion(more, trials), Slack(z, trials);
    ProportionBounds(successes, trials);
    ProportionBounds(more, trials);
    ProportionGrows(successes, more, trials);
    WilsonBounds(root, z, successes, trials);
    WilsonBounds(root, z, more, trials);
    MarginLipschitz(root, z, a, b, trials);
    RawInSlack(root, z, a, trials);
    RawInSlack(root, z, b, trials);
    var l, h := RawLower(root, z, a, trials), RawLower(root, z, b, trials);
    assert l * (1.0 + q) <= h * (1.0 + q);
    if h < l {
      ProductOrder(h, l, 1.0 + q);
    }
  }

  lemma MarginChange(root: real -> real, z: Quantile, a: real, b: real, n: nat)
    requires IsRoot(root) && 0.0 <= a <= 1.0 && 0.0 <= b <= 1.0 && n > 0
    ensures Margin(root, z, b, n) * Margin(root, z, b, n) - Margin(root, z, a, n) * Margin(root, z, a, n)
         == Slack(z, n) * ((b - a) * (1.0 - a - b))
  {
    hide Margin, Slack;
    MarginSquared(root, z, a, n);
    MarginSquared(root, z, b, n);
    SpreadChange(Slack(z, n), a, b);
  }

  /** `change` bounds a difference of squares, and is itself bounded by the middle term of a square. */
  lemma SquareStep(x: real, y: real, d: real, change: real)
    requires x >= 0.0 && d >= 0.0 && y * y - x * x == change && change <= d * (2.0 * x)
    ensures y <= x + d
  {
    SquareOfSum(x, d);
    NonNegative(d, d);
    SquareOrder(y, x + d);
  }

  /** The margin grows no faster than the rate itself. */
  lemma MarginLipschitz(root: real -> real, z: Quantile, a: real, b: real, n: nat)
    requires IsRoot(root) && 0.0 <= a <= b <= 1.0 && n > 0
    ensures Margin(root, z, b, n) <= Margin(root, z, a, n) + (b - a)
  {
    hide Margin, Slack, IsRoot;
    var q, x, y, d, w := Slack(z, n), Margin(root, z, a, n), Margin(root, z, b, n), b - a, 1.0 - a - b;
    MarginChange(root, z, a, b, n);
    assert x >= 0.0 by { MarginSquared(root, z, a, n); }
    assert q * w <= 2.0 * x by {
      MarginLarge(root, z, a, n);
      PullBound(q, a, b, x);
    }
    assert q * (d * w) <= d * (2.0 * x) by {
      Scale(d, q * w, 2.0 * x);
      Regroup(q, d, w);
    }
    SquareStep(x, y, d, q * (d * w));
  }

  lemma Regroup(q: real, d: real, w: real)
    ensures q * (d * w) == d * (q * w)
  {
  }

  lemma SpreadChange(q: real, a: real, b: real)
    ensures q * (b * (1.0 - b)) - q * (a * (1.0 - a)) == q * ((b - a) * (1.0 - a - b))
  {
    assert b * (1.0 - b) - a * (1.0 - a) == (b - a) * (1.0 - a - b);
    Distribute(q, b * (1.0 - b), a * (1.0 - a));
  }

  lemma PullBound(q: real, a: real, b: real, x: real)
    requires q >= 0.0 && a <= b && x >= q * (0.5 - a)
    ensures q * (1.0 - a - b) <= 2.0 * x
  {
    var lead := 2.0 * (0.5 - a);
    Scale(q, 1.0 - a - b, lead);
    assert q * lead == 2.0 * (q * (0.5 - a));
  }

  lemma SquareOfSum(x: real, d: real)
    ensures (x + d) * (x + d) == x * x + d * (2.0 * x) + d * d
  {
  }

  /** The rate `p` lies as many standard deviations from `x` as the slack `q` stands for. */
  predicate SolvesScore(p: real, q: real, x: real) {
    (p - x) * (p - x) == q * (x * (1.0 - x))
  }

  lemma BoundSolvesScore(p: real, q: real, m: real, l: real)
    requires q > 0.0 && l * (1.0 + q) == p + q / 2.0 - m
    requires m * m == q * (p * (1.0 - p)) + q * q / 4.0
    ensures SolvesScore(p, q, l)
  {
    CentreSquared(q, p);
    var c, k := p + q / 2.0, 1.0 + q;
    assert (c - l * k) * (c - l * k) == m * m;
    ScoreAlgebra(p, q, l);
  }

  /** The algebra of `ScoreAlgebra`, read backwards. */
  lemma ScoreSquared(p: real, q: real, x: real)
    requires SolvesScore(p, q, x)
    ensures var c, k := p + q / 2.0, 1.0 + q; (c - x * k) * (c - x * k) == c * c - (p * p + q * (p * p))
  {
    var c, k := p + q / 2.0, 1.0 + q;
    var f := p * p - 2.0 * (p * x) + x * x - q * x + q * (x * x);
    assert f == 0.0 by {
      assert (p - x) * (p - x) == p * p - 2.0 * (p * x) + x * x;
      assert x * (1.0 - x) == x - x * x;
      Distribute(q, x, x * x);
    }
    assert c * x == p * x + q * x / 2.0;
    assert k * (x * x) == x * x + q * (x * x);
    assert f == p * p - 2.0 * (c * x) + k * (x * x);
    assert k * f == 0.0;
    assert k * f == k * (p * p) - k * (2.0 * (c * x)) + k * (k * (x * x));
    assert c * (x * k) == k * (c * x) && (x * k) * (x * k) == k * (k * (x * x));
    assert (c - x * k) * (c - x * k) == c * c - 2.0 * (c * (x * k)) + (x * k) * (x * k);
    assert k * (p * p) == p * p + q * (p * p);
  }

  lemma RootsAreAbove(p: real, q: real, m: real, l: real, x: real)
    requires q > 0.0 && m >= 0.0 && l * (1.0 + q) == p + q / 2.0 - m
    requires m * m == q * (p * (1.0 - p)) + q * q / 4.0
    requires SolvesScore(p, q, x)
    ensures l <= x
  {
    CentreSquared(q, p);
    var c, k := p + q / 2.0, 1.0 + q;
    ScoreSquared(p, q, x);
    assert (c - x * k) * (c - x * k) == m * m;
    SquareOrder(c - x * k, m);
    if x < l {
      ProductOrder(x, l, k);
    }
  }

  /**
   What the bound means: it is the least rate from which the observed one lies `z` standard deviations away,
   the lower root of the score equation.
   */
  lemma WilsonIsLowerRoot(root: real -> real, z: Quantile, successes: nat, trials: nat)
    requires IsRoot(root) && successes <= trials && trials > 0
    ensures var p, q, l := Proportion(successes, trials), Slack(z, trials), Wilson(root, z, successes, trials);
      SolvesScore(p, q, l) && forall x :: SolvesScore(p, q, x) ==> l <= x
  {
    hide Proportion, RawLower, Slack, Margin, SolvesScore, Wilson;
    var p, q, l := Proportion(successes, trials), Slack(z, trials), Wilson(root, z, successes, trials);
    var m := Margin(root, z, p, trials);
    ProportionBounds(successes, trials);
    WilsonBounds(root, z, successes, trials);
    RawInSlack(root, z, p, trials);
    MarginSquared(root, z, p, trials);
    BoundSolvesScore(p, q, m, l);
    forall x | SolvesScore(p, q, x)
      ensures l <= x
    {
      RootsAreAbove(p, q, m, l, x);
    }
  }

  lemma ScoreAlgebra(p: real, q: real, l: real)
    requires q > 0.0
    requires var c, k := p + q / 2.0, 1.0 + q;
      (c - l * k) * (c - l * k) == c * c - (p * p + q * (p * p))
    ensures (p - l) * (p - l) == q * (l * (1.0 - l))
  {
    var c, k := p + q / 2.0, 1.0 + q;
    var f := (p - l) * (p - l) - q * (l * (1.0 - l));
    assert q * (l * (1.0 - l)) == q * l - q * (l * l) by { Distribute(q, l, l * l); assert l * (1.0 - l) == l - l * l; }
    assert f == p * p - 2.0 * (p * l) + l * l - q * l + q * (l * l);
    assert (c - l * k) * (c - l * k) == c * c - 2.0 * (c * (l * k)) + (l * k) * (l * k);
    assert c * (l * k) == k * (c * l) && (l * k) * (l * k) == k * (k * (l * l));
    assert p * p + q * (p * p) == k * (p * p);
    assert k * (p * p) - k * (2.0 * (c * l)) + k * (k * (l * l)) == 0.0;
    assert k * (p * p - 2.0 * (c * l) + k * (l * l)) == 0.0;
    assert c * l == p * l + q * l / 2.0;
    assert k * (l * l) == l * l + q * (l * l);
    assert k * f == 0.0;
    assert f == 0.0;
  }

  /** With nothing but successes the bound is `1 / (1 + z * z / trials)`. */
  lemma WilsonOfPerfect(root: real -> real, z: Quantile, trials: nat)
    requires IsRoot(root) && trials > 0
    ensures Wilson(root, z, trials, trials) == 1.0 / (1.0 + Slack(z, trials))
  {
    hide RawLower, Slack, Margin;
    var q, m := Slack(z, trials), Margin(root, z, 1.0, trials);
    assert Proportion(trials, trials) == 1.0;
    WilsonBounds(root, z, trials, trials);
    RawInSlack(root, z, 1.0, trials);
    MarginSquared(root, z, 1.0, trials);
    assert m * m == (q / 2.0) * (q / 2.0);
    SquareOrder(m, q / 2.0);
    SquareOrder(q / 2.0, m);
    assert Wilson(root, z, trials, trials) * (1.0 + q) == 1.0;
  }
}
