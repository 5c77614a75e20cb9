/** Non-negative rationals, with the greatest common divisor and least common multiple behind them. */
module Rational {

  function Gcd(a: nat, b: nat): nat
    decreases b
  {
    if b == 0 then a else Gcd(b, a % b)
  }

  predicate Divides(d: nat, n: nat) {
    d > 0 && n % d == 0
  }

  // ---------------------------------------------------------------- division

  lemma ModOfProduct(d: nat, k: nat)
    requires d > 0
    ensures d * k % d == 0 && d * k / d == k
  {
    DivisionIsUnique(d * k, d, k, 0);
  }

  lemma DivisionIsUnique(n: nat, d: nat, q: nat, r: nat)
    requires d > 0 && n == d * q + r && r < d
    ensures n / d == q && n % d == r
  {
    var p, s := n / d, n % d;
    assert n == d * p + s;
    assert d * (p - q) == r - s;
    if p > q {
      AtLeast(d, p - q);
    } else if q > p {
      AtLeast(d, q - p);
    }
  }

  lemma AtLeast(d: nat, k: int)
    requires k >= 1
    ensures d * k >= d
  {
  }

  lemma Factor(d: nat, n: nat)
    requires Divides(d, n)
    ensures n == d * (n / d)
  {
  }

  lemma DividesTransitively(a: nat, b: nat, c: nat)
    requires Divides(a, b) && Divides(b, c)
    ensures Divides(a, c)
  {
    Factor(a, b);
    Factor(b, c);
    var x, y := b / a, c / b;
    assert c == a * (x * y) by { Regroup(a, x, y); }
    ModOfProduct(a, x * y);
  }

  lemma Regroup(a: nat, x: nat, y: nat)
    ensures a * x * y == a * (x * y)
  {
  }

  lemma DividesSum(d: nat, a: nat, b: nat)
    requires Divides(d, a) && Divides(d, b)
    ensures Divides(d, a + b)
  {
    Factor(d, a);
    Factor(d, b);
    assert a + b == d * (a / d + b / d);
    ModOfProduct(d, a / d + b / d);
  }

  lemma DividesProduct(d: nat, a: nat, k: nat)
    requires Divides(d, a)
    ensures Divides(d, a * k)
  {
    Factor(d, a);
    Regroup(d, a / d, k);
    ModOfProduct(d, a / d * k);
  }

  // ---------------------------------------------------------------- greatest common divisor

  lemma {:induction false} GcdDivides(a: nat, b: nat)
    requires a > 0 || b > 0
    ensures Divides(Gcd(a, b), a) && Divides(Gcd(a, b), b)
    decreases b
  {
    if b == 0 {
      ModOfProduct(a, 1);
      ModOfProduct(a, 0);
    } else {
      GcdDivides(b, a % b);
      Euclid(a, b);
      DividesCombination(Gcd(b, a % b), a, b, a / b, a % b);
    }
  }

  lemma Euclid(a: nat, b: nat)
    requires b > 0
    ensures a == b * (a / b) + a % b
  {
  }

  lemma DividesCombination(g: nat, a: nat, b: nat, q: nat, r: nat)
    requires Divides(g, b) && Divides(g, r) && a == b * q + r
    ensures Divides(g, a)
  {
    hide Divides;
    DividesProduct(g, b, q);
    DividesSum(g, b * q, r);
  }

  lemma {:induction false} GcdOfNothing(a: nat, b: nat)
    ensures Gcd(a, b) == 0 <==> a == 0 && b == 0
  {
    if a > 0 || b > 0 {
      GcdDivides(a, b);
    }
  }

  lemma {:induction false} GcdScales(k: nat, a: nat, b: nat)
    requires k > 0
    ensures Gcd(k * a, k * b) == k * Gcd(a, b)
    decreases b
  {
    if b > 0 {
      var q, r := a / b, a % b;
      assert k * a == k * b * q + k * r by {
        assert a == b * q + r;
        Spread(k, b, q, r);
      }
      Below(k, r, b);
      AtLeast(k, b);
      DivisionIsUnique(k * a, k * b, q, k * r);
      GcdScales(k, b, r);
    }
  }

  lemma Spread(k: nat, b: nat, q: nat, r: nat)
    ensures k * (b * q + r) == k * b * q + k * r
  {
  }

  lemma Below(k: nat, a: nat, b: nat)
    requires k > 0 && a < b
    ensures k * a < k * b
  {
  }

  /** `math.gcd(*v)`. */
  function GcdAll(v: seq<nat>): nat {
    if v == [] then 0 else Gcd(GcdAll(v[..|v| - 1]), v[|v| - 1])
  }

  lemma {:induction false} GcdAllDivides(v: seq<nat>, i: nat)
    requires i < |v| && GcdAll(v) > 0
    ensures Divides(GcdAll(v), v[i])
  {
    var n := |v| - 1;
    GcdOfNothing(GcdAll(v[..n]), v[n]);
    GcdDivides(GcdAll(v[..n]), v[n]);
    if i < n {
      if GcdAll(v[..n]) > 0 {
        GcdAllDivides(v[..n], i);
        DividesTransitively(GcdAll(v), GcdAll(v[..n]), v[i]);
      } else {
        GcdAllZero(v[..n]);
        assert v[..n][i] == 0;
        ModOfProduct(GcdAll(v), 0);
      }
    }
  }

  lemma {:induction false} GcdAllZero(v: seq<nat>)
    ensures GcdAll(v) == 0 <==> forall i | 0 <= i < |v| :: v[i] == 0
  {
    if v != [] {
      var n := |v| - 1;
      GcdAllZero(v[..n]);
      GcdOfNothing(GcdAll(v[..n]), v[n]);
      assert forall i | 0 <= i < n :: v[..n][i] == v[i];
    }
  }

  function Times(k: nat, v: seq<nat>): (w: seq<nat>)
    ensures |w| == |v| && forall i | 0 <= i < |v| :: w[i] == k * v[i]
  {
    seq(|v|, i requires 0 <= i < |v| => k * v[i])
  }

  lemma {:induction false} GcdAllScales(k: nat, v: seq<nat>)
    ensures GcdAll(Times(k, v)) == k * GcdAll(v)
  {
    if k == 0 {
      GcdAllZero(Times(k, v));
    } else if v != [] {
      var n := |v| - 1;
      GcdAllScales(k, v[..n]);
      assert Times(k, v)[..n] == Times(k, v[..n]);
      GcdScales(k, GcdAll(v[..n]), v[n]);
    }
  }

  // ---------------------------------------------------------------- primitive vectors

  /** A vector divided by its greatest common divisor. */
  function Primitive(v: seq<nat>): (r: seq<nat>)
    requires GcdAll(v) > 0
    ensures |r| == |v|
  {
    Each(v, GcdAll(v))
  }

  function Each(v: seq<nat>, d: nat): (r: seq<nat>)
    requires d > 0
    ensures |r| == |v| && forall i | 0 <= i < |v| :: r[i] == v[i] / d
  {
    seq(|v|, i requires 0 <= i < |v| => v[i] / d)
  }

  lemma PrimitiveIsQuotient(v: seq<nat>)
    requires GcdAll(v) > 0
    ensures Times(GcdAll(v), Primitive(v)) == v
    ensures GcdAll(Primitive(v)) == 1
  {
    hide GcdAll;
    var g, r := GcdAll(v), Primitive(v);
    forall i | 0 <= i < |v|
      ensures g * r[i] == v[i]
    {
      GcdAllDivides(v, i);
      Factor(g, v[i]);
    }
    assert Times(g, r) == v;
    GcdAllScales(g, r);
    One(g, GcdAll(r));
  }

  lemma One(g: nat, x: nat)
    requires g > 0 && g * x == g
    ensures x == 1
  {
    if x > 1 {
      Below(g, 1, x);
    }
  }

  /** The ratios between the entries of two vectors are the same. */
  ghost predicate SameRatios(u: seq<nat>, v: seq<nat>) {
    |u| == |v| && forall i, j | 0 <= i < |u| && 0 <= j < |u| :: u[i] * v[j] == u[j] * v[i]
  }

  /** Two primitive vectors with the same ratios are equal. */
  lemma PrimitiveIsUnique(u: seq<nat>, v: seq<nat>)
    requires SameRatios(u, v) && GcdAll(u) == 1 && GcdAll(v) == 1
    ensures u == v
  {
    hide GcdAll;
    forall j | 0 <= j < |u|
      ensures u[j] == v[j]
    {
      GcdAllScales(v[j], u);
      GcdAllScales(u[j], v);
      forall i | 0 <= i < |u|
        ensures Times(v[j], u)[i] == Times(u[j], v)[i]
      {
        assert u[i] * v[j] == u[j] * v[i];
      }
      assert Times(v[j], u) == Times(u[j], v);
    }
  }

  // ---------------------------------------------------------------- least common multiple

  function Lcm(a: nat, b: nat): nat
    requires a > 0 && b > 0
  {
    GcdOfNothing(a, b);
    a * b / Gcd(a, b)
  }

  lemma LcmIsMultiple(a: nat, b: nat)
    requires a > 0 && b > 0
    ensures Lcm(a, b) > 0 && Divides(a, Lcm(a, b)) && Divides(b, Lcm(a, b))
  {
    hide Gcd;
    GcdOfNothing(a, b);
    var g := Gcd(a, b);
    GcdDivides(a, b);
    Factor(g, a);
    Factor(g, b);
    var x, y := a / g, b / g;
    assert a * b == g * (x * b) by { Regroup(g, x, b); }
    assert a * b == g * (y * a) by { Regroup(g, y, a); }
    ModOfProduct(g, x * b);
    ModOfProduct(g, y * a);
    assert Lcm(a, b) == b * x == a * y;
    ModOfProduct(b, x);
    ModOfProduct(a, y);
    assert x > 0;
    AtLeast(b, x);
  }

  /** `math.lcm(*v)`. */
  function LcmAll(v: seq<nat>): (m: nat)
    requires forall i | 0 <= i < |v| :: v[i] > 0
    ensures m > 0
  {
    if v == [] then 1
    else
      LcmIsMultiple(LcmAll(v[..|v| - 1]), v[|v| - 1]);
      Lcm(LcmAll(v[..|v| - 1]), v[|v| - 1])
  }

  lemma {:induction false} LcmAllIsMultiple(v: seq<nat>, i: nat)
    requires (forall k | 0 <= k < |v| :: v[k] > 0) && i < |v|
    ensures Divides(v[i], LcmAll(v))
  {
    var n := |v| - 1;
    LcmIsMultiple(LcmAll(v[..n]), v[n]);
    if i < n {
      LcmAllIsMultiple(v[..n], i);
      DividesTransitively(v[i], LcmAll(v[..n]), LcmAll(v));
    }
  }

  lemma {:induction false} LcmOfOnes(v: seq<nat>)
    requires forall i | 0 <= i < |v| :: v[i] == 1
    ensures LcmAll(v) == 1
  {
    if v != [] {
      LcmOfOnes(v[..|v| - 1]);
      assert Gcd(1, 1) == Gcd(1, 0) == 1;
    }
  }

  // ---------------------------------------------------------------- fractions

  datatype Fraction = Fraction(num: nat, den: nat) {
    predicate Ok() {
      den > 0
    }

    function Value(): real
      requires Ok()
    {
      num as real / den as real
    }
  }

  /** A fraction in lowest terms. */
  function Reduced(num: nat, den: nat): Fraction
    requires den > 0
  {
    GcdOfNothing(num, den);
    Fraction(num / Gcd(num, den), den / Gcd(num, den))
  }

  function Plus(a: Fraction, b: Fraction): Fraction
    requires a.Ok() && b.Ok()
  {
    AtLeast(a.den, b.den);
    Reduced(a.num * b.den + b.num * a.den, a.den * b.den)
  }

  lemma ReducedValue(num: nat, den: nat)
    requires den > 0
    ensures Reduced(num, den).Ok() && Reduced(num, den).Value() == num as real / den as real
  {
    hide Gcd;
    GcdOfNothing(num, den);
    var g := Gcd(num, den);
    GcdDivides(num, den);
    Factor(g, num);
    Factor(g, den);
    var n, d := num / g, den / g;
    assert d > 0;
    CancelFactor(g, n, d);
  }

  lemma CancelFactor(g: nat, n: nat, d: nat)
    requires g > 0 && d > 0
    ensures g * d > 0 && n as real / d as real == (g * n) as real / (g * d) as real
  {
    AtLeast(g, d);
    var q, r := n as real / d as real, (g * n) as real / (g * d) as real;
    assert q * d as real == n as real;
    assert r * (g * d) as real == (g * n) as real;
    assert (g * d) as real == g as real * d as real && (g * n) as real == g as real * n as real;
    assert (r * d as real) * g as real == n as real * g as real;
    Cancel(r * d as real, n as real, g as real);
    Cancel(r, q, d as real);
  }

  lemma Cancel(a: real, b: real, k: real)
    requires k > 0.0 && a * k == b * k
    ensures a == b
  {
  }

  lemma PlusValue(a: Fraction, b: Fraction)
    requires a.Ok() && b.Ok()
    ensures Plus(a, b).Ok() && Plus(a, b).Value() == a.Value() + b.Value()
  {
    hide Reduced;
    AtLeast(a.den, b.den);
    ReducedValue(a.num * b.den + b.num * a.den, a.den * b.den);
    CrossSum(a.num, a.den, b.num, b.den);
  }

  lemma CrossSum(n: nat, d: nat, m: nat, e: nat)
    requires d > 0 && e > 0
    ensures d * e > 0 && n as real / d as real + m as real / e as real == (n * e + m * d) as real / (d * e) as real
  {
    SumOfQuotients(n as real, d as real, m as real, e as real);
    CastProduct(n, e);
    CastProduct(m, d);
    CastProduct(d, e);
  }

  lemma CastProduct(a: nat, b: nat)
    ensures (a * b) as real == a as real * b as real
  {
  }

  lemma SumOfQuotients(n: real, d: real, m: real, e: real)
    requires d > 0.0 && e > 0.0
    ensures d * e > 0.0 && n / d + m / e == (n * e + m * d) / (d * e)
  {
    var x, y, z := n / d, m / e, (n * e + m * d) / (d * e);
    assert x * d == n && y * e == m;
    assert d * e > 0.0;
    assert z * (d * e) == n * e + m * d;
    assert (x + y) * (d * e) == x * d * e + y * e * d;
    Cancel(x + y, z, d * e);
  }

  lemma PlusWhole(n: nat)
    ensures Plus(Fraction(0, 1), Fraction(n, 1)) == Fraction(n, 1)
  {
    assert Gcd(n, 1) == Gcd(1, n % 1) == 1;
  }
}
