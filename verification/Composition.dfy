/**
 The formula normal form of `src/materials/cross_validation.py`.  Amounts are exact rationals, and a
 number is printed as its shortest decimal, which `str(float(n))` is for moderate whole numbers.
 */
module Composition {
  import opened Wrappers
  import opened Rational
  import Decimal

  datatype Part = Part(element: string, amount: Fraction)

  /** One element of a normal form. */
  datatype Whole = Whole(element: string, count: nat)

  datatype CompositionError = Missing | NotFlat | BadToken | ZeroAmounts

  predicate IsUpper(c: char) {
    'A' <= c <= 'Z'
  }

  predicate IsLower(c: char) {
    'a' <= c <= 'z'
  }

  predicate IsElement(e: string) {
    (|e| == 1 && IsUpper(e[0])) || (|e| == 2 && IsUpper(e[0]) && IsLower(e[1]))
  }

  // ---------------------------------------------------------------- reading a formula

  function Compact(s: string): string {
    if s == [] then [] else (if IsSpace(s[0]) then [] else [s[0]]) + Compact(s[1..])
  }

  /** How many digits `s` starts with. */
  function Digits(s: string): (n: nat)
    ensures n <= |s| && forall i | 0 <= i < n :: Decimal.IsDigit(s[i])
  {
    if s == [] || !Decimal.IsDigit(s[0]) then 0 else 1 + Digits(s[1..])
  }

  function Power10(n: nat): (p: nat)
    ensures p > 0
  {
    if n == 0 then 1 else 10 * Power10(n - 1)
  }

  /** `Fraction(raw or "1")`, where `raw` is `whole` or `whole.decimals`. */
  function Amount(whole: string, decimals: string): Fraction
    requires forall i | 0 <= i < |whole| :: Decimal.IsDigit(whole[i])
    requires forall i | 0 <= i < |decimals| :: Decimal.IsDigit(decimals[i])
  {
    if whole == "" then Fraction(1, 1)
    else Reduced(Decimal.Value(whole + decimals), Power10(|decimals|))
  }

  function Point(s: string): bool {
    s != [] && s[0] == '.' && Digits(s[1..]) > 0
  }

  /** An optional number at the head of `s`, and what follows it. */
  function Number(s: string): (r: (Fraction, string))
    ensures |r.1| <= |s|
  {
    var d := Digits(s);
    var rest := s[d..];
    if d > 0 && Point(rest) then
      var f := Digits(rest[1..]);
      (Amount(s[..d], rest[1..][..f]), rest[1..][f..])
    else (Amount(s[..d], ""), rest)
  }

  function ElementLength(s: string): (n: nat)
    requires s != []
    ensures 1 <= n <= |s|
  {
    if |s| > 1 && IsLower(s[1]) then 2 else 1
  }

  /** The tokens of a formula, if it consists of nothing else. */
  function Parse(s: string): Option<seq<Part>>
    decreases |s|
  {
    if s == [] then Some([])
    else if !IsUpper(s[0]) then None
    else
      var n := ElementLength(s);
      var (amount, rest) := Number(s[n..]);
      var tail := Parse(rest);
      if tail.None? then None else Some([Part(s[..n], amount)] + tail.value)
  }

  // ---------------------------------------------------------------- totals and the normal form

  /** The dictionary of totals, kept in the order in which `sorted` will list it. */
  function Add(totals: seq<Part>, p: Part): seq<Part>
    requires p.amount.Ok() && forall i | 0 <= i < |totals| :: totals[i].amount.Ok()
  {
    if totals == [] || StringLess(p.element, totals[0].element) then
      [Part(p.element, Plus(Fraction(0, 1), p.amount))] + totals
    else if totals[0].element == p.element then
      [Part(p.element, Plus(totals[0].amount, p.amount))] + totals[1..]
    else [totals[0]] + Add(totals[1..], p)
  }

  ghost predicate AmountsOk(parts: seq<Part>) {
    forall i | 0 <= i < |parts| :: parts[i].amount.Ok()
  }

  lemma {:induction false} AddOk(totals: seq<Part>, p: Part)
    requires p.amount.Ok() && AmountsOk(totals)
    ensures AmountsOk(Add(totals, p))
  {
    hide Plus;
    PlusValue(Fraction(0, 1), p.amount);
    if totals != [] {
      PlusValue(totals[0].amount, p.amount);
      AddOk(totals[1..], p);
    }
  }

  function Totals(parts: seq<Part>): (totals: seq<Part>)
    requires AmountsOk(parts)
    ensures AmountsOk(totals)
  {
    if parts == [] then []
    else
      AddOk(Totals(parts[..|parts| - 1]), parts[|parts| - 1]);
      Add(Totals(parts[..|parts| - 1]), parts[|parts| - 1])
  }

  function Denominators(totals: seq<Part>): (v: seq<nat>)
    requires AmountsOk(totals)
    ensures |v| == |totals| && forall i | 0 <= i < |v| :: v[i] == totals[i].amount.den > 0
  {
    seq(|totals|, i requires 0 <= i < |totals| => totals[i].amount.den)
  }

  /** The totals over their common denominator. */
  function Integers(totals: seq<Part>): (v: seq<nat>)
    requires AmountsOk(totals)
    ensures |v| == |totals|
  {
    var m := LcmAll(Denominators(totals));
    seq(|totals|, i requires 0 <= i < |totals| => Over(totals[i].amount, m))
  }

  /** `int(amount * m)` for a multiple `m` of the denominator. */
  function Over(f: Fraction, m: nat): nat
    requires f.Ok()
  {
    f.num * (m / f.den)
  }

  function Label(totals: seq<Part>, counts: seq<nat>): (form: seq<Whole>)
    requires |totals| == |counts|
    ensures |form| == |totals|
    ensures forall i | 0 <= i < |form| :: form[i] == Whole(totals[i].element, counts[i])
  {
    seq(|totals|, i requires 0 <= i < |totals| => Whole(totals[i].element, counts[i]))
  }

  /** The coprime whole amounts in the proportions of the totals; `None` if all amounts are zero. */
  function NormalForm(parts: seq<Part>): Option<seq<Whole>>
    requires AmountsOk(parts)
  {
    var totals := Totals(parts);
    var integers := Integers(totals);
    if GcdAll(integers) == 0 then None else Some(Label(totals, Primitive(integers)))
  }

  function Count(n: nat): string {
    if n == 1 then "" else Decimal.Numeral(n)
  }

  function Print(form: seq<Whole>): string {
    if form == [] then "" else form[0].element + Count(form[0].count) + Print(form[1..])
  }

  predicate Flat(s: string) {
    forall i | 0 <= i < |s| :: s[i] !in {'(', ')', '[', ']', '+', '-'}
  }

  lemma {:induction false} ParsedOk(s: string)
    requires Parse(s).Some?
    ensures AmountsOk(Parse(s).value)
    ensures forall i | 0 <= i < |Parse(s).value| :: IsElement(Parse(s).value[i].element)
    decreases |s|
  {
    hide Number;
    if s != [] {
      var n := ElementLength(s);
      NumberOk(s[n..]);
      ParsedOk(Number(s[n..]).1);
    }
  }

  lemma NumberOk(s: string)
    ensures Number(s).0.Ok()
  {
    hide Reduced;
    var d := Digits(s);
    if d > 0 && Point(s[d..]) {
      var f := Digits(s[d..][1..]);
      ReducedValue(Decimal.Value(s[..d] + s[d..][1..][..f]), Power10(f));
    } else if d > 0 {
      ReducedValue(Decimal.Value(s[..d] + ""), Power10(0));
    }
  }

  /** `normalise_composition`. */
  function Normalise(value: string): Result<string, CompositionError> {
    var s := Compact(value);
    if s == "" then Failure(Missing)
    else if !Flat(s) then Failure(NotFlat)
    else
      var parts := Parse(s);
      if parts.None? then Failure(BadToken)
      else
        ParsedOk(s);
        var form := NormalForm(parts.value);
        if form.None? then Failure(ZeroAmounts) else Success(Print(form.value))
  }

  // ---------------------------------------------------------------- what the totals are

  /** The amount of `e` in a formula. */
  function TotalOf(parts: seq<Part>, e: string): real
    requires AmountsOk(parts)
  {
    if parts == [] then 0.0
    else
      TotalOf(parts[..|parts| - 1], e)
      + if parts[|parts| - 1].element == e then parts[|parts| - 1].amount.Value() else 0.0
  }

  function Entry(totals: seq<Part>, e: string): real
    requires AmountsOk(totals)
  {
    if totals == [] then 0.0
    else if totals[0].element == e then totals[0].amount.Value()
    else Entry(totals[1..], e)
  }

  ghost predicate Ascending(totals: seq<Part>) {
    totals != [] ==>
      (forall q | q in totals[1..] :: StringLess(totals[0].element, q.element)) && Ascending(totals[1..])
  }

  function Names(totals: seq<Part>): set<string> {
    set t | t in totals :: t.element
  }

  lemma NamesOf(totals: seq<Part>)
    requires totals != []
    ensures Names(totals) == {totals[0].element} + Names(totals[1..])
  {
    assert totals == [totals[0]] + totals[1..];
    forall t | t in totals[1..]
      ensures t in totals
    {
    }
  }

  lemma ConsNames(p: Part, totals: seq<Part>)
    ensures Names([p] + totals) == {p.element} + Names(totals)
  {
    NamesOf([p] + totals);
    assert ([p] + totals)[1..] == totals;
  }

  lemma {:induction false} AddNames(totals: seq<Part>, p: Part)
    requires p.amount.Ok() && AmountsOk(totals)
    ensures Names(Add(totals, p)) == Names(totals) + {p.element}
  {
    hide Plus, StringLess, Names;
    if totals == [] || StringLess(p.element, totals[0].element) {
      ConsNames(Part(p.element, Plus(Fraction(0, 1), p.amount)), totals);
    } else {
      NamesOf(totals);
      if totals[0].element == p.element {
        ConsNames(Part(p.element, Plus(totals[0].amount, p.amount)), totals[1..]);
      } else {
        AddNames(totals[1..], p);
        ConsNames(totals[0], Add(totals[1..], p));
      }
    }
  }

  lemma {:induction false} AddAscends(totals: seq<Part>, p: Part)
    requires p.amount.Ok() && AmountsOk(totals) && Ascending(totals)
    ensures Ascending(Add(totals, p))
  {
    hide Plus, StringLess, Names;
    var all := Add(totals, p);
    if totals == [] || StringLess(p.element, totals[0].element) {
      assert all[1..] == totals;
      forall q | q in totals
        ensures StringLess(p.element, q.element)
      {
        if q != totals[0] {
          assert q in totals[1..];
          StringLessTransitive(p.element, totals[0].element, q.element);
        }
      }
    } else if totals[0].element == p.element {
      assert all[1..] == totals[1..];
    } else {
      StringLessTotal(p.element, totals[0].element);
      AddAscends(totals[1..], p);
      AddNames(totals[1..], p);
      assert all[1..] == Add(totals[1..], p);
      AllAbove(Add(totals[1..], p), totals[1..], p.element, totals[0].element);
    }
  }

  lemma AllAbove(more: seq<Part>, totals: seq<Part>, e: string, low: string)
    requires Names(more) == Names(totals) + {e} && StringLess(low, e)
    requires forall q | q in totals :: StringLess(low, q.element)
    ensures forall q | q in more :: StringLess(low, q.element)
  {
    hide StringLess;
    forall q | q in more
      ensures StringLess(low, q.element)
    {
      assert q.element in Names(more);
    }
  }

  lemma {:induction false} NoEntry(totals: seq<Part>, e: string)
    requires AmountsOk(totals) && e !in Names(totals)
    ensures Entry(totals, e) == 0.0
  {
    hide Names;
    if totals != [] {
      NamesOf(totals);
      NoEntry(totals[1..], e);
    }
  }

  lemma BelowAll(totals: seq<Part>, e: string)
    requires Ascending(totals) && (totals != [] ==> StringLess(e, totals[0].element))
    ensures e !in Names(totals)
  {
    hide StringLess;
    forall t | t in totals
      ensures t.element != e
    {
      StringLessTotal(e, e);
      if t != totals[0] {
        assert t in totals[1..];
        StringLessTransitive(e, totals[0].element, t.element);
      }
    }
  }

  /** Adding an amount changes the entry of its element and no other. */
  lemma {:induction false} AddEntry(totals: seq<Part>, p: Part, e: string)
    requires p.amount.Ok() && AmountsOk(totals) && Ascending(totals)
    ensures AmountsOk(Add(totals, p))
    ensures Entry(Add(totals, p), e) == Entry(totals, e) + if e == p.element then p.amount.Value() else 0.0
  {
    hide Plus, StringLess, Names;
    AddOk(totals, p);
    var all := Add(totals, p);
    PlusValue(Fraction(0, 1), p.amount);
    if totals == [] || StringLess(p.element, totals[0].element) {
      assert all[1..] == totals;
      BelowAll(totals, p.element);
      NoEntry(totals, p.element);
    } else if totals[0].element == p.element {
      assert all[1..] == totals[1..];
      PlusValue(totals[0].amount, p.amount);
    } else {
      assert all[1..] == Add(totals[1..], p);
      AddEntry(totals[1..], p, e);
    }
  }

  /** The dictionary holds, in ascending order, the total of every element mentioned. */
  lemma {:induction false} TotalsAre(parts: seq<Part>, e: string)
    requires AmountsOk(parts)
    ensures Ascending(Totals(parts)) && Names(Totals(parts)) == Names(parts)
    ensures Entry(Totals(parts), e) == TotalOf(parts, e)
  {
    hide Add, Ascending, Names, Entry;
    if parts == [] {
      NothingYet(e);
    } else {
      var n := |parts| - 1;
      TotalsAre(parts[..n], e);
      AddEntry(Totals(parts[..n]), parts[n], e);
      AddAscends(Totals(parts[..n]), parts[n]);
      AddNames(Totals(parts[..n]), parts[n]);
      SnocNames(parts);
    }
  }

  lemma NothingYet(e: string)
    ensures Ascending([]) && Names([]) == {} && Entry([], e) == 0.0
  {
  }

  lemma SnocNames(parts: seq<Part>)
    requires parts != []
    ensures Names(parts) == Names(parts[..|parts| - 1]) + {parts[|parts| - 1].element}
  {
    var n := |parts| - 1;
    assert parts == parts[..n] + [parts[n]];
    assert forall t | t in parts[..n] :: t in parts;
    assert forall t | t in parts :: t in parts[..n] || t == parts[n];
  }

  // ---------------------------------------------------------------- the normal form is primitive

  /** Over the common denominator every total is whole. */
  lemma IntegersAre(totals: seq<Part>, i: nat)
    requires AmountsOk(totals) && i < |totals|
    ensures Integers(totals)[i] as real == totals[i].amount.Value() * LcmAll(Denominators(totals)) as real
  {
    hide LcmAll;
    var m, f := LcmAll(Denominators(totals)), totals[i].amount;
    LcmAllIsMultiple(Denominators(totals), i);
    Factor(f.den, m);
    WholeMultiple(f.num, f.den, m / f.den);
  }

  lemma WholeMultiple(n: nat, d: nat, k: nat)
    requires d > 0
    ensures (n * k) as real == n as real / d as real * (d * k) as real
  {
    CastProduct(n, k);
    CastProduct(d, k);
    var q := n as real / d as real;
    assert q * d as real == n as real;
    assert q * (d as real * k as real) == q * d as real * k as real;
  }

  /** The scale between a normal form and the totals it comes from. */
  function Multiplier(totals: seq<Part>): real
    requires AmountsOk(totals) && GcdAll(Integers(totals)) > 0
  {
    LcmAll(Denominators(totals)) as real / GcdAll(Integers(totals)) as real
  }

  /** Each count is its total times one positive multiplier, and the counts have no common factor. */
  lemma FormIsPrimitive(totals: seq<Part>)
    requires AmountsOk(totals) && GcdAll(Integers(totals)) > 0
    ensures Multiplier(totals) > 0.0 && GcdAll(Primitive(Integers(totals))) == 1
    ensures forall i | 0 <= i < |totals| ::
      Primitive(Integers(totals))[i] as real == totals[i].amount.Value() * Multiplier(totals)
  {
    hide LcmAll, GcdAll, Primitive, Integers;
    var v := Integers(totals);
    var m, g, r := LcmAll(Denominators(totals)), GcdAll(v), Primitive(v);
    PrimitiveIsQuotient(v);
    PositiveQuotient(m as real, g as real);
    forall i | 0 <= i < |totals|
      ensures r[i] as real == totals[i].amount.Value() * Multiplier(totals)
    {
      IntegersAre(totals, i);
      assert Times(g, r)[i] == v[i];
      CastProduct(g, r[i]);
      Rescale(r[i] as real, g as real, totals[i].amount.Value(), m as real);
    }
  }

  lemma PositiveQuotient(a: real, b: real)
    requires a > 0.0 && b > 0.0
    ensures a / b > 0.0
  {
  }

  lemma Rescale(r: real, g: real, t: real, m: real)
    requires g > 0.0 && g * r == t * m
    ensures r == t * (m / g)
  {
    var q := m / g;
    assert q * g == m;
    assert (t * q) * g == t * m;
    Cancel(r, t * q, g);
  }

  // ---------------------------------------------------------------- printing and reading back

  ghost predicate Printable(form: seq<Whole>) {
    forall i | 0 <= i < |form| :: IsElement(form[i].element)
  }

  function AsParts(form: seq<Whole>): (parts: seq<Part>)
    ensures |parts| == |form|
    ensures forall i | 0 <= i < |form| :: parts[i] == Part(form[i].element, Fraction(form[i].count, 1))
  {
    seq(|form|, i requires 0 <= i < |form| => Part(form[i].element, Fraction(form[i].count, 1)))
  }

  /** Nothing that could extend an element or a number. */
  ghost predicate Starts(s: string) {
    s == "" || IsUpper(s[0])
  }

  lemma {:induction false} DigitsOf(n: string, rest: string)
    requires (forall i | 0 <= i < |n| :: Decimal.IsDigit(n[i])) && Starts(rest)
    ensures Digits(n + rest) == |n|
  {
    if n == "" {
      assert n + rest == rest;
    } else {
      assert (n + rest)[1..] == n[1..] + rest;
      DigitsOf(n[1..], rest);
    }
  }

  lemma NumberOfCount(n: nat, rest: string)
    requires Starts(rest)
    ensures Number(Count(n) + rest) == (Fraction(n, 1), rest)
  {
    hide Decimal.Numeral, Digits;
    var c := Count(n);
    DigitsOf(c, rest);
    assert (c + rest)[|c|..] == rest && (c + rest)[..|c|] == c;
    if n != 1 {
      Decimal.ValueOfNumeral(n);
      assert c + "" == c;
      WholeReduced(n);
    }
  }

  lemma WholeReduced(n: nat)
    ensures Reduced(n, Power10(0)) == Fraction(n, 1)
  {
    assert Gcd(n, 1) == Gcd(1, n % 1) == 1;
  }

  lemma CountStarts(n: nat, rest: string)
    requires Starts(rest)
    ensures Count(n) + rest != "" ==> !IsLower((Count(n) + rest)[0])
  {
    hide Decimal.Numeral;
    if Count(n) != "" {
      assert (Count(n) + rest)[0] == Count(n)[0];
    }
  }

  /** What is printed reads back as exactly the same elements and counts. */
  lemma {:induction false} PrintParse(form: seq<Whole>)
    requires Printable(form)
    ensures Starts(Print(form)) && Parse(Print(form)) == Some(AsParts(form))
  {
    hide Count, Number;
    if form != [] {
      var e, c, tail := form[0].element, Count(form[0].count), Print(form[1..]);
      PrintParse(form[1..]);
      var s := Print(form);
      assert s == e + (c + tail);
      CountStarts(form[0].count, tail);
      assert s[0] == e[0];
      assert |s| > |e| ==> s[|e|] == (c + tail)[0];
      assert |e| == 2 ==> s[1] == e[1];
      assert ElementLength(s) == |e|;
      assert s[..|e|] == e && s[|e|..] == c + tail;
      NumberOfCount(form[0].count, tail);
      assert AsParts(form) == [Part(e, Fraction(form[0].count, 1))] + AsParts(form[1..]);
    }
  }

  predicate PlainChar(c: char) {
    IsUpper(c) || IsLower(c) || Decimal.IsDigit(c)
  }

  lemma {:induction false} PrintIsPlain(form: seq<Whole>)
    requires Printable(form)
    ensures forall i | 0 <= i < |Print(form)| :: PlainChar(Print(form)[i])
  {
    hide Decimal.Numeral;
    if form != [] {
      PrintIsPlain(form[1..]);
    }
  }

  lemma {:induction false} CompactOfPlain(s: string)
    requires forall i | 0 <= i < |s| :: PlainChar(s[i])
    ensures Compact(s) == s
  {
    if s != [] {
      assert PlainChar(s[0]);
      CompactOfPlain(s[1..]);
      assert s == [s[0]] + s[1..];
    }
  }

  // ---------------------------------------------------------------- normalising twice

  ghost predicate AscendingForm(form: seq<Whole>) {
    forall i, j | 0 <= i < j < |form| :: StringLess(form[i].element, form[j].element)
  }

  lemma {:induction false} AddLast(totals: seq<Part>, p: Part)
    requires p.amount.Ok() && AmountsOk(totals)
    requires forall i | 0 <= i < |totals| :: StringLess(totals[i].element, p.element)
    ensures Add(totals, p) == totals + [Part(p.element, Plus(Fraction(0, 1), p.amount))]
  {
    hide StringLess, Plus;
    if totals != [] {
      StringLessTotal(totals[0].element, p.element);
      StringLessTotal(p.element, p.element);
      AddLast(totals[1..], p);
    }
  }

  lemma {:induction false} TotalsOfForm(form: seq<Whole>)
    requires AscendingForm(form)
    ensures Totals(AsParts(form)) == AsParts(form)
  {
    hide StringLess, Plus, Add;
    if form != [] {
      var n := |form| - 1;
      TotalsOfForm(form[..n]);
      assert AsParts(form)[..n] == AsParts(form[..n]);
      AddLast(AsParts(form[..n]), AsParts(form)[n]);
      PlusWhole(form[n].count);
    }
  }

  function Counts(form: seq<Whole>): (v: seq<nat>)
    ensures |v| == |form| && forall i | 0 <= i < |v| :: v[i] == form[i].count
  {
    seq(|form|, i requires 0 <= i < |form| => form[i].count)
  }

  /** What every normal form is: printable, in ascending order, without a common factor. */
  ghost predicate IsNormal(form: seq<Whole>) {
    Printable(form) && AscendingForm(form) && form != [] && GcdAll(Counts(form)) == 1
  }

  lemma NormalIsFixed(form: seq<Whole>)
    requires IsNormal(form)
    ensures NormalForm(AsParts(form)) == Some(form)
  {
    hide StringLess, Totals, GcdAll;
    var parts, v := AsParts(form), Counts(form);
    TotalsOfForm(form);
    LcmOfOnes(Denominators(parts));
    forall i | 0 <= i < |v|
      ensures Integers(parts)[i] == v[i]
    {
      OverOne(form[i].count);
    }
    assert Integers(parts) == v;
    PrimitiveIsQuotient(v);
    assert forall i | 0 <= i < |v| :: Times(1, Primitive(v))[i] == v[i];
    assert Primitive(v) == v;
    assert Label(parts, v) == form;
  }

  lemma OverOne(n: nat)
    ensures Over(Fraction(n, 1), 1) == n
  {
  }

  lemma {:induction false} AscendingPairs(totals: seq<Part>)
    requires Ascending(totals)
    ensures forall i, j | 0 <= i < j < |totals| :: StringLess(totals[i].element, totals[j].element)
  {
    hide StringLess;
    if totals != [] {
      AscendingPairs(totals[1..]);
      forall i, j | 0 <= i < j < |totals|
        ensures StringLess(totals[i].element, totals[j].element)
      {
        if i == 0 {
          assert totals[j] in totals[1..];
        } else {
          assert totals[1..][i - 1] == totals[i] && totals[1..][j - 1] == totals[j];
        }
      }
    }
  }

  lemma NormalFormIsNormal(parts: seq<Part>)
    requires AmountsOk(parts) && NormalForm(parts).Some?
    requires forall i | 0 <= i < |parts| :: IsElement(parts[i].element)
    ensures IsNormal(NormalForm(parts).value)
  {
    hide StringLess, Totals, Ascending, GcdAll, Integers, Primitive, IsElement, Names;
    var totals := Totals(parts);
    var form := NormalForm(parts).value;
    TotalsAre(parts, "");
    AscendingPairs(totals);
    FormIsPrimitive(totals);
    assert Counts(form) == Primitive(Integers(totals));
    assert form != [] by { GcdOfEmpty(Integers(totals)); }
    forall i | 0 <= i < |form|
      ensures IsElement(form[i].element)
    {
      NameIsMentioned(totals, parts, i);
    }
  }

  lemma GcdOfEmpty(v: seq<nat>)
    requires GcdAll(v) > 0
    ensures v != []
  {
  }

  lemma NameIsMentioned(totals: seq<Part>, parts: seq<Part>, i: nat)
    requires Names(totals) == Names(parts) && i < |totals|
    requires forall i | 0 <= i < |parts| :: IsElement(parts[i].element)
    ensures IsElement(totals[i].element)
  {
    hide IsElement;
    assert totals[i] in totals;
    assert totals[i].element in Names(parts);
    var t :| t in parts && t.element == totals[i].element;
  }

  /** A normal form reads back as itself, and normalises to itself. */
  lemma PrintedFormIsFixed(form: seq<Whole>)
    requires IsNormal(form)
    ensures Normalise(Print(form)) == Success(Print(form))
  {
    hide NormalForm, Parse, StringLess, Decimal.Numeral, GcdAll;
    var s := Print(form);
    PrintIsPlain(form);
    CompactOfPlain(s);
    PrintParse(form);
    NormalIsFixed(form);
    assert |form[0].element| >= 1;
    assert s != "";
    forall i | 0 <= i < |s|
      ensures s[i] !in {'(', ')', '[', ']', '+', '-'}
    {
      assert PlainChar(s[i]);
    }
  }

  /** Normalising a second time changes nothing. */
  lemma NormaliseIsIdempotent(value: string)
    requires Normalise(value).Success?
    ensures Normalise(Normalise(value).value) == Normalise(value)
  {
    hide NormalForm, Parse, Compact, Print, IsNormal, IsElement;
    var parts := Parse(Compact(value)).value;
    ParsedOk(Compact(value));
    NormalFormIsNormal(parts);
    PrintedFormIsFixed(NormalForm(parts).value);
  }

  // ---------------------------------------------------------------- a complete invariant

  /** The formula that `value` spells, when it spells one. */
  function Formula(value: string): Option<seq<Part>> {
    var s := Compact(value);
    if s == "" || !Flat(s) then None else Parse(s)
  }

  /** One formula is a positive multiple of the other, element by element. */
  ghost predicate Proportional(p: seq<Part>, q: seq<Part>)
    requires AmountsOk(p) && AmountsOk(q)
  {
    exists c: real :: c > 0.0 && IsMultiple(p, q, c)
  }

  ghost predicate IsMultiple(p: seq<Part>, q: seq<Part>, c: real)
    requires AmountsOk(p) && AmountsOk(q)
  {
    forall e: string :: TotalOf(p, e) == Multiple(c, TotalOf(q, e))
  }

  /** The product, met only where it is needed. */
  function Multiple(c: real, x: real): real {
    c * x
  }

  lemma {:induction false} EntryAt(totals: seq<Part>, i: nat)
    requires AmountsOk(totals) && Ascending(totals) && i < |totals|
    ensures Entry(totals, totals[i].element) == totals[i].amount.Value()
  {
    hide StringLess;
    if i > 0 {
      assert totals[1..][i - 1] == totals[i];
      assert totals[i] in totals[1..];
      StringLessTotal(totals[0].element, totals[0].element);
      EntryAt(totals[1..], i - 1);
    }
  }

  lemma NoNames(a: seq<Part>)
    ensures Names(a) == {} <==> a == []
  {
    if a != [] {
      assert a[0] in a;
      assert a[0].element in Names(a);
    }
  }

  /** Ascending dictionaries with the same keys list them alike. */
  lemma {:induction false} SameNamesSameOrder(a: seq<Part>, b: seq<Part>)
    requires Ascending(a) && Ascending(b) && Names(a) == Names(b)
    ensures |a| == |b| && forall i | 0 <= i < |a| :: a[i].element == b[i].element
  {
    hide StringLess;
    if a == [] || b == [] {
      NoNames(a);
      NoNames(b);
    } else {
      HeadIsLeast(a, b[0].element);
      HeadIsLeast(b, a[0].element);
      StringLessTotal(a[0].element, b[0].element);
      TailNames(a);
      TailNames(b);
      SameNamesSameOrder(a[1..], b[1..]);
      forall i | 0 <= i < |a|
        ensures a[i].element == b[i].element
      {
        if i > 0 {
          assert a[1..][i - 1] == a[i] && b[1..][i - 1] == b[i];
        }
      }
    }
  }

  lemma HeadIsLeast(a: seq<Part>, e: string)
    requires a != [] && Ascending(a)
    ensures a[0].element in Names(a)
    ensures e in Names(a) ==> e == a[0].element || StringLess(a[0].element, e)
  {
    hide StringLess;
    assert a[0] in a;
    if e in Names(a) {
      var t :| t in a && t.element == e;
      assert t == a[0] || t in a[1..];
    }
  }

  lemma TailNames(a: seq<Part>)
    requires a != [] && Ascending(a)
    ensures Names(a[1..]) == Names(a) - {a[0].element}
  {
    hide StringLess;
    NamesOf(a);
    StringLessTotal(a[0].element, a[0].element);
    assert forall t | t in a[1..] :: t.element != a[0].element;
  }

  /** The totals of a formula that has a normal form. */
  lemma FormOf(parts: seq<Part>)
    requires AmountsOk(parts) && NormalForm(parts).Some?
    ensures var totals := Totals(parts);
      && GcdAll(Integers(totals)) > 0
      && NormalForm(parts).value == Label(totals, Primitive(Integers(totals)))
      && Multiplier(totals) > 0.0 && GcdAll(Primitive(Integers(totals))) == 1
      && Ascending(totals) && Names(totals) == Names(parts)
      && forall i | 0 <= i < |totals| ::
           Primitive(Integers(totals))[i] as real == Multiple(Multiplier(totals), TotalOf(parts, totals[i].element))
  {
    hide Totals, Integers, Primitive, GcdAll, Multiplier, Ascending, Names, TotalOf;
    var totals := Totals(parts);
    FormIsPrimitive(totals);
    TotalsAre(parts, "");
    forall i | 0 <= i < |totals|
      ensures totals[i].amount.Value() == TotalOf(parts, totals[i].element)
    {
      TotalsAre(parts, totals[i].element);
      EntryAt(totals, i);
    }
  }

  lemma ProportionalFormsAgree(p: seq<Part>, q: seq<Part>)
    requires AmountsOk(p) && AmountsOk(q) && NormalForm(p).Some? && NormalForm(q).Some?
    requires Names(p) == Names(q) && Proportional(p, q)
    ensures NormalForm(p) == NormalForm(q)
  {
    hide NormalForm, Totals, Integers, Primitive, GcdAll, Multiplier, Ascending, Names, TotalOf;
    FormOf(p);
    FormOf(q);
    var a, b := Totals(p), Totals(q);
    SameNamesSameOrder(a, b);
    var u, v := Primitive(Integers(a)), Primitive(Integers(b));
    var c: real :| c > 0.0 && IsMultiple(p, q, c);
    RatiosAgree(p, q, a, b, u, v, c, Multiplier(a), Multiplier(b));
    PrimitiveIsUnique(u, v);
    assert Label(a, u) == Label(b, v);
  }

  lemma MultipleAt(p: seq<Part>, q: seq<Part>, c: real, e: string)
    requires AmountsOk(p) && AmountsOk(q) && IsMultiple(p, q, c)
    ensures TotalOf(p, e) == Multiple(c, TotalOf(q, e))
  {
    hide TotalOf, Multiple;
  }

  lemma RatiosAgree(p: seq<Part>, q: seq<Part>, a: seq<Part>, b: seq<Part>, u: seq<nat>, v: seq<nat>,
                    c: real, m: real, n: real)
    requires AmountsOk(p) && AmountsOk(q) && IsMultiple(p, q, c)
    requires |u| == |v| == |a| == |b| && forall i | 0 <= i < |a| :: a[i].element == b[i].element
    requires forall i | 0 <= i < |u| :: u[i] as real == Multiple(m, TotalOf(p, a[i].element))
    requires forall i | 0 <= i < |v| :: v[i] as real == Multiple(n, TotalOf(q, b[i].element))
    ensures SameRatios(u, v)
  {
    hide TotalOf, IsMultiple, Multiple;
    forall i, j | 0 <= i < |u| && 0 <= j < |u|
      ensures u[i] * v[j] == u[j] * v[i]
    {
      var x, y := TotalOf(q, b[i].element), TotalOf(q, b[j].element);
      MultipleAt(p, q, c, a[i].element);
      MultipleAt(p, q, c, a[j].element);
      CrossProducts(u[i], u[j], v[i], v[j], c, x, y, m, n);
    }
  }

  lemma CrossProducts(ui: nat, uj: nat, vi: nat, vj: nat, c: real, x: real, y: real, m: real, n: real)
    requires ui as real == Multiple(m, Multiple(c, x)) && uj as real == Multiple(m, Multiple(c, y))
    requires vi as real == Multiple(n, x) && vj as real == Multiple(n, y)
    ensures ui * vj == uj * vi
  {
    CastProduct(ui, vj);
    CastProduct(uj, vi);
    assert (m * (c * x)) * (n * y) == (m * (c * y)) * (n * x);
  }

  lemma SameFormsAreProportional(p: seq<Part>, q: seq<Part>)
    requires AmountsOk(p) && AmountsOk(q) && NormalForm(p).Some? && NormalForm(p) == NormalForm(q)
    ensures Names(p) == Names(q) && Proportional(p, q)
  {
    hide NormalForm, Totals, Integers, Primitive, GcdAll, Multiplier, Ascending, TotalOf;
    FormOf(p);
    FormOf(q);
    var a, b := Totals(p), Totals(q);
    var u, v, f := Primitive(Integers(a)), Primitive(Integers(b)), NormalForm(p).value;
    assert |a| == |f| == |b|;
    forall i | 0 <= i < |f|
      ensures a[i].element == b[i].element && u[i] == v[i]
    {
      assert f[i] == Whole(a[i].element, u[i]) && f[i] == Whole(b[i].element, v[i]);
    }
    SameListSameNames(a, b);
    var c := Multiplier(b) / Multiplier(a);
    PositiveQuotient(Multiplier(b), Multiplier(a));
    forall e: string
      ensures TotalOf(p, e) == Multiple(c, TotalOf(q, e))
    {
      if e in Names(p) {
        var t :| t in a && t.element == e;
        var i :| 0 <= i < |a| && a[i] == t;
        Quotients(u[i] as real, TotalOf(p, e), TotalOf(q, e), Multiplier(a), Multiplier(b));
      } else {
        Unmentioned(p, e);
        Unmentioned(q, e);
        assert Multiple(c, 0.0) == 0.0;
      }
    }
    assert IsMultiple(p, q, c);
  }

  lemma SameListSameNames(a: seq<Part>, b: seq<Part>)
    requires |a| == |b| && forall i | 0 <= i < |a| :: a[i].element == b[i].element
    ensures Names(a) == Names(b)
  {
    forall e | e in Names(a)
      ensures e in Names(b)
    {
      var i :| 0 <= i < |a| && a[i].element == e;
      assert b[i] in b;
    }
    forall e | e in Names(b)
      ensures e in Names(a)
    {
      var i :| 0 <= i < |b| && b[i].element == e;
      assert a[i] in a;
    }
  }

  lemma Quotients(u: real, x: real, y: real, m: real, n: real)
    requires m > 0.0 && u == Multiple(m, x) && u == Multiple(n, y)
    ensures x == Multiple(n / m, y)
  {
    var q := n / m;
    assert q * m == n;
    assert (q * y) * m == y * n;
    Cancel(x, q * y, m);
  }

  lemma Unmentioned(parts: seq<Part>, e: string)
    requires AmountsOk(parts) && e !in Names(parts)
    ensures TotalOf(parts, e) == 0.0
  {
    hide Totals, Names, Entry, TotalOf;
    TotalsAre(parts, e);
    NoEntry(Totals(parts), e);
  }

  lemma PrintIsInjective(f: seq<Whole>, g: seq<Whole>)
    requires Printable(f) && Printable(g) && Print(f) == Print(g)
    ensures f == g
  {
    hide Print, Parse, IsElement;
    PrintParse(f);
    PrintParse(g);
    assert |f| == |AsParts(f)| == |AsParts(g)| == |g|;
    forall i | 0 <= i < |f|
      ensures f[i] == g[i]
    {
      assert AsParts(f)[i] == AsParts(g)[i];
    }
  }

  /** What `Normalise` makes of a string that spells a formula. */
  lemma NormaliseOf(value: string)
    requires Formula(value).Some?
    ensures AmountsOk(Formula(value).value)
    ensures forall i | 0 <= i < |Formula(value).value| :: IsElement(Formula(value).value[i].element)
    ensures Normalise(value) == match NormalForm(Formula(value).value)
      case None => Failure(ZeroAmounts)
      case Some(form) => Success(Print(form))
  {
    hide NormalForm, Parse, Compact, Print, IsElement;
    ParsedOk(Compact(value));
  }

  /**
   The normal form is a complete invariant: two formulas with a normal form have the same one exactly
   when they mention the same elements and their totals are proportional.
   */
  lemma NormalFormIsCompleteInvariant(u: string, v: string)
    requires Normalise(u).Success? && Normalise(v).Success?
    ensures Formula(u).Some? && AmountsOk(Formula(u).value) && Formula(v).Some? && AmountsOk(Formula(v).value)
    ensures Normalise(u) == Normalise(v) <==>
      Names(Formula(u).value) == Names(Formula(v).value) && Proportional(Formula(u).value, Formula(v).value)
  {
    hide NormalForm, Parse, Compact, Print, IsElement, IsNormal, Names, Proportional, Flat;
    NormaliseOf(u);
    NormaliseOf(v);
    var p, q := Formula(u).value, Formula(v).value;
    var f, g := NormalForm(p).value, NormalForm(q).value;
    NormalFormIsNormal(p);
    NormalFormIsNormal(q);
    if Normalise(u) == Normalise(v) {
      PrintablePair(f, g);
      PrintIsInjective(f, g);
      SameFormsAreProportional(p, q);
    }
    if Names(p) == Names(q) && Proportional(p, q) {
      ProportionalFormsAgree(p, q);
    }
  }

  lemma PrintablePair(f: seq<Whole>, g: seq<Whole>)
    requires IsNormal(f) && IsNormal(g)
    ensures Printable(f) && Printable(g)
  {
  }

  ghost predicate AllPositive(parts: seq<Part>) {
    AmountsOk(parts) && forall i | 0 <= i < |parts| :: parts[i].amount.num > 0
  }

  lemma {:induction false} PositiveTotals(parts: seq<Part>, e: string)
    requires AllPositive(parts)
    ensures TotalOf(parts, e) >= 0.0
    ensures e in Names(parts) <==> TotalOf(parts, e) > 0.0
  {
    hide Names;
    if parts == [] {
      NothingYet(e);
    } else {
      var n := |parts| - 1;
      PositiveTotals(parts[..n], e);
      SnocNames(parts);
      PositiveQuotient(parts[n].amount.num as real, parts[n].amount.den as real);
    }
  }

  /** A formula has a normal form exactly when some amount is not zero; otherwise the division by zero escapes. */
  lemma {:induction false} ZeroExactly(parts: seq<Part>)
    requires AmountsOk(parts)
    ensures NormalForm(parts).None? <==> forall e: string :: TotalOf(parts, e) == 0.0
  {
    hide Totals, Integers, GcdAll, Ascending, Names, TotalOf, LcmAll, Denominators;
    var totals := Totals(parts);
    var v := Integers(totals);
    GcdAllZero(v);
    TotalsAre(parts, "");
    forall i | 0 <= i < |totals|
      ensures v[i] == 0 <==> TotalOf(parts, totals[i].element) == 0.0
    {
      TotalsAre(parts, totals[i].element);
      EntryAt(totals, i);
      IntegersAre(totals, i);
      ZeroProduct(totals[i].amount.Value(), LcmAll(Denominators(totals)) as real);
    }
    if GcdAll(v) == 0 {
      forall e: string
        ensures TotalOf(parts, e) == 0.0
      {
        if e in Names(totals) {
          NamedAt(totals, e);
        } else {
          Unmentioned(parts, e);
        }
      }
    } else {
      var i :| 0 <= i < |v| && v[i] != 0;
      assert TotalOf(parts, totals[i].element) != 0.0;
    }
  }

  lemma ZeroProduct(a: real, b: real)
    requires b > 0.0
    ensures a * b == 0.0 <==> a == 0.0
  {
    if a * b == 0.0 {
      Cancel(a, 0.0, b);
    }
  }

  lemma NamedAt(totals: seq<Part>, e: string)
    requires e in Names(totals)
    ensures exists i :: 0 <= i < |totals| && totals[i].element == e
  {
    var t :| t in totals && t.element == e;
    var i :| 0 <= i < |totals| && totals[i] == t;
  }

  /** For positive amounts, equal normal forms mean proportional totals and nothing else. */
  lemma PositiveFormulasAgreeExactly(u: string, v: string)
    requires Formula(u).Some? && Formula(v).Some?
    requires AllPositive(Formula(u).value) && AllPositive(Formula(v).value)
    ensures Normalise(u).Success? && Normalise(v).Success?
    ensures Normalise(u) == Normalise(v) <==> Proportional(Formula(u).value, Formula(v).value)
  {
    hide Normalise, Formula, NormalForm, AllPositive, TotalOf, Names, Multiple, IsMultiple;
    PositiveSucceeds(u);
    PositiveSucceeds(v);
    NormalFormIsCompleteInvariant(u, v);
    var p, q := Formula(u).value, Formula(v).value;
    if Proportional(p, q) {
      var c: real :| c > 0.0 && IsMultiple(p, q, c);
      forall e: string
        ensures e in Names(p) <==> e in Names(q)
      {
        PositiveTotals(p, e);
        PositiveTotals(q, e);
        MultipleAt(p, q, c, e);
        SignOfProduct(c, TotalOf(q, e));
      }
    }
  }

  lemma SignOfProduct(c: real, x: real)
    requires c > 0.0
    ensures Multiple(c, x) > 0.0 <==> x > 0.0
  {
    if x > 0.0 {
      assert c * x > 0.0;
    } else {
      assert c * x <= 0.0;
    }
  }

  lemma PositiveSucceeds(value: string)
    requires Formula(value).Some? && AllPositive(Formula(value).value)
    ensures Normalise(value).Success?
  {
    hide NormalForm, Compact, Print, TotalOf, Names, Normalise;
    NormaliseOf(value);
    var parts := Formula(value).value;
    assert parts != [];
    ZeroExactly(parts);
    PositiveTotals(parts, parts[0].element);
    FirstIsNamed(parts);
  }

  lemma FirstIsNamed(parts: seq<Part>)
    requires parts != []
    ensures parts[0].element in Names(parts)
  {
    assert parts[0] in parts;
  }

  /** An amount written as zero counts for nothing in the totals but stays in the normal form. */
  lemma ZeroAmountBreaksInvariance()
    ensures Normalise("H0O") == Success("H0O") && Normalise("O") == Success("O")
    ensures Formula("H0O").Some? && AmountsOk(Formula("H0O").value)
    ensures Formula("O").Some? && AmountsOk(Formula("O").value)
    ensures Proportional(Formula("H0O").value, Formula("O").value)
  {
    hide Normalise, Formula, IsNormal, Print, IsMultiple, TotalOf, AmountsOk;
    var f, g := [Whole("H", 0), Whole("O", 1)], [Whole("O", 1)];
    SmallFormsAreNormal();
    SpelledForm(f);
    SpelledForm(g);
    NormaliseOf("H0O");
    NormaliseOf("O");
    SmallTotals();
  }

  lemma SmallFormsAreNormal()
    ensures IsNormal([Whole("H", 0), Whole("O", 1)]) && Print([Whole("H", 0), Whole("O", 1)]) == "H0O"
    ensures IsNormal([Whole("O", 1)]) && Print([Whole("O", 1)]) == "O"
  {
    var f, g := [Whole("H", 0), Whole("O", 1)], [Whole("O", 1)];
    assert Counts(f) == [0, 1] && Counts(g) == [1];
    assert [0, 1][..1] == [0] && [0][..0] == [] && [1][..0] == [];
    assert Gcd(0, 0) == 0 && Gcd(0, 1) == Gcd(1, 0) == 1;
    assert GcdAll([0]) == 0;
    assert Decimal.Numeral(0) == "0";
    assert f[1..] == g && g[1..] == [];
    assert Print(g) == "O" + "" + "";
  }

  lemma SpelledForm(form: seq<Whole>)
    requires IsNormal(form)
    ensures Normalise(Print(form)) == Success(Print(form))
    ensures Formula(Print(form)) == Some(AsParts(form))
  {
    hide NormalForm, StringLess;
    PrintedFormIsFixed(form);
    PrintIsPlain(form);
    CompactOfPlain(Print(form));
    PrintParse(form);
  }

  lemma SmallTotals()
    ensures AmountsOk(AsParts([Whole("H", 0), Whole("O", 1)])) && AmountsOk(AsParts([Whole("O", 1)]))
    ensures IsMultiple(AsParts([Whole("H", 0), Whole("O", 1)]), AsParts([Whole("O", 1)]), 1.0)
  {
    var p, q := AsParts([Whole("H", 0), Whole("O", 1)]), AsParts([Whole("O", 1)]);
    forall e: string
      ensures TotalOf(p, e) == Multiple(1.0, TotalOf(q, e))
    {
      assert p[..1] == [Part("H", Fraction(0, 1))] && p[..1][..0] == [] && q[..0] == [];
      assert TotalOf(p[..1], e) == 0.0;
    }
  }

  // ---------------------------------------------------------------- the function as loops

  /** `normalise_composition`. */
  method NormaliseComposition(value: string) returns (r: Result<string, CompositionError>)
    ensures r == Normalise(value)
  {
    hide Compact, Number, Add, Integers, GcdAll, Primitive, Parse, Totals, Print, ElementLength, IsUpper;
    var s := Compact(value);
    if s == "" {
      return Failure(Missing);
    }
    if !Flat(s) {
      return Failure(NotFlat);
    }
    var parts: seq<Part> := [];
    var rest := s;
    assert Parse(s).Some? ==> [] + Parse(s).value == Parse(s).value;
    while rest != ""
      invariant Parse(rest).None? ==> Parse(s).None?
      invariant Parse(rest).Some? ==> Parse(s) == Some(parts + Parse(rest).value)
      invariant AmountsOk(parts)
      decreases |rest|
    {
      ParseStep(rest);
      if !IsUpper(rest[0]) {
        return Failure(BadToken);
      }
      var n := ElementLength(rest);
      var (amount, tail) := Number(rest[n..]);
      NumberOk(rest[n..]);
      Rejoin(parts, Part(rest[..n], amount), Parse(tail));
      parts := parts + [Part(rest[..n], amount)];
      rest := tail;
    }
    ParseStep("");
    assert parts + [] == parts;
    var totals := SumParts(parts);
    var integers := Integers(totals);
    if GcdAll(integers) == 0 {
      return Failure(ZeroAmounts);
    }
    var rendered := Render(totals, Primitive(integers));
    r := Success(rendered);
  }

  /** One token of the match loop. */
  lemma ParseStep(s: string)
    ensures s == "" ==> Parse(s) == Some([])
    ensures s != "" && !IsUpper(s[0]) ==> Parse(s).None?
    ensures s != "" && IsUpper(s[0]) ==>
      var n := ElementLength(s); var (amount, rest) := Number(s[n..]);
      Parse(s) == if Parse(rest).None? then None else Some([Part(s[..n], amount)] + Parse(rest).value)
  {
  }

  lemma Rejoin(parts: seq<Part>, p: Part, tail: Option<seq<Part>>)
    ensures tail.Some? ==> parts + ([p] + tail.value) == parts + [p] + tail.value
  {
  }

  method SumParts(parts: seq<Part>) returns (totals: seq<Part>)
    requires AmountsOk(parts)
    ensures totals == Totals(parts)
  {
    hide Add;
    totals := [];
    for i := 0 to |parts|
      invariant AmountsOk(parts[..i]) && totals == Totals(parts[..i])
    {
      assert parts[..i + 1][..i] == parts[..i];
      totals := Add(totals, parts[i]);
    }
    assert parts[..|parts|] == parts;
  }

  method Render(totals: seq<Part>, counts: seq<nat>) returns (rendered: string)
    requires |totals| == |counts|
    ensures rendered == Print(Label(totals, counts))
  {
    hide Count;
    rendered := "";
    ghost var form := Label(totals, counts);
    for i := 0 to |totals|
      invariant rendered + Print(form[i..]) == Print(form)
    {
      var next := totals[i].element + Count(counts[i]);
      assert form[i..][1..] == form[i + 1..];
      assert rendered + (next + Print(form[i + 1..])) == (rendered + next) + Print(form[i + 1..]);
      rendered := rendered + next;
    }
    assert form[|totals|..] == [];
    assert rendered + "" == rendered;
  }
}
