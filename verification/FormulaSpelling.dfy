/**
 How formulas are spelled: which strings the reader of `src/materials/cross_validation.py` takes
 apart, into which elements and amounts, and which error everything else ends in.
 */
module FormulaSpelling {
  import opened Wrappers
  import opened Rational
  import opened Composition
  import Decimal

  /** One element with its amount as written; without digits the amount is one. */
  datatype Token = Token(element: string, whole: string, decimals: string)

  ghost predicate AllDigits(s: string) {
    forall i | 0 <= i < |s| :: Decimal.IsDigit(s[i])
  }

  ghost predicate TokenOk(t: Token) {
    IsElement(t.element) && AllDigits(t.whole) && AllDigits(t.decimals) && (t.whole == "" ==> t.decimals == "")
  }

  function Tail(t: Token): string {
    t.whole + if t.decimals == "" then "" else "." + t.decimals
  }

  function SpellAll(ts: seq<Token>): string {
    if ts == [] then "" else ts[0].element + Tail(ts[0]) + SpellAll(ts[1..])
  }

  ghost predicate TokensOk(ts: seq<Token>) {
    forall i | 0 <= i < |ts| :: TokenOk(ts[i])
  }

  // ---------------------------------------------------------------- what an amount is worth

  function WholeValue(s: string): real
    requires AllDigits(s)
  {
    if s == "" then 0.0
    else WholeValue(s[..|s| - 1]) * 10.0 + (s[|s| - 1] as int - '0' as int) as real
  }

  /** Each decimal is worth a tenth of the place before it. */
  function DecimalsValue(s: string): real
    requires AllDigits(s)
  {
    if s == "" then 0.0 else ((s[0] as int - '0' as int) as real + DecimalsValue(s[1..])) / 10.0
  }

  function Worth(t: Token): real
    requires TokenOk(t)
  {
    if t.whole == "" then 1.0 else WholeValue(t.whole) + DecimalsValue(t.decimals)
  }

  lemma {:induction false} WholeIsValue(s: string)
    requires AllDigits(s)
    ensures WholeValue(s) == Decimal.Value(s) as real
  {
    if s != "" {
      WholeIsValue(s[..|s| - 1]);
    }
  }

  /** `a` with `p` as its place value. */
  function Placed(a: nat, p: nat): nat {
    a * p
  }

  lemma {:induction false} ValueTogether(a: string, b: string)
    requires AllDigits(a) && AllDigits(b)
    ensures AllDigits(a + b) && Decimal.Value(a + b) == Placed(Decimal.Value(a), Power10(|b|)) + Decimal.Value(b)
  {
    if b == "" {
      assert a + b == a;
    } else {
      var n := |b| - 1;
      ValueTogether(a, b[..n]);
      assert (a + b)[..|a + b| - 1] == a + b[..n];
      TenTimes(Decimal.Value(a), Power10(n));
    }
  }

  lemma TenTimes(a: nat, p: nat)
    ensures Placed(a, 10 * p) == Placed(a, p) * 10
  {
  }

  /** `f` is `v` places of `1 / p`. */
  ghost predicate IsShare(f: real, v: nat, p: nat) {
    f * p as real == v as real
  }

  lemma {:induction false} DecimalsAreValue(s: string)
    requires AllDigits(s)
    ensures IsShare(DecimalsValue(s), Decimal.Value(s), Power10(|s|))
  {
    hide IsShare, Placed;
    if s == "" {
      NoShare();
    } else {
      DecimalsAreValue(s[1..]);
      assert s == [s[0]] + s[1..];
      ValueTogether([s[0]], s[1..]);
      OneDigit(s[0]);
      FirstPlace(Decimal.DigitValue(s[0]), Decimal.Value(s[1..]), Power10(|s| - 1), DecimalsValue(s[1..]));
    }
  }

  lemma NoShare()
    ensures IsShare(0.0, 0, 1)
  {
  }

  lemma OneDigit(c: char)
    requires Decimal.IsDigit(c)
    ensures Decimal.Value([c]) == Decimal.DigitValue(c)
  {
    assert [c][..0] == [];
  }

  lemma FirstPlace(d: nat, v: nat, p: nat, f: real)
    requires IsShare(f, v, p)
    ensures IsShare((d as real + f) / 10.0, Placed(d, p) + v, 10 * p)
  {
    CastProduct(d, p);
    CastProduct(10, p);
    var q := p as real;
    assert (d as real + f) / 10.0 * (10.0 * q) == (d as real + f) * q;
  }

  /** The amount read from the digits is their value in the decimal system. */
  lemma AmountIsWorth(t: Token)
    requires TokenOk(t)
    ensures Amount(t.whole, t.decimals).Ok() && Amount(t.whole, t.decimals).Value() == Worth(t)
  {
    hide Reduced, IsElement, IsShare, Placed, Decimal.Value, Power10, WholeValue, DecimalsValue;
    if t.whole != "" {
      var p := Power10(|t.decimals|);
      ValueTogether(t.whole, t.decimals);
      WholeIsValue(t.whole);
      DecimalsAreValue(t.decimals);
      ReducedValue(Decimal.Value(t.whole + t.decimals), p);
      SumOverPlace(Decimal.Value(t.whole), Decimal.Value(t.decimals), p, DecimalsValue(t.decimals));
    }
  }

  lemma SumOverPlace(w: nat, v: nat, p: nat, f: real)
    requires p > 0 && IsShare(f, v, p)
    ensures (Placed(w, p) + v) as real / p as real == w as real + f
  {
    CastProduct(w, p);
    Requotient(w as real + f, p as real);
  }

  lemma Requotient(x: real, p: real)
    requires p > 0.0
    ensures x * p / p == x
  {
  }

  // ---------------------------------------------------------------- reading what is spelled

  lemma {:induction false} DigitsStop(n: string, rest: string)
    requires AllDigits(n) && (rest == "" || !Decimal.IsDigit(rest[0]))
    ensures Digits(n + rest) == |n|
  {
    if n == "" {
      assert n + rest == rest;
    } else {
      assert (n + rest)[1..] == n[1..] + rest;
      DigitsStop(n[1..], rest);
    }
  }

  lemma NumberOfToken(t: Token, rest: string)
    requires TokenOk(t) && Starts(rest)
    ensures Number(Tail(t) + rest) == (Amount(t.whole, t.decimals), rest)
  {
    hide Digits, IsElement;
    var s := Tail(t) + rest;
    if t.decimals == "" {
      DigitsStop(t.whole, rest);
      assert s == t.whole + rest;
      assert s[..|t.whole|] == t.whole && s[|t.whole|..] == rest;
    } else {
      var after := "." + t.decimals + rest;
      assert s == t.whole + after;
      DigitsStop(t.whole, after);
      assert s[..|t.whole|] == t.whole && s[|t.whole|..] == after;
      assert after[1..] == t.decimals + rest;
      DigitsStop(t.decimals, rest);
      assert after[1..][..|t.decimals|] == t.decimals && after[1..][|t.decimals|..] == rest;
    }
  }

  lemma ElementOfToken(t: Token, rest: string)
    requires TokenOk(t) && Starts(rest)
    ensures var s := t.element + Tail(t) + rest;
      && s != "" && IsUpper(s[0]) && ElementLength(s) == |t.element|
      && s[..|t.element|] == t.element && s[|t.element|..] == Tail(t) + rest
  {
    var s, after := t.element + Tail(t) + rest, Tail(t) + rest;
    assert s == t.element + after;
    assert after != "" ==> !IsLower(after[0]) by {
      if t.whole != "" {
        assert after[0] == t.whole[0];
      } else {
        assert after == rest;
      }
    }
    assert |s| > |t.element| ==> s[|t.element|] == after[0];
    assert |t.element| == 2 ==> s[1] == t.element[1];
  }

  lemma {:induction false} SpelledStarts(ts: seq<Token>)
    requires TokensOk(ts)
    ensures Starts(SpellAll(ts))
  {
    if ts != [] {
      assert TokenOk(ts[0]);
      assert SpellAll(ts)[0] == ts[0].element[0];
    }
  }

  /** The parts that a spelling stands for. */
  function PartsOf(ts: seq<Token>): (parts: seq<Part>)
    requires TokensOk(ts)
    ensures |parts| == |ts|
    ensures forall i | 0 <= i < |ts| :: parts[i] == Part(ts[i].element, Amount(ts[i].whole, ts[i].decimals))
  {
    seq(|ts|, i requires 0 <= i < |ts| => Part(ts[i].element, Amount(ts[i].whole, ts[i].decimals)))
  }

  lemma {:induction false} SpelledIsRead(ts: seq<Token>)
    requires TokensOk(ts)
    ensures Parse(SpellAll(ts)) == Some(PartsOf(ts))
  {
    hide Number, Tail, IsElement, ElementLength, Amount, Starts;
    if ts != [] {
      var t, rest := ts[0], SpellAll(ts[1..]);
      assert TokenOk(t);
      SpelledStarts(ts[1..]);
      SpelledIsRead(ts[1..]);
      ElementOfToken(t, rest);
      NumberOfToken(t, rest);
      assert PartsOf(ts) == [Part(t.element, Amount(t.whole, t.decimals))] + PartsOf(ts[1..]);
    }
  }

  lemma PointAsWritten(rest: string) returns (decimals: string)
    requires Point(rest)
    ensures AllDigits(decimals) && decimals == rest[1..][..Digits(rest[1..])] && decimals != ""
    ensures rest == "." + decimals + rest[1..][Digits(rest[1..])..]
  {
    hide Digits;
    var more := rest[1..];
    var f := Digits(more);
    decimals := more[..f];
    var after := more[f..];
    assert more == decimals + after;
    assert rest == "." + more;
    assert "." + (decimals + after) == "." + decimals + after;
  }

  /** The number at the head of a string, as written. */
  lemma NumberAsWritten(s: string) returns (whole: string, decimals: string)
    ensures AllDigits(whole) && AllDigits(decimals) && (whole == "" ==> decimals == "")
    ensures s == whole + (if decimals == "" then "" else "." + decimals) + Number(s).1
  {
    hide Digits, Amount, Point;
    var d := Digits(s);
    var rest := s[d..];
    whole, decimals := s[..d], "";
    assert s == whole + rest;
    if d > 0 && Point(rest) {
      decimals := PointAsWritten(rest);
      var after := Number(s).1;
      assert whole + ("." + decimals + after) == whole + ("." + decimals) + after;
    } else {
      assert whole + "" + rest == whole + rest;
    }
  }

  /** The first token of a formula that is read. */
  lemma FirstToken(s: string) returns (t: Token)
    requires s != "" && IsUpper(s[0])
    ensures TokenOk(t)
    ensures var n := ElementLength(s); s == t.element + Tail(t) + Number(s[n..]).1
  {
    hide Number, AllDigits;
    var n := ElementLength(s);
    var whole, decimals := NumberAsWritten(s[n..]);
    t := Token(s[..n], whole, decimals);
    assert s == s[..n] + s[n..];
  }

  lemma {:induction false} ReadIsSpelled(s: string) returns (ts: seq<Token>)
    requires Parse(s).Some?
    ensures TokensOk(ts) && s == SpellAll(ts)
    decreases |s|
  {
    hide Number, TokenOk, Tail, ElementLength;
    if s == "" {
      ts := [];
    } else {
      var t := FirstToken(s);
      var rest := Number(s[ElementLength(s)..]).1;
      ts := ReadIsSpelled(rest);
      ts := [t] + ts;
      assert ts[1..] == ts[1..];
    }
  }

  // ---------------------------------------------------------------- which strings have a normal form

  lemma {:induction false} CompactTogether(a: string, b: string)
    ensures Compact(a + b) == Compact(a) + Compact(b)
  {
    if a == "" {
      assert a + b == b;
    } else {
      assert (a + b)[1..] == a[1..] + b;
      CompactTogether(a[1..], b);
    }
  }

  /** White space anywhere makes no difference. */
  lemma SpaceDoesNotMatter(a: string, b: string, c: char)
    requires IsSpace(c)
    ensures Normalise(a + [c] + b) == Normalise(a + b)
  {
    hide Parse, NormalForm, Flat;
    CompactTogether(a + [c], b);
    CompactTogether(a, [c]);
    CompactTogether(a, b);
    assert Compact([c]) == [] by {
      assert [c][1..] == [];
    }
    assert Compact(a + [c] + b) == Compact(a + b);
  }

  lemma {:induction false} CompactKeeps(s: string)
    ensures Compact(s) == "" <==> Blank(s)
    ensures forall c :: c in Compact(s) <==> c in s && !IsSpace(c)
  {
    if s != "" {
      CompactKeeps(s[1..]);
      assert s == [s[0]] + s[1..];
    }
  }

  /** The formula is a spelling, white space apart, with at least one element. */
  ghost predicate Spelled(value: string, ts: seq<Token>) {
    TokensOk(ts) && ts != [] && Compact(value) == SpellAll(ts)
  }

  lemma {:induction false} SpelledChars(ts: seq<Token>, c: char)
    requires TokensOk(ts) && c in SpellAll(ts)
    ensures PlainChar(c) || c == '.'
  {
    if c !in SpellAll(ts[1..]) {
      assert TokenOk(ts[0]);
      var t := ts[0];
      assert c in t.element || c in t.whole || c in t.decimals || c == '.';
    } else {
      SpelledChars(ts[1..], c);
    }
  }

  lemma SpelledIsFlat(value: string, ts: seq<Token>)
    requires Spelled(value, ts)
    ensures Compact(value) != "" && Flat(Compact(value)) && Parse(Compact(value)) == Some(PartsOf(ts))
  {
    hide PlainChar, Amount, Compact, Parse;
    var s := Compact(value);
    SpelledIsRead(ts);
    assert TokenOk(ts[0]);
    forall i | 0 <= i < |s|
      ensures s[i] !in {'(', ')', '[', ']', '+', '-'}
    {
      SpelledChars(ts, s[i]);
      NotABracket(s[i]);
    }
  }

  lemma NotABracket(c: char)
    requires PlainChar(c) || c == '.'
    ensures c !in {'(', ')', '[', ']', '+', '-'}
  {
  }

  /**
   What becomes of a string: a blank one is missing, one with brackets or charges is not flat, one that spells no
   formula is a bad token, and a spelled one is normalised from its elements with their decimal amounts.
   */
  lemma NormaliseAnswers(value: string)
    ensures Blank(value) <==> Normalise(value) == Failure(Missing)
    ensures (exists c :: c in value && c in {'(', ')', '[', ']', '+', '-'}) <==> Normalise(value) == Failure(NotFlat)
    ensures Normalise(value) == Failure(BadToken) ==> forall ts :: !Spelled(value, ts)
    ensures forall ts | Spelled(value, ts) ::
      && AmountsOk(PartsOf(ts)) && (forall i | 0 <= i < |ts| :: PartsOf(ts)[i].amount.Value() == Worth(ts[i]))
      && Normalise(value) == match NormalForm(PartsOf(ts))
           case None => Failure(ZeroAmounts)
           case Some(form) => Success(Print(form))
  {
    hide NormalForm, Parse, Print, Amount, Worth, PlainChar, TokenOk, Flat;
    CompactKeeps(value);
    BracketsAreNoSpace();
    var s := Compact(value);
    FlatIs(s);
    forall ts | Spelled(value, ts)
      ensures AmountsOk(PartsOf(ts)) && (forall i | 0 <= i < |ts| :: PartsOf(ts)[i].amount.Value() == Worth(ts[i]))
      ensures s != "" && Flat(s) && Parse(s) == Some(PartsOf(ts))
    {
      SpelledIsFlat(value, ts);
      WorthOfParts(ts);
    }
  }

  lemma FlatIs(s: string)
    ensures Flat(s) <==> forall c | c in s :: c !in {'(', ')', '[', ']', '+', '-'}
  {
    if forall c | c in s :: c !in {'(', ')', '[', ']', '+', '-'} {
      forall i | 0 <= i < |s|
        ensures s[i] !in {'(', ')', '[', ']', '+', '-'}
      {
        assert s[i] in s;
      }
    }
  }

  lemma BracketsAreNoSpace()
    ensures forall c | c in {'(', ')', '[', ']', '+', '-'} :: !IsSpace(c)
  {
  }

  lemma WorthOfParts(ts: seq<Token>)
    requires TokensOk(ts)
    ensures AmountsOk(PartsOf(ts)) && forall i | 0 <= i < |ts| :: PartsOf(ts)[i].amount.Value() == Worth(ts[i])
  {
    hide Amount, Worth, TokenOk;
    forall i | 0 <= i < |ts|
      ensures PartsOf(ts)[i].amount.Ok() && PartsOf(ts)[i].amount.Value() == Worth(ts[i])
    {
      AmountIsWorth(ts[i]);
    }
  }

  /** Everything that is normalised, or fails for its amounts alone, is spelled. */
  lemma NormalisedIsSpelled(value: string) returns (ts: seq<Token>)
    requires Normalise(value).Success? || Normalise(value) == Failure(ZeroAmounts)
    ensures Spelled(value, ts)
  {
    hide NormalForm, Print, TokensOk, Compact;
    ts := ReadIsSpelled(Compact(value));
  }
}
