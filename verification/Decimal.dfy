/** Decimal numerals, as `str(int)` and f-strings print them. */
module Decimal {

  function Digit(d: nat): char
    requires d < 10
  {
    '0' + d as char
  }

  function Numeral(n: nat): (s: string)
    ensures s != []
    ensures forall i | 0 <= i < |s| :: '0' <= s[i] <= '9'
  {
    (if n < 10 then [] else Numeral(n / 10)) + [Digit(n % 10)]
  }

  function Integer(n: int): (s: string)
    ensures s != []
  {
    if n < 0 then "-" + Numeral(-n) else Numeral(n)
  }

  predicate IsDigit(c: char) {
    '0' <= c <= '9'
  }

  function DigitValue(c: char): nat
    requires IsDigit(c)
  {
    c as int - '0' as int
  }

  /** The number a digit string denotes; `int` of a match of `[0-9]+`. */
  function Value(s: string): nat
    requires forall i | 0 <= i < |s| :: IsDigit(s[i])
  {
    if s == [] then 0 else Value(s[..|s| - 1]) * 10 + DigitValue(s[|s| - 1])
  }

  /** Reading undoes printing. */
  lemma {:induction false} ValueOfNumeral(n: nat)
    ensures Value(Numeral(n)) == n
  {
    var s := Numeral(n);
    assert s[|s| - 1] == Digit(n % 10);
    assert Digit(n % 10) as int == '0' as int + n % 10;
    if n >= 10 {
      assert s[..|s| - 1] == Numeral(n / 10);
      ValueOfNumeral(n / 10);
    } else {
      assert s[..|s| - 1] == [];
    }
  }

  /** Distinct numbers print differently. */
  lemma NumeralInjective(m: nat, n: nat)
    requires Numeral(m) == Numeral(n)
    ensures m == n
  {
    ValueOfNumeral(m);
    ValueOfNumeral(n);
  }
}
