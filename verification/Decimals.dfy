/** Decimal numerals of natural numbers. */
module Decimals {

  const DIGITS := "0123456789"

  function Decimal(n: nat): (s: string)
    ensures |s| >= 1
  {
    if n < 10 then [DIGITS[n]] else Decimal(n / 10) + [DIGITS[n % 10]]
  }

  predicate IsDigit(c: char) { '0' <= c <= '9' }

  lemma {:induction false} OnlyDigits(n: nat)
    ensures forall i | 0 <= i < |Decimal(n)| :: IsDigit(Decimal(n)[i])
  {
    if n >= 10 {
      OnlyDigits(n / 10);
    }
  }

  lemma DigitsDiffer(a: nat, b: nat)
    requires a < 10 && b < 10 && DIGITS[a] == DIGITS[b]
    ensures a == b
  {
  }

  /** Different numbers have different numerals. */
  lemma {:induction false} DecimalInjective(a: nat, b: nat)
    requires Decimal(a) == Decimal(b)
    ensures a == b
    decreases a + b
  {
    var x, y := Decimal(a), Decimal(b);
    assert x[|x| - 1] == DIGITS[a % 10] && y[|y| - 1] == DIGITS[b % 10];
    DigitsDiffer(a % 10, b % 10);
    if a >= 10 && b >= 10 {
      assert x[..|x| - 1] == Decimal(a / 10) && y[..|y| - 1] == Decimal(b / 10);
      DecimalInjective(a / 10, b / 10);
    }
  }

  /** A larger number never has a shorter numeral. */
  lemma {:induction false} DecimalGrows(a: nat, b: nat)
    requires a <= b
    ensures |Decimal(a)| <= |Decimal(b)|
    decreases b
  {
    if a >= 10 {
      DecimalGrows(a / 10, b / 10);
    }
  }

  function Tens(r: nat): (t: nat)
    ensures t >= 1
  {
    if r == 0 then 1 else 10 * Tens(r - 1)
  }

  /** The numbers with at most r digits are those below ten to the r. */
  lemma {:induction false} DigitsBound(n: nat, r: nat)
    requires r >= 1
    ensures |Decimal(n)| <= r <==> n < Tens(r)
    decreases r
  {
    if r == 1 {
      assert Tens(1) == 10 * Tens(0);
    } else {
      DigitsBound(n / 10, r - 1);
    }
  }

  /** What the first r digits of a numeral say. */
  function Lead(n: nat, r: nat): nat
    requires r >= 1
  {
    if |Decimal(n)| <= r then n else Lead(n / 10, r)
  }

  lemma {:induction false} LeadIsPrefix(n: nat, r: nat)
    requires r >= 1
    ensures Decimal(Lead(n, r)) == if |Decimal(n)| <= r then Decimal(n) else Decimal(n)[..r]
    ensures n >= 1 ==> Lead(n, r) >= 1
  {
    if |Decimal(n)| > r {
      LeadIsPrefix(n / 10, r);
      assert Decimal(n)[..|Decimal(n / 10)|] == Decimal(n / 10);
    }
  }
}
