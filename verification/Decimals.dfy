/** Natural numbers as JavaScript writes them. */
module Decimals {
  import opened Markers

  function Decimal(n: nat): string {
    if n < 10 then [Digit(n)] else Decimal(n / 10) + [Digit(n % 10)]
  }

  function Digit(n: nat): char
    requires n < 10
  {
    '0' + n as char
  }

  lemma {:induction false} DecimalIsSafe(n: nat)
    ensures SafeToken(Decimal(n))
  {
    if n >= 10 {
      DecimalIsSafe(n / 10);
    }
  }

  lemma {:induction false} DecimalIsDigits(n: nat)
    ensures Decimal(n) != "" && forall c | c in Decimal(n) :: '0' <= c <= '9'
  {
    if n >= 10 {
      DecimalIsDigits(n / 10);
    }
  }

  lemma {:induction false} DecimalIsInjective(m: nat, n: nat)
    requires Decimal(m) == Decimal(n)
    ensures m == n
  {
    DecimalIsDigits(m / 10);
    DecimalIsDigits(n / 10);
    var a, b := Decimal(m), Decimal(n);
    assert a[|a| - 1] == Digit(m % 10) && b[|b| - 1] == Digit(n % 10);
    assert m % 10 == n % 10;
    if m >= 10 && n >= 10 {
      assert a[..|a| - 1] == Decimal(m / 10) && b[..|b| - 1] == Decimal(n / 10);
      DecimalIsInjective(m / 10, n / 10);
    }
  }
}
