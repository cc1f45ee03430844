/** Decimal numerals, as string interpolation writes them: injective, and free of any separator. */
module Decimal {

  predicate Digit(c: char) {
    '0' <= c <= '9'
  }

  function DigitOf(d: nat): (c: char)
    requires d < 10
    ensures Digit(c)
  {
    "0123456789"[d]
  }

  function Numeral(n: nat): (s: string)
    ensures s != "" && forall c <- s :: Digit(c)
  {
    if n < 10 then [DigitOf(n)] else Numeral(n / 10) + [DigitOf(n % 10)]
  }

  function ValueOf(s: string): nat
    requires forall c <- s :: Digit(c)
  {
    if s == "" then 0
    else
      assert Digit(s[|s| - 1]);
      ValueOf(s[..|s| - 1]) * 10 + (s[|s| - 1] as int - '0' as int)
  }

  lemma {:induction false} ValueOfNumeral(n: nat)
    ensures ValueOf(Numeral(n)) == n
  {
    var s := Numeral(n);
    if n < 10 {
      assert s[..|s| - 1] == "";
    } else {
      ValueOfNumeral(n / 10);
      assert s[..|s| - 1] == Numeral(n / 10);
    }
  }

  lemma NumeralIsInjective(m: nat, n: nat)
    requires Numeral(m) == Numeral(n)
    ensures m == n
  {
    ValueOfNumeral(m);
    ValueOfNumeral(n);
  }

  /** What follows a numeral decides where it ends. */
  predicate Stops(s: string) {
    s == "" || !Digit(s[0])
  }

  lemma NumeralsSplit(m: nat, x: string, n: nat, y: string)
    requires Stops(x) && Stops(y) && Numeral(m) + x == Numeral(n) + y
    ensures m == n && x == y
  {
    var a, b := Numeral(m), Numeral(n);
    var u := a + x;
    assert forall k :: 0 <= k < |a| ==> u[k] == a[k];
    assert u == b + y && forall k :: 0 <= k < |b| ==> u[k] == b[k];
    assert |a| < |u| ==> u[|a|] == x[0];
    assert |b| < |u| ==> u[|b|] == y[0];
    assert a == u[..|a|] && b == u[..|b|] && x == u[|a|..] && y == u[|b|..];
    NumeralIsInjective(m, n);
  }
}
