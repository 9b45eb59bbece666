/** Rounding of amounts to hundredths, halves to the even neighbour. */
module Rounding {
  /** The number of hundredths that `quantize(Decimal("0.01"))` chooses. */
  function Cents(x: real): int {
    var scaled := x * 100.0;
    var low := scaled.Floor;
    var excess := scaled - low as real;
    if excess < 0.5 then low
    else if excess > 0.5 then low + 1
    else if low % 2 == 0 then low else low + 1
  }

  function Money(x: real): real {
    Hundredths(Cents(x))
  }

  function Hundredths(n: int): real {
    n as real / 100.0
  }

  ghost predicate IsCents(x: real) {
    exists n :: x == Hundredths(n)
  }

  function Distance(x: real, y: real): real {
    if x < y then y - x else x - y
  }

  /** The result is the nearest number of hundredths; of two equally near ones, the even. */
  lemma MoneyIsNearest(x: real, n: int)
    ensures Distance(x, Money(x)) <= Distance(x, Hundredths(n))
    ensures Distance(x, Money(x)) <= 0.005
    ensures n != Cents(x) && Distance(x, Hundredths(n)) == Distance(x, Money(x)) ==> Cents(x) % 2 == 0
  {
    var scaled := x * 100.0;
    var low := scaled.Floor;
    assert n <= low || n >= low + 1;
  }

  lemma CentsOfHundredths(n: int)
    ensures Cents(Hundredths(n)) == n
  {
    assert Hundredths(n) * 100.0 == n as real;
  }

  /** Exactly the amounts that already have two decimals are left alone. */
  lemma MoneyFixes(x: real)
    ensures Money(x) == x <==> IsCents(x)
    ensures Money(Money(x)) == Money(x)
  {
    CentsOfHundredths(Cents(x));
    if IsCents(x) {
      var n :| x == Hundredths(n);
      CentsOfHundredths(n);
    }
  }

  lemma MoneyMonotone(x: real, y: real)
    requires x <= y
    ensures Money(x) <= Money(y)
  {
    var a, b := x * 100.0, y * 100.0;
    assert a.Floor <= b.Floor;
  }
}
