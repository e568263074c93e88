/** Rounded quotients, shared by the schedulers' cost laws. */
module Quotients {
  lemma {:induction false} QuotientBounds(a: nat, v: nat) returns (x: nat)
    requires v >= 1
    ensures x == a / v && x * v <= a < (x + 1) * v
  {
    x := a / v;
  }

  lemma {:induction false} SmallerDivisor(a: nat, v: nat, u: nat)
    requires 1 <= v <= u
    ensures a / u <= a / v
  {
    var x := QuotientBounds(a, v);
    var y := QuotientBounds(a, u);
    CompareQuotients(a, v, u, x, y);
  }

  lemma {:induction false} CompareQuotients(a: nat, v: nat, u: nat, x: nat, y: nat)
    requires v <= u && y * u <= a < (x + 1) * v
    ensures y <= x
  {
    ProductGrows(v, u, y);
    LessByFactor(y, x + 1, v);
  }

  lemma {:induction false} LessByFactor(x: nat, y: nat, v: nat)
    requires x * v < y * v
    ensures x < y
  {
    if x >= y {
      ProductGrows(y, x, v);
      assert false;
    }
  }

  lemma {:induction false} ProductGrows(a: nat, b: nat, c: nat)
    requires a <= b
    ensures a * c <= b * c && c * a <= c * b
  {
  }
}
