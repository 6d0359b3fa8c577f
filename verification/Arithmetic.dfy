/** Facts about products, quotients and remainders of naturals. */
module Arithmetic {

  lemma MulAtLeast(x: int, b: nat)
    requires x >= 1
    ensures x * b >= b
  {
    assert x * b == b + (x - 1) * b;
    assert (x - 1) * b >= 0;
  }

  lemma MulSub(x: int, y: int, b: int)
    ensures (x - y) * b == x * b - y * b
  {
  }

  lemma MulMonotone(x: nat, y: nat, b: nat)
    requires x <= y
    ensures 0 <= x * b <= y * b
  {
    MulSub(y, x, b);
    assert (y - x) * b >= 0;
  }

  lemma QuotientUnique(d: nat, m: nat, q: nat, r: nat, b: nat)
    requires d * b + m == q * b + r && m < b && r < b
    ensures d == q && m == r
  {
    if d < q {
      MulSub(q, d, b);
      MulAtLeast(q - d, b);
      assert false;
    } else if q < d {
      MulSub(d, q, b);
      MulAtLeast(d - q, b);
      assert false;
    }
  }

  lemma DivMod(a: nat, b: nat)
    requires b > 0
    ensures a == (a / b) * b + a % b && a % b < b
  {
  }

  function Quotient(a: nat, b: nat): nat
    requires b > 0
  {
    a / b
  }

  lemma DivExact(q: nat, b: nat, r: nat)
    requires r < b
    ensures q * b + r >= 0 && (q * b + r) / b == q && (q * b + r) % b == r
  {
    MulMonotone(0, q, b);
    var a: nat := q * b + r;
    DivMod(a, b);
    QuotientUnique(a / b, a % b, q, r, b);
  }

  lemma MulAssoc(a: nat, b: nat, c: nat)
    ensures (a * b) * c == a * (b * c)
  {
  }

  /** Dividing twice is dividing by the product. */
  lemma DivDiv(a: nat, b: nat, c: nat)
    requires b > 0 && c > 0
    ensures (a / b) / c == (a / c) / b
  {
    DivTwice(a, b, c);
    DivTwice(a, c, b);
    assert b * c == c * b;
  }

  lemma DivTwice(a: nat, b: nat, c: nat)
    requires b > 0 && c > 0
    ensures b * c > 0 && (a / b) / c == a / (b * c)
  {
    MulAtLeast(b, c);
    var q, r := a / b, a % b;
    var s, t := q / c, q % c;
    DivMod(a, b);
    DivMod(q, c);
    // a == s * (c * b) + (t * b + r), with t * b + r < c * b
    MulMonotone(t + 1, c, b);
    MulMonotone(0, t, b);
    assert (t + 1) * b == t * b + b;
    assert (s * c + t) * b == (s * c) * b + t * b;
    MulAssoc(s, c, b);
    assert c * b == b * c;
    DivExact(s, b * c, t * b + r);
  }
}
