/** Products, quotients and remainders of naturals. */
module Arith {

  lemma MulLe(a: nat, b: nat, d: nat)
    requires a <= b
    ensures a * d <= b * d
  {
  }

  lemma MulDist(a: nat, b: nat, p: nat)
    ensures (a + b) * p == a * p + b * p
  {
  }

  lemma MulAssoc(c: nat, p: nat)
    ensures c * (p * p) == c * p * p
  {
  }

  /** Quotient and remainder are unique. */
  lemma Euclid(k: nat, m: nat, q: nat, r: nat)
    requires m > 0 && k == q * m + r && r < m
    ensures k / m == q && k % m == r
  {
    if k / m > q {
      MulLe(q + 1, k / m, m);
      MulDist(q, 1, m);
    } else if k / m < q {
      MulLe(k / m + 1, q, m);
      MulDist(k / m, 1, m);
    }
  }

  lemma DivMono(a: nat, b: nat, d: nat)
    requires a <= b && d > 0
    ensures a / d <= b / d
  {
    if b / d < a / d {
      MulLe(b / d + 1, a / d, d);
    }
  }

  lemma DivBound(k: nat, m: nat, q: nat)
    requires m > 0 && k < q * m
    ensures k / m < q
  {
    if k / m >= q {
      MulLe(q, k / m, m);
    }
  }

  lemma DigitsOf(c: nat, d: nat, b: nat, p: nat, a: nat, k: nat)
    requires p > 0 && d < p && b < p && a == c * p + d && k == a * p + b
    ensures p * p > 0 && k / (p * p) == c && k % (p * p) == d * p + b
  {
    MulDist(c * p, d, p);
    MulAssoc(c, p);
    MulLe(d + 1, p, p);
    MulDist(d, 1, p);
    Euclid(k, p * p, c, d * p + b);
  }

  /** Dividing by p twice, and the digit in between. */
  lemma Digits(k: nat, p: nat)
    requires p > 0
    ensures p * p > 0 && k / (p * p) == k / p / p
    ensures k % (p * p) / p == k / p % p && k % (p * p) % p == k % p
  {
    var a, b := k / p, k % p;
    var c, d := a / p, a % p;
    DigitsOf(c, d, b, p, a, k);
    Euclid(d * p + b, p, d, b);
  }

  lemma MulNext(i: nat, d: nat)
    ensures (i + 1) * d == i * d + d
  {
  }

  lemma DivLess(x: nat, d: nat, c: nat)
    requires d > 0
    ensures x / d < c <==> x < c * d
  {
    if x / d < c {
      assert (x / d + 1) * d <= c * d by { MulLe(x / d + 1, c, d); }
    } else {
      MulLe(c, x / d, d);
    }
  }

  lemma SameDigits(l: nat, m: nat, p: nat)
    requires p > 0 && l % p == m % p && l / p == m / p
    ensures l == m
  {
    assert l == l / p * p + l % p && m == m / p * p + m % p;
  }
}
