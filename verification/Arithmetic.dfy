/** The few facts about products and quotients the other modules need. */
module Arithmetic {

  lemma Scale(a: nat, b: nat, u: nat)
    requires a <= b
    ensures a * u <= b * u
  {
  }

  lemma ScaleStrictly(a: nat, b: nat, u: nat)
    requires u >= 1
    ensures a * u < b * u <==> a < b
  {
    if a < b { Scale(a + 1, b, u); } else { Scale(b, a, u); }
  }

  lemma QuotientOf(n: nat, m: nat, u: nat)
    requires u >= 1 && m * u <= n < m * u + u
    ensures n / u == m && n % u == n - m * u
  {
    var q, r := n / u, n % u;
    if q < m {
      Scale(q + 1, m, u);
    } else if q > m {
      Scale(m + 1, q, u);
    }
  }

  lemma Divides(n: nat, m: nat, u: nat)
    requires u >= 1 && (n == m * u || n % u == 0)
    ensures (n / u) * u == n && (n == m * u ==> n / u == m)
  {
    if n == m * u {
      QuotientOf(n, m, u);
    } else {
      assert n == (n / u) * u + n % u;
    }
  }

  lemma OneMore(m: nat, u: nat)
    ensures (m + 1) * u == m * u + u
  {
  }
}
