/** Multiplication, where the solver needs help with it. */
module Arithmetic {

  lemma MulMonotone(a: nat, b: nat, n: nat)
    requires a <= b
    ensures a * n <= b * n && n * a <= n * b
  {
    assert b * n == a * n + (b - a) * n;
  }

  lemma MulNext(n: nat, a: nat)
    ensures n * (a + 1) == n * a + n
  {
  }

  /** Quotient and remainder are unique. */
  lemma SameRemainder(n: nat, q: nat, m: nat, q': nat, m': nat)
    requires m < n && m' < n && q * n + m == q' * n + m'
    ensures m == m'
  {
    if q < q' {
      MulMonotone(q + 1, q', n);
    } else if q' < q {
      MulMonotone(q' + 1, q, n);
    }
  }

  lemma Division(a: nat, n: nat)
    requires n > 0
    ensures a == (a / n) * n + a % n && 0 <= a % n < n && a / n >= 0
    ensures n % n == 0 && (a < n ==> a % n == a)
  {
  }

  lemma NextRemainder(a: nat, n: nat)
    requires n > 0
    ensures (a % n + 1) % n == (a + 1) % n
  {
    var q, m := a / n, a % n;
    Division(a, n);
    Division(a + 1, n);
    Division(m + 1, n);
    if m + 1 < n {
      SameRemainder(n, (a + 1) / n, (a + 1) % n, q, m + 1);
    } else {
      MulNext(n, q);
      SameRemainder(n, (a + 1) / n, (a + 1) % n, q + 1, 0);
    }
  }

  /** d steps around a circle of n lead from p to r. */
  lemma AroundTo(n: nat, p: nat, d: nat, r: nat)
    requires p < n && r < n && (p + d == r || p + d == r + n)
    ensures (p + d) % n == r
  {
    Division(p + d, n);
    if p + d == r + n {
      SameRemainder(n, (p + d) / n, (p + d) % n, 1, r);
    }
  }
}
