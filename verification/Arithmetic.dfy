/** Facts about products, quotients and remainders by a variable. */
module Arithmetic {

  lemma ProductAtLeast(k: int, m: int)
    requires k >= 1 && m >= 0
    ensures k * m >= m
  {
  }

  lemma ProductMonotone(a: int, b: int, c: int)
    requires a <= b && c >= 0
    ensures a * c <= b * c
  {
  }

  lemma RemainderUnique(q: int, r: int, q': int, r': int, m: int)
    requires 0 <= r < m && 0 <= r' < m && q * m + r == q' * m + r'
    ensures r == r' && q == q'
  {
    if q < q' {
      ProductAtLeast(q' - q, m);
    } else if q > q' {
      ProductAtLeast(q - q', m);
    }
  }

  lemma Division(n: int, m: int)
    requires m > 0
    ensures n == (n / m) * m + n % m && 0 <= n % m < m
  {
  }

  lemma RemainderIs(n: int, q: int, r: int, m: int)
    requires 0 <= r < m && n == q * m + r
    ensures n % m == r && n / m == q
  {
    Division(n, m);
    RemainderUnique(q, r, n / m, n % m, m);
  }

  /** Advancing around a ring of m places. */
  lemma NextInRing(n: int, m: int)
    requires m > 0
    ensures (n % m + 1) % m == (n + 1) % m
  {
    Division(n, m);
    var q, r := n / m, n % m;
    if r + 1 < m {
      RemainderIs(n + 1, q, r + 1, m);
      RemainderIs(r + 1, 0, r + 1, m);
    } else {
      assert (q + 1) * m == q * m + m;
      RemainderIs(n + 1, q + 1, 0, m);
      RemainderIs(r + 1, 1, 0, m);
    }
  }
}
