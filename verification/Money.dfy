/** Rounding a fraction of a cent to a whole cent, half away from zero. */
module Money {

  /** n / d rounded to the nearest integer, halves away from zero. */
  function Round(n: int, d: int): (r: int)
    requires d > 0
    ensures 2 * d * r - d <= 2 * n <= 2 * d * r + d
    ensures n >= 0 ==> r >= 0 && 2 * n < 2 * d * r + d
    ensures n <= 0 ==> r <= 0 && 2 * d * r - d < 2 * n
  {
    if n >= 0 then Half(n, d)
    else
      var h: int := Half(-n, d);
      -h
  }

  /** Round for a numerator that is not negative. */
  function Half(n: nat, d: int): (r: nat)
    requires d > 0
    ensures 2 * d * r - d <= 2 * n < 2 * d * r + d
  {
    var q := (2 * n + d) / (2 * d);
    assert 2 * n + d == 2 * d * q + (2 * n + d) % (2 * d);
    q
  }

  /** m is within half of d of n, a whole half only on the side away from zero. */
  predicate NearBy(m: int, n: int, d: int) {
    && -d <= 2 * (n - m) <= d
    && (n >= 0 ==> 2 * (n - m) < d)
    && (n <= 0 ==> -d < 2 * (n - m))
  }

  /** r is the integer nearest to n / d, halves away from zero. */
  predicate Nearest(r: int, n: int, d: int) { NearBy(r * d, n, d) }

  lemma MulMono(d: int, a: int, b: int)
    requires d >= 0 && a <= b
    ensures d * a <= d * b
  {
    var k := b - a;
    assert d * b == d * a + d * k;
  }

  /** Multiples of d that differ are at least d apart. */
  lemma MultiplesApart(d: int, a: int, b: int)
    requires d > 0
    ensures a < b ==> d * a + d <= d * b
  {
    if a < b {
      MulMono(d, a + 1, b);
      assert d * (a + 1) == d * a + d;
    }
  }

  lemma RoundIsNear(n: int, d: int)
    requires d > 0
    ensures Nearest(Round(n, d), n, d)
  {
    var q := Round(n, d);
    assert 2 * d * q == 2 * (q * d);
  }

  lemma OneIsNear(a: int, b: int, n: int, d: int)
    requires d > 0 && NearBy(a, n, d) && NearBy(b, n, d)
    ensures -d < a - b < d
  {
  }

  /** There is one nearest integer, and rounding gives it. */
  lemma RoundIsNearest(r: int, n: int, d: int)
    requires d > 0
    ensures Nearest(r, n, d) <==> r == Round(n, d)
  {
    RoundIsNear(n, d);
    if Nearest(r, n, d) {
      var q := Round(n, d);
      OneIsNear(r * d, q * d, n, d);
      assert d * r == r * d && d * q == q * d;
      MultiplesApart(d, q, r);
      MultiplesApart(d, r, q);
    }
  }

  /** Rounding keeps the order. */
  lemma RoundMonotone(m: int, n: int, d: int)
    requires d > 0 && m <= n
    ensures Round(m, d) <= Round(n, d)
  {
    MultiplesApart(2 * d, Round(n, d), Round(m, d));
  }

  /** Rounding is exact on whole numbers. */
  lemma RoundWhole(n: int, d: int)
    requires d > 0
    ensures Round(n * d, d) == n
  {
    var r := Round(n * d, d);
    assert 2 * d * n == 2 * (n * d);
    MultiplesApart(2 * d, r, n);
    MultiplesApart(2 * d, n, r);
  }

  /** Whole numbers can be added before or after rounding as long as the sum starts non-negative. */
  lemma RoundShift(n: int, k: int, d: int)
    requires d > 0 && n >= 0 && k >= 0
    ensures Round(n + k * d, d) == Round(n, d) + k
  {
    var p, q := Round(n + k * d, d), Round(n, d) + k;
    MulMono(d, 0, k);
    assert 2 * d * q == 2 * d * Round(n, d) + 2 * d * k;
    assert 2 * d * k == 2 * (k * d);
    MultiplesApart(2 * d, p, q);
    MultiplesApart(2 * d, q, p);
  }

  function Max(a: int, b: int): int { if a < b then b else a }
}
