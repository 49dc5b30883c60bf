/** Arithmetic facts the fairness measures rest on, each stated over plain
    numbers so that the solver meets one nonlinear step at a time. */
module Arith {

  lemma PairSqStep(n: int, m: int, qi: int, si: int, s: int, q: int, x: int)
    ensures n * qi - 2 * si * s + m * q + (n * x * x - 2 * x * s + q)
         == n * (qi + x * x) - 2 * (si + x) * s + (m + 1) * q
  {
  }

  lemma RowSqStep(n: int, a: int, s: int, q: int, y: int)
    ensures n * a * a - 2 * a * s + q + (a - y) * (a - y)
         == (n + 1) * a * a - 2 * a * (s + y) + (q + y * y)
  {
  }

  lemma LagrangeArith(n: int, q: int, s: int, p: int)
    requires p == n * q - 2 * s * s + n * q && p >= 0
    ensures 2 * (n * q - s * s) == p
    ensures s * s <= n * q
  {
  }

  lemma AverageBetween(n: int, s: int, lo: int, hi: int)
    requires n > 0 && n * lo <= s <= n * hi
    ensures lo as real <= s as real / n as real <= hi as real
  {
    CastMul(n, lo);
    CastMul(n, hi);
  }

  lemma SquareStep(q: int, s: int, x: int)
    requires 0 <= s && 0 <= x && q <= s * s
    ensures q + x * x <= (s + x) * (s + x)
    ensures x > 0 ==> x * x > 0
  {
  }

  lemma SqNonNeg(r: real)
    ensures r * r >= 0.0
  {
  }

  function Sq(r: real): (p: real)
    ensures p >= 0.0
  {
    SqNonNeg(r);
    r * r
  }

  /** One step of the closed form of sum (x - m)^2. */
  lemma DevStep(d0: real, n0: real, m: real, s0: real, q0: real, x: real, d: real, n: real, s: real, q: real)
    requires d0 == DevClosed(n0, m, s0, q0)
    requires d == d0 + Sq(x - m)
    requires n == n0 + 1.0 && s == s0 + x && q == q0 + Sq(x)
    ensures d == DevClosed(n, m, s, q)
  {
  }

  lemma GiniStep(m: int, p: int, s: int, x: int, r: int)
    requires 1 <= m && p <= 2 * (m - 1) * s && r <= m * x + s
    ensures p + 2 * r <= 2 * m * (s + x)
  {
  }

  lemma ProductBounds(a: int, b: int, alo: int, ahi: int, blo: int, bhi: int)
    requires 0 <= alo <= a <= ahi && 0 <= blo <= b <= bhi
    ensures alo * blo <= a * b <= ahi * bhi
  {
    assert alo * blo <= a * blo <= a * b;
    assert a * b <= ahi * b <= ahi * bhi;
  }

  /** avg * avg * n with avg = t / n, as the fairness-test report computes it. */
  function ScaledSquare(t: real, n: real): real
    requires n != 0.0
  {
    (t / n) * (t / n) * n
  }

  lemma ScaledSquareExact(t: int, n: int, d: int)
    requires n > 0 && d > 0 && d * n == t * t
    ensures ScaledSquare(t as real, n as real) / d as real == 1.0
  {
    CastMul(d, n);
    CastMul(t, t);
    var tr, nr, dr := t as real, n as real, d as real;
    assert dr * nr == tr * tr;
    assert (tr / nr) * (tr / nr) * nr == tr * tr / nr;
    assert tr * tr / nr == dr;
  }

  /** The scaled square over a divisor d with d n <= t^2 is at least 1. */
  lemma ScaledSquareAtLeastOne(t: int, n: int, d: int)
    requires n > 0 && d > 0 && d * n <= t * t
    ensures ScaledSquare(t as real, n as real) / d as real >= 1.0
  {
    CastMul(d, n);
    CastMul(t, t);
    var tr, nr, dr := t as real, n as real, d as real;
    assert dr * nr <= tr * tr;
    assert (tr / nr) * (tr / nr) * nr == tr * tr / nr;
    assert tr * tr / nr >= dr;
  }

  lemma Rescale(c: real, w: real, d: real)
    requires w > 0.0 && d > 0.0
    ensures c / d == (c / w) * (w / d)
  {
  }

  lemma CastMul(a: int, b: int)
    ensures (a * b) as real == a as real * b as real
  {
  }

  lemma PosMul(a: real, b: real)
    requires a > 0.0 && b > 0.0
    ensures a * b > 0.0
  {
  }

  lemma DivSub(a: real, b: real, n: real)
    requires n != 0.0
    ensures (a - b) / n == a / n - b / n
  {
  }

  lemma DivCancel(b: real, n: real)
    requires n != 0.0
    ensures (n * b) / n == b
  {
  }

  lemma DivDiv(q: real, n: real, k: real)
    requires n != 0.0 && k != 0.0
    ensures (q / n) / k == q / (n * k)
  {
  }

  lemma DivBounds(lo: real, a: real, d: real)
    requires 0.0 < d && 0.0 <= lo <= a <= d
    ensures lo / d <= a / d <= 1.0
    ensures a / d == 1.0 <==> a == d
  {
  }

  /** a*c / (b*c) == a / b for a positive factor c. */
  lemma CancelFactor(a: int, b: int, c: int)
    requires b > 0 && c > 0
    ensures (a * c) as real / (b * c) as real == a as real / b as real
  {
    CastMul(a, c);
    CastMul(b, c);
    var ar, br, cr := a as real, b as real, c as real;
    assert ar * cr / (br * cr) == ar / br;
  }

  /** The bounds on the Jain ratio s2 / (n q) once q <= s2 <= n q. */
  lemma JainArith(s2: int, q: int, n: int)
    requires n > 0 && q > 0 && q <= s2 <= n * q
    ensures 1.0 / n as real <= s2 as real / (n * q) as real <= 1.0
    ensures s2 as real / (n * q) as real == 1.0 <==> s2 == n * q
  {
    CastMul(n, q);
    CancelFactor(1, n, q);
    DivBounds(q as real, s2 as real, (n * q) as real);
  }

  /** The bounds on the Gini ratio p / (2 n s) once 0 <= p <= 2 (n-1) s. */
  lemma GiniArith(p: int, n: int, s: int)
    requires n > 0 && s > 0 && 0 <= p <= 2 * (n - 1) * s
    ensures 0.0 <= p as real / (2 * n * s) as real <= (n - 1) as real / n as real
    ensures p as real / (2 * n * s) as real == 0.0 <==> p == 0
  {
    assert 2 * n * s == n * (2 * s);
    assert 2 * (n - 1) * s == (n - 1) * (2 * s);
    CancelFactor(n - 1, n, 2 * s);
    DivBounds(0.0, p as real, (2 * n * s) as real);
  }

  lemma MeanTimesCount(n: real, s: real)
    requires n > 0.0
    ensures (s / n) * n == s
  {
  }

  lemma DevSimplify(n: real, m: real, s: real, q: real)
    requires m * n == s
    ensures n * m * m - 2.0 * m * s + q == q - n * m * m
  {
  }

  lemma VarOverSq(n: real, mm: real, q: real)
    requires n > 0.0 && mm > 0.0
    ensures ((q - n * mm) / n) / mm == q / (n * mm) - 1.0
  {
    DivSub(q, n * mm, n);
    DivCancel(mm, n);
    DivSub(q / n, mm, mm);
    DivCancel(1.0, mm);
    DivDiv(q, n, mm);
  }

  lemma Recip(a: real, b: real)
    requires a > 0.0 && b > 0.0
    ensures a / b == 1.0 / (b / a)
  {
  }

  lemma NMM(n: real, m: real, s: real)
    requires n > 0.0 && m * n == s
    ensures n * m * m == s * s / n
  {
  }

  /** s^2 / (n q) == 1 / (1 + variance / mean^2), with mean s / n and the
      population variance written out as (n m^2 - 2 m s + q) / n. */
  lemma CovAlgebra(n: real, s: real, q: real)
    requires n > 0.0 && s > 0.0 && q > 0.0
    ensures var m := s / n;
      s * s / (n * q) == 1.0 / (1.0 + ((n * m * m - 2.0 * m * s + q) / n) / (m * m))
  {
    var m := s / n;
    MeanTimesCount(n, s);
    assert m > 0.0;
    var mm := m * m;
    PosMul(m, m);
    DevSimplify(n, m, s, q);
    assert n * m * m == n * mm;
    VarOverSq(n, mm, q);
    NMM(n, m, s);
    CovFinish(n, s, q, n * mm, q / (n * mm) - 1.0);
  }

  /** The last step of CovAlgebra: with k == s^2 / n, 1 / (1 + (q/k - 1)) is s^2 / (n q). */
  lemma CovFinish(n: real, s: real, q: real, k: real, cov: real)
    requires n > 0.0 && s > 0.0 && q > 0.0 && k > 0.0 && k == s * s / n && cov == q / k - 1.0
    ensures s * s / (n * q) == 1.0 / (1.0 + cov)
  {
    assert 1.0 + cov == q / k;
    assert q / k == (q * n) / (s * s);
    Recip(s * s, n * q);
    assert (n * q) / (s * s) == (q * n) / (s * s);
  }

  /** variance / mean^2, with the variance given as dev / n. */
  function CovOf(n: real, m: real, dev: real): real
    requires n != 0.0 && m != 0.0
  {
    (dev / n) / (m * m)
  }

  /** n m^2 - 2 m s + q: the sum of (x - m)^2 over values with count n,
      sum s and sum of squares q. */
  function DevClosed(n: real, m: real, s: real, q: real): real {
    n * m * m - 2.0 * m * s + q
  }

  function JainOf(n: real, s: real, q: real): real
    requires n != 0.0 && q != 0.0
  {
    s * s / (n * q)
  }

  /** CovAlgebra with every quantity named. */
  lemma JainCov(n: real, s: real, q: real, m: real, dev: real, cov: real, jain: real)
    requires n > 0.0 && s > 0.0 && q > 0.0 && m == s / n
    requires dev == DevClosed(n, m, s, q)
    requires cov == CovOf(n, m, dev)
    requires jain == JainOf(n, s, q)
    ensures jain * (1.0 + cov) == 1.0
  {
    CovAlgebra(n, s, q);
    assert 1.0 + cov != 0.0;
  }

  /** A fraction x / t equal to the fraction c / s: o * s == c * t makes the
      ratio of the two exactly 1. */
  lemma ShareRatioOne(o: real, t: real, c: real, s: real)
    requires t > 0.0 && c > 0.0 && s > 0.0 && o * s == c * t
    ensures (o / t) / (c / s) == 1.0
  {
    assert o / t == c / s;
  }

  lemma SelfRatio(a: real)
    requires a != 0.0
    ensures a / a == 1.0
  {
  }

  /** (s * s) / (n * q) computed on integers and then converted to real. */
  lemma JainCast(s: nat, n: nat, q: nat)
    requires n > 0 && q > 0
    ensures (s * s) as real / (n * q) as real == JainOf(n as real, s as real, q as real)
  {
    CastMul(s, s);
    CastMul(n, q);
  }

  /** One more term between lo and hi moves both bounds by one step. */
  lemma BoundStep(k: nat, lo: nat, hi: nat, s: nat, x: nat)
    requires k * lo <= s <= k * hi && lo <= x <= hi
    ensures (k + 1) * lo <= s + x <= (k + 1) * hi
  {
    assert (k + 1) * lo == k * lo + lo;
    assert (k + 1) * hi == k * hi + hi;
  }

  /** Counting the indices below k that are congruent to l modulo 5. */
  lemma CyclicCount(k: nat, l: nat)
    requires k >= 1 && l < 5
    ensures (k + 4 - l) / 5 == (k + 3 - l) / 5 + (if (k - 1) % 5 == l then 1 else 0)
  {
    var q, r := (k - 1) / 5, (k - 1) % 5;
    assert k - 1 == 5 * q + r;
    if r == l {
      assert k + 4 - l == 5 * (q + 1);
      assert k + 3 - l == 5 * q + 4;
    } else if r > l {
      assert k + 4 - l == 5 * (q + 1) + (r - l);
      assert k + 3 - l == 5 * (q + 1) + (r - l - 1);
    } else {
      assert k + 4 - l == 5 * q + (r + 5 - l);
      assert k + 3 - l == 5 * q + (r + 4 - l);
    }
  }

  /** Counting up by one adds one to the quotient exactly at a multiple of
      d, for the break periods 50, 100 and 500. */
  lemma NextQuotient(t: nat, d: nat)
    requires d == 50 || d == 100 || d == 500
    ensures (t + 1) / d == t / d + (if (t + 1) % d == 0 then 1 else 0)
  {
    if d == 50 {
      assert (t + 1) / 50 == t / 50 + (if (t + 1) % 50 == 0 then 1 else 0);
    } else if d == 100 {
      assert (t + 1) / 100 == t / 100 + (if (t + 1) % 100 == 0 then 1 else 0);
    } else {
      assert (t + 1) / 500 == t / 500 + (if (t + 1) % 500 == 0 then 1 else 0);
    }
  }

  /** x^2 / (n x^2) == 1/n: Jain's index of a single busy thread. */
  lemma SquareOver(n: nat, x: nat)
    requires n > 0 && x > 0
    ensures (x * x) as real / (n * (x * x)) as real == 1.0 / n as real
  {
    var q := x * x;
    assert q > 0;
    assert 1 * q == q && n * q == n * (x * x);
    CancelFactor(1, n, q);
  }

  /** 2 m x / (2 (m+1) x) == m / (m+1): the Gini coefficient of a single busy thread. */
  lemma PairsOver(m: nat, x: nat)
    requires x > 0
    ensures (2 * (m * x)) as real / (2 * (m + 1) * x) as real == m as real / (m + 1) as real
  {
    var d := 2 * x;
    assert m * d == 2 * (m * x);
    assert (m + 1) * d == 2 * (m + 1) * x;
    CancelFactor(m, m + 1, d);
  }

  lemma MulSucc(k: nat, a: nat)
    ensures (k + 1) * a == k * a + a
  {
  }

  /** Every multiple of 500 is a multiple of 100. */
  lemma HundredsOfFiveHundred(n: nat)
    ensures n % 500 == 0 ==> n % 100 == 0
  {
    if n % 500 == 0 {
      assert n == 100 * (5 * (n / 500));
    }
  }

  lemma AddFractions(a: real, b: real, s: real)
    requires s != 0.0
    ensures a / s + b / s == (a + b) / s
  {
  }

  lemma DivTimes(a: real, b: real)
    requires b != 0.0
    ensures (a / b) * b == a
  {
  }

  /** c / b compared with k is c compared with k * b, for a positive b. */
  lemma RatioAbove(c: real, b: real, k: real)
    requires b > 0.0
    ensures c / b > k <==> c > k * b
  {
    assert (c / b) * b == c;
  }

}
