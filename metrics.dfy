/** FairnessAnalyzer: the reductions of the per-thread operation counts into
    inequality measures. All arithmetic is exact (real in place of double);
    the driver-specific reports build on these definitions. */
module Metrics {
  import opened Common
  import Arith

  function Sum(xs: seq<nat>): nat {
    if xs == [] then 0 else Sum(xs[..|xs| - 1]) + xs[|xs| - 1]
  }

  function SumSq(xs: seq<nat>): nat {
    if xs == [] then 0 else SumSq(xs[..|xs| - 1]) + xs[|xs| - 1] * xs[|xs| - 1]
  }

  /** Sum over j of (a - ys[j])^2. */
  function RowSq(a: int, ys: seq<nat>): nat {
    if ys == [] then 0 else RowSq(a, ys[..|ys| - 1]) + (a - ys[|ys| - 1]) * (a - ys[|ys| - 1])
  }

  /** Sum over i, j of (xs[i] - ys[j])^2. */
  function PairSq(xs: seq<nat>, ys: seq<nat>): nat {
    if xs == [] then 0 else PairSq(xs[..|xs| - 1], ys) + RowSq(xs[|xs| - 1], ys)
  }

  function Abs(d: int): nat {
    if d < 0 then -d else d
  }

  /** Sum over j of |a - ys[j]|. */
  function RowAbs(a: int, ys: seq<nat>): nat {
    if ys == [] then 0 else RowAbs(a, ys[..|ys| - 1]) + Abs(a - ys[|ys| - 1])
  }

  /** Sum over i, j of |xs[i] - ys[j]|: the Gini numerator when ys == xs. */
  function PairAbs(xs: seq<nat>, ys: seq<nat>): nat {
    if xs == [] then 0 else PairAbs(xs[..|xs| - 1], ys) + RowAbs(xs[|xs| - 1], ys)
  }

  ghost predicate AllEqual(xs: seq<nat>) {
    forall i, j :: 0 <= i < |xs| && 0 <= j < |xs| ==> xs[i] == xs[j]
  }

  // ---------------------------------------------------------------------
  // Jain's index: (sum x)^2 / (n * sum x^2)

  function Jain(xs: seq<nat>): real
    requires |xs| > 0 && SumSq(xs) > 0
  {
    (Sum(xs) * Sum(xs)) as real / (|xs| * SumSq(xs)) as real
  }

  /** The Jain index as the driver computes it in doubles: 0/0 (NaN, here
      None) when every count is zero. */
  function OverallJain(xs: seq<nat>): Option<real>
    requires |xs| > 0
  {
    if SumSq(xs) == 0 then None else Some(Jain(xs))
  }

  lemma {:induction false} RowSqClosed(a: int, ys: seq<nat>)
    ensures RowSq(a, ys) == |ys| * a * a - 2 * a * Sum(ys) + SumSq(ys)
  {
    if ys != [] {
      var init, y := ys[..|ys| - 1], ys[|ys| - 1];
      RowSqClosed(a, init);
      Arith.RowSqStep(|init|, a, Sum(init), SumSq(init), y);
    }
  }

  lemma {:induction false} PairSqClosed(xs: seq<nat>, ys: seq<nat>)
    ensures PairSq(xs, ys) == |ys| * SumSq(xs) - 2 * Sum(xs) * Sum(ys) + |xs| * SumSq(ys)
  {
    if xs != [] {
      var init, x := xs[..|xs| - 1], xs[|xs| - 1];
      PairSqClosed(init, ys);
      RowSqClosed(x, ys);
      Arith.PairSqStep(|ys|, |init|, SumSq(init), Sum(init), Sum(ys), SumSq(ys), x);
    }
  }

  /** Lagrange's identity: n * sum x^2 - (sum x)^2 is half the sum of all
      squared pairwise differences; in particular (sum x)^2 <= n * sum x^2. */
  lemma CauchySchwarz(xs: seq<nat>)
    ensures 2 * (|xs| * SumSq(xs) - Sum(xs) * Sum(xs)) == PairSq(xs, xs)
    ensures Sum(xs) * Sum(xs) <= |xs| * SumSq(xs)
  {
    PairSqClosed(xs, xs);
    Arith.LagrangeArith(|xs|, SumSq(xs), Sum(xs), PairSq(xs, xs));
  }

  lemma {:induction false} RowSqZero(a: int, ys: seq<nat>)
    ensures RowSq(a, ys) == 0 <==> forall j :: 0 <= j < |ys| ==> ys[j] == a
  {
    if ys != [] {
      var init, y := ys[..|ys| - 1], ys[|ys| - 1];
      RowSqZero(a, init);
      assert (a - y) * (a - y) == 0 <==> y == a;
      if RowSq(a, ys) == 0 {
        forall j | 0 <= j < |ys| ensures ys[j] == a {
          if j < |init| { assert ys[j] == init[j]; }
        }
      }
      if forall j :: 0 <= j < |ys| ==> ys[j] == a {
        assert forall j :: 0 <= j < |init| ==> init[j] == ys[j];
      }
    }
  }

  lemma {:induction false} PairSqZero(xs: seq<nat>, ys: seq<nat>)
    ensures PairSq(xs, ys) == 0 <==>
      forall i, j :: 0 <= i < |xs| && 0 <= j < |ys| ==> xs[i] == ys[j]
  {
    if xs != [] {
      var init, x := xs[..|xs| - 1], xs[|xs| - 1];
      PairSqZero(init, ys);
      RowSqZero(x, ys);
      if PairSq(xs, ys) == 0 {
        forall i, j | 0 <= i < |xs| && 0 <= j < |ys| ensures xs[i] == ys[j] {
          if i < |init| { assert xs[i] == init[i]; }
        }
      }
      if forall i, j :: 0 <= i < |xs| && 0 <= j < |ys| ==> xs[i] == ys[j] {
        assert forall i :: 0 <= i < |init| ==> init[i] == xs[i];
      }
    }
  }

  lemma {:induction false} SumSqAtMostSquare(xs: seq<nat>)
    ensures SumSq(xs) <= Sum(xs) * Sum(xs)
    ensures Sum(xs) > 0 ==> SumSq(xs) > 0
  {
    if xs != [] {
      var init, x := xs[..|xs| - 1], xs[|xs| - 1];
      SumSqAtMostSquare(init);
      Arith.SquareStep(SumSq(init), Sum(init), x);
    }
  }

  /** Jain's index lies in [1/n, 1] whenever some thread did work, and it is
      exactly 1 when, and only when, every thread did the same amount. */
  lemma JainBounds(xs: seq<nat>)
    requires |xs| > 0 && Sum(xs) > 0
    ensures SumSq(xs) > 0
    ensures 1.0 / |xs| as real <= Jain(xs) <= 1.0
    ensures Jain(xs) == 1.0 <==> AllEqual(xs)
  {
    SumSqAtMostSquare(xs);
    CauchySchwarz(xs);
    PairSqZero(xs, xs);
    Arith.JainArith(Sum(xs) * Sum(xs), SumSq(xs), |xs|);
  }

  // ---------------------------------------------------------------------
  // Gini coefficient: sum_i sum_j |x_i - x_j| / (2 n sum x)

  function Gini(xs: seq<nat>): real
    requires |xs| > 0 && Sum(xs) > 0
  {
    PairAbs(xs, xs) as real / (2 * |xs| * Sum(xs)) as real
  }

  /** The Gini coefficient as the driver computes it: NaN (None) when the
      total is zero. */
  function OverallGini(xs: seq<nat>): Option<real>
    requires |xs| > 0
  {
    if Sum(xs) == 0 then None else Some(Gini(xs))
  }

  lemma {:induction false} RowAbsAtMost(a: nat, ys: seq<nat>)
    ensures RowAbs(a, ys) <= |ys| * a + Sum(ys)
  {
    if ys != [] {
      var k := |ys| - 1;
      var init, y := ys[..k], ys[k];
      RowAbsAtMost(a, init);
      assert RowAbs(a, ys) == RowAbs(a, init) + Abs(a - y);
      assert Sum(ys) == Sum(init) + y;
      assert Abs(a - y) <= a + y;
      Arith.MulSucc(k, a);
    }
  }

  /** Adding a column y adds every |xs[i] - y|, which is RowAbs(y, xs). */
  lemma {:induction false} PairAbsAppendColumn(xs: seq<nat>, ys: seq<nat>, y: nat)
    ensures PairAbs(xs, ys + [y]) == PairAbs(xs, ys) + RowAbs(y, xs)
  {
    if xs != [] {
      var init, x := xs[..|xs| - 1], xs[|xs| - 1];
      PairAbsAppendColumn(init, ys, y);
      assert (ys + [y])[..|ys + [y]| - 1] == ys;
      assert RowAbs(x, ys + [y]) == RowAbs(x, ys) + Abs(x - y);
      assert Abs(x - y) == Abs(y - x);
    }
  }

  /** The Gini numerator grows by twice the new element's row. */
  lemma PairAbsAppend(xs: seq<nat>, x: nat)
    ensures PairAbs(xs + [x], xs + [x]) == PairAbs(xs, xs) + 2 * RowAbs(x, xs)
  {
    var ys := xs + [x];
    assert ys[..|ys| - 1] == xs;
    PairAbsAppendColumn(xs, xs, x);
    assert RowAbs(x, ys) == RowAbs(x, xs) + Abs(x - x);
  }

  lemma {:induction false} PairAbsBound(xs: seq<nat>)
    ensures |xs| > 0 ==> PairAbs(xs, xs) <= 2 * (|xs| - 1) * Sum(xs)
  {
    if |xs| > 1 {
      var init, x := xs[..|xs| - 1], xs[|xs| - 1];
      assert xs == init + [x];
      PairAbsBound(init);
      PairAbsAppend(init, x);
      RowAbsAtMost(x, init);
      Arith.GiniStep(|init|, PairAbs(init, init), Sum(init), x, RowAbs(x, init));
    } else if |xs| == 1 {
      assert xs == [] + [xs[0]];
      PairAbsAppend([], xs[0]);
    }
  }

  lemma {:induction false} RowAbsZero(a: int, ys: seq<nat>)
    ensures RowAbs(a, ys) == 0 <==> forall j :: 0 <= j < |ys| ==> ys[j] == a
  {
    if ys != [] {
      var init := ys[..|ys| - 1];
      RowAbsZero(a, init);
      if RowAbs(a, ys) == 0 {
        forall j | 0 <= j < |ys| ensures ys[j] == a {
          if j < |init| { assert ys[j] == init[j]; }
        }
      }
      if forall j :: 0 <= j < |ys| ==> ys[j] == a {
        assert forall j :: 0 <= j < |init| ==> init[j] == ys[j];
      }
    }
  }

  lemma {:induction false} PairAbsZero(xs: seq<nat>, ys: seq<nat>)
    ensures PairAbs(xs, ys) == 0 <==>
      forall i, j :: 0 <= i < |xs| && 0 <= j < |ys| ==> xs[i] == ys[j]
  {
    if xs != [] {
      var init, x := xs[..|xs| - 1], xs[|xs| - 1];
      PairAbsZero(init, ys);
      RowAbsZero(x, ys);
      if PairAbs(xs, ys) == 0 {
        forall i, j | 0 <= i < |xs| && 0 <= j < |ys| ensures xs[i] == ys[j] {
          if i < |init| { assert xs[i] == init[i]; }
        }
      }
      if forall i, j :: 0 <= i < |xs| && 0 <= j < |ys| ==> xs[i] == ys[j] {
        assert forall i :: 0 <= i < |init| ==> init[i] == xs[i];
      }
    }
  }

  /** The Gini coefficient lies in [0, (n-1)/n] and is 0 exactly when every
      thread did the same amount of work. */
  lemma GiniBounds(xs: seq<nat>)
    requires |xs| > 0 && Sum(xs) > 0
    ensures 0.0 <= Gini(xs) <= (|xs| - 1) as real / |xs| as real
    ensures Gini(xs) == 0.0 <==> AllEqual(xs)
  {
    PairAbsBound(xs);
    PairAbsZero(xs, xs);
    Arith.GiniArith(PairAbs(xs, xs), |xs|, Sum(xs));
  }

  // ---------------------------------------------------------------------
  // The extreme case: one thread does all the work

  function ZeroCounts(m: nat): (zs: seq<nat>)
    ensures |zs| == m && forall i :: 0 <= i < m ==> zs[i] == 0
  {
    seq(m, _ => 0)
  }

  lemma {:induction false} ZeroCountsSums(m: nat, x: nat)
    ensures Sum(ZeroCounts(m)) == 0 && SumSq(ZeroCounts(m)) == 0
    ensures RowAbs(x, ZeroCounts(m)) == m * x
  {
    if m > 0 {
      assert ZeroCounts(m)[..m - 1] == ZeroCounts(m - 1);
      ZeroCountsSums(m - 1, x);
    }
  }

  /** With counts [0, ..., 0, x] Jain's index is exactly 1/n and the Gini
      coefficient its maximum (n-1)/n (0.75 for four threads). */
  lemma OneThreadDoesAllWork(m: nat, x: nat)
    requires x > 0
    ensures var xs := ZeroCounts(m) + [x];
      Sum(xs) == x && SumSq(xs) > 0
      && Jain(xs) == 1.0 / (m + 1) as real
      && Gini(xs) == m as real / (m + 1) as real
  {
    OneThreadSums(m, x);
    Arith.SquareOver(m + 1, x);
    Arith.PairsOver(m, x);
  }

  /** The sums of [0, ..., 0, x] that the two indexes read. */
  lemma OneThreadSums(m: nat, x: nat)
    ensures var xs := ZeroCounts(m) + [x];
      |xs| == m + 1 && Sum(xs) == x && SumSq(xs) == x * x && PairAbs(xs, xs) == 2 * (m * x)
  {
    var zs := ZeroCounts(m);
    var xs := zs + [x];
    assert xs[..|xs| - 1] == zs;
    ZeroCountsSums(m, x);
    PairAbsAppend(zs, x);
    PairAbsZero(zs, zs);
  }

  // ---------------------------------------------------------------------
  // Coefficient of variation, squared (the driver takes its square root)

  /** The counts converted to floating point, as the driver does before
      taking deviations from the mean. */
  function ToReals(xs: seq<nat>): (rs: seq<real>)
    ensures |rs| == |xs| && forall i :: 0 <= i < |xs| ==> rs[i] == xs[i] as real
  {
    seq(|xs|, i requires 0 <= i < |xs| => xs[i] as real)
  }

  function SumR(rs: seq<real>): real {
    if rs == [] then 0.0 else SumR(rs[..|rs| - 1]) + rs[|rs| - 1]
  }

  function SumSqR(rs: seq<real>): real {
    if rs == [] then 0.0 else SumSqR(rs[..|rs| - 1]) + Arith.Sq(rs[|rs| - 1])
  }

  /** Sum over r of (r - m)^2, in exact arithmetic. */
  function Deviation(m: real, rs: seq<real>): (d: real)
    ensures d >= 0.0
  {
    if rs == [] then 0.0 else Deviation(m, rs[..|rs| - 1]) + Arith.Sq(rs[|rs| - 1] - m)
  }

  function Mean(xs: seq<nat>): real
    requires |xs| > 0
  {
    Sum(xs) as real / |xs| as real
  }

  /** variance / mean^2, i.e. CoV^2, with the population variance the driver uses. */
  function CovSquared(xs: seq<nat>): real
    requires |xs| > 0 && Sum(xs) > 0
  {
    Arith.CovOf(|xs| as real, Mean(xs), Deviation(Mean(xs), ToReals(xs)))
  }

  /** The closed form of the squared deviations about any centre m, with
      n, s and q the count, sum and sum of squares of rs. */
  lemma {:induction false} DeviationClosed(m: real, rs: seq<real>, n: real, s: real, q: real)
    requires n == |rs| as real && s == SumR(rs) && q == SumSqR(rs)
    ensures Deviation(m, rs) == Arith.DevClosed(n, m, s, q)
  {
    if rs != [] {
      var init := rs[..|rs| - 1];
      DeviationClosed(m, init, |init| as real, SumR(init), SumSqR(init));
      Arith.DevStep(Deviation(m, init), |init| as real, m, SumR(init), SumSqR(init), rs[|rs| - 1],
                    Deviation(m, rs), n, s, q);
    }
  }

  lemma {:induction false} ToRealsSums(xs: seq<nat>)
    ensures SumR(ToReals(xs)) == Sum(xs) as real
    ensures SumSqR(ToReals(xs)) == SumSq(xs) as real
  {
    if xs != [] {
      var init, x := xs[..|xs| - 1], xs[|xs| - 1];
      assert ToReals(xs)[..|xs| - 1] == ToReals(init);
      ToRealsSums(init);
      Arith.CastMul(x, x);
    }
  }

  lemma JainAsReals(xs: seq<nat>)
    requires |xs| > 0 && SumSq(xs) > 0
    ensures Jain(xs) == Arith.JainOf(|xs| as real, Sum(xs) as real, SumSq(xs) as real)
  {
    Arith.JainCast(Sum(xs), |xs|, SumSq(xs));
  }

  /** The two dispersion figures the driver prints are tied together:
      Jain = 1 / (1 + CoV^2). */
  lemma JainFromCov(xs: seq<nat>)
    requires |xs| > 0 && Sum(xs) > 0
    ensures SumSq(xs) > 0
    ensures Jain(xs) * (1.0 + CovSquared(xs)) == 1.0
  {
    SumSqAtMostSquare(xs);
    ToRealsSums(xs);
    DeviationClosed(Mean(xs), ToReals(xs), |xs| as real, Sum(xs) as real, SumSq(xs) as real);
    JainAsReals(xs);
    Arith.JainCov(|xs| as real, Sum(xs) as real, SumSq(xs) as real, Mean(xs),
                  Deviation(Mean(xs), ToReals(xs)), CovSquared(xs), Jain(xs));
  }

  // ---------------------------------------------------------------------
  // Grouping threads by class (a cgroup, a hierarchy level)

  /** A thread's class and its operation count. */
  datatype Tagged = Tagged(group: nat, ops: nat)

  function Counts(ts: seq<Tagged>): (xs: seq<nat>)
    ensures |xs| == |ts|
    ensures forall k :: 0 <= k < |ts| ==> xs[k] == ts[k].ops
  {
    seq(|ts|, k requires 0 <= k < |ts| => ts[k].ops)
  }

  /** The counts of the threads in class g, in thread order. */
  function Members(ts: seq<Tagged>, g: nat): seq<nat> {
    if ts == [] then []
    else Members(ts[..|ts| - 1], g) + (if ts[|ts| - 1].group == g then [ts[|ts| - 1].ops] else [])
  }

  lemma SumAppend(xs: seq<nat>, x: nat)
    ensures Sum(xs + [x]) == Sum(xs) + x
  {
    assert (xs + [x])[..|xs|] == xs;
  }

  /** One more thread adds its count to its own class and to no other. */
  lemma MembersStep(ts: seq<Tagged>, k: nat, g: nat)
    requires k < |ts|
    ensures Members(ts[..k + 1], g) == Members(ts[..k], g) + (if ts[k].group == g then [ts[k].ops] else [])
    ensures Sum(Members(ts[..k + 1], g)) == Sum(Members(ts[..k], g)) + (if ts[k].group == g then ts[k].ops else 0)
  {
    assert ts[..k + 1][..k] == ts[..k];
    if ts[k].group == g {
      SumAppend(Members(ts[..k], g), ts[k].ops);
    } else {
      assert Members(ts[..k], g) + [] == Members(ts[..k], g);
    }
  }

  /** The class of every thread has at least that thread as a member. */
  lemma {:induction false} MemberPresent(ts: seq<Tagged>, i: nat)
    requires i < |ts|
    ensures |Members(ts, ts[i].group)| > 0
  {
    if i < |ts| - 1 {
      MemberPresent(ts[..|ts| - 1], i);
    }
  }

  /** Operations and threads of the classes 0 .. k-1 together. */
  function TotalBelow(ts: seq<Tagged>, k: nat): nat {
    if k == 0 then 0 else TotalBelow(ts, k - 1) + Sum(Members(ts, k - 1))
  }

  function SizeBelow(ts: seq<Tagged>, k: nat): nat {
    if k == 0 then 0 else SizeBelow(ts, k - 1) + |Members(ts, k - 1)|
  }

  lemma {:induction false} BelowAppend(ts: seq<Tagged>, t: Tagged, k: nat)
    ensures TotalBelow(ts + [t], k) == TotalBelow(ts, k) + (if t.group < k then t.ops else 0)
    ensures SizeBelow(ts + [t], k) == SizeBelow(ts, k) + (if t.group < k then 1 else 0)
  {
    if k > 0 {
      BelowAppend(ts, t, k - 1);
      assert (ts + [t])[..|ts + [t]| - 1] == ts;
      if t.group == k - 1 {
        SumAppend(Members(ts, k - 1), t.ops);
      } else {
        assert Members(ts + [t], k - 1) == Members(ts, k - 1) + [];
        assert Members(ts, k - 1) + [] == Members(ts, k - 1);
      }
    }
  }

  lemma {:induction false} EmptyBelow(k: nat)
    ensures TotalBelow([], k) == 0 && SizeBelow([], k) == 0
  {
    if k > 0 {
      EmptyBelow(k - 1);
    }
  }

  /** When every thread's class is below k, the classes partition the
      threads: their totals add up to the overall total and their sizes to
      the number of threads. */
  lemma {:induction false} GroupsPartition(ts: seq<Tagged>, k: nat)
    requires forall i :: 0 <= i < |ts| ==> ts[i].group < k
    ensures TotalBelow(ts, k) == Sum(Counts(ts))
    ensures SizeBelow(ts, k) == |ts|
  {
    if ts == [] {
      EmptyBelow(k);
    } else {
      var init := ts[..|ts| - 1];
      GroupsPartition(init, k);
      BelowAppend(init, ts[|ts| - 1], k);
      assert init + [ts[|ts| - 1]] == ts;
      assert Counts(ts)[..|ts| - 1] == Counts(init);
    }
  }

  // ---------------------------------------------------------------------
  // Min, max, total and spread

  /** The scan over the threads' totals: the smallest, the largest and the sum.
      min_ops and max_ops start at the first thread, as in the drivers. */
  method ScanTotals(xs: seq<nat>) returns (mn: nat, mx: nat, total: nat)
    requires |xs| > 0
    ensures total == Sum(xs)
    ensures exists i :: 0 <= i < |xs| && xs[i] == mn
    ensures exists i :: 0 <= i < |xs| && xs[i] == mx
    ensures forall i :: 0 <= i < |xs| ==> mn <= xs[i] <= mx
  {
    mn, mx, total := xs[0], xs[0], 0;
    var k := 0;
    while k < |xs|
      invariant 0 <= k <= |xs|
      invariant total == Sum(xs[..k])
      invariant exists i :: 0 <= i < |xs| && xs[i] == mn
      invariant exists i :: 0 <= i < |xs| && xs[i] == mx
      invariant forall i :: 0 <= i < k ==> mn <= xs[i] <= mx
      invariant mn <= xs[0] <= mx
    {
      assert xs[..k + 1][..k] == xs[..k];
      total := total + xs[k];
      if xs[k] < mn { mn := xs[k]; }
      if xs[k] > mx { mx := xs[k]; }
      k := k + 1;
    }
    assert xs[..k] == xs;
  }

  lemma {:induction false} SumBetween(xs: seq<nat>, lo: nat, hi: nat)
    requires forall i :: 0 <= i < |xs| ==> lo <= xs[i] <= hi
    ensures |xs| * lo <= Sum(xs) <= |xs| * hi
  {
    if xs != [] {
      var init := xs[..|xs| - 1];
      SumBetween(init, lo, hi);
      Arith.BoundStep(|init|, lo, hi, Sum(init), xs[|xs| - 1]);
    }
  }

  /** The average always lies between the smallest and the largest count. */
  lemma MinAvgMax(xs: seq<nat>, mn: nat, mx: nat)
    requires |xs| > 0
    requires exists i :: 0 <= i < |xs| && xs[i] == mn
    requires exists i :: 0 <= i < |xs| && xs[i] == mx
    requires forall i :: 0 <= i < |xs| ==> mn <= xs[i] <= mx
    ensures mn as real <= Sum(xs) as real / |xs| as real <= mx as real
  {
    SumBetween(xs, mn, mx);
    Arith.AverageBetween(|xs|, Sum(xs), mn, mx);
  }

  /** (max - min) / avg * 100, defined when the average is positive. */
  function Spread(mn: nat, mx: nat, total: nat, n: nat): Option<real>
    requires n > 0
  {
    var avg := total as real / n as real;
    if avg > 0.0 then Some((mx as real - mn as real) / avg * 100.0) else None
  }

  /** The worked example: max 120, min 80, average 100 gives exactly 40%. */
  lemma SpreadExample()
    ensures Spread(80, 120, 300, 3) == Some(40.0)
  {
  }

  /** The spread is never negative and is 0 exactly when min == max. */
  lemma SpreadNonNegative(xs: seq<nat>, mn: nat, mx: nat)
    requires |xs| > 0 && Sum(xs) > 0
    requires forall i :: 0 <= i < |xs| ==> mn <= xs[i] <= mx
    requires exists i :: 0 <= i < |xs| && xs[i] == mn
    ensures Spread(mn, mx, Sum(xs), |xs|).Some?
    ensures Spread(mn, mx, Sum(xs), |xs|).value >= 0.0
    ensures Spread(mn, mx, Sum(xs), |xs|).value == 0.0 <==> mn == mx
  {
    var avg := Sum(xs) as real / |xs| as real;
    assert avg > 0.0;
    assert mn <= mx by {
      var i :| 0 <= i < |xs| && xs[i] == mn;
    }
  }

  // ---------------------------------------------------------------------
  // The per-thread report shared by the two fairness drivers

  /** The result of a double division whose divisor may be zero. */
  datatype IndexValue = Finite(v: real) | PosInfinity

  /** The "fairness index" as the driver computes it: avg^2 * n in doubles
      over total_ops * total_ops / num_threads in unsigned 64-bit integer
      arithmetic (the product wraps, the division truncates), and 0 when no
      operation was done. */
  function SimplifiedIndex(total: nat, n: nat): IndexValue
    requires n >= 1
  {
    if total == 0 then Finite(0.0)
    else
      var denom := ((total * total) % U64Modulus) / n;
      if denom == 0 then PosInfinity else Finite(Arith.ScaledSquare(total as real, n as real) / denom as real)
  }

  function IndexAsWritten(xs: seq<nat>): IndexValue
    requires |xs| >= 1
  {
    SimplifiedIndex(Sum(xs), |xs|)
  }

  /** Whenever some work was done the index as written is at least 1 (or
      +inf): the truncated divisor never exceeds total^2 / n, so it cannot
      report the unfairness that Jain's index, at most 1, measures. */
  lemma IndexAtLeastOne(total: nat, n: nat)
    requires total > 0 && n >= 1
    ensures SimplifiedIndex(total, n).PosInfinity? || SimplifiedIndex(total, n).v >= 1.0
  {
    var sq := total * total;
    var m := sq % U64Modulus;
    assert m <= sq;
    var d := m / n;
    if d > 0 {
      assert d * n <= m;
      Arith.ScaledSquareAtLeastOne(total, n, d);
    }
  }

  /** The index as written depends on the total alone: any two runs with the
      same number of threads and the same total score the same, however the
      work was split between the threads. */
  lemma IndexIgnoresDistribution(xs: seq<nat>, ys: seq<nat>)
    requires |xs| == |ys| >= 1 && Sum(xs) == Sum(ys)
    ensures IndexAsWritten(xs) == IndexAsWritten(ys)
  {
  }

  /** Whenever total^2 fits in 64 bits and n divides it, the index as written
      is exactly 1, whatever the per-thread counts. */
  lemma IndexIsOneWhenExact(total: nat, n: nat)
    requires n >= 1 && total >= 1 && total * total < U64Modulus && (total * total) % n == 0
    ensures SimplifiedIndex(total, n) == Finite(1.0)
  {
    var sq := total * total;
    assert sq % U64Modulus == sq;
    var d := sq / n;
    assert d * n == sq;
    assert d >= 1;
    Arith.ScaledSquareExact(total, n, d);
  }

  /** The counterexample: all work done by one of two threads scores 1.0 as
      written, while Jain's index gives it the minimum 0.5; a single
      operation on two threads divides by an integer zero. */
  lemma IndexCounterexamples()
    ensures IndexAsWritten([10, 0]) == Finite(1.0)
    ensures Jain([10, 0]) == 0.5
    ensures IndexAsWritten([1, 0]) == PosInfinity
  {
    assert Sum([10, 0]) == 10 by {
      assert [10, 0][..1] == [10];
      assert [10][..0] == [];
    }
    assert SumSq([10, 0]) == 100 by {
      assert [10, 0][..1] == [10];
      assert [10][..0] == [];
    }
    assert Sum([1, 0]) == 1 by {
      assert [1, 0][..1] == [1];
      assert [1][..0] == [];
    }
    IndexIsOneWhenExact(10, 2);
  }

  /** The index the report evidently means: Jain's index of the per-thread
      totals, 0 when no operation was done. It lies between 1/n and 1 and is
      1 exactly when the work was split evenly. */
  function FairnessIndex(xs: seq<nat>): (r: real)
    requires |xs| >= 1
    ensures Sum(xs) == 0 ==> r == 0.0
    ensures Sum(xs) > 0 ==> 1.0 / |xs| as real <= r <= 1.0
    ensures Sum(xs) > 0 ==> (r == 1.0 <==> AllEqual(xs))
  {
    if Sum(xs) == 0 then 0.0
    else
      JainBounds(xs);
      Jain(xs)
  }

  /** The figures print_fairness_stats derives from the per-thread totals:
      index is the "Fairness Index" line as printed, jain the corrected
      figure beside it. */
  datatype FairnessReport = FairnessReport(minOps: nat, maxOps: nat, totalOps: nat,
                                           avgOps: real, index: IndexValue, jain: real,
                                           variation: Option<real>)

  method FairnessStats(xs: seq<nat>) returns (r: FairnessReport)
    requires 1 <= |xs|
    ensures r.totalOps == Sum(xs)
    ensures forall i :: 0 <= i < |xs| ==> r.minOps <= xs[i] <= r.maxOps
    ensures exists i :: 0 <= i < |xs| && xs[i] == r.minOps
    ensures exists i :: 0 <= i < |xs| && xs[i] == r.maxOps
    ensures r.avgOps == Sum(xs) as real / |xs| as real
    ensures r.minOps as real <= r.avgOps <= r.maxOps as real
    ensures r.index == IndexAsWritten(xs)
    ensures r.jain == FairnessIndex(xs)
    ensures r.variation == Spread(r.minOps, r.maxOps, r.totalOps, |xs|)
  {
    var mn, mx, total := ScanTotals(xs);
    MinAvgMax(xs, mn, mx);
    var avg := total as real / |xs| as real;
    r := FairnessReport(mn, mx, total, avg, IndexAsWritten(xs), FairnessIndex(xs), Spread(mn, mx, total, |xs|));
  }
}
