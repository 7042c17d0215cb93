/**
  Historical value-at-risk by linear interpolation between order statistics, and expected shortfall
  as the average loss of a tail. Both sort the returns first.
 */
module RiskMetrics {
  import opened Domain
  import opened Arithmetic

  // ---------------------------------------------------------------- sorting

  function Insert(s: seq<real>, x: real): seq<real> {
    if |s| == 0 || x <= s[0] then [x] + s else [s[0]] + Insert(s[1..], x)
  }

  function Sorted(s: seq<real>): seq<real> {
    if |s| == 0 then [] else Insert(Sorted(s[..|s| - 1]), s[|s| - 1])
  }

  lemma SameMembers(a: seq<real>, b: seq<real>, x: real)
    requires multiset(a) == multiset(b)
    ensures x in a <==> x in b
  {
    assert x in a <==> x in multiset(a);
  }

  lemma {:induction false} InsertMultiset(s: seq<real>, x: real)
    ensures multiset(Insert(s, x)) == multiset(s) + multiset{x} && |Insert(s, x)| == |s| + 1
  {
    if |s| > 0 && x > s[0] {
      InsertMultiset(s[1..], x);
      assert s == [s[0]] + s[1..];
    }
  }

  lemma {:induction false} InsertSorts(s: seq<real>, x: real)
    requires Ascending(s)
    ensures Ascending(Insert(s, x)) && multiset(Insert(s, x)) == multiset(s) + multiset{x} && |Insert(s, x)| == |s| + 1
  {
    InsertMultiset(s, x);
    if |s| > 0 && x > s[0] {
      var rest := Insert(s[1..], x);
      InsertSorts(s[1..], x);
      forall i | 0 <= i < |rest|
        ensures s[0] <= rest[i]
      {
        SameMembers(rest, s[1..] + [x], rest[i]);
      }
    }
  }

  lemma {:induction false} SortedSorts(s: seq<real>)
    ensures Ascending(Sorted(s)) && multiset(Sorted(s)) == multiset(s) && |Sorted(s)| == |s|
  {
    if |s| > 0 {
      var init, last := s[..|s| - 1], s[|s| - 1];
      SortedSorts(init);
      InsertSorts(Sorted(init), last);
      assert s == init + [last];
    }
  }

  lemma FirstIsLeast(a: seq<real>, b: seq<real>)
    requires Ascending(a) && Ascending(b) && multiset(a) == multiset(b) && |a| > 0 && |b| > 0
    ensures a[0] == b[0]
  {
    SameMembers(a, b, a[0]);
    SameMembers(a, b, b[0]);
    var i :| 0 <= i < |b| && b[i] == a[0];
    var j :| 0 <= j < |a| && a[j] == b[0];
    assert b[0] <= b[i] && a[0] <= a[j];
  }

  lemma RestMultiset(a: seq<real>)
    requires |a| > 0
    ensures multiset(a[1..]) == multiset(a) - multiset{a[0]}
  {
    assert a == [a[0]] + a[1..];
  }

  /** An ascending list is determined by its multiset. */
  lemma {:induction false} AscendingUnique(a: seq<real>, b: seq<real>)
    requires Ascending(a) && Ascending(b) && multiset(a) == multiset(b)
    ensures a == b
    decreases |a|
  {
    assert |a| == |multiset(a)| == |multiset(b)| == |b|;
    if |a| > 0 {
      FirstIsLeast(a, b);
      RestMultiset(a);
      RestMultiset(b);
      AscendingUnique(a[1..], b[1..]);
      assert a == [a[0]] + a[1..] && b == [b[0]] + b[1..];
    }
  }

  // ---------------------------------------------------------------- value at risk

  function Loss(r: real): real {
    if r < 0.0 then -r else 0.0
  }

  function Rank(n: nat, confidence: real): real {
    (1.0 - confidence) * (n as real - 1.0)
  }

  function Blend(x: real, y: real, fraction: real): real {
    x + fraction * (y - x)
  }

  lemma BlendWithin(x: real, y: real, fraction: real)
    requires x <= y && 0.0 <= fraction <= 1.0
    ensures x <= Blend(x, y, fraction) <= y
  {
    var d := y - x;
    ScaleWithin(fraction, d);
    assert Blend(x, y, fraction) == x + fraction * d;
  }

  /** Interpolate between the order statistics around a rank. */
  function Interpolate(s: seq<real>, rank: real): real
    requires 0.0 <= rank && rank.Floor < |s|
  {
    var lower := rank.Floor;
    var upper := MinInt(lower + 1, |s| - 1);
    Blend(s[lower], s[upper], rank - lower as real)
  }

  lemma RankInRange(n: nat, confidence: real)
    requires n >= 1 && 0.0 <= confidence <= 1.0
    ensures 0.0 <= Rank(n, confidence) <= n as real - 1.0
    ensures 0 <= Rank(n, confidence).Floor < n
  {
    var x := n as real - 1.0;
    ScaleWithin(1.0 - confidence, x);
    assert Rank(n, confidence) == (1.0 - confidence) * x;
    hide Rank;
    FloorWithin(Rank(n, confidence), n);
  }

  lemma FloorWithin(x: real, n: nat)
    requires 0.0 <= x <= n as real - 1.0
    ensures 0 <= x.Floor < n
  {
  }

  lemma ScaleWithin(a: real, x: real)
    requires 0.0 <= a <= 1.0 && x >= 0.0
    ensures 0.0 <= a * x <= x
  {
    assert (1.0 - a) * x >= 0.0;
    assert x == a * x + (1.0 - a) * x;
  }

  /** At a whole rank the percentile is that order statistic. */
  lemma AtWholeRank(s: seq<real>, k: nat)
    requires k < |s|
    ensures (k as real).Floor == k && Interpolate(s, k as real) == s[k]
  {
    var fraction := k as real - k as real;
    assert fraction == 0.0;
  }

  /** Between two ranks the percentile splits the gap between the order statistics in proportion. */
  lemma SplitsTheGap(s: seq<real>, k: nat, rank: real)
    requires k + 1 < |s| && k as real <= rank <= (k + 1) as real
    ensures 0.0 <= rank && rank.Floor < |s|
    ensures Interpolate(s, rank) - s[k] == (rank - k as real) * (s[k + 1] - s[k])
  {
    if rank == (k + 1) as real {
      AtWholeRank(s, k + 1);
      assert rank - k as real == 1.0;
      assert 1.0 * (s[k + 1] - s[k]) == s[k + 1] - s[k];
    } else {
      assert rank.Floor == k;
    }
  }

  function Scale(x: real, v: real): real {
    x * v
  }

  function ValueAtRisk(history: seq<real>, confidence: real, portfolioValue: real): real
    requires 0.0 <= confidence <= 1.0
  {
    if |history| == 0 then 0.0
    else
      SortedSorts(history);
      RankInRange(|history|, confidence);
      Scale(Loss(Interpolate(Sorted(history), Rank(|history|, confidence))), portfolioValue)
  }

  /** The loss of a return: what it falls below zero. */
  lemma LossIs(r: real)
    ensures Loss(r) >= 0.0 && Loss(r) >= -r && (Loss(r) == 0.0 || Loss(r) == -r)
  {
  }

  /**
    Main result: for any ascending arrangement of the returns, value at risk is the portfolio value times the
    loss at the rank (1 - confidence)(n - 1), where the percentile splits the gap between the neighbouring
    order statistics in proportion.
   */
  lemma VarIs(history: seq<real>, s: seq<real>, confidence: real, portfolioValue: real, rank: real, k: nat,
              percentile: real)
    requires Ascending(s) && multiset(s) == multiset(history) && 0.0 <= confidence <= 1.0 && k + 1 < |s|
    requires rank == (1.0 - confidence) * (|s| as real - 1.0) && k as real <= rank <= (k + 1) as real
    requires percentile - s[k] == (rank - k as real) * (s[k + 1] - s[k])
    ensures ValueAtRisk(history, confidence, portfolioValue)
            == (if percentile < 0.0 then -percentile else 0.0) * portfolioValue
  {
    assert |s| == |multiset(s)| == |multiset(history)| == |history|;
    RankIs(|s|, confidence, rank);
    SplitsTheGap(s, k, rank);
    assert Interpolate(s, rank) == percentile;
    hide Sorted, Interpolate, Rank, Ascending, Scale;
    SortedSorts(history);
    AscendingUnique(s, Sorted(history));
    RankInRange(|history|, confidence);
    ScaleIs(Loss(percentile), portfolioValue);
  }

  lemma ScaleIs(x: real, v: real)
    ensures Scale(x, v) == x * v
  {
  }

  lemma RankIs(n: nat, confidence: real, rank: real)
    requires rank == (1.0 - confidence) * (n as real - 1.0)
    ensures Rank(n, confidence) == rank
  {
  }

  /**
    At confidence 1 value at risk is the loss of the worst return, at 0 that of the best; one return
    is its own percentile.
   */
  lemma VarAtTheEnds(history: seq<real>, s: seq<real>, portfolioValue: real)
    requires Ascending(s) && multiset(s) == multiset(history) && |s| > 0
    ensures ValueAtRisk(history, 1.0, portfolioValue) == Loss(s[0]) * portfolioValue
    ensures ValueAtRisk(history, 0.0, portfolioValue) == Loss(s[|s| - 1]) * portfolioValue
    ensures |s| == 1 ==>
              forall c :: 0.0 <= c <= 1.0 ==> ValueAtRisk(history, c, portfolioValue) == Loss(s[0]) * portfolioValue
  {
    assert |s| == |multiset(s)| == |multiset(history)| == |history|;
    SortedSorts(history);
    AscendingUnique(s, Sorted(history));
    var n := |history|;
    assert Rank(n, 1.0) == 0.0 by {
      assert (1.0 - 1.0) * (n as real - 1.0) == 0.0;
    }
    assert Rank(n, 0.0) == (n - 1) as real by {
      assert (1.0 - 0.0) * (n as real - 1.0) == n as real - 1.0;
    }
    AtWholeRank(s, 0);
    AtWholeRank(s, n - 1);
    RankInRange(n, 1.0);
    RankInRange(n, 0.0);
    hide Sorted, Interpolate, Ascending;
    if n == 1 {
      forall c | 0.0 <= c <= 1.0
        ensures ValueAtRisk(history, c, portfolioValue) == Loss(s[0]) * portfolioValue
      {
        RankInRange(1, c);
        assert Rank(1, c) == 0.0;
      }
    }
    hide Rank;
  }

  // ---------------------------------------------------------------- expected shortfall

  function TailLoss(s: seq<real>, n: nat): real
    requires n <= |s|
  {
    if n == 0 then 0.0 else TailLoss(s, n - 1) + Loss(s[n - 1])
  }

  function TailAverage(s: seq<real>, k: nat): real
    requires 1 <= k <= |s|
  {
    TailLoss(s, k) / k as real
  }

  function TailSize(n: nat, confidence: real): int {
    var k := ((1.0 - confidence) * n as real).Floor;
    if k < 1 then 1 else k
  }

  lemma TailInRange(n: nat, confidence: real)
    requires n >= 1 && 0.0 <= confidence <= 1.0
    ensures 1 <= TailSize(n, confidence) <= n
  {
    ScaleWithin(1.0 - confidence, n as real);
  }

  function ExpectedShortfall(history: seq<real>, confidence: real, portfolioValue: real): real
    requires 0.0 <= confidence <= 1.0
  {
    if |history| == 0 then 0.0
    else
      SortedSorts(history);
      TailInRange(|history|, confidence);
      var k := TailSize(|history|, confidence);
      Scale(TailAverage(Sorted(history), k), portfolioValue)
  }

  /** The tail holds as many returns as fit into (1 - confidence) n, but at least one. */
  lemma TailSizeIs(n: nat, confidence: real)
    requires n >= 1 && 0.0 <= confidence <= 1.0
    ensures var k, share := TailSize(n, confidence), (1.0 - confidence) * n as real;
            share < (k + 1) as real && (k as real <= share || (k == 1 && share < 1.0))
  {
    var share := (1.0 - confidence) * n as real;
    ScaleWithin(1.0 - confidence, n as real);
    assert share >= 0.0;
  }

  /** The losses of the tail add up one by one. */
  lemma TailLossIs(s: seq<real>, n: nat)
    requires n < |s|
    ensures TailLoss(s, 0) == 0.0 && TailLoss(s, n + 1) == TailLoss(s, n) + if s[n] < 0.0 then -s[n] else 0.0
  {
  }

  /**
    Main result: for any ascending arrangement of the returns and the number k of returns in the tail, expected
    shortfall times k is the portfolio value times the sum of the k worst losses.
   */
  lemma ShortfallIs(history: seq<real>, s: seq<real>, confidence: real, portfolioValue: real, k: nat)
    requires Ascending(s) && multiset(s) == multiset(history) && 0.0 <= confidence <= 1.0 && 1 <= k <= |s|
    requires FillsTail(|s|, confidence, k)
    ensures Scale(ExpectedShortfall(history, confidence, portfolioValue), k as real)
            == Scale(TailLoss(s, k), portfolioValue)
  {
    hide TailSize, TailAverage, TailLoss, Ascending, Scale, ExpectedShortfall, FillsTail;
    TailSizeExactly(|s|, confidence, k);
    ShortfallIsAverage(history, s, confidence, portfolioValue, k);
    TailAverageTimes(s, k, portfolioValue);
  }

  /** As many as fit into (1 - confidence) n, or one if not even that fits. */
  predicate FillsTail(n: nat, confidence: real, k: nat) {
    var share := (1.0 - confidence) * n as real;
    share < (k + 1) as real && (k as real <= share || k == 1)
  }

  lemma ShortfallIsAverage(history: seq<real>, s: seq<real>, confidence: real, portfolioValue: real, k: nat)
    requires Ascending(s) && multiset(s) == multiset(history) && 0.0 <= confidence <= 1.0 && 1 <= k <= |s|
    requires TailSize(|s|, confidence) == k
    ensures ExpectedShortfall(history, confidence, portfolioValue) == Scale(TailAverage(s, k), portfolioValue)
  {
    hide Sorted, TailSize, TailAverage, Ascending, Scale;
    assert |s| == |multiset(s)| == |multiset(history)| == |history|;
    SortedSorts(history);
    AscendingUnique(s, Sorted(history));
    TailInRange(|history|, confidence);
  }

  lemma TailAverageTimes(s: seq<real>, k: nat, v: real)
    requires 1 <= k <= |s|
    ensures Scale(Scale(TailAverage(s, k), v), k as real) == Scale(TailLoss(s, k), v)
  {
    hide Scale, TailLoss;
    AverageTimes(TailLoss(s, k), k, v);
  }

  lemma TailSizeExactly(n: nat, confidence: real, k: nat)
    requires n >= 1 && 0.0 <= confidence <= 1.0 && k >= 1 && FillsTail(n, confidence, k)
    ensures TailSize(n, confidence) == k
  {
    TailSizeIs(n, confidence);
    ScaleWithin(1.0 - confidence, n as real);
  }

  lemma AverageTimes(total: real, k: nat, v: real)
    requires k >= 1
    ensures Scale(Scale(total / k as real, v), k as real) == Scale(total, v)
  {
    var average, n := total / k as real, k as real;
    QuotientTimes(total, n);
    assert average * v * n == (average * n) * v;
  }

  /** The averaging loop over the tail. */
  method AverageTailLoss(s: seq<real>, k: nat) returns (average: real)
    requires 1 <= k <= |s|
    ensures average == TailAverage(s, k)
  {
    var sum := 0.0;
    for i := 0 to k
      invariant sum == TailLoss(s, i)
    {
      sum := sum + Loss(s[i]);
    }
    average := sum / k as real;
  }

  // ---------------------------------------------------------------- shortfall dominates value at risk

  /** Each tail loss is at least the loss of any later order statistic. */
  lemma {:induction false} TailAtLeast(s: seq<real>, k: nat, i: nat)
    requires Ascending(s) && k <= i + 1 && i < |s|
    ensures TailLoss(s, k) >= Loss(s[i]) * k as real
  {
    if k > 0 {
      TailAtLeast(s, k - 1, i);
      assert Loss(s[k - 1]) >= Loss(s[i]);
      var x, n := Loss(s[i]), k as real - 1.0;
      assert x * k as real == x * n + x;
    }
  }

  /** The last member of the tail is not ranked above the interpolation point. */
  lemma TailBelowRank(n: nat, confidence: real)
    requires n >= 1 && 0.0 <= confidence <= 1.0
    ensures TailSize(n, confidence) - 1 <= Rank(n, confidence).Floor
  {
    var a, x := 1.0 - confidence, n as real;
    RankInRange(n, confidence);
    assert a * x == a * (x - 1.0) + a;
    assert (a * x).Floor <= (a * (x - 1.0) + 1.0).Floor;
  }

  lemma InterpolateAtLeast(s: seq<real>, rank: real)
    requires Ascending(s) && 0.0 <= rank && rank.Floor < |s|
    ensures s[rank.Floor] <= Interpolate(s, rank) <= s[MinInt(rank.Floor + 1, |s| - 1)]
  {
    var lower := rank.Floor;
    var upper := MinInt(lower + 1, |s| - 1);
    BlendWithin(s[lower], s[upper], rank - lower as real);
    hide Blend;
  }

  lemma AverageAtLeast(total: real, k: nat, x: real)
    requires k >= 1 && total >= x * k as real
    ensures total / k as real >= x
  {
    var y := total / k as real;
    assert y * k as real == total;
    assert (y - x) * k as real >= 0.0;
    FactorSign(y - x, k as real);
  }

  lemma ScaleOrder(x: real, y: real, v: real)
    requires x <= y && v >= 0.0
    ensures Scale(x, v) <= Scale(y, v)
  {
    assert (y - x) * v >= 0.0;
    assert y * v == x * v + (y - x) * v;
  }

  /**
    Main result: expected shortfall is at least value at risk, for every list of returns, confidence
    level and value.
   */
  lemma ShortfallAtLeastVar(history: seq<real>, confidence: real, portfolioValue: real)
    requires 0.0 <= confidence <= 1.0 && portfolioValue >= 0.0
    ensures ExpectedShortfall(history, confidence, portfolioValue)
            >= ValueAtRisk(history, confidence, portfolioValue) >= 0.0
  {
    if |history| > 0 {
      hide Rank, TailSize, TailAverage, Interpolate, Sorted, Ascending, Scale;
      var s, n := Sorted(history), |history|;
      SortedSorts(history);
      RankInRange(n, confidence);
      TailInRange(n, confidence);
      TailBelowRank(n, confidence);
      var rank, k := Rank(n, confidence), TailSize(n, confidence);
      InterpolateAtLeast(s, rank);
      TailAverageAtLeast(s, k, rank.Floor);
      var point := Interpolate(s, rank);
      ScaleOrder(Loss(point), TailAverage(s, k), portfolioValue);
      ScaleOrder(0.0, Loss(point), portfolioValue);
      ScaleZero(portfolioValue);
    }
  }

  /** Without returns both measures are zero. */
  lemma NothingWithoutReturns(confidence: real, portfolioValue: real)
    requires 0.0 <= confidence <= 1.0
    ensures ValueAtRisk([], confidence, portfolioValue) == 0.0 == ExpectedShortfall([], confidence, portfolioValue)
  {
  }

  lemma TailAverageAtLeast(s: seq<real>, k: nat, i: nat)
    requires Ascending(s) && 1 <= k <= i + 1 && i < |s|
    ensures TailAverage(s, k) >= Loss(s[i])
  {
    TailAtLeast(s, k, i);
    AverageAtLeast(TailLoss(s, k), k, Loss(s[i]));
  }

  lemma ScaleZero(v: real)
    ensures Scale(0.0, v) == 0.0
  {
  }

  /** Both measures depend on the returns only as a multiset. */
  lemma OrderIsIrrelevant(a: seq<real>, b: seq<real>, confidence: real, portfolioValue: real)
    requires multiset(a) == multiset(b) && 0.0 <= confidence <= 1.0
    ensures ValueAtRisk(a, confidence, portfolioValue) == ValueAtRisk(b, confidence, portfolioValue)
    ensures ExpectedShortfall(a, confidence, portfolioValue) == ExpectedShortfall(b, confidence, portfolioValue)
  {
    assert |a| == |multiset(a)| == |multiset(b)| == |b|;
    SortedSorts(a);
    SortedSorts(b);
    AscendingUnique(Sorted(a), Sorted(b));
    hide Sorted, TailAverage, Interpolate, Rank, TailSize, Scale, Ascending;
  }

  lemma BlendMonotone(x: real, y: real, f: real, g: real)
    requires x <= y && f <= g
    ensures Blend(x, y, f) <= Blend(x, y, g)
  {
    ScaleOrder(f, g, y - x);
  }

  /** The interpolated percentile grows with the rank. */
  lemma InterpolateMonotone(s: seq<real>, low: real, high: real)
    requires Ascending(s) && 0.0 <= low <= high && high.Floor < |s|
    ensures Interpolate(s, low) <= Interpolate(s, high)
  {
    InterpolateAtLeast(s, low);
    InterpolateAtLeast(s, high);
    if low.Floor == high.Floor {
      var lower := low.Floor;
      var upper := MinInt(lower + 1, |s| - 1);
      BlendMonotone(s[lower], s[upper], low - lower as real, high - lower as real);
      hide Blend;
    } else {
      assert low.Floor + 1 <= high.Floor;
      assert s[MinInt(low.Floor + 1, |s| - 1)] <= s[high.Floor];
      hide Interpolate;
    }
  }

  /** Value at risk never falls when the confidence level rises. */
  lemma VarMonotone(history: seq<real>, low: real, high: real, portfolioValue: real)
    requires 0.0 <= low <= high <= 1.0 && portfolioValue >= 0.0
    ensures ValueAtRisk(history, low, portfolioValue) <= ValueAtRisk(history, high, portfolioValue)
  {
    if |history| > 0 {
      var s, n := Sorted(history), |history|;
      SortedSorts(history);
      RankInRange(n, low);
      RankInRange(n, high);
      ScaleOrder(1.0 - high, 1.0 - low, n as real - 1.0);
      assert Rank(n, high) <= Rank(n, low);
      hide Rank, Interpolate, Sorted, Ascending, Scale;
      InterpolateMonotone(s, Rank(n, high), Rank(n, low));
      ScaleOrder(Loss(Interpolate(s, Rank(n, low))), Loss(Interpolate(s, Rank(n, high))), portfolioValue);
    }
  }
}
