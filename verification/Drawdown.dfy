/** The one-pass maximum drawdown of an equity curve. */
module Drawdown {
  import opened Domain
  import opened Arithmetic

  /** The fall from a peak to a value, in percent of the peak. */
  function Drop(peak: real, value: real): real
    requires peak > 0.0
  {
    ((peak - value) / peak) * 100.0
  }

  function PeakOf(curve: seq<real>): real
    requires |curve| > 0
  {
    if |curve| == 1 then curve[0] else MaxReal(PeakOf(curve[..|curve| - 1]), curve[|curve| - 1])
  }

  lemma {:induction false} PeakIsMaximum(curve: seq<real>)
    requires |curve| > 0
    ensures forall i :: 0 <= i < |curve| ==> curve[i] <= PeakOf(curve)
    ensures exists i :: 0 <= i < |curve| && curve[i] == PeakOf(curve)
  {
    if |curve| == 1 {
      assert curve[0] == PeakOf(curve);
    } else {
      var init := curve[..|curve| - 1];
      PeakIsMaximum(init);
      var i :| 0 <= i < |init| && init[i] == PeakOf(init);
      assert curve[i] == init[i];
      assert curve[|curve| - 1] <= PeakOf(curve);
    }
  }

  /** How far a value of the curve lies below the highest value up to it; 0 while nothing was positive. */
  function FallAt(curve: seq<real>, j: nat): real
    requires j < |curve|
  {
    var peak := PeakOf(curve[..j + 1]);
    if peak > 0.0 then Drop(peak, curve[j]) else 0.0
  }

  /** The largest fall below the running peak, at least 0. */
  ghost predicate IsPeakDrawdown(curve: seq<real>, d: real) {
    && d >= 0.0
    && (forall j :: 0 <= j < |curve| ==> FallAt(curve, j) <= d)
    && (d > 0.0 ==> exists j :: 0 <= j < |curve| && FallAt(curve, j) == d)
  }

  /** Some earlier positive value is followed by a value this far below it. */
  ghost predicate FallsBetween(curve: seq<real>, d: real) {
    exists i, j :: 0 <= i <= j < |curve| && curve[i] > 0.0 && Drop(curve[i], curve[j]) == d
  }

  /** The largest fall over all pairs of an earlier and a later value, at least 0. */
  ghost predicate IsPairDrawdown(curve: seq<real>, d: real) {
    && d >= 0.0
    && (forall i, j :: 0 <= i <= j < |curve| && curve[i] > 0.0 ==> Drop(curve[i], curve[j]) <= d)
    && (d > 0.0 ==> FallsBetween(curve, d))
  }

  lemma FallsStay(curve: seq<real>, value: real, j: nat)
    requires j < |curve|
    ensures FallAt(curve + [value], j) == FallAt(curve, j)
  {
    assert (curve + [value])[..j + 1] == curve[..j + 1];
  }

  lemma MaxDrawdownStep(curve: seq<real>, value: real, before: real)
    requires IsPeakDrawdown(curve, before)
    ensures IsPeakDrawdown(curve + [value], MaxReal(before, FallAt(curve + [value], |curve|)))
  {
    var all := curve + [value];
    var after := MaxReal(before, FallAt(all, |curve|));
    hide FallAt;
    forall j | 0 <= j < |all|
      ensures FallAt(all, j) <= after
    {
      if j < |curve| {
        FallsStay(curve, value, j);
      }
    }
    if after > 0.0 && after == before {
      var j :| 0 <= j < |curve| && FallAt(curve, j) == before;
      FallsStay(curve, value, j);
    }
  }

  lemma DrawdownNonNegative(curve: seq<real>, d: real)
    requires IsPeakDrawdown(curve, d)
    ensures d >= 0.0
  {
  }

  method MaxDrawdownPct(curve: seq<real>) returns (maxDrawdown: real)
    ensures IsPeakDrawdown(curve, maxDrawdown)
  {
    if |curve| == 0 {
      return 0.0;
    }
    var peak := curve[0];
    maxDrawdown := 0.0;
    for i := 0 to |curve|
      invariant i == 0 ==> peak == curve[0]
      invariant i > 0 ==> peak == PeakOf(curve[..i])
      invariant IsPeakDrawdown(curve[..i], maxDrawdown)
    {
      var value := curve[i];
      ghost var before := maxDrawdown;
      assert curve[..i + 1][..i] == curve[..i] && curve[..i + 1] == curve[..i] + [value];
      hide Drop, IsPeakDrawdown;
      peak := MaxReal(peak, value);
      assert peak == PeakOf(curve[..i + 1]) && curve[..i + 1][..i + 1] == curve[..i + 1];
      if peak > 0.0 {
        maxDrawdown := MaxReal(maxDrawdown, Drop(peak, value));
      }
      MaxDrawdownStep(curve[..i], value, before);
      DrawdownNonNegative(curve[..i], before);
    }
    assert curve[..|curve|] == curve;
  }

  lemma QuotientIs(a: real, z: real, p: real)
    requires p != 0.0 && a == z * p
    ensures a / p == z
  {
  }

  lemma QuotientAntitone(v: real, a: real, b: real)
    requires v >= 0.0 && 0.0 < a <= b
    ensures v / a >= v / b
  {
    var x, y := v / a, v / b;
    assert x * a == v && y * b == v && x >= 0.0;
    assert x * (b - a) >= 0.0;
    assert (x - y) * b == x * (b - a) + (x * a - y * b);
    FactorSign(x - y, b);
  }

  lemma DropAsRatio(peak: real, value: real)
    requires peak > 0.0
    ensures Drop(peak, value) == (1.0 - value / peak) * 100.0
  {
    var x := value / peak;
    assert x * peak == value;
    assert (1.0 - x) * peak == peak - value;
    QuotientIs(peak - value, 1.0 - x, peak);
  }

  /** From a higher peak, the fall to a value that is not negative is larger; it lies between 0 and 100. */
  lemma DropMonotone(a: real, b: real, value: real)
    requires 0.0 < a <= b && value >= 0.0
    ensures Drop(a, value) <= Drop(b, value) <= 100.0
  {
    DropAsRatio(a, value);
    DropAsRatio(b, value);
    QuotientAntitone(value, a, b);
    assert value / b >= 0.0;
    hide Drop;
  }

  /**
    Main result: on a curve that is never negative the one-pass drawdown is the largest fall over
    all pairs of an earlier and a later value, and lies in [0, 100].
   */
  lemma OnePassIsPairwise(curve: seq<real>, d: real)
    requires forall i :: 0 <= i < |curve| ==> curve[i] >= 0.0
    requires IsPeakDrawdown(curve, d)
    ensures IsPairDrawdown(curve, d) && 0.0 <= d <= 100.0
  {
    forall i, j | 0 <= i <= j < |curve| && curve[i] > 0.0
      ensures Drop(curve[i], curve[j]) <= d
    {
      PeakIsMaximum(curve[..j + 1]);
      assert curve[..j + 1][i] == curve[i];
      DropMonotone(curve[i], PeakOf(curve[..j + 1]), curve[j]);
      assert FallAt(curve, j) <= d;
    }
    hide Drop;
    if d > 0.0 {
      var j :| 0 <= j < |curve| && FallAt(curve, j) == d;
      PeakIsMaximum(curve[..j + 1]);
      var i :| 0 <= i < |curve[..j + 1]| && curve[..j + 1][i] == PeakOf(curve[..j + 1]);
      assert curve[i] > 0.0 && Drop(curve[i], curve[j]) == d;
      DropMonotone(curve[i], curve[i], curve[j]);
    }
  }

  /** The sign condition is needed: with a negative value an earlier, lower peak can give the larger percentage. */
  lemma NegativeCurveDiffers()
    ensures IsPeakDrawdown([1.0, 2.0, -1.0], 150.0) && !IsPairDrawdown([1.0, 2.0, -1.0], 150.0)
  {
    var curve := [1.0, 2.0, -1.0];
    assert curve[..1] == [1.0] && curve[..2] == [1.0, 2.0] && curve[..3] == curve;
    assert [1.0, 2.0][..1] == [1.0];
    assert PeakOf(curve[..1]) == 1.0 && PeakOf(curve[..2]) == 2.0 && PeakOf(curve[..3]) == 2.0;
    assert Drop(2.0, -1.0) == 150.0 && Drop(1.0, 1.0) == 0.0 && Drop(2.0, 2.0) == 0.0;
    assert FallAt(curve, 0) == 0.0 && FallAt(curve, 1) == 0.0 && FallAt(curve, 2) == 150.0;
    assert curve[0] > 0.0 && Drop(curve[0], curve[2]) == 200.0;
  }
}
