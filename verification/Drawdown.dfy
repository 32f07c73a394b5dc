/** Equity curves: drawdown from the running peak, and what reordering the trades can change. */
module Drawdown {
  import opened Core

  // ----- Drawdown from the running peak -----

  function Peak(curve: seq<real>): (p: real)
    requires |curve| > 0
    ensures p in curve && forall i :: 0 <= i < |curve| ==> curve[i] <= p
  {
    var last := curve[|curve| - 1];
    if |curve| == 1 then last
    else
      var init := curve[..|curve| - 1];
      assert forall i :: 0 <= i < |init| ==> curve[i] == init[i];
      Max(Peak(init), last)
  }

  /** Share of the positive level `high` lost at `low`. */
  function Drop(high: real, low: real): real { if high > 0.0 then (high - low) / high else 0.0 }

  function DropAt(curve: seq<real>, j: int): real
    requires 0 <= j < |curve|
  {
    Drop(Peak(curve[..j + 1]), curve[j])
  }

  function DeepestOf(curve: seq<real>, n: nat): (d: real)
    requires 0 < n <= |curve|
    ensures exists j :: 0 <= j < n && d == DropAt(curve, j)
    ensures forall j :: 0 <= j < n ==> DropAt(curve, j) <= d
  {
    if n == 1 then DropAt(curve, 0) else Max(DeepestOf(curve, n - 1), DropAt(curve, n - 1))
  }

  function MaxDrawdown(curve: seq<real>): real {
    if |curve| < 2 then 0.0 else DeepestOf(curve, |curve|)
  }

  lemma DropKeeps(high: real, low: real)
    requires high > 0.0
    ensures Drop(high, low) == 1.0 - low / high
  {
    var q, d := low / high, (high - low) / high;
    assert q * high == low && d * high == high - low;
    assert (d + q - 1.0) * high == d * high + q * high - high;
    Cancel(d + q - 1.0, high);
  }

  lemma Cancel(x: real, y: real)
    requires y > 0.0 && x * y == 0.0
    ensures x == 0.0
  {
  }

  /** From a higher peak the same level is a deeper drop, as long as equity is not negative. */
  lemma DropIsMonotone(high: real, peak: real, low: real)
    requires 0.0 < high <= peak && low >= 0.0
    ensures Drop(high, low) <= Drop(peak, low)
  {
    DropKeeps(high, low);
    DropKeeps(peak, low);
    QuotientFalls(low, high, peak);
  }

  lemma SignOf(x: real, y: real)
    requires y > 0.0 && x * y >= 0.0
    ensures x >= 0.0
  {
  }

  lemma QuotientFalls(low: real, high: real, peak: real)
    requires 0.0 < high <= peak && low >= 0.0
    ensures low / peak <= low / high
  {
    var q, r := low / high, low / peak;
    assert q * high == low && r * peak == low && q >= 0.0;
    ScaleLe(high, peak, q);
    var gap := q - r;
    assert gap * peak == q * peak - r * peak;
    SignOf(gap, peak);
  }

  /** The peak up to a point is one of the values up to it. */
  lemma PeakIsEarlier(curve: seq<real>, j: int) returns (i: int)
    requires 0 <= j < |curve|
    ensures 0 <= i <= j && curve[i] == Peak(curve[..j + 1])
  {
    i :| 0 <= i < |curve[..j + 1]| && curve[..j + 1][i] == Peak(curve[..j + 1]);
  }

  /** On curves that never go below zero the running-peak drawdown is at least the drop over any pair of points ... */
  lemma NoPairDropsMore(curve: seq<real>, i: int, j: int)
    requires 0 <= i <= j < |curve| && |curve| >= 2 && curve[j] >= 0.0
    ensures Drop(curve[i], curve[j]) <= MaxDrawdown(curve)
  {
    assert curve[..j + 1][i] == curve[i] && curve[..j + 1][j] == curve[j];
    var peak := Peak(curve[..j + 1]);
    assert DropAt(curve, j) <= MaxDrawdown(curve);
    if curve[i] > 0.0 {
      DropIsMonotone(curve[i], peak, curve[j]);
    } else if peak > 0.0 {
      DropIsNotNegative(peak, curve[j]);
    }
  }

  lemma DropIsNotNegative(peak: real, low: real)
    requires peak > 0.0 && low <= peak
    ensures Drop(peak, low) >= 0.0
  {
  }

  /** ... and some pair attains it, on every curve. */
  lemma SomePairDropsThat(curve: seq<real>) returns (i: int, j: int)
    requires |curve| >= 2
    ensures 0 <= i <= j < |curve| && Drop(curve[i], curve[j]) == MaxDrawdown(curve) && curve[i] >= curve[0]
  {
    j :| 0 <= j < |curve| && MaxDrawdown(curve) == DropAt(curve, j);
    i := PeakIsEarlier(curve, j);
    assert curve[..j + 1][0] == curve[0];
  }

  /** Below zero it is the other way round: the same level is a strictly deeper drop from a lower start. */
  lemma DropBelowZero(high: real, peak: real, low: real)
    requires 0.0 < high < peak && low < 0.0
    ensures Drop(high, low) > Drop(peak, low)
  {
    DropKeeps(high, low);
    DropKeeps(peak, low);
    var q, r := low / high, low / peak;
    assert q * high == low && r * peak == low;
    FlatterBelowZero(q, r, high, peak, low);
  }

  lemma FlatterBelowZero(q: real, r: real, high: real, peak: real, low: real)
    requires 0.0 < high < peak && low < 0.0 && q * high == low && r * peak == low
    ensures q < r
  {
    Negative(q, high);
    NegativeScales(q, high, peak);
    ScalesBack(q, r, peak);
  }

  lemma Negative(x: real, y: real)
    requires y > 0.0 && x * y < 0.0
    ensures x < 0.0
  {
  }

  lemma NegativeScales(k: real, x: real, y: real)
    requires k < 0.0 && x < y
    ensures k * y < k * x
  {
    var gap := y - x;
    assert k * gap < 0.0;
    assert k * gap == k * y - k * x;
  }

  lemma ScalesBack(x: real, y: real, k: real)
    requires k > 0.0 && x * k < y * k
    ensures x < y
  {
    if y <= x {
      ScaleLe(y, x, k);
    }
  }

  predicate PairIsCovered(curve: seq<real>, i: int, j: int)
    requires 0 <= i <= j < |curve|
  {
    Drop(curve[i], curve[j]) <= DropAt(curve, j)
  }

  /** What a pair must meet: it ends at or above zero, or starts at nothing or at the peak. */
  predicate PairFits(curve: seq<real>, i: int, j: int)
    requires 0 <= i <= j < |curve|
  {
    curve[j] >= 0.0 || curve[i] <= 0.0 || curve[i] == Peak(curve[..j + 1])
  }

  lemma CoveredIffFits(curve: seq<real>, i: int, j: int)
    requires 0 <= i <= j < |curve|
    ensures PairIsCovered(curve, i, j) <==> PairFits(curve, i, j)
  {
    assert curve[..j + 1][i] == curve[i] && curve[..j + 1][j] == curve[j];
    var peak := Peak(curve[..j + 1]);
    if curve[i] <= 0.0 {
      if peak > 0.0 {
        DropIsNotNegative(peak, curve[j]);
      }
    } else if curve[j] >= 0.0 {
      DropIsMonotone(curve[i], peak, curve[j]);
    } else if curve[i] < peak {
      DropBelowZero(curve[i], peak, curve[j]);
    }
  }

  /** At every point the drop from the running peak is the deepest one exactly when no negative point has, before it, two
      different positive levels. */
  lemma PointDrawdownIsDeepest(curve: seq<real>)
    ensures (forall i, j :: 0 <= i <= j < |curve| ==> PairIsCovered(curve, i, j))
       <==> (forall i, j :: 0 <= i <= j < |curve| ==> PairFits(curve, i, j))
  {
    forall i, j | 0 <= i <= j < |curve| ensures PairIsCovered(curve, i, j) <==> PairFits(curve, i, j) {
      CoveredIffFits(curve, i, j);
    }
  }

  /** The least positive level, or zero if there is none. */
  function LowestPositive(curve: seq<real>): (p: real)
    ensures p >= 0.0 && (p > 0.0 ==> p in curve)
    ensures forall i :: 0 <= i < |curve| && curve[i] > 0.0 ==> 0.0 < p <= curve[i]
  {
    if |curve| == 0 then 0.0
    else
      var init, last := curve[..|curve| - 1], curve[|curve| - 1];
      var p := LowestPositive(init);
      assert forall i :: 0 <= i < |init| ==> curve[i] == init[i];
      if last > 0.0 && (p == 0.0 || last < p) then last else p
  }

  /** A negative point's drop from the lowest positive level before it does not pass the reported drawdown. */
  predicate PointFits(curve: seq<real>, j: int)
    requires 0 <= j < |curve|
  {
    curve[j] < 0.0 ==> Drop(LowestPositive(curve[..j + 1]), curve[j]) <= MaxDrawdown(curve)
  }

  predicate PairWithin(curve: seq<real>, i: int, j: int)
    requires 0 <= i <= j < |curve|
  {
    Drop(curve[i], curve[j]) <= MaxDrawdown(curve)
  }

  lemma PairsFollowPoints(curve: seq<real>)
    requires |curve| >= 2
    ensures (forall i, j :: 0 <= i <= j < |curve| ==> PairWithin(curve, i, j))
       <==> (forall j :: 0 <= j < |curve| ==> PointFits(curve, j))
  {
    DrawdownIsNotNegative(curve);
    if forall i, j :: 0 <= i <= j < |curve| ==> PairWithin(curve, i, j) {
      forall j | 0 <= j < |curve| ensures PointFits(curve, j) {
        var lowest := LowestPositive(curve[..j + 1]);
        if lowest > 0.0 {
          var i :| 0 <= i < |curve[..j + 1]| && curve[..j + 1][i] == lowest;
          assert PairWithin(curve, i, j);
        }
      }
    }
    if forall j :: 0 <= j < |curve| ==> PointFits(curve, j) {
      forall i, j | 0 <= i <= j < |curve| ensures PairWithin(curve, i, j) {
        assert PointFits(curve, j);
        PairFollowsPoint(curve, i, j);
      }
    }
  }

  lemma PairFollowsPoint(curve: seq<real>, i: int, j: int)
    requires 0 <= i <= j < |curve| && |curve| >= 2 && PointFits(curve, j) && MaxDrawdown(curve) >= 0.0
    ensures PairWithin(curve, i, j)
  {
    assert curve[..j + 1][i] == curve[i];
    var lowest := LowestPositive(curve[..j + 1]);
    if curve[j] >= 0.0 {
      NoPairDropsMore(curve, i, j);
    } else if 0.0 < lowest < curve[i] {
      DropBelowZero(lowest, curve[i], curve[j]);
    }
  }

  /** A negative point that some positive level precedes. */
  predicate Sunk(curve: seq<real>, j: int)
    requires 0 <= j < |curve|
  {
    curve[j] < 0.0 && LowestPositive(curve[..j + 1]) > 0.0
  }

  /** Its drop from the least positive level before it. */
  function SteepestDrop(curve: seq<real>, j: int): real
    requires 0 <= j < |curve|
  {
    Drop(LowestPositive(curve[..j + 1]), curve[j])
  }

  /** A sunk point before which all positive levels are one, and that drops from it at least as steeply as any sunk point. */
  predicate Deepest(curve: seq<real>, k: int)
    requires 0 <= k < |curve|
  {
    && Sunk(curve, k)
    && LowestPositive(curve[..k + 1]) == Peak(curve[..k + 1])
    && forall j :: 0 <= j < |curve| && Sunk(curve, j) ==> SteepestDrop(curve, j) <= SteepestDrop(curve, k)
  }

  lemma SunkDropsMoreThanAll(curve: seq<real>, j: int)
    requires 0 <= j < |curve| && Sunk(curve, j)
    ensures SteepestDrop(curve, j) > 1.0
  {
    DropPastZero(LowestPositive(curve[..j + 1]), curve[j]);
  }

  /** A drop takes more than everything exactly when it ends below zero. */
  lemma DropPastZero(high: real, low: real)
    requires high > 0.0
    ensures Drop(high, low) > 1.0 <==> low < 0.0
  {
    DropKeeps(high, low);
    var q := low / high;
    assert q * high == low;
    if low < 0.0 {
      Negative(q, high);
    } else {
      SignOf(q, high);
    }
  }

  lemma LowestIsPeak(lowest: real, peak: real, low: real)
    requires 0.0 < lowest <= peak && Drop(peak, low) > 1.0 && Drop(lowest, low) <= Drop(peak, low)
    ensures low < 0.0 && lowest == peak
  {
    DropPastZero(peak, low);
    if lowest < peak {
      DropBelowZero(lowest, peak, low);
    }
  }

  lemma LowestIsPositive(curve: seq<real>, k: int) returns (lowest: real, peak: real)
    requires 0 <= k < |curve| && Peak(curve[..k + 1]) > 0.0
    ensures lowest == LowestPositive(curve[..k + 1]) && peak == Peak(curve[..k + 1]) && 0.0 < lowest <= peak
  {
    lowest, peak := LowestPositive(curve[..k + 1]), Peak(curve[..k + 1]);
    var i := PeakIsEarlier(curve, k);
    assert curve[..k + 1][i] == peak;
  }

  /** Where every point fits and some point is sunk, the point that the reported drawdown comes from is the deepest. */
  lemma ReportedPointIsDeepest(curve: seq<real>, j: int, k: int)
    requires 0 <= j < |curve| && 0 <= k < |curve| && |curve| >= 2 && Sunk(curve, j)
    requires (forall i :: 0 <= i < |curve| ==> PointFits(curve, i)) && DropAt(curve, k) == MaxDrawdown(curve)
    ensures Deepest(curve, k)
  {
    SunkDropsMoreThanAll(curve, j);
    assert PointFits(curve, j) && MaxDrawdown(curve) > 1.0;
    var lowest, peak := LowestIsPositive(curve, k);
    DropPastZero(peak, curve[k]);
    assert PointFits(curve, k);
    LowestIsPeak(lowest, peak, curve[k]);
    forall i | 0 <= i < |curve| && Sunk(curve, i) ensures SteepestDrop(curve, i) <= SteepestDrop(curve, k) {
      assert PointFits(curve, i);
    }
  }

  lemma UnsunkFits(curve: seq<real>, j: int)
    requires 0 <= j < |curve| && !Sunk(curve, j) && MaxDrawdown(curve) >= 0.0
    ensures PointFits(curve, j)
  {
  }

  lemma FitsBelowDeepest(curve: seq<real>, j: int, k: int)
    requires 0 <= j < |curve| && 0 <= k < |curve| && |curve| >= 2 && Deepest(curve, k) && MaxDrawdown(curve) >= 0.0
    ensures PointFits(curve, j)
  {
    if Sunk(curve, j) {
      var at := DropAt(curve, k);
      assert SteepestDrop(curve, j) <= SteepestDrop(curve, k) == at <= MaxDrawdown(curve);
    } else {
      UnsunkFits(curve, j);
    }
  }

  predicate NoneSunk(curve: seq<real>) { forall j :: 0 <= j < |curve| ==> !Sunk(curve, j) }

  lemma PointsFollowDeepest(curve: seq<real>)
    requires |curve| >= 2
    ensures (forall j :: 0 <= j < |curve| ==> PointFits(curve, j))
       <==> NoneSunk(curve) || exists k :: 0 <= k < |curve| && Deepest(curve, k)
  {
    DrawdownIsNotNegative(curve);
    if NoneSunk(curve) {
      forall j | 0 <= j < |curve| ensures PointFits(curve, j) {
        UnsunkFits(curve, j);
      }
    } else if k :| 0 <= k < |curve| && Deepest(curve, k) {
      forall j | 0 <= j < |curve| ensures PointFits(curve, j) {
        FitsBelowDeepest(curve, j, k);
      }
    } else if forall j :: 0 <= j < |curve| ==> PointFits(curve, j) {
      var j :| 0 <= j < |curve| && Sunk(curve, j);
      var k :| 0 <= k < |curve| && MaxDrawdown(curve) == DropAt(curve, k);
      ReportedPointIsDeepest(curve, j, k);
    }
  }

  /** The reported drawdown is the maximum over all pairs of points exactly when no point is sunk, as on every curve that
      never goes below zero, or one sunk point is the deepest. */
  lemma MaxDrawdownIsDeepest(curve: seq<real>)
    requires |curve| >= 2
    ensures (forall i, j :: 0 <= i <= j < |curve| ==> PairWithin(curve, i, j))
       <==> NoneSunk(curve) || exists k :: 0 <= k < |curve| && Deepest(curve, k)
  {
    PairsFollowPoints(curve);
    PointsFollowDeepest(curve);
  }

  /** Curves that fail it exist: from 2 to -1 is 150%, from 1 to -1 is 200%. */
  lemma NegativeEquityDropsMore()
    ensures var curve := [1.0, 2.0, -1.0]; Drop(curve[0], curve[2]) > MaxDrawdown(curve)
  {
    var curve := [1.0, 2.0, -1.0];
    assert curve[..1] == [1.0] && curve[..2] == [1.0, 2.0] && curve[..3] == curve;
    assert Peak([1.0]) == 1.0 && Peak([1.0, 2.0]) == 2.0 && Peak(curve) == 2.0;
  }

  // ----- Equity curves of trades -----

  /** Equity before and after every trade. */
  function Curve(initial: real, pnls: seq<real>): (curve: seq<real>)
    ensures |curve| == |pnls| + 1
  {
    if |pnls| == 0 then [initial] else Curve(initial, pnls[..|pnls| - 1]) + [initial + Sum(pnls)]
  }

  lemma {:induction false} CurveAt(initial: real, pnls: seq<real>, j: int)
    requires 0 <= j <= |pnls|
    ensures Curve(initial, pnls)[j] == initial + Sum(pnls[..j])
  {
    if j == |pnls| {
      assert pnls[..j] == pnls;
    } else {
      CurveAt(initial, pnls[..|pnls| - 1], j);
      assert pnls[..|pnls| - 1][..j] == pnls[..j];
    }
  }

  /** The loop that builds the curve. */
  method EquityCurve(initial: real, pnls: seq<real>) returns (curve: seq<real>)
    ensures curve == Curve(initial, pnls)
  {
    var equity := initial;
    curve := [equity];
    for k := 0 to |pnls|
      invariant curve == Curve(initial, pnls[..k]) && equity == initial + Sum(pnls[..k])
    {
      assert pnls[..k + 1] == pnls[..k] + [pnls[k]] && pnls[..k + 1][..k] == pnls[..k];
      SumAppend(pnls[..k], pnls[k]);
      equity := equity + pnls[k];
      curve := curve + [equity];
    }
    assert pnls[..|pnls|] == pnls;
  }

  // ----- Reordering trades -----

  function SumBy(xs: seq<real>, weight: real -> real): real {
    if |xs| == 0 then 0.0 else SumBy(xs[..|xs| - 1], weight) + weight(xs[|xs| - 1])
  }

  function Same(x: real): real { x }

  function LossOf(pnl: real): real { if pnl < 0.0 then -pnl else 0.0 }

  function GrossLoss(pnls: seq<real>): real { SumBy(pnls, LossOf) }

  lemma {:induction false} SumBySame(xs: seq<real>)
    ensures SumBy(xs, Same) == Sum(xs)
  {
    if |xs| > 0 {
      SumBySame(xs[..|xs| - 1]);
    }
  }

  lemma {:induction false} SumByAround(before: seq<real>, x: real, after: seq<real>, weight: real -> real)
    ensures SumBy(before + [x] + after, weight) == SumBy(before + after, weight) + weight(x)
  {
    if |after| == 0 {
      assert before + [x] + after == before + [x] && before + after == before;
      assert (before + [x])[..|before|] == before;
    } else {
      var n := |after| - 1;
      SumByAround(before, x, after[..n], weight);
      assert (before + [x] + after)[..|before + [x] + after| - 1] == before + [x] + after[..n];
      assert (before + after)[..|before + after| - 1] == before + after[..n];
    }
  }

  /** The last of `xs` is somewhere in `ys`; without it the rest is still the same. */
  lemma TakesOne(xs: seq<real>, ys: seq<real>) returns (before: seq<real>, after: seq<real>)
    requires multiset(xs) == multiset(ys) && |xs| > 0
    ensures ys == before + [xs[|xs| - 1]] + after && multiset(xs[..|xs| - 1]) == multiset(before + after)
  {
    var n := |xs| - 1;
    assert xs == xs[..n] + [xs[n]];
    assert xs[n] in multiset(ys);
    var k :| 0 <= k < |ys| && ys[k] == xs[n];
    before, after := ys[..k], ys[k + 1..];
    assert ys == before + [xs[n]] + after;
    assert multiset(before + after) == multiset(ys) - multiset{xs[n]};
    assert multiset(xs[..n]) == multiset(xs) - multiset{xs[n]};
  }

  /** Sums do not depend on order. */
  lemma {:induction false} SumByPermutation(xs: seq<real>, ys: seq<real>, weight: real -> real)
    requires multiset(xs) == multiset(ys)
    ensures SumBy(xs, weight) == SumBy(ys, weight)
  {
    if |xs| == 0 {
      assert |multiset(ys)| == |ys| == |multiset(xs)|;
    } else {
      var before, after := TakesOne(xs, ys);
      SumByPermutation(xs[..|xs| - 1], before + after, weight);
      SumByAround(before, xs[|xs| - 1], after, weight);
    }
  }

  /** Every order of the same trades ends at the same equity. */
  lemma FinalEquityIgnoresOrder(initial: real, pnls: seq<real>, shuffled: seq<real>)
    requires multiset(pnls) == multiset(shuffled)
    ensures Curve(initial, shuffled)[|shuffled|] == Curve(initial, pnls)[|pnls|] == initial + Sum(pnls)
  {
    SumByPermutation(pnls, shuffled, Same);
    SumBySame(pnls);
    SumBySame(shuffled);
    CurveAt(initial, pnls, |pnls|);
    CurveAt(initial, shuffled, |shuffled|);
    assert pnls[..|pnls|] == pnls && shuffled[..|shuffled|] == shuffled;
  }

  lemma {:induction false} LossesOnlyGrow(pnls: seq<real>, j: int)
    requires 0 <= j <= |pnls|
    ensures 0.0 <= GrossLoss(pnls[..j]) <= GrossLoss(pnls)
  {
    if j == |pnls| {
      assert pnls[..j] == pnls;
      if j > 0 {
        LossesOnlyGrow(pnls[..j - 1], j - 1);
        assert pnls[..j - 1][..j - 1] == pnls[..j - 1];
      }
    } else {
      var init := pnls[..|pnls| - 1];
      LossesOnlyGrow(init, j);
      assert init[..j] == pnls[..j];
    }
  }

  /** Between two points no more is lost than all losses together. */
  lemma {:induction false} LossBetween(pnls: seq<real>, i: int, j: int)
    requires 0 <= i <= j <= |pnls|
    ensures Sum(pnls[..i]) - Sum(pnls[..j]) <= GrossLoss(pnls)
    decreases j
  {
    LossesOnlyGrow(pnls, j);
    if i < j {
      var init := pnls[..j - 1];
      LossBetween(init, i, j - 1);
      assert init[..i] == pnls[..i] && init[..j - 1] == init;
      assert pnls[..j][..j - 1] == init;
    }
  }

  function Share(part: real, whole: real): real
    requires whole > 0.0
  {
    part / whole
  }

  /** No order of the trades draws down more than the gross loss over the initial equity. */
  lemma DrawdownIsBounded(initial: real, pnls: seq<real>, shuffled: seq<real>)
    requires initial > 0.0 && multiset(pnls) == multiset(shuffled)
    ensures 0.0 <= MaxDrawdown(Curve(initial, shuffled)) <= Share(GrossLoss(pnls), initial)
  {
    SumByPermutation(pnls, shuffled, LossOf);
    var curve := Curve(initial, shuffled);
    CurveAt(initial, shuffled, 0);
    if |curve| >= 2 {
      var i, j := SomePairDropsThat(curve);
      CurveAt(initial, shuffled, i);
      CurveAt(initial, shuffled, j);
      LossBetween(shuffled, i, j);
      LossesOnlyGrow(shuffled, 0);
      DropIsBounded(initial, curve[i], curve[j], GrossLoss(shuffled));
      DrawdownIsNotNegative(curve);
    } else {
      assert Share(GrossLoss(pnls), initial) == 0.0;
    }
  }

  lemma DrawdownIsNotNegative(curve: seq<real>)
    requires |curve| >= 2
    ensures MaxDrawdown(curve) >= 0.0
  {
    assert curve[..1] == [curve[0]] && Peak([curve[0]]) == curve[0];
    assert DropAt(curve, 0) == 0.0;
  }

  lemma DropIsBounded(initial: real, high: real, low: real, gross: real)
    requires 0.0 < initial <= high && high - low <= gross && gross >= 0.0
    ensures Drop(high, low) <= Share(gross, initial)
  {
    QuotientFalls(gross, initial, high);
    assert (gross - (high - low)) / high >= 0.0;
    assert gross / high - (high - low) / high == (gross - (high - low)) / high;
  }

  // ----- The Monte Carlo simulation -----

  function TotalReturn(initial: real, final: real): real
    requires initial != 0.0
  {
    (final - initial) / initial
  }

  lemma ReturnSign(initial: real, sum: real)
    requires initial > 0.0
    ensures TotalReturn(initial, initial + sum) > 0.0 <==> sum > 0.0
  {
    assert TotalReturn(initial, initial + sum) * initial == sum;
  }

  /** A path's results: the return all orders share, and its own drawdown, within the bound all orders share. */
  predicate IsPath(pnls: seq<real>, initial: real, shuffled: seq<real>, totalReturn: real, drawdown: real)
    requires initial > 0.0
  {
    && totalReturn == TotalReturn(initial, initial + Sum(pnls))
    && drawdown == MaxDrawdown(Curve(initial, shuffled))
    && 0.0 <= drawdown <= Share(GrossLoss(pnls), initial)
  }

  method SimulateOne(pnls: seq<real>, initial: real, shuffled: seq<real>) returns (totalReturn: real, drawdown: real)
    requires initial > 0.0 && multiset(shuffled) == multiset(pnls)
    ensures IsPath(pnls, initial, shuffled, totalReturn, drawdown)
  {
    FinalEquityIgnoresOrder(initial, pnls, shuffled);
    DrawdownIsBounded(initial, pnls, shuffled);
    var curve := Curve(initial, shuffled);
    totalReturn, drawdown := TotalReturn(initial, curve[|curve| - 1]), MaxDrawdown(curve);
  }

  /** How many returns are profits. */
  function Profits(results: seq<real>): nat {
    if |results| == 0 then 0 else Profits(results[..|results| - 1]) + if results[|results| - 1] > 0.0 then 1 else 0
  }

  lemma {:induction false} AllOrNone(results: seq<real>, r: real)
    requires forall i :: 0 <= i < |results| ==> results[i] == r
    ensures Profits(results) == if r > 0.0 then |results| else 0
  {
    if |results| > 0 {
      AllOrNone(results[..|results| - 1], r);
    }
  }

  /** Returns and drawdowns of every shuffle; `shuffles` are what the random generator drew. */
  method Shuffle(pnls: seq<real>, initial: real, shuffles: seq<seq<real>>)
    returns (totalReturns: array<real>, maxDrawdowns: array<real>)
    requires initial > 0.0 && |pnls| > 0
    requires forall i :: 0 <= i < |shuffles| ==> multiset(shuffles[i]) == multiset(pnls)
    ensures totalReturns.Length == maxDrawdowns.Length == |shuffles|
    ensures forall i :: 0 <= i < |shuffles| ==> IsPath(pnls, initial, shuffles[i], totalReturns[i], maxDrawdowns[i])
  {
    totalReturns, maxDrawdowns := new real[|shuffles|], new real[|shuffles|];
    for i := 0 to |shuffles|
      invariant forall k :: 0 <= k < i ==> IsPath(pnls, initial, shuffles[k], totalReturns[k], maxDrawdowns[k])
    {
      var totalReturn, drawdown := SimulateOne(pnls, initial, shuffles[i]);
      totalReturns[i] := totalReturn;
      maxDrawdowns[i] := drawdown;
    }
  }

  function Fraction(n: nat, m: nat): real
    requires m > 0
  {
    n as real / m as real
  }

  lemma AllAndNone(m: nat)
    requires m > 0
    ensures Fraction(m, m) == 1.0 && Fraction(0, m) == 0.0
  {
    var x := m as real;
    assert x / x == 1.0;
  }

  /** The probability of profit is one when the trades sum to a profit and zero otherwise: shuffling cannot change it. */
  lemma ProfitIsCertain(pnls: seq<real>, initial: real, results: seq<real>)
    requires initial > 0.0 && |results| > 0
    requires forall i :: 0 <= i < |results| ==> results[i] == TotalReturn(initial, initial + Sum(pnls))
    ensures Fraction(Profits(results), |results|) == if Sum(pnls) > 0.0 then 1.0 else 0.0
  {
    AllOrNone(results, TotalReturn(initial, initial + Sum(pnls)));
    ReturnSign(initial, Sum(pnls));
    AllAndNone(|results|);
  }

  method ProfitProbability(pnls: seq<real>, initial: real, shuffles: seq<seq<real>>) returns (p: real)
    requires initial > 0.0 && |pnls| > 0 && |shuffles| > 0
    requires forall i :: 0 <= i < |shuffles| ==> multiset(shuffles[i]) == multiset(pnls)
    ensures p == if Sum(pnls) > 0.0 then 1.0 else 0.0
  {
    var totalReturns, maxDrawdowns := Shuffle(pnls, initial, shuffles);
    var results := totalReturns[..];
    forall i | 0 <= i < |results| ensures results[i] == TotalReturn(initial, initial + Sum(pnls)) {
      assert IsPath(pnls, initial, shuffles[i], totalReturns[i], maxDrawdowns[i]);
    }
    ProfitIsCertain(pnls, initial, results);
    p := Fraction(Profits(results), |results|);
  }
}
