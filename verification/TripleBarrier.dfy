/** Triple-barrier labels: is an upward target touched before a downward stop? */
module TripleBarrier {
  import opened Core
  import opened Bars

  /** Bars with their 14-bar ATR; a row without a finite ATR gets no label. */
  datatype Rows = Rows(bars: seq<Bar>, atr: seq<Option<real>>) {
    predicate Shaped() { |atr| == |bars| }
  }

  datatype Band = Band(upper: real, lower: real)

  function Reach(multiple: real, atr: real): real { multiple * atr }

  lemma ReachGrows(m: real, m': real, atr: real)
    requires m <= m' && atr > 0.0
    ensures Reach(m, atr) <= Reach(m', atr)
  {
    ScaleLe(m, m', atr);
  }

  function BandAt(rows: Rows, i: nat, stopAtr: real, targetAtr: real): Band
    requires rows.Shaped() && i < |rows.bars| && rows.atr[i].Some?
  {
    Band(rows.bars[i].close + Reach(targetAtr, rows.atr[i].value), rows.bars[i].close - Reach(stopAtr, rows.atr[i].value))
  }

  predicate Up(b: Band, bar: Bar) { bar.high >= b.upper }

  predicate Down(b: Band, bar: Bar) { bar.low <= b.lower }

  predicate Labelled(rows: Rows, i: nat, horizon: nat)
    requires rows.Shaped()
  {
    i + horizon < |rows.bars| && rows.atr[i].Some? && rows.atr[i].value > 0.0
  }

  /** First touch, said without a scan: the upper barrier is touched strictly before any touch of the
      lower one, or neither is touched and the horizon closes higher. */
  predicate GoesUp(bars: seq<Bar>, b: Band, i: nat, horizon: nat)
    requires i + horizon < |bars|
  {
    || (exists k :: i < k <= i + horizon && Up(b, bars[k]) && forall j :: i < j <= k ==> !Down(b, bars[j]))
    || ((forall j :: i < j <= i + horizon ==> !Up(b, bars[j]) && !Down(b, bars[j]))
        && bars[i + horizon].close > bars[i].close)
  }

  function Label(rows: Rows, i: nat, horizon: nat, stopAtr: real, targetAtr: real): Option<int>
    requires rows.Shaped()
  {
    if !Labelled(rows, i, horizon) then None
    else if GoesUp(rows.bars, BandAt(rows, i, stopAtr, targetAtr), i, horizon) then Some(1) else Some(0)
  }

  /** The inner loop of one row. */
  method FirstTouch(bars: seq<Bar>, b: Band, index: nat, horizon: nat) returns (mark: int)
    requires index + horizon < |bars|
    ensures mark == if GoesUp(bars, b, index, horizon) then 1 else 0
  {
    for future := index + 1 to index + horizon + 1
      invariant forall j :: index < j < future ==> !Up(b, bars[j]) && !Down(b, bars[j])
    {
      var hitUpper, hitLower := Up(b, bars[future]), Down(b, bars[future]);
      if hitUpper && hitLower {
        return 0;
      }
      if hitUpper {
        return 1;
      }
      if hitLower {
        return 0;
      }
    }
    return if bars[index + horizon].close > bars[index].close then 1 else 0;
  }

  method AddLabels(rows: Rows, horizon: nat, stopAtr: real, targetAtr: real) returns (labels: array<Option<int>>)
    requires rows.Shaped()
    ensures fresh(labels) && labels.Length == |rows.bars|
    ensures forall i :: 0 <= i < labels.Length ==> labels[i] == Label(rows, i, horizon, stopAtr, targetAtr)
  {
    labels := new Option<int>[|rows.bars|](_ => None);
    for index := 0 to MaxInt(0, |rows.bars| - horizon)
      invariant forall i :: 0 <= i < index ==> labels[i] == Label(rows, i, horizon, stopAtr, targetAtr)
      invariant forall i :: index <= i < labels.Length ==> labels[i] == None
    {
      if rows.atr[index].None? || rows.atr[index].value <= 0.0 {
        continue;
      }
      var mark := FirstTouch(rows.bars, BandAt(rows, index, stopAtr, targetAtr), index, horizon);
      assert Some(mark) == Label(rows, index, horizon, stopAtr, targetAtr);
      labels[index] := Some(mark);
    }
  }

  lemma SameWindowGoesUp(bars: seq<Bar>, other: seq<Bar>, b: Band, i: nat, horizon: nat)
    requires i + horizon < |bars| && i + horizon < |other|
    requires forall k :: i <= k <= i + horizon ==> bars[k] == other[k]
    requires GoesUp(bars, b, i, horizon)
    ensures GoesUp(other, b, i, horizon)
  {
    if k :| i < k <= i + horizon && Up(b, bars[k]) && forall j :: i < j <= k ==> !Down(b, bars[j]) {
      assert Up(b, other[k]);
    }
  }

  /** A label depends on its own row and the bars of its horizon only. */
  lemma LabelsArePrefixStable(rows: Rows, other: Rows, i: nat, horizon: nat, stopAtr: real, targetAtr: real)
    requires rows.Shaped() && other.Shaped() && i + horizon < |rows.bars| && i + horizon < |other.bars|
    requires forall k :: i <= k <= i + horizon ==> rows.bars[k] == other.bars[k]
    requires rows.atr[i] == other.atr[i]
    ensures Label(rows, i, horizon, stopAtr, targetAtr) == Label(other, i, horizon, stopAtr, targetAtr)
  {
    if Labelled(rows, i, horizon) {
      var b := BandAt(rows, i, stopAtr, targetAtr);
      if GoesUp(rows.bars, b, i, horizon) {
        SameWindowGoesUp(rows.bars, other.bars, b, i, horizon);
      } else if GoesUp(other.bars, b, i, horizon) {
        SameWindowGoesUp(other.bars, rows.bars, b, i, horizon);
      }
    }
  }

  lemma BarriersMove(rows: Rows, i: nat, stopAtr: real, targetAtr: real, stopAtr': real, targetAtr': real)
    requires rows.Shaped() && i < |rows.bars| && rows.atr[i].Some? && rows.atr[i].value > 0.0
    requires stopAtr <= stopAtr' && targetAtr' <= targetAtr
    ensures BandAt(rows, i, stopAtr', targetAtr').lower <= BandAt(rows, i, stopAtr, targetAtr).lower
    ensures BandAt(rows, i, stopAtr', targetAtr').upper <= BandAt(rows, i, stopAtr, targetAtr).upper
  {
    ReachGrows(stopAtr, stopAtr', rows.atr[i].value);
    ReachGrows(targetAtr', targetAtr, rows.atr[i].value);
  }

  lemma GoesUpIsMonotone(bars: seq<Bar>, b: Band, b': Band, i: nat, horizon: nat)
    requires i + horizon < |bars| && b'.lower <= b.lower && b'.upper <= b.upper && GoesUp(bars, b, i, horizon)
    ensures GoesUp(bars, b', i, horizon)
  {
    if k :| i < k <= i + horizon && Up(b, bars[k]) && forall j :: i < j <= k ==> !Down(b, bars[j]) {
      assert Up(b', bars[k]) && forall j :: i < j <= k ==> !Down(b', bars[j]);
    } else if k :| i < k <= i + horizon && Up(b', bars[k]) {
      assert forall j :: i < j <= k ==> !Down(b', bars[j]);
    }
  }

  /** Labels never fall when the stop is widened or the target is brought closer. */
  lemma LabelsAreMonotone(rows: Rows, i: nat, horizon: nat, stopAtr: real, targetAtr: real, stopAtr': real, targetAtr': real)
    requires rows.Shaped() && Labelled(rows, i, horizon) && stopAtr <= stopAtr' && targetAtr' <= targetAtr
    ensures Label(rows, i, horizon, stopAtr, targetAtr).value <= Label(rows, i, horizon, stopAtr', targetAtr').value
  {
    BarriersMove(rows, i, stopAtr, targetAtr, stopAtr', targetAtr');
    var b, b' := BandAt(rows, i, stopAtr, targetAtr), BandAt(rows, i, stopAtr', targetAtr');
    if GoesUp(rows.bars, b, i, horizon) {
      GoesUpIsMonotone(rows.bars, b, b', i, horizon);
    }
  }
}
