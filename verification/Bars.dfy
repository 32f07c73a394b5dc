/** OHLC bars, trade sides, and the two intrabar touch tests every simulator uses. */
module Bars {

  datatype Bar = Bar(open: real, high: real, low: real, close: real) {
    predicate Sane() {
      low <= open <= high && low <= close <= high
    }

    /** The bar seen on a price axis that is turned upside down. */
    function Mirror(): Bar { Bar(-open, -low, -high, -close) }
  }

  datatype Side = Buy | Sell

  predicate SaneBars(bars: seq<Bar>) {
    forall i :: 0 <= i < |bars| ==> bars[i].Sane()
  }

  /** `direction * x` for direction = 1 (Buy) or -1 (Sell). */
  function Along(side: Side, x: real): real {
    if side.Buy? then x else -x
  }

  function Opposite(side: Side): Side {
    if side.Buy? then Sell else Buy
  }

  predicate StopHit(side: Side, bar: Bar, stop: real) {
    if side.Buy? then bar.low <= stop else bar.high >= stop
  }

  predicate LevelHit(side: Side, bar: Bar, level: real) {
    if side.Buy? then bar.high >= level else bar.low <= level
  }

  /** A held position's stop and target. */
  datatype Barriers = Barriers(side: Side, stop: real, target: real)

  predicate Touches(b: Barriers, bar: Bar) {
    StopHit(b.side, bar, b.stop) || LevelHit(b.side, bar, b.target)
  }

  /** The first bar of [i, last] that touches a barrier, or last + 1. */
  function FirstTouch(b: Barriers, bars: seq<Bar>, i: nat, last: nat): (t: nat)
    requires i <= last + 1 <= |bars|
    ensures i <= t <= last + 1
    ensures forall j :: i <= j < t ==> !Touches(b, bars[j])
    ensures t <= last ==> Touches(b, bars[t])
    decreases last + 1 - i
  {
    if i == last + 1 || Touches(b, bars[i]) then i else FirstTouch(b, bars, i + 1, last)
  }
}
