/** Trailing stops: advanced in half-ATR steps beyond one risk distance, tightened on news, widened for events. */
module StopManager {
  import opened Core
  import opened Bars

  datatype Position = Position(entry: real, side: Side, initialStop: real, currentStop: real)

  /** One risk distance, 1R. */
  function Risk(p: Position): real { Abs(p.entry - p.initialStop) }

  function ProfitAt(p: Position, price: real): real { Along(p.side, price - p.entry) }

  /** Truncation towards zero. */
  function Truncated(x: real): int { if x >= 0.0 then x.Floor else -((-x).Floor) }

  function Step(atr: real): real { atr * 0.5 }

  function Product(n: int, step: real): real { n as real * step }

  /** The whole steps in a distance, as a distance. */
  function Advance(distance: real, step: real): real
    requires step != 0.0
  {
    Product(Truncated(distance / step), step)
  }

  /** The stop a price asks for, once it is one risk distance in profit. */
  function Wanted(p: Position, price: real, atr: real): Option<real> {
    if Risk(p) == 0.0 || ProfitAt(p, price) < Risk(p) || Step(atr) == 0.0 then None
    else Some(p.entry + Along(p.side, Advance(ProfitAt(p, price) - Risk(p), Step(atr))))
  }

  /** Strictly closer to profit. */
  predicate Better(side: Side, x: real, y: real) { if side.Buy? then x > y else x < y }

  function TrailingStop(p: Position, price: real, atr: real): Option<real> {
    var stop := Wanted(p, price, atr);
    if stop.Some? && Better(p.side, stop.value, p.currentStop) then stop else None
  }

  function TightenedStop(p: Position, price: real, atr: real): real {
    var stop := price - Along(p.side, Step(atr));
    if Better(p.side, p.currentStop, stop) then p.currentStop else stop
  }

  function WidenedStop(p: Position, atr: real, multiplier: real): real {
    p.currentStop - Along(p.side, multiplier * atr)
  }

  function InitialStop(entry: real, side: Side, atr: real, multiplier: real): real {
    entry - Along(side, atr * multiplier)
  }

  // ----- Whole steps -----

  /** With a positive step a whole number of steps fits, and one more does not. */
  lemma AdvanceFits(distance: real, step: real)
    requires distance >= 0.0 && step > 0.0
    ensures 0.0 <= Advance(distance, step) <= distance < Advance(distance, step) + step
  {
    var x := distance / step;
    assert x * step == distance && x >= 0.0;
    var p := FloorTimes(x, x.Floor as real, step);
    assert Product(x.Floor, step) == p;
  }

  lemma FloorTimes(x: real, m: real, step: real) returns (p: real)
    requires step > 0.0 && 0.0 <= m <= x < m + 1.0
    ensures p == m * step
    ensures 0.0 <= p <= x * step < p + step
  {
    p := m * step;
    var rest := x - m;
    assert rest * step == x * step - p;
    assert rest * step < step by {
      assert (1.0 - rest) * step > 0.0;
      assert (1.0 - rest) * step == step - rest * step;
    }
    assert rest * step >= 0.0;
  }

  lemma AdvanceIsMonotone(near: real, far: real, step: real)
    requires 0.0 <= near <= far && step > 0.0
    ensures Advance(near, step) <= Advance(far, step)
  {
    assert (far - near) / step >= 0.0;
    assert far / step - near / step == (far - near) / step;
    ScaleLe((near / step).Floor as real, (far / step).Floor as real, step);
  }

  /** A trailed stop stays at least one risk distance behind its price, and less than one step more. */
  lemma TrailsByOneRisk(p: Position, price: real, atr: real)
    requires atr > 0.0 && Wanted(p, price, atr).Some?
    ensures Risk(p) <= Along(p.side, price - Wanted(p, price, atr).value) < Risk(p) + Step(atr)
    ensures !Better(p.side, p.entry, Wanted(p, price, atr).value)
  {
    AdvanceFits(ProfitAt(p, price) - Risk(p), Step(atr));
  }

  // ----- Operations on a held position -----

  /** Each call brings its own price and ATR. */
  datatype Op = Trail(price: real, atr: real) | Tighten(price: real, atr: real)

  /** The stop an operation asks for, if any. */
  function Candidate(p: Position, op: Op): Option<real> {
    match op
    case Trail(price, atr) => Wanted(p, price, atr)
    case Tighten(price, atr) => Some(price - Along(p.side, Step(atr)))
  }

  function Apply(p: Position, op: Op): Position {
    match op
    case Trail(price, atr) =>
      var stop := TrailingStop(p, price, atr);
      if stop.Some? then p.(currentStop := stop.value) else p
    case Tighten(price, atr) => p.(currentStop := TightenedStop(p, price, atr))
  }

  function Run(p: Position, ops: seq<Op>): Position {
    if |ops| == 0 then p else Apply(Run(p, ops[..|ops| - 1]), ops[|ops| - 1])
  }

  /** `stop` is the best of the first stop and all candidates. */
  ghost predicate IsBest(stop: real, p: Position, ops: seq<Op>) {
    && (stop == p.currentStop || exists i :: 0 <= i < |ops| && Candidate(p, ops[i]) == Some(stop))
    && !Better(p.side, p.currentStop, stop)
    && forall i :: 0 <= i < |ops| && Candidate(p, ops[i]).Some? ==> !Better(p.side, Candidate(p, ops[i]).value, stop)
  }

  lemma CandidateIgnoresStop(p: Position, q: Position, op: Op)
    requires q == p.(currentStop := q.currentStop)
    ensures Candidate(q, op) == Candidate(p, op)
  {
  }

  /** Any interleaving of trailing and tightening ends at the best stop any of them asked for. */
  lemma {:induction false} RunIsBest(p: Position, ops: seq<Op>)
    ensures Run(p, ops) == p.(currentStop := Run(p, ops).currentStop)
    ensures IsBest(Run(p, ops).currentStop, p, ops)
  {
    if |ops| > 0 {
      var init, op := ops[..|ops| - 1], ops[|ops| - 1];
      RunIsBest(p, init);
      BestStep(p, Run(p, init), init, op);
      assert init + [op] == ops;
    }
  }

  lemma BestStep(p: Position, q: Position, ops: seq<Op>, op: Op)
    requires q == p.(currentStop := q.currentStop) && IsBest(q.currentStop, p, ops)
    ensures Apply(q, op) == p.(currentStop := Apply(q, op).currentStop)
    ensures IsBest(Apply(q, op).currentStop, p, ops + [op])
  {
    CandidateIgnoresStop(p, q, op);
    var all, stop := ops + [op], Apply(q, op).currentStop;
    if stop == q.currentStop {
      if stop != p.currentStop {
        var i :| 0 <= i < |ops| && Candidate(p, ops[i]) == Some(stop);
        assert all[i] == ops[i];
      }
    } else {
      assert Candidate(p, all[|ops|]) == Some(stop);
    }
    forall i | 0 <= i < |all| && Candidate(p, all[i]).Some? ensures !Better(p.side, Candidate(p, all[i]).value, stop) {
      if i < |ops| {
        assert all[i] == ops[i];
      }
    }
  }

  /** So the stop never retreats. */
  lemma StopNeverRetreats(p: Position, ops: seq<Op>, k: nat)
    requires k <= |ops|
    ensures !Better(p.side, Run(p, ops[..k]).currentStop, Run(p, ops).currentStop)
  {
    RunIsBest(p, ops);
    RunIsBest(p, ops[..k]);
    var stop := Run(p, ops[..k]).currentStop;
    if stop != p.currentStop {
      var i :| 0 <= i < |ops[..k]| && Candidate(p, ops[..k][i]) == Some(stop);
      assert ops[i] == ops[..k][i];
    }
  }

  /** The best stop is unique, so the order of operations does not matter. */
  lemma OrderDoesNotMatter(p: Position, ops: seq<Op>, others: seq<Op>)
    requires forall op :: op in ops <==> op in others
    ensures Run(p, ops) == Run(p, others)
  {
    RunIsBest(p, ops);
    RunIsBest(p, others);
    NoneBetter(p, ops, others);
    NoneBetter(p, others, ops);
  }

  lemma NoneBetter(p: Position, ops: seq<Op>, others: seq<Op>)
    requires forall op :: op in ops ==> op in others
    ensures !Better(p.side, Run(p, ops).currentStop, Run(p, others).currentStop)
  {
    RunIsBest(p, ops);
    RunIsBest(p, others);
    var stop := Run(p, ops).currentStop;
    if stop != p.currentStop {
      var i :| 0 <= i < |ops| && Candidate(p, ops[i]) == Some(stop);
      assert ops[i] in others;
      var j :| 0 <= j < |others| && others[j] == ops[i];
    }
  }

  // ----- Trailing alone is path independent -----

  function Trails(prices: seq<real>, atr: real): seq<Op> {
    seq(|prices|, i requires 0 <= i < |prices| => Trail(prices[i], atr))
  }

  /** The price furthest in profit. */
  function Extreme(side: Side, prices: seq<real>): (x: real)
    requires |prices| > 0
    ensures x in prices && forall i :: 0 <= i < |prices| ==> !Better(side, prices[i], x)
  {
    var last := prices[|prices| - 1];
    if |prices| == 1 then last
    else
      var x := Extreme(side, prices[..|prices| - 1]);
      assert forall i :: 0 <= i < |prices| - 1 ==> prices[i] == prices[..|prices| - 1][i];
      if Better(side, last, x) then last else x
  }

  lemma FurtherWantsBetter(p: Position, near: real, far: real, atr: real)
    requires atr > 0.0 && !Better(p.side, near, far) && Wanted(p, near, atr).Some?
    ensures Wanted(p, far, atr).Some? && !Better(p.side, Wanted(p, near, atr).value, Wanted(p, far, atr).value)
  {
    AdvanceIsMonotone(ProfitAt(p, near) - Risk(p), ProfitAt(p, far) - Risk(p), Step(atr));
  }

  /** At a constant ATR, trailing along any path of prices is one update at the path's extreme. */
  lemma TrailingIsPathIndependent(p: Position, prices: seq<real>, atr: real)
    requires atr > 0.0 && |prices| > 0
    ensures Run(p, Trails(prices, atr)) == Apply(p, Trail(Extreme(p.side, prices), atr))
  {
    var x, ops := Extreme(p.side, prices), Trails(prices, atr);
    var stop := Run(p, ops).currentStop;
    RunIsBest(p, ops);
    var k :| 0 <= k < |prices| && prices[k] == x;
    assert Candidate(p, ops[k]) == Wanted(p, x, atr);
    if stop != p.currentStop {
      var i :| 0 <= i < |ops| && Candidate(p, ops[i]) == Some(stop);
      FurtherWantsBetter(p, prices[i], x, atr);
    }
  }

  // ----- Widening -----

  /** Widening retreats exactly when its distance is positive. */
  lemma WideningRetreats(p: Position, atr: real, multiplier: real)
    ensures Better(p.side, p.currentStop, WidenedStop(p, atr, multiplier)) <==> multiplier * atr > 0.0
  {
    var distance := multiplier * atr;
    assert WidenedStop(p, atr, multiplier) == p.currentStop - Along(p.side, distance);
  }

  /** ... and the next trailing update at the same price undoes it. */
  lemma TrailingUndoesWidening(p: Position, price: real, atr: real, multiplier: real)
    requires multiplier * atr > 0.0 && Wanted(p, price, atr) == Some(p.currentStop)
    ensures Apply(p.(currentStop := WidenedStop(p, atr, multiplier)), Trail(price, atr)) == p
  {
    WideningRetreats(p, atr, multiplier);
    var widened := p.(currentStop := WidenedStop(p, atr, multiplier));
    CandidateIgnoresStop(p, widened, Trail(price, atr));
    assert Candidate(widened, Trail(price, atr)) == Some(p.currentStop);
  }

  // ----- Short positions mirror long ones -----

  function Mirror(p: Position): Position { Position(-p.entry, Opposite(p.side), -p.initialStop, -p.currentStop) }

  function MirrorOps(ops: seq<Op>): seq<Op> { seq(|ops|, i requires 0 <= i < |ops| => MirrorOp(ops[i])) }

  function MirrorOp(op: Op): Op {
    match op
    case Trail(price, atr) => Trail(-price, atr)
    case Tighten(price, atr) => Tighten(-price, atr)
  }

  lemma WantedMirrors(p: Position, price: real, atr: real)
    ensures Risk(Mirror(p)) == Risk(p) && ProfitAt(Mirror(p), -price) == ProfitAt(p, price)
    ensures Wanted(Mirror(p), -price, atr)
         == (var stop := Wanted(p, price, atr); if stop.Some? then Some(-stop.value) else None)
  {
  }

  lemma ApplyMirrors(p: Position, op: Op)
    ensures Apply(Mirror(p), MirrorOp(op)) == Mirror(Apply(p, op))
  {
    WantedMirrors(p, op.price, op.atr);
  }

  /** On a mirrored price axis a short position is managed exactly as a long one. */
  lemma {:induction false} ShortMirrorsLong(p: Position, ops: seq<Op>)
    ensures Run(Mirror(p), MirrorOps(ops)) == Mirror(Run(p, ops))
  {
    if |ops| > 0 {
      var init := ops[..|ops| - 1];
      ShortMirrorsLong(p, init);
      assert MirrorOps(ops)[..|ops| - 1] == MirrorOps(init);
      ApplyMirrors(Run(p, init), ops[|ops| - 1]);
    }
  }

  /** The initial stop sets the risk distance; widening and the initial stop mirror as well. */
  lemma InitialStopSetsRisk(entry: real, side: Side, atr: real, multiplier: real)
    ensures var stop := InitialStop(entry, side, atr, multiplier);
            && Risk(Position(entry, side, stop, stop)) == Abs(atr * multiplier)
            && InitialStop(-entry, Opposite(side), atr, multiplier) == -stop
  {
    var distance := atr * multiplier;
    assert InitialStop(entry, side, atr, multiplier) == entry - Along(side, distance);
  }
}
