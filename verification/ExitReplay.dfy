/** The exit replay of trade journals: partial close, breakeven stop and final target. */
module ExitReplay {
  import opened Core
  import opened Bars

  datatype ExitPolicy = ExitPolicy(
    finalTargetR: real,
    partialAtR: Option<real>,
    partialFraction: real,
    breakevenAtR: Option<real>)

  datatype ExitReason = StopLoss | PartialThenBreakeven | TakeProfit | Timeout | InvalidRisk

  /** `exitBar` counts from the entry bar; a timeout reports the entry bar itself. */
  datatype Replay = Replay(rMultiple: real, reason: ExitReason, exitBar: nat)

  /** The prices that decide an open position. */
  datatype Levels = Levels(
    side: Side, entry: real, stop: real, target: real, partial: Option<real>, breakeven: Option<real>)

  function AtR(side: Side, entry: real, risk: real, r: real): real {
    entry + Along(side, risk * r)
  }

  function LevelsOf(side: Side, entry: real, risk: real, p: ExitPolicy): Levels {
    Levels(side, entry, AtR(side, entry, risk, -1.0), AtR(side, entry, risk, p.finalTargetR),
           if p.partialAtR.Some? then Some(AtR(side, entry, risk, p.partialAtR.value)) else None,
           if p.breakevenAtR.Some? then Some(AtR(side, entry, risk, p.breakevenAtR.value)) else None)
  }

  // ----- Where a position ends, said without running the loop -----

  predicate Reached(side: Side, bars: seq<Bar>, level: Option<real>, n: nat)
    requires n <= |bars|
  {
    level.Some? && exists j :: 0 <= j < n && LevelHit(side, bars[j], level.value)
  }

  /** The stop in force on bar `i`: the entry price once breakeven was reached on an earlier bar. */
  function StopOn(l: Levels, bars: seq<Bar>, i: nat): real
    requires i <= |bars|
  {
    if Reached(l.side, bars, l.breakeven, i) then l.entry else l.stop
  }

  predicate StopsAt(l: Levels, bars: seq<Bar>, i: nat)
    requires i < |bars|
  {
    StopHit(l.side, bars[i], StopOn(l, bars, i))
  }

  predicate EndsAt(l: Levels, bars: seq<Bar>, i: nat)
    requires i < |bars|
  {
    StopsAt(l, bars, i) || LevelHit(l.side, bars[i], l.target)
  }

  /** The first bar from `i` on that closes the whole position, or |bars|. */
  function FirstEnd(l: Levels, bars: seq<Bar>, i: nat): (e: nat)
    requires i <= |bars|
    ensures i <= e <= |bars|
    ensures forall j :: i <= j < e ==> !EndsAt(l, bars, j)
    ensures e < |bars| ==> EndsAt(l, bars, e)
    decreases |bars| - i
  {
    if i == |bars| || EndsAt(l, bars, i) then i else FirstEnd(l, bars, i + 1)
  }

  datatype End = StillOpen | Stopped(bar: nat, atEntry: bool) | Targeted(bar: nat)

  datatype Path = Path(end: End, partialTaken: bool)

  function PathOf(l: Levels, bars: seq<Bar>): Path {
    var e := FirstEnd(l, bars, 0);
    if e == |bars| then
      Path(StillOpen, Reached(l.side, bars, l.partial, e))
    else if StopsAt(l, bars, e) then
      Path(Stopped(e, Reached(l.side, bars, l.breakeven, e)), Reached(l.side, bars, l.partial, e))
    else
      Path(Targeted(e), Reached(l.side, bars, l.partial, e + 1))
  }

  // ----- What a path earns -----

  function PartialWeight(p: ExitPolicy, path: Path): real {
    if path.partialTaken then p.partialFraction else 0.0
  }

  /** The weight of the position that was closed at all. */
  function ClosedWeight(p: ExitPolicy, path: Path): real {
    if path.end.StillOpen? then PartialWeight(p, path) else 1.0
  }

  /** R of the closing fill of the remainder, after a cost of `c` R; nothing while it is open. */
  function FinalR(p: ExitPolicy, path: Path, c: real): real {
    match path.end
    case StillOpen => 0.0
    case Stopped(_, atEntry) => (if atEntry then 0.0 else -1.0) - c
    case Targeted(_) => p.finalTargetR - c
  }

  function PartialR(p: ExitPolicy, c: real): real {
    if p.partialAtR.Some? then p.partialAtR.value - c else 0.0
  }

  function Earned(p: ExitPolicy, path: Path, c: real): real {
    var w := PartialWeight(p, path);
    PartialR(p, c) * w + FinalR(p, path, c) * (1.0 - w)
  }

  function ReasonOf(path: Path): ExitReason {
    match path.end
    case StillOpen => Timeout
    case Stopped(_, atEntry) => if path.partialTaken && atEntry then PartialThenBreakeven else StopLoss
    case Targeted(_) => TakeProfit
  }

  function ReplayOf(p: ExitPolicy, path: Path, c: real): Replay {
    Replay(Earned(p, path, c), ReasonOf(path), if path.end.StillOpen? then 0 else path.end.bar)
  }

  /** The replay of a position with a positive risk distance. */
  function Outcome(side: Side, entry: real, risk: real, p: ExitPolicy, bars: seq<Bar>, cost: real): Replay
    requires risk > 0.0
  {
    ReplayOf(p, PathOf(LevelsOf(side, entry, risk, p), bars), cost / risk)
  }

  // ----- The loop -----

  lemma EntryIsZeroR(side: Side, entry: real, risk: real)
    ensures AtR(side, entry, risk, 0.0) == entry
    ensures AtR(side, entry, risk, -1.0) == entry - Along(side, risk)
  {
  }

  /** The price at which a path closes its remainder. */
  function ClosingPrice(l: Levels, end: End): real
    requires !end.StillOpen?
  {
    if end.Targeted? then l.target else if end.atEntry then l.entry else l.stop
  }

  /** The sum of a path's fills, when closing `weight` at `level` brings `fill(level, weight)`. */
  function PathSum(l: Levels, fraction: real, path: Path, fill: (real, real) -> real): real
    requires path.partialTaken ==> l.partial.Some?
  {
    PartialSum(l, fraction, path.partialTaken, fill) + RestSum(l, fraction, path, fill)
  }

  function PartialSum(l: Levels, fraction: real, partialTaken: bool, fill: (real, real) -> real): real
    requires partialTaken ==> l.partial.Some?
  {
    if partialTaken then fill(l.partial.value, fraction) else 0.0
  }

  function RestSum(l: Levels, fraction: real, path: Path, fill: (real, real) -> real): real {
    if path.end.StillOpen? then 0.0
    else fill(ClosingPrice(l, path.end), if path.partialTaken then 1.0 - fraction else 1.0)
  }

  /** R of closing `weight` at `level`, less the exit cost. */
  function FillInR(side: Side, entry: real, risk: real, cost: real): (real, real) -> real
    requires risk > 0.0
  {
    (level, weight) => Along(side, level - Along(side, cost) - entry) / risk * weight
  }

  lemma FillAtR(side: Side, entry: real, risk: real, cost: real, r: real, weight: real)
    requires risk > 0.0
    ensures FillInR(side, entry, risk, cost)(AtR(side, entry, risk, r), weight) == (r - cost / risk) * weight
  {
    assert Along(side, AtR(side, entry, risk, r) - Along(side, cost) - entry) == risk * r - cost;
    assert (risk * r - cost) / risk == r - cost / risk;
  }

  /** How far the closing price lies from the entry, in R. */
  function ClosingR(p: ExitPolicy, end: End): real
    requires !end.StillOpen?
  {
    if end.Targeted? then p.finalTargetR else if end.atEntry then 0.0 else -1.0
  }

  lemma ClosingPriceAtR(side: Side, entry: real, risk: real, p: ExitPolicy, end: End)
    requires !end.StillOpen?
    ensures ClosingPrice(LevelsOf(side, entry, risk, p), end) == AtR(side, entry, risk, ClosingR(p, end))
  {
    EntryIsZeroR(side, entry, risk);
  }

  lemma RestSumIsEarned(side: Side, entry: real, risk: real, p: ExitPolicy, cost: real, path: Path)
    requires risk > 0.0
    ensures RestSum(LevelsOf(side, entry, risk, p), p.partialFraction, path, FillInR(side, entry, risk, cost))
            == FinalR(p, path, cost / risk) * (1.0 - PartialWeight(p, path))
  {
    if !path.end.StillOpen? {
      ClosingPriceAtR(side, entry, risk, p, path.end);
      FillAtR(side, entry, risk, cost, ClosingR(p, path.end), 1.0 - PartialWeight(p, path));
    }
  }

  lemma PathSumIsEarned(side: Side, entry: real, risk: real, p: ExitPolicy, cost: real, path: Path)
    requires risk > 0.0 && (path.partialTaken ==> p.partialAtR.Some?)
    ensures PathSum(LevelsOf(side, entry, risk, p), p.partialFraction, path, FillInR(side, entry, risk, cost))
            == Earned(p, path, cost / risk)
  {
    if path.partialTaken {
      FillAtR(side, entry, risk, cost, p.partialAtR.value, p.partialFraction);
    }
    RestSumIsEarned(side, entry, risk, p, cost, path);
  }

  /** The loop over the bars, for any way of pricing its fills. */
  method ReplayBars(l: Levels, fraction: real, bars: seq<Bar>, fill: (real, real) -> real)
    returns (realised: real, reason: ExitReason, exitBar: nat)
    ensures var path := PathOf(l, bars);
            && realised == PathSum(l, fraction, path, fill)
            && reason == ReasonOf(path)
            && exitBar == if path.end.StillOpen? then 0 else path.end.bar
  {
    var stop, remaining := l.stop, 1.0;
    var partialTaken, breakevenActive := false, false;
    realised, reason, exitBar := 0.0, Timeout, 0;
    for i := 0 to |bars|
      invariant FirstEnd(l, bars, 0) == FirstEnd(l, bars, i)
      invariant breakevenActive <==> Reached(l.side, bars, l.breakeven, i)
      invariant stop == StopOn(l, bars, i)
      invariant partialTaken <==> Reached(l.side, bars, l.partial, i)
      invariant remaining == if partialTaken then 1.0 - fraction else 1.0
      invariant realised == PartialSum(l, fraction, partialTaken, fill)
    {
      var bar := bars[i];
      var stopHit, targetHit := StopHit(l.side, bar, stop), LevelHit(l.side, bar, l.target);
      if stopHit {
        realised := realised + fill(stop, remaining);
        return realised, if partialTaken && breakevenActive then PartialThenBreakeven else StopLoss, i;
      }
      if l.partial.Some? && !partialTaken && LevelHit(l.side, bar, l.partial.value) {
        realised := realised + fill(l.partial.value, fraction);
        remaining := remaining - fraction;
        partialTaken := true;
      }
      if l.breakeven.Some? && !breakevenActive && LevelHit(l.side, bar, l.breakeven.value) {
        stop := l.entry;
        breakevenActive := true;
      }
      if targetHit {
        realised := realised + fill(l.target, remaining);
        return realised, TakeProfit, i;
      }
    }
  }

  method ReplayExit(side: Side, entry: real, tp1: real, bars: seq<Bar>, policy: ExitPolicy, exitCost: real)
    returns (replay: Replay)
    ensures tp1 == entry ==> replay == Replay(0.0, InvalidRisk, 0)
    ensures tp1 != entry ==> replay == Outcome(side, entry, Abs(tp1 - entry), policy, bars, exitCost)
  {
    var risk := Abs(tp1 - entry);
    if risk <= 0.0 {
      return Replay(0.0, InvalidRisk, 0);
    }
    var l := LevelsOf(side, entry, risk, policy);
    var realised, reason, exitBar := ReplayBars(l, policy.partialFraction, bars, FillInR(side, entry, risk, exitCost));
    PathSumIsEarned(side, entry, risk, policy, exitCost, PathOf(l, bars));
    return Replay(realised, reason, exitBar);
  }

  // ----- Properties over every path and policy -----

  lemma EarnedIsLinear(p: ExitPolicy, path: Path, c: real)
    requires path.partialTaken ==> p.partialAtR.Some?
    ensures Earned(p, path, c) == Earned(p, path, 0.0) - c * ClosedWeight(p, path)
  {
    var w := PartialWeight(p, path);
    assert PartialR(p, c) * w == PartialR(p, 0.0) * w - c * w;
    if !path.end.StillOpen? {
      assert FinalR(p, path, c) * (1.0 - w) == FinalR(p, path, 0.0) * (1.0 - w) - c * (1.0 - w);
      assert c * w + c * (1.0 - w) == c;
    }
  }

  /** Cost changes neither the exit bar nor the reason, and enters R linearly through the closed weight. */
  lemma CostIsLinear(side: Side, entry: real, risk: real, p: ExitPolicy, bars: seq<Bar>, cost: real)
    requires risk > 0.0
    ensures var (free, paid) := (Outcome(side, entry, risk, p, bars, 0.0), Outcome(side, entry, risk, p, bars, cost));
            && paid.exitBar == free.exitBar && paid.reason == free.reason
            && paid.rMultiple == free.rMultiple
                                 - cost / risk * ClosedWeight(p, PathOf(LevelsOf(side, entry, risk, p), bars))
  {
    assert 0.0 / risk == 0.0;
    EarnedIsLinear(p, PathOf(LevelsOf(side, entry, risk, p), bars), cost / risk);
  }

  /** R stays between one full loss and the target, both after cost. */
  lemma RIsBounded(side: Side, entry: real, risk: real, p: ExitPolicy, bars: seq<Bar>, cost: real)
    requires risk > 0.0 && cost >= 0.0 && p.finalTargetR >= -1.0
    requires 0.0 <= p.partialFraction <= 1.0
    requires p.partialAtR.Some? ==> -1.0 <= p.partialAtR.value <= p.finalTargetR
    ensures -1.0 - cost / risk <= Outcome(side, entry, risk, p, bars, cost).rMultiple
                               <= Max(0.0, p.finalTargetR - cost / risk)
  {
    var path, c := PathOf(LevelsOf(side, entry, risk, p), bars), cost / risk;
    assert c >= 0.0;
    EarnedIsAbove(p, path, c);
    EarnedIsBelow(p, path, c);
  }

  lemma EarnedIsAbove(p: ExitPolicy, path: Path, c: real)
    requires c >= 0.0 && p.finalTargetR >= -1.0 && 0.0 <= p.partialFraction <= 1.0
    requires p.partialAtR.Some? ==> p.partialAtR.value >= -1.0
    ensures Earned(p, path, c) >= -1.0 - c
  {
    var x, y, w := PartialR(p, c), FinalR(p, path, c), PartialWeight(p, path);
    assert x >= -1.0 - c && y >= -1.0 - c;
    BlendIsBounded(x, y, w, -1.0 - c, Max(x, y));
  }

  lemma EarnedIsBelow(p: ExitPolicy, path: Path, c: real)
    requires c >= 0.0 && 0.0 <= p.partialFraction <= 1.0
    requires p.partialAtR.Some? ==> p.partialAtR.value <= p.finalTargetR
    ensures Earned(p, path, c) <= Max(0.0, p.finalTargetR - c)
  {
    var x, y, w, high := PartialR(p, c), FinalR(p, path, c), PartialWeight(p, path), Max(0.0, p.finalTargetR - c);
    assert x <= high && y <= high;
    BlendIsBounded(x, y, w, Min(x, y), high);
  }

  lemma ReachedInPrefix(side: Side, bars: seq<Bar>, more: seq<Bar>, level: Option<real>, n: nat)
    requires n <= |bars|
    ensures Reached(side, bars + more, level, n) <==> Reached(side, bars, level, n)
  {
    assert forall j :: 0 <= j < n ==> (bars + more)[j] == bars[j];
  }

  lemma {:induction false} FirstEndInPrefix(l: Levels, bars: seq<Bar>, more: seq<Bar>, i: nat)
    requires i <= |bars| && FirstEnd(l, bars, i) < |bars|
    ensures FirstEnd(l, bars + more, i) == FirstEnd(l, bars, i)
    decreases |bars| - i
  {
    ReachedInPrefix(l.side, bars, more, l.breakeven, i);
    if !EndsAt(l, bars, i) {
      FirstEndInPrefix(l, bars, more, i + 1);
    }
  }

  /** A closed position is decided by the bars up to its exit: later bars change nothing. */
  lemma NoLookAhead(side: Side, entry: real, risk: real, p: ExitPolicy, bars: seq<Bar>, more: seq<Bar>, cost: real)
    requires risk > 0.0 && Outcome(side, entry, risk, p, bars, cost).reason != Timeout
    ensures Outcome(side, entry, risk, p, bars + more, cost) == Outcome(side, entry, risk, p, bars, cost)
  {
    var l := LevelsOf(side, entry, risk, p);
    var e := FirstEnd(l, bars, 0);
    FirstEndInPrefix(l, bars, more, 0);
    ReachedInPrefix(side, bars, more, l.breakeven, e);
    ReachedInPrefix(side, bars, more, l.partial, e);
    ReachedInPrefix(side, bars, more, l.partial, e + 1);
  }

  function MirrorBars(bars: seq<Bar>): (mirrored: seq<Bar>)
    ensures |mirrored| == |bars|
    ensures forall i :: 0 <= i < |bars| ==> mirrored[i] == bars[i].Mirror()
  {
    seq(|bars|, i requires 0 <= i < |bars| => bars[i].Mirror())
  }

  function MirrorLevel(level: Option<real>): Option<real> {
    if level.Some? then Some(-level.value) else None
  }

  function MirrorLevels(l: Levels): Levels {
    Levels(Opposite(l.side), -l.entry, -l.stop, -l.target, MirrorLevel(l.partial), MirrorLevel(l.breakeven))
  }

  lemma MirrorReached(side: Side, bars: seq<Bar>, level: Option<real>, n: nat)
    requires n <= |bars|
    ensures Reached(Opposite(side), MirrorBars(bars), MirrorLevel(level), n) <==> Reached(side, bars, level, n)
  {
    if level.Some? {
      assert forall j :: 0 <= j < n ==>
        (LevelHit(Opposite(side), MirrorBars(bars)[j], -level.value) <==> LevelHit(side, bars[j], level.value));
    }
  }

  lemma {:induction false} MirrorFirstEnd(l: Levels, bars: seq<Bar>, i: nat)
    requires i <= |bars|
    ensures FirstEnd(MirrorLevels(l), MirrorBars(bars), i) == FirstEnd(l, bars, i)
    decreases |bars| - i
  {
    if i < |bars| {
      MirrorReached(l.side, bars, l.breakeven, i);
      MirrorFirstEnd(l, bars, i + 1);
    }
  }

  /** A short is a long on the mirrored price axis: bar, reason and R are the same. */
  lemma ShortMirrorsLong(side: Side, entry: real, risk: real, p: ExitPolicy, bars: seq<Bar>, cost: real)
    requires risk > 0.0
    ensures Outcome(Opposite(side), -entry, risk, p, MirrorBars(bars), cost) == Outcome(side, entry, risk, p, bars, cost)
  {
    var l := LevelsOf(side, entry, risk, p);
    assert LevelsOf(Opposite(side), -entry, risk, p) == MirrorLevels(l);
    MirrorFirstEnd(l, bars, 0);
    var e := FirstEnd(l, bars, 0);
    MirrorReached(side, bars, l.breakeven, e);
    MirrorReached(side, bars, l.partial, e);
    if e < |bars| {
      MirrorReached(side, bars, l.partial, e + 1);
    }
  }
}
