/** Regional risk scores: factor contributions, proportional decay, and alerts at the high-risk threshold. */
module GeopoliticalRisk {
  import opened Core

  const HIGH := 70.0

  datatype RiskFactor = ArmedConflict | Sanctions | PoliticalInstability | NaturalDisaster

  function Weight(factor: RiskFactor): real {
    match factor
    case ArmedConflict => 30.0
    case Sanctions => 20.0
    case PoliticalInstability => 15.0
    case NaturalDisaster => 25.0
  }

  datatype Factors = Factors(conflict: real, sanctions: real, instability: real, disaster: real) {
    function Sum(): real { conflict + sanctions + instability + disaster }

    function Of(factor: RiskFactor): real {
      match factor
      case ArmedConflict => conflict
      case Sanctions => sanctions
      case PoliticalInstability => instability
      case NaturalDisaster => disaster
    }

    function With(factor: RiskFactor, x: real): Factors {
      match factor
      case ArmedConflict => this.(conflict := x)
      case Sanctions => this.(sanctions := x)
      case PoliticalInstability => this.(instability := x)
      case NaturalDisaster => this.(disaster := x)
    }

    predicate InRange() {
      0.0 <= conflict <= 100.0 && 0.0 <= sanctions <= 100.0 && 0.0 <= instability <= 100.0 && 0.0 <= disaster <= 100.0
    }
  }

  datatype Level = Level(score: real, factors: Factors)

  datatype Region = Region(level: Level, wasHigh: bool)

  const CALM := Level(0.0, Factors(0.0, 0.0, 0.0, 0.0))

  function Clamp(x: real, low: real, high: real): real { Max(low, Min(high, x)) }

  function ScoreOf(f: Factors): real { Min(100.0, f.Sum()) }

  // ----- The four changes to a region's level -----

  function Contribution(factor: RiskFactor, severity: real): real { Weight(factor) * Clamp(severity, 0.0, 1.0) }

  function Processed(l: Level, factor: RiskFactor, severity: real): Level {
    var factors := l.factors.With(factor, Min(100.0, l.factors.Of(factor) + Contribution(factor, severity)));
    Level(ScoreOf(factors), factors)
  }

  function Shrunk(x: real, fraction: real): real { if x > 0.0 then Max(0.0, x - x * fraction) else x }

  function ShrunkFactors(f: Factors, fraction: real): Factors {
    Factors(Shrunk(f.conflict, fraction), Shrunk(f.sanctions, fraction), Shrunk(f.instability, fraction),
            Shrunk(f.disaster, fraction))
  }

  function Decayed(l: Level, rate: real): Level {
    if l.score <= 0.0 then l
    else
      var factors := ShrunkFactors(l.factors, rate / l.score);
      Level(Min(100.0, Max(0.0, factors.Sum())), factors)
  }

  function Spread(score: real): Level { var each := score / 4.0; Level(score, Factors(each, each, each, each)) }

  // ----- Decay -----

  predicate Sound(l: Level) { l.factors.InRange() && l.score == ScoreOf(l.factors) }

  function Times(x: real, k: real): real { x * k }

  function Scaled(f: Factors, keep: real): Factors {
    Factors(Times(f.conflict, keep), Times(f.sanctions, keep), Times(f.instability, keep), Times(f.disaster, keep))
  }

  /** The share of every factor that decay keeps. */
  function Kept(score: real, rate: real): real
    requires score > 0.0
  {
    Max(0.0, 1.0 - rate / score)
  }

  lemma ShrunkIsScaled(x: real, fraction: real)
    requires x >= 0.0
    ensures Shrunk(x, fraction) == Times(x, Max(0.0, 1.0 - fraction))
  {
    assert x - x * fraction == x * (1.0 - fraction);
    if fraction > 1.0 {
      ScaleLe(1.0 - fraction, 0.0, x);
    } else {
      ScaleLe(0.0, 1.0 - fraction, x);
    }
  }

  /** Decay scales all factors by one share, so it keeps their proportions. */
  lemma DecayScales(l: Level, rate: real)
    requires Sound(l) && l.score > 0.0
    ensures Decayed(l, rate).factors == Scaled(l.factors, Kept(l.score, rate))
  {
    var fraction := rate / l.score;
    ShrunkIsScaled(l.factors.conflict, fraction);
    ShrunkIsScaled(l.factors.sanctions, fraction);
    ShrunkIsScaled(l.factors.instability, fraction);
    ShrunkIsScaled(l.factors.disaster, fraction);
  }

  lemma KeptIsAShare(score: real, rate: real)
    requires score > 0.0 && rate >= 0.0
    ensures 0.0 <= Kept(score, rate) <= 1.0
  {
    assert rate / score >= 0.0;
  }

  lemma ScaledSum(f: Factors, keep: real)
    ensures Scaled(f, keep).Sum() == Times(f.Sum(), keep)
  {
    Distribute(f.conflict, f.sanctions, f.instability, f.disaster, keep);
  }

  lemma Distribute(a: real, b: real, c: real, d: real, k: real)
    ensures (a + b + c + d) * k == a * k + b * k + c * k + d * k
  {
  }

  lemma ScaledInRange(f: Factors, keep: real)
    requires f.InRange() && 0.0 <= keep <= 1.0
    ensures Scaled(f, keep).InRange()
  {
    var conflict := Shrink(f.conflict, keep);
    var sanctions := Shrink(f.sanctions, keep);
    var instability := Shrink(f.instability, keep);
    var disaster := Shrink(f.disaster, keep);
    assert Scaled(f, keep) == Factors(conflict, sanctions, instability, disaster);
  }

  lemma DecayIsSound(l: Level, rate: real)
    requires Sound(l) && rate >= 0.0
    ensures Sound(Decayed(l, rate))
  {
    if l.score > 0.0 {
      var keep := Kept(l.score, rate);
      KeptIsAShare(l.score, rate);
      ScaledInRange(l.factors, keep);
      var f := Scaled(l.factors, keep);
      assert Decayed(l, rate).factors == f by { DecayScales(l, rate); }
    }
  }

  /** Each decay takes at least the rate off the factors' sum, or all that is left. */
  lemma DecayCuts(l: Level, rate: real)
    requires Sound(l) && rate >= 0.0
    ensures Decayed(l, rate).factors.Sum() <= l.factors.Sum() - Min(rate, l.factors.Sum())
  {
    if l.score > 0.0 {
      var keep := Kept(l.score, rate);
      assert Decayed(l, rate).factors == Scaled(l.factors, keep) by { DecayScales(l, rate); }
      assert Scaled(l.factors, keep).Sum() == Times(l.factors.Sum(), keep) by { ScaledSum(l.factors, keep); }
      CutAtLeast(l.factors.Sum(), l.score, rate);
    }
  }

  lemma CutAtLeast(sum: real, score: real, rate: real)
    requires 0.0 < score <= sum && rate >= 0.0
    ensures Times(sum, Kept(score, rate)) <= sum - Min(rate, sum)
  {
    var fraction := rate / score;
    assert fraction * score == rate;
    ScaleLe(score, sum, fraction);
    if fraction > 1.0 {
      ScaleLe(1.0, fraction, score);
    } else {
      assert sum * (1.0 - fraction) == sum - sum * fraction;
    }
  }

  // ----- The scorer -----

  datatype Alert = Alert(region: string, above: bool, score: real)

  /** `names` lists the regions in the order they were added; `alerts` are all alerts ever raised. */
  datatype Scorer = Scorer(names: seq<string>, regions: map<string, Region>, alerts: seq<Alert>) {
    function Of(name: string): Region { if name in regions then regions[name] else Region(CALM, false) }

    function Score(name: string): real { Of(name).level.score }
  }

  function Crossing(name: string, was: real, now: real): seq<Alert> {
    if (was >= HIGH) == (now >= HIGH) then [] else [Alert(name, now >= HIGH, now)]
  }

  /** Replaces a region's level; crossing the threshold alerts and sets the flag. */
  function Update(s: Scorer, name: string, l: Level): Scorer {
    var was := s.Of(name);
    var flag := if (was.level.score >= HIGH) == (l.score >= HIGH) then was.wasHigh else l.score >= HIGH;
    Scorer(if name in s.regions then s.names else s.names + [name], s.regions[name := Region(l, flag)],
           s.alerts + Crossing(name, was.level.score, l.score))
  }

  /** The dictionary's keys, each listed once. */
  predicate Listed(s: Scorer) {
    && (forall i :: 0 <= i < |s.names| ==> s.names[i] in s.regions)
    && (forall name :: name in s.regions ==> name in s.names)
    && (forall i, j :: 0 <= i < j < |s.names| ==> s.names[i] != s.names[j])
  }

  function DecayOne(s: Scorer, name: string, decay: (Level, real) -> Level, rate: real): Scorer {
    if s.Score(name) <= 0.0 then s else Update(s, name, decay(s.Of(name).level, rate))
  }

  /** Decays the named regions in turn. */
  function DecayEach(s: Scorer, names: seq<string>, decay: (Level, real) -> Level, rate: real): Scorer {
    if |names| == 0 then s else DecayOne(DecayEach(s, names[..|names| - 1], decay, rate), names[|names| - 1], decay, rate)
  }

  /** A decay happens at the rate set at the time. */
  datatype Step = Decay(rate: real) | Replace(name: string, change: Change)

  datatype Change = Process(factor: RiskFactor, severity: real) | SetScore(score: real) | Reset

  function Changed(l: Level, c: Change): Level {
    match c
    case Process(factor, severity) => Processed(l, factor, severity)
    case SetScore(score) => Spread(Clamp(score, 0.0, 100.0))
    case Reset => CALM
  }

  /** Resetting an unknown region does nothing; the other changes add it. */
  function Apply(s: Scorer, step: Step, decay: (Level, real) -> Level): Scorer {
    match step
    case Decay(rate) => DecayEach(s, s.names, decay, rate)
    case Replace(name, change) =>
      if change.Reset? && name !in s.regions then s else Update(s, name, Changed(s.Of(name).level, change))
  }

  function Run(s: Scorer, steps: seq<Step>, decay: (Level, real) -> Level): Scorer {
    if |steps| == 0 then s else Apply(Run(s, steps[..|steps| - 1], decay), steps[|steps| - 1], decay)
  }

  // ----- Every run: scores, flags and alerts agree -----

  function AlertsOf(alerts: seq<Alert>, name: string): seq<bool> {
    if |alerts| == 0 then []
    else AlertsOf(alerts[..|alerts| - 1], name)
         + if alerts[|alerts| - 1].region == name then [alerts[|alerts| - 1].above] else []
  }

  lemma AlertsAppend(alerts: seq<Alert>, more: seq<Alert>, name: string)
    requires |more| <= 1
    ensures AlertsOf(alerts + more, name)
         == AlertsOf(alerts, name) + if |more| == 1 && more[0].region == name then [more[0].above] else []
  {
    if |more| == 1 {
      assert (alerts + more)[..|alerts|] == alerts;
    } else {
      assert alerts + more == alerts;
    }
  }

  /** Above, below, above, ... */
  predicate Alternates(directions: seq<bool>) {
    && (|directions| > 0 ==> directions[0])
    && forall i :: 0 < i < |directions| ==> directions[i] != directions[i - 1]
  }

  predicate LastIs(directions: seq<bool>, high: bool) {
    Alternates(directions) && (high <==> |directions| > 0 && directions[|directions| - 1])
  }

  /** The region's last alert says "above" exactly when its score is high; its flag agrees. */
  predicate Told(s: Scorer, name: string) {
    LastIs(AlertsOf(s.alerts, name), s.Score(name) >= HIGH) && s.Of(name).wasHigh == (s.Score(name) >= HIGH)
  }

  ghost predicate Steady(s: Scorer) {
    Listed(s) && (forall name :: Sound(s.Of(name).level)) && forall name :: Told(s, name)
  }

  lemma LastAppend(directions: seq<bool>, was: bool, now: bool)
    requires LastIs(directions, was)
    ensures LastIs(directions + if was == now then [] else [now], now)
  {
    if was == now {
      assert directions + [] == directions;
    }
  }

  lemma CrossingAppend(alerts: seq<Alert>, name: string, was: real, now: real, other: string)
    requires LastIs(AlertsOf(alerts, name), was >= HIGH)
    ensures name == other ==> LastIs(AlertsOf(alerts + Crossing(name, was, now), other), now >= HIGH)
    ensures name != other ==> AlertsOf(alerts + Crossing(name, was, now), other) == AlertsOf(alerts, other)
  {
    AlertsAppend(alerts, Crossing(name, was, now), other);
    LastAppend(AlertsOf(alerts, name), was >= HIGH, now >= HIGH);
    assert AlertsOf(alerts, other) + [] == AlertsOf(alerts, other);
  }

  lemma UpdateTells(s: Scorer, name: string, l: Level, other: string)
    requires Told(s, name) && Told(s, other)
    ensures Told(Update(s, name, l), other)
  {
    CrossingAppend(s.alerts, name, s.Score(name), l.score, other);
  }

  /** An update sets one region's level, and leaves the others alone. */
  lemma UpdateSetsOne(s: Scorer, name: string, l: Level, other: string)
    ensures Update(s, name, l).Of(other).level == if other == name then l else s.Of(other).level
  {
  }

  lemma UpdateIsListed(s: Scorer, name: string, l: Level)
    requires Listed(s)
    ensures Listed(Update(s, name, l))
  {
  }

  lemma UpdateIsSteady(s: Scorer, name: string, l: Level) returns (r: Scorer)
    requires Steady(s) && Sound(l)
    ensures r == Update(s, name, l)
    ensures Steady(r)
  {
    r := Update(s, name, l);
    forall other ensures Told(r, other) {
      assert Told(s, name) && Told(s, other);
      UpdateTells(s, name, l, other);
    }
    forall other ensures Sound(r.Of(other).level) {
      assert Sound(s.Of(other).level);
      UpdateSetsOne(s, name, l, other);
    }
    UpdateIsListed(s, name, l);
  }

  ghost predicate KeepsSound(decay: (Level, real) -> Level, rate: real) { forall l :: Sound(l) ==> Sound(decay(l, rate)) }

  lemma DecayOneIsSteady(s: Scorer, name: string, decay: (Level, real) -> Level, rate: real) returns (r: Scorer)
    requires Steady(s) && KeepsSound(decay, rate)
    ensures r == DecayOne(s, name, decay, rate)
    ensures Steady(r)
  {
    r := s;
    if s.Score(name) > 0.0 {
      assert Sound(s.Of(name).level);
      r := UpdateIsSteady(s, name, decay(s.Of(name).level, rate));
    }
  }

  lemma {:induction false} DecayIsSteady(s: Scorer, names: seq<string>, decay: (Level, real) -> Level, rate: real)
    returns (r: Scorer)
    requires Steady(s) && KeepsSound(decay, rate)
    ensures r == DecayEach(s, names, decay, rate)
    ensures Steady(r)
  {
    if |names| == 0 {
      r := s;
    } else {
      var before := DecayIsSteady(s, names[..|names| - 1], decay, rate);
      r := DecayOneIsSteady(before, names[|names| - 1], decay, rate);
    }
  }

  lemma ChangedIsSound(l: Level, c: Change)
    requires Sound(l)
    ensures Sound(Changed(l, c))
  {
    match c
    case Process(factor, severity) =>
      var share := Clamp(severity, 0.0, 1.0);
      ScaleLe(0.0, share, Weight(factor));
      assert Contribution(factor, severity) >= 0.0;
    case SetScore(score) =>
      var each := Clamp(score, 0.0, 100.0) / 4.0;
      assert 4.0 * each == Clamp(score, 0.0, 100.0);
    case Reset =>
  }

  /** Rates are not negative, as the setter keeps them. */
  predicate Rated(steps: seq<Step>) { forall i :: 0 <= i < |steps| && steps[i].Decay? ==> steps[i].rate >= 0.0 }

  ghost predicate KeepSound(decay: (Level, real) -> Level) { forall rate :: rate >= 0.0 ==> KeepsSound(decay, rate) }

  lemma StepIsSteady(s: Scorer, step: Step, decay: (Level, real) -> Level) returns (next: Scorer)
    requires Steady(s) && (step.Decay? ==> KeepsSound(decay, step.rate))
    ensures next == Apply(s, step, decay)
    ensures Steady(next)
  {
    match step
    case Decay(rate) => next := DecayIsSteady(s, s.names, decay, rate);
    case Replace(name, change) => next := ReplaceIsSteady(s, name, change);
  }

  lemma ReplaceIsSteady(s: Scorer, name: string, change: Change) returns (next: Scorer)
    requires Steady(s)
    ensures next == if change.Reset? && name !in s.regions then s else Update(s, name, Changed(s.Of(name).level, change))
    ensures Steady(next)
  {
    next := s;
    if !change.Reset? || name in s.regions {
      assert Sound(s.Of(name).level);
      ChangedIsSound(s.Of(name).level, change);
      next := UpdateIsSteady(s, name, Changed(s.Of(name).level, change));
    }
  }

  lemma {:induction false} RunIsSteady(s: Scorer, steps: seq<Step>, decay: (Level, real) -> Level) returns (end: Scorer)
    requires Steady(s) && Rated(steps) && KeepSound(decay)
    ensures end == Run(s, steps, decay)
    ensures Steady(end)
  {
    if |steps| == 0 {
      end := s;
    } else {
      var before := RunIsSteady(s, steps[..|steps| - 1], decay);
      var step := steps[|steps| - 1];
      assert step.Decay? ==> KeepsSound(decay, step.rate);
      end := StepIsSteady(before, step, decay);
    }
  }

  function Conflict(x: real): Level { Level(x, Factors(x, 0.0, 0.0, 0.0)) }

  lemma NegativeDecayGrows(rate: real)
    requires rate < 0.0
    ensures Shrunk(100.0, rate / 100.0) == 100.0 - rate
  {
  }

  lemma FullDecay(rate: real)
    requires rate < 0.0
    ensures Decayed(Conflict(100.0), rate).factors.conflict == 100.0 - rate
  {
    NegativeDecayGrows(rate);
  }

  /** A rate keeps every sound level sound exactly when it is not negative: the constructor takes any. */
  lemma DecayKeepsSound(rate: real)
    ensures KeepsSound(Decayed, rate) <==> rate >= 0.0
  {
    if rate >= 0.0 {
      forall l | Sound(l) ensures Sound(Decayed(l, rate)) {
        DecayIsSound(l, rate);
      }
    } else {
      FullDecay(rate);
      assert Sound(Conflict(100.0)) && !Sound(Decayed(Conflict(100.0), rate));
    }
  }

  /** The most severe articles on a conflict. */
  function Conflicts(name: string, n: nat): seq<Step> { seq(n, _ => Replace(name, Process(ArmedConflict, 1.0))) }

  lemma OneConflict(x: real)
    requires 0.0 <= x <= 100.0
    ensures Processed(Conflict(x), ArmedConflict, 1.0) == Conflict(Min(100.0, x + 30.0))
  {
    assert Contribution(ArmedConflict, 1.0) == 30.0;
  }

  lemma {:induction false} ConflictsAdd(s: Scorer, name: string, n: nat, decay: (Level, real) -> Level) returns (x: real)
    requires s.Of(name) == Region(CALM, false)
    ensures 0.0 <= x <= 100.0 && (n >= 4 ==> x == 100.0) && (x == 100.0 || x == 30.0 * n as real)
    ensures Run(s, Conflicts(name, n), decay).Of(name).level == Conflict(x)
  {
    if n == 0 {
      x := 0.0;
    } else {
      var before := ConflictsAdd(s, name, n - 1, decay);
      assert Conflicts(name, n)[..n - 1] == Conflicts(name, n - 1);
      OneConflict(before);
      UpdateSetsOne(Run(s, Conflicts(name, n - 1), decay), name, Conflict(Min(100.0, before + 30.0)), name);
      x := Min(100.0, before + 30.0);
    }
  }

  lemma DecayStep(s: Scorer, steps: seq<Step>, rate: real, decay: (Level, real) -> Level, name: string)
    requires Listed(s) && Run(s, steps, decay).Score(name) > 0.0
    ensures Run(s, steps + [Decay(rate)], decay).Of(name).level == decay(Run(s, steps, decay).Of(name).level, rate)
  {
    var end := RunIsListed(s, steps, decay);
    assert (steps + [Decay(rate)])[..|steps|] == steps;
    assert name in end.regions;
    DecayReachesEach(end, end.names, decay, rate, name);
  }

  /** From a constructor with a negative rate, four articles and a decay take a factor out of its range. */
  lemma NegativeRateOverflows(s: Scorer, name: string, rate: real)
    requires Listed(s) && s.Of(name) == Region(CALM, false) && rate < 0.0
    ensures Run(s, Conflicts(name, 4) + [Decay(rate)], Decayed).Of(name).level.factors.conflict == 100.0 - rate > 100.0
  {
    var x := ConflictsAdd(s, name, 4, Decayed);
    DecayStep(s, Conflicts(name, 4), rate, Decayed, name);
    FullDecay(rate);
  }

  lemma NewIsTold(s: Scorer, name: string)
    requires s.alerts == [] && s.Of(name) == Region(CALM, false)
    ensures Told(s, name) && Sound(s.Of(name).level)
  {
    assert AlertsOf(s.alerts, name) == [];
    assert s.Score(name) == 0.0;
  }

  lemma NewIsSteady(s: Scorer)
    requires Listed(s) && s.alerts == [] && forall name :: s.Of(name) == Region(CALM, false)
    ensures Steady(s)
  {
    forall name ensures Told(s, name) && Sound(s.Of(name).level) {
      NewIsTold(s, name);
    }
  }

  /** In every run factors stay in range, scores are capped sums, and each region's alerts alternate with its score. */
  lemma EveryRunIsSteady(s: Scorer, steps: seq<Step>)
    requires Steady(s) && Rated(steps)
    ensures Steady(Run(s, steps, Decayed))
  {
    forall rate | rate >= 0.0 ensures KeepsSound(Decayed, rate) {
      DecayKeepsSound(rate);
    }
    var end := RunIsSteady(s, steps, Decayed);
  }

  // ----- Quiet regions calm down -----

  /** A decay over distinct names decays each named region exactly once, and no other. */
  lemma {:induction false} DecayReachesEach(s: Scorer, names: seq<string>, decay: (Level, real) -> Level, rate: real, name: string)
    requires forall i, j :: 0 <= i < j < |names| ==> names[i] != names[j]
    ensures var l := s.Of(name).level;
            DecayEach(s, names, decay, rate).Of(name).level == if name in names && l.score > 0.0 then decay(l, rate) else l
  {
    if |names| > 0 {
      var init, last := names[..|names| - 1], names[|names| - 1];
      DecayReachesEach(s, init, decay, rate, name);
      DecayOneReaches(DecayEach(s, init, decay, rate), last, decay, rate, name);
      assert last !in init;
      assert name in names <==> name in init || name == last;
    }
  }

  lemma DecayOneReaches(s: Scorer, last: string, decay: (Level, real) -> Level, rate: real, name: string)
    ensures var l := s.Of(name).level;
            DecayOne(s, last, decay, rate).Of(name).level == if name == last && l.score > 0.0 then decay(l, rate) else l
  {
    UpdateSetsOne(s, last, decay(s.Of(last).level, rate), name);
  }

  /** A region that has a score is listed, so decay adds none. */
  lemma {:induction false} DecayAddsNone(s: Scorer, names: seq<string>, decay: (Level, real) -> Level, rate: real)
    requires forall name :: name in names ==> name in s.regions
    ensures var r := DecayEach(s, names, decay, rate);
            r.names == s.names && forall name :: name in r.regions <==> name in s.regions
  {
    if |names| > 0 {
      assert names[|names| - 1] in names;
      DecayAddsNone(s, names[..|names| - 1], decay, rate);
    }
  }

  /** The listing of the regions is kept over a run. */
  lemma StepIsListed(s: Scorer, step: Step, decay: (Level, real) -> Level) returns (next: Scorer)
    requires Listed(s)
    ensures next == Apply(s, step, decay)
    ensures Listed(next)
  {
    next := Apply(s, step, decay);
    match step
    case Decay(rate) => DecayAddsNone(s, s.names, decay, rate);
    case Replace(name, change) => UpdateIsListed(s, name, Changed(s.Of(name).level, change));
  }

  lemma {:induction false} RunIsListed(s: Scorer, steps: seq<Step>, decay: (Level, real) -> Level) returns (end: Scorer)
    requires Listed(s)
    ensures end == Run(s, steps, decay)
    ensures Listed(end)
  {
    if |steps| == 0 {
      end := s;
    } else {
      var before := RunIsListed(s, steps[..|steps| - 1], decay);
      end := StepIsListed(before, steps[|steps| - 1], decay);
    }
  }

  /** No article, score or reset of this region. */
  predicate Quiet(steps: seq<Step>, name: string) {
    forall i :: 0 <= i < |steps| ==> steps[i].Decay? || steps[i].name != name
  }

  /** The rates of a run's decays, in order. */
  function Rates(steps: seq<Step>): seq<real> {
    if |steps| == 0 then []
    else Rates(steps[..|steps| - 1]) + if steps[|steps| - 1].Decay? then [steps[|steps| - 1].rate] else []
  }

  function Iterated(l: Level, rates: seq<real>, decay: (Level, real) -> Level): Level {
    if |rates| == 0 then l
    else
      var before := Iterated(l, rates[..|rates| - 1], decay);
      if before.score > 0.0 then decay(before, rates[|rates| - 1]) else before
  }

  lemma IterateOnce(l: Level, rates: seq<real>, rate: real, decay: (Level, real) -> Level)
    ensures var before := Iterated(l, rates, decay);
            Iterated(l, rates + [rate], decay) == if before.score > 0.0 then decay(before, rate) else before
  {
    assert (rates + [rate])[..|rates|] == rates;
  }

  /** Whatever happens elsewhere, a quiet region only decays, once per decay step. */
  lemma {:induction false} QuietRegionOnlyDecays(s: Scorer, steps: seq<Step>, decay: (Level, real) -> Level, name: string)
    requires Listed(s) && Quiet(steps, name)
    ensures Run(s, steps, decay).Of(name).level == Iterated(s.Of(name).level, Rates(steps), decay)
            || name !in Run(s, steps, decay).regions
    ensures name in Run(s, steps, decay).regions <==> name in s.regions
  {
    if |steps| > 0 {
      var init, step := steps[..|steps| - 1], steps[|steps| - 1];
      QuietRegionOnlyDecays(s, init, decay, name);
      var before := RunIsListed(s, init, decay);
      QuietStep(before, step, decay, name);
      if step.Decay? {
        IterateOnce(s.Of(name).level, Rates(init), step.rate, decay);
      } else {
        assert Rates(init) + [] == Rates(init);
      }
    }
  }

  lemma QuietStep(s: Scorer, step: Step, decay: (Level, real) -> Level, name: string)
    requires Listed(s) && (step.Decay? || step.name != name)
    ensures var (l, next) := (s.Of(name).level, Apply(s, step, decay));
            && (name in next.regions <==> name in s.regions)
            && (name in s.regions ==>
                  next.Of(name).level == if step.Decay? && l.score > 0.0 then decay(l, step.rate) else l)
  {
    if step.Decay? {
      DecayAddsNone(s, s.names, decay, step.rate);
      DecayReachesEach(s, s.names, decay, step.rate, name);
    } else {
      UpdateSetsOne(s, step.name, Changed(s.Of(step.name).level, step.change), name);
    }
  }

  /** A sound level stays sound and loses at least the rate, or all it has. */
  ghost predicate Cuts(decay: (Level, real) -> Level) {
    forall l, rate :: Sound(l) && rate >= 0.0 ==> CutsOne(l, decay(l, rate), rate)
  }

  predicate CutsOne(l: Level, m: Level, rate: real) {
    Sound(m) && m.factors.Sum() <= l.factors.Sum() - Min(rate, l.factors.Sum())
  }

  lemma {:induction false} IteratedFades(l: Level, rates: seq<real>, decay: (Level, real) -> Level) returns (end: Level)
    requires Sound(l) && Cuts(decay) && forall i :: 0 <= i < |rates| ==> rates[i] >= 0.0
    ensures end == Iterated(l, rates, decay) && Sound(end)
    ensures Sum(rates) >= 0.0 && end.factors.Sum() <= Max(0.0, l.factors.Sum() - Sum(rates))
  {
    if |rates| == 0 {
      end := l;
    } else {
      var before := IteratedFades(l, rates[..|rates| - 1], decay);
      end := FadeStep(before, rates[|rates| - 1], decay);
    }
  }

  lemma FadeStep(l: Level, rate: real, decay: (Level, real) -> Level) returns (next: Level)
    requires Sound(l) && Cuts(decay) && rate >= 0.0
    ensures next == if l.score > 0.0 then decay(l, rate) else l
    ensures Sound(next) && next.factors.Sum() <= Max(0.0, l.factors.Sum() - rate)
  {
    next := if l.score > 0.0 then decay(l, rate) else l;
    assert CutsOne(l, decay(l, rate), rate);
  }

  lemma DecayCutsAll()
    ensures Cuts(Decayed)
  {
    forall l, rate | Sound(l) && rate >= 0.0 ensures CutsOne(l, Decayed(l, rate), rate) {
      DecayIsSound(l, rate);
      DecayCuts(l, rate);
    }
  }

  lemma {:induction false} RatesAreRated(steps: seq<Step>)
    requires Rated(steps)
    ensures forall i :: 0 <= i < |Rates(steps)| ==> Rates(steps)[i] >= 0.0
  {
    if |steps| > 0 {
      RatesAreRated(steps[..|steps| - 1]);
    }
  }

  /** Once the rates of the decays add up to its factors, a quiet region is calm. */
  lemma QuietRegionCalms(s: Scorer, steps: seq<Step>, name: string)
    requires Steady(s) && name in s.regions && Quiet(steps, name) && Rated(steps)
    requires Sum(Rates(steps)) >= s.Of(name).level.factors.Sum()
    ensures Run(s, steps, Decayed).Of(name).level == CALM
  {
    DecayCutsAll();
    QuietCalms(s, steps, Decayed, name);
  }

  lemma QuietCalms(s: Scorer, steps: seq<Step>, decay: (Level, real) -> Level, name: string)
    requires Listed(s) && Sound(s.Of(name).level) && name in s.regions && Quiet(steps, name) && Rated(steps) && Cuts(decay)
    requires Sum(Rates(steps)) >= s.Of(name).level.factors.Sum()
    ensures Run(s, steps, decay).Of(name).level == CALM
  {
    RatesAreRated(steps);
    var end := IteratedFades(s.Of(name).level, Rates(steps), decay);
    NothingLeft(end);
    QuietRegionOnlyDecays(s, steps, decay, name);
  }

  lemma NothingLeft(l: Level)
    requires Sound(l) && l.factors.Sum() <= 0.0
    ensures l == CALM
  {
  }

  // ----- The reported score is rounded, the alerts are not -----

  /** Rounding halves to even. */
  function Round(x: real): int {
    var low := x.Floor;
    var part := x - low as real;
    if part < 0.5 then low else if part > 0.5 then low + 1 else if low % 2 == 0 then low else low + 1
  }

  /** A region is reported as high risk from 69.5, so report and alerts differ exactly on [69.5, 70). */
  lemma ReportedHighFromHalf(score: real)
    ensures Round(score) >= 70 <==> score >= 69.5
    ensures (Round(score) >= 70) != (score >= HIGH) <==> 69.5 <= score < 70.0
  {
    if score.Floor <= 68 {
      assert score < 69.0;
    } else if score.Floor >= 70 {
      assert score >= 70.0;
    } else {
      assert score.Floor == 69;
    }
  }

  // ----- The scorer's methods -----

  function Accepted(events: seq<Alert>, accepts: Alert -> bool): seq<Alert> {
    if |events| == 0 then []
    else Accepted(events[..|events| - 1], accepts) + if accepts(events[|events| - 1]) then [events[|events| - 1]] else []
  }

  predicate AllAccepted(events: seq<Alert>, accepts: Alert -> bool) {
    forall i :: 0 <= i < |events| ==> accepts(events[i])
  }

  lemma AllAcceptedSplits(init: seq<Alert>, last: Alert, accepts: Alert -> bool)
    ensures AllAccepted(init + [last], accepts) <==> AllAccepted(init, accepts) && accepts(last)
  {
    var events := init + [last];
    assert events[|init|] == last;
    if AllAccepted(events, accepts) {
      assert forall i :: 0 <= i < |init| ==> init[i] == events[i];
    }
  }

  lemma {:induction false} NoneIsAdded(events: seq<Alert>, accepts: Alert -> bool)
    ensures |Accepted(events, accepts)| <= |events|
  {
    if |events| > 0 {
      NoneIsAdded(events[..|events| - 1], accepts);
    }
  }

  /** Every alert gets out, in order, exactly when the bus refuses none. */
  lemma {:induction false} NoneIsLost(events: seq<Alert>, accepts: Alert -> bool)
    ensures |Accepted(events, accepts)| == |events| <==> AllAccepted(events, accepts)
    ensures |Accepted(events, accepts)| == |events| ==> Accepted(events, accepts) == events
  {
    if |events| > 0 {
      var init, last := events[..|events| - 1], events[|events| - 1];
      assert events == init + [last];
      NoneIsAdded(init, accepts);
      NoneIsLost(init, accepts);
      AllAcceptedSplits(init, last, accepts);
    }
  }

  class GeopoliticalRiskScorer {
    const connected: bool
    var decayRate: real
    var names: seq<string>
    var regions: map<string, Region>
    var pendingEvents: seq<Alert>
    ghost var dispatched: seq<Alert>

    ghost function State(): Scorer
      reads this
    {
      Scorer(names, regions, dispatched + pendingEvents)
    }

    /** The constructor takes the rate as it is; a bus may be connected or not. */
    constructor (supported: seq<string>, decayRate: real, connected: bool)
      requires forall i, j :: 0 <= i < j < |supported| ==> supported[i] != supported[j]
      ensures this.decayRate == decayRate && this.connected == connected && names == supported && State().alerts == []
      ensures Listed(State()) && forall name :: name in supported ==> State().Of(name) == Region(CALM, false)
    {
      this.decayRate, this.connected := decayRate, connected;
      names := supported;
      regions := map name | name in supported :: Region(CALM, false);
      pendingEvents, dispatched := [], [];
    }

    method SetDecayRate(value: real)
      modifies this`decayRate
      ensures decayRate == Max(0.0, value) && decayRate >= 0.0
    {
      decayRate := Max(0.0, value);
    }

    method CheckThresholdCrossing(name: string, oldScore: real, newScore: real)
      requires name in regions
      modifies this`regions, this`pendingEvents
      ensures dispatched + pendingEvents == old(dispatched + pendingEvents) + Crossing(name, oldScore, newScore)
      ensures regions == old(regions)[name := if (oldScore >= HIGH) == (newScore >= HIGH) then old(regions)[name]
                                              else old(regions)[name].(wasHigh := newScore >= HIGH)]
    {
      var wasHigh, isHigh := oldScore >= HIGH, newScore >= HIGH;
      if wasHigh == isHigh {
        assert pendingEvents + [] == pendingEvents;
        return;
      }
      regions := regions[name := regions[name].(wasHigh := isHigh)];
      pendingEvents := pendingEvents + [Alert(name, isHigh, newScore)];
    }

    /** Stores a new level and checks the threshold. */
    method Store(name: string, l: Level)
      modifies this`names, this`regions, this`pendingEvents
      ensures State() == Update(old(State()), name, l)
    {
      var region := if name in regions then regions[name] else Region(CALM, false);
      if name !in regions {
        names := names + [name];
      }
      regions := regions[name := region.(level := l)];
      CheckThresholdCrossing(name, region.level.score, l.score);
    }

    method ProcessArticle(name: string, factor: RiskFactor, severity: real)
      modifies this`names, this`regions, this`pendingEvents
      ensures State() == Apply(old(State()), Replace(name, Process(factor, severity)), Decayed)
    {
      var region := if name in regions then regions[name] else Region(CALM, false);
      var factors := region.level.factors;
      var contribution := Contribution(factor, severity);
      factors := factors.With(factor, Min(100.0, factors.Of(factor) + contribution));
      Store(name, Level(Min(100.0, factors.Sum()), factors));
    }

    method ApplyDecay()
      requires Listed(State())
      modifies this`names, this`regions, this`pendingEvents
      ensures State() == Apply(old(State()), Decay(decayRate), Decayed)
    {
      ghost var start := State();
      for i := 0 to |names|
        invariant names == start.names && regions.Keys == start.regions.Keys
        invariant State() == DecayEach(start, names[..i], Decayed, decayRate)
      {
        var name := names[i];
        assert start.names[i] in regions.Keys;
        assert names[..i + 1][..i] == names[..i];
        if regions[name].level.score > 0.0 {
          Store(name, Decayed(regions[name].level, decayRate));
        }
      }
      assert names[..|names|] == names;
    }

    method SetRegionScore(name: string, score: real)
      modifies this`names, this`regions, this`pendingEvents
      ensures State() == Apply(old(State()), Replace(name, SetScore(score)), Decayed)
    {
      var clamped := Max(0.0, Min(100.0, score));
      Store(name, Spread(clamped));
    }

    method ResetRegion(name: string)
      modifies this`names, this`regions, this`pendingEvents
      ensures State() == Apply(old(State()), Replace(name, Reset), Decayed)
    {
      if name in regions {
        Store(name, CALM);
      }
    }

    /** Without a bus the alerts stay pending. With one the queue is emptied, and what the bus refuses is lost. */
    method DispatchPendingEvents(accepts: Alert -> bool) returns (delivered: seq<Alert>)
      modifies this`pendingEvents, this`dispatched
      ensures State() == old(State())
      ensures pendingEvents == if connected then [] else old(pendingEvents)
      ensures delivered == if connected then Accepted(old(pendingEvents), accepts) else []
    {
      delivered := [];
      if |pendingEvents| == 0 || !connected {
        return;
      }
      var events := pendingEvents;
      pendingEvents := [];
      for i := 0 to |events|
        invariant delivered == Accepted(events[..i], accepts)
      {
        assert events[..i + 1][..i] == events[..i];
        if accepts(events[i]) {
          delivered := delivered + [events[i]];
        }
      }
      assert events[..|events|] == events;
      dispatched := dispatched + events;
      assert dispatched + [] == dispatched;
    }
  }
}
