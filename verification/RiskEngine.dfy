/** Signal validation: the kill switch, drawdown from the peak, the daily loss limit, then the remaining checks. */
module RiskEngine {
  import opened Core
  import K = KillSwitch

  // ----- The drawdown monitor -----

  /** Fractions of equity; the defaults are 3%, 10% and 15%. */
  datatype Thresholds = Thresholds(dailyLoss: real, reduction: real, kill: real)

  const DEFAULTS := Thresholds(0.03, 0.10, 0.15)

  datatype Monitor = Monitor(peak: real, dailyLoss: real, startEquity: real, day: int, limitHit: bool)

  datatype Decision = Allow | ReduceSize | Reject | Kill

  function Drawdown(peak: real, equity: real): real {
    if peak <= 0.0 || equity >= peak then 0.0 else (peak - equity) / peak
  }

  function DailyLimit(t: Thresholds, m: Monitor): real { m.startEquity * t.dailyLoss }

  /** A new day forgets the losses of the last. */
  function OnDay(m: Monitor, today: int): Monitor {
    if today > m.day then m.(dailyLoss := 0.0, limitHit := false, day := today) else m
  }

  function Risen(m: Monitor, equity: real): Monitor { m.(peak := Max(m.peak, equity)) }

  function Closed(t: Thresholds, m: Monitor, pnl: real, today: int): Monitor {
    var m := OnDay(m, today);
    var m := if pnl < 0.0 then m.(dailyLoss := m.dailyLoss - pnl) else m;
    if m.dailyLoss >= DailyLimit(t, m) then m.(limitHit := true) else m
  }

  /** The check reads the day once on entry, and again before it compares the day's loss, unless the limit was hit. */
  function Check(t: Thresholds, m: Monitor, equity: real, today: int, later: int): (Monitor, Decision) {
    var m := Risen(OnDay(m, today), equity);
    if Drawdown(m.peak, equity) >= t.kill then (m, Kill)
    else if m.limitHit then (m, Reject)
    else
      var m := OnDay(m, later);
      if m.dailyLoss >= DailyLimit(t, m) then (m, Reject)
      else (m, if Drawdown(m.peak, equity) >= t.reduction then ReduceSize else Allow)
  }

  // ----- Validating signals -----

  /** A signal with the results of the exposure, risk-reward and sizing checks. */
  datatype Signal = Signal(equity: real, exposureOk: bool, rewardOk: bool, sizeOk: bool)

  datatype Outcome = SwitchActive | DrawdownKill | DailyLoss | Exposure | RiskReward | Sizing | Allowed(reduced: bool)

  datatype Engine = Engine(switch: K.Switch, monitor: Monitor)

  function OutcomeOf(d: Decision, s: Signal): Outcome {
    if d.Kill? then DrawdownKill
    else if d.Reject? then DailyLoss
    else if !s.exposureOk then Exposure
    else if !s.rewardOk then RiskReward
    else if !s.sizeOk then Sizing
    else Allowed(d.ReduceSize?)
  }

  /** Everything up to the first await: an allowed signal is decided in one piece. */
  function Judge(t: Thresholds, e: Engine, s: Signal, today: int, later: int): (Engine, Outcome) {
    if e.switch.active then (e, SwitchActive)
    else
      var (m, d) := Check(t, e.monitor, s.equity, today, later);
      (e.(monitor := m), OutcomeOf(d, s))
  }

  /** The steps of all coroutines, in the order in which they run. */
  datatype Step =
    | Validate(signal: Signal, today: int, later: int)
    | Activate(source: string, now: int)
    | Deactivate(token: string, now: int)
    | Close(pnl: real, today: int)
    | NewDay(equity: real, today: int)
    | Observe(equity: real)

  function Apply(t: Thresholds, minimum: int, e: Engine, s: Step): Engine {
    match s
    case Validate(signal, today, later) => Judge(t, e, signal, today, later).0
    case Activate(source, now) => e.(switch := K.WithTrigger(e.switch, source, now))
    case Deactivate(token, now) => e.(switch := K.WithDeactivation(e.switch, minimum, token, now).0)
    case Close(pnl, today) => e.(monitor := Closed(t, e.monitor, pnl, today))
    case NewDay(equity, today) =>
      e.(monitor := e.monitor.(dailyLoss := 0.0, startEquity := equity, limitHit := false, day := today))
    case Observe(equity) => e.(monitor := Risen(e.monitor, equity))
  }

  function Start(equity: real, today: int): Engine { Engine(K.OFF, Monitor(equity, 0.0, equity, today, false)) }

  function Run(t: Thresholds, minimum: int, e: Engine, steps: seq<Step>): Engine {
    if |steps| == 0 then e else Apply(t, minimum, Run(t, minimum, e, steps[..|steps| - 1]), steps[|steps| - 1])
  }

  /** The outcome of the validation at step `j`. */
  function OutcomeAt(t: Thresholds, minimum: int, e: Engine, steps: seq<Step>, j: int): Outcome
    requires 0 <= j < |steps| && steps[j].Validate?
  {
    Judge(t, Run(t, minimum, e, steps[..j]), steps[j].signal, steps[j].today, steps[j].later).1
  }

  // ----- The latch -----

  lemma {:induction false} SwitchIsLatched(t: Thresholds, minimum: int, equity: real, day: int, steps: seq<Step>)
    ensures K.Latched(Run(t, minimum, Start(equity, day), steps).switch, minimum)
  {
    if |steps| > 0 {
      SwitchIsLatched(t, minimum, equity, day, steps[..|steps| - 1]);
      var before, s := Run(t, minimum, Start(equity, day), steps[..|steps| - 1]), steps[|steps| - 1];
      if s.Activate? {
        K.ActivateLatches(before.switch, minimum, s.source, s.now);
      } else if s.Deactivate? {
        K.DeactivateLatches(before.switch, minimum, s.token, s.now);
      }
    }
  }

  /** Under every interleaving a signal gets past the switch exactly when the last activation has been released. */
  lemma NothingPassesAnActiveSwitch(t: Thresholds, minimum: int, equity: real, day: int, steps: seq<Step>, j: int)
    requires 0 <= j < |steps| && steps[j].Validate?
    ensures var e := Start(equity, day);
            OutcomeAt(t, minimum, e, steps, j).SwitchActive? <==> K.ActiveAfter(Run(t, minimum, e, steps[..j]).switch.events)
  {
    SwitchIsLatched(t, minimum, equity, day, steps[..j]);
  }

  predicate OnSwitch(s: Step) { s.Activate? || s.Deactivate? }

  /** Activations and deactivations come in clock order, none after `clock`. */
  predicate Clocked(steps: seq<Step>, clock: int) {
    && (forall i :: 0 <= i < |steps| && OnSwitch(steps[i]) ==> steps[i].now <= clock)
    && forall i, j :: 0 <= i < j < |steps| && OnSwitch(steps[i]) && OnSwitch(steps[j]) ==> steps[i].now <= steps[j].now
  }

  lemma {:induction false} LogIsInOrder(t: Thresholds, minimum: int, e: Engine, steps: seq<Step>, clock: int)
    requires e.switch == K.OFF && Clocked(steps, clock)
    ensures var events := Run(t, minimum, e, steps).switch.events;
            K.InOrder(events) && K.UpTo(events, clock)
  {
    if |steps| > 0 {
      var init, s := steps[..|steps| - 1], steps[|steps| - 1];
      LogIsInOrder(t, minimum, e, init, if OnSwitch(s) then s.now else clock);
    }
  }

  /** Over every interleaving any two activations of the switch have an accepted deactivation between them, at least the
      minimum after the first. */
  lemma EveryRunSeparatesActivations(
    t: Thresholds, minimum: int, equity: real, day: int, steps: seq<Step>, clock: int, i: int, j: int) returns (k: int)
    requires Clocked(steps, clock)
    requires var events := Run(t, minimum, Start(equity, day), steps).switch.events;
             0 <= i < j < |events| && K.IsActivation(events[i]) && K.IsActivation(events[j])
    ensures var events := Run(t, minimum, Start(equity, day), steps).switch.events;
            i < k < j && events[k].Released? && K.TimeOf(events[i]) + minimum <= K.TimeOf(events[k]) <= K.TimeOf(events[j])
  {
    SwitchIsLatched(t, minimum, equity, day, steps);
    LogIsInOrder(t, minimum, Start(equity, day), steps, clock);
    k := K.ActivationsAreSeparated(Run(t, minimum, Start(equity, day), steps).switch.events, minimum, i, j);
  }

  // ----- Drawdown -----

  /** What is left of an equity after losing the fraction `k`. */
  function Rest(k: real, x: real): real { (1.0 - k) * x }

  /** Drawdown below a threshold means more than the rest of the peak is left. */
  lemma DrawdownBelow(peak: real, equity: real, k: real)
    requires peak > 0.0 && 0.0 < k <= 1.0
    ensures Drawdown(peak, equity) < k <==> equity > Rest(k, peak)
  {
    var loss := k * peak;
    assert Rest(k, peak) == peak - loss && loss > 0.0;
    if equity < peak {
      var d := (peak - equity) / peak;
      assert d * peak == peak - equity;
      if d < k {
        assert (k - d) * peak > 0.0;
        assert (k - d) * peak == loss - d * peak;
      } else {
        ScaleLe(k, d, peak);
      }
    }
  }

  lemma RestIsMonotone(k: real, x: real, peak: real)
    requires k <= 1.0 && x <= peak
    ensures Rest(k, x) <= Rest(k, peak)
  {
    ScaleLe(x, peak, 1.0 - k);
  }

  /** Steps never lower the peak. */
  lemma StepKeepsPeak(t: Thresholds, minimum: int, e: Engine, s: Step)
    ensures Apply(t, minimum, e, s).monitor.peak >= e.monitor.peak
  {
  }

  lemma {:induction false} RunKeepsPeak(t: Thresholds, minimum: int, e: Engine, steps: seq<Step>, i: nat)
    requires i <= |steps|
    ensures Run(t, minimum, e, steps).monitor.peak >= Run(t, minimum, e, steps[..i]).monitor.peak
  {
    if i == |steps| {
      assert steps[..i] == steps;
    } else {
      var init := steps[..|steps| - 1];
      RunKeepsPeak(t, minimum, e, init, i);
      assert init[..i] == steps[..i];
      StepKeepsPeak(t, minimum, Run(t, minimum, e, init), steps[|steps| - 1]);
    }
  }

  /** An equity judged at step `i` is below the peak ever after. */
  lemma JudgedIsBelowPeak(t: Thresholds, minimum: int, e: Engine, steps: seq<Step>, i: nat, j: nat)
    requires i < j <= |steps| && steps[i].Validate? && !OutcomeAt(t, minimum, e, steps, i).SwitchActive?
    ensures steps[i].signal.equity <= Run(t, minimum, e, steps[..j]).monitor.peak
  {
    RunKeepsPeak(t, minimum, e, steps[..j], i + 1);
    assert steps[..j][..i + 1] == steps[..i + 1] && steps[..i + 1][..i] == steps[..i];
    assert Run(t, minimum, e, steps[..i + 1]) == Apply(t, minimum, Run(t, minimum, e, steps[..i]), steps[i]);
  }

  /** Whatever happens in between, an allowed signal has more than (1 - kill) of the starting equity and of every equity
      judged before it: with the default threshold more than 85%. */
  lemma AllowedStaysNearEveryPeak(t: Thresholds, minimum: int, equity: real, day: int, steps: seq<Step>, i: nat, j: nat)
    requires equity > 0.0 && 0.0 < t.kill <= 1.0
    requires i <= j < |steps| && steps[j].Validate? && OutcomeAt(t, minimum, Start(equity, day), steps, j).Allowed?
    requires steps[i].Validate? && !OutcomeAt(t, minimum, Start(equity, day), steps, i).SwitchActive?
    ensures steps[j].signal.equity > Rest(t.kill, equity)
    ensures steps[j].signal.equity > Rest(t.kill, steps[i].signal.equity)
  {
    var e, before := Start(equity, day), Run(t, minimum, Start(equity, day), steps[..j]);
    RunKeepsPeak(t, minimum, e, steps[..j], 0);
    assert steps[..j][..0] == [];
    var peak, now := Max(before.monitor.peak, steps[j].signal.equity), steps[j].signal.equity;
    assert steps[i].signal.equity <= peak by {
      if i < j {
        JudgedIsBelowPeak(t, minimum, e, steps, i, j);
      }
    }
    AllowedIsBelow(t, before, steps[j].signal, steps[j].today, steps[j].later);
    assert now > Rest(t.kill, peak) by { DrawdownBelow(peak, now, t.kill); }
    RestIsMonotone(t.kill, equity, peak);
    RestIsMonotone(t.kill, steps[i].signal.equity, peak);
  }

  lemma AllowedIsBelow(t: Thresholds, e: Engine, s: Signal, today: int, later: int)
    requires Judge(t, e, s, today, later).1.Allowed?
    ensures Drawdown(Max(e.monitor.peak, s.equity), s.equity) < t.kill
  {
  }

  /** With the platform's settings an allowed signal has more than 85% of every equity judged before it. */
  lemma DefaultsKeepTheirPromise(equity: real, day: int, steps: seq<Step>, i: nat, j: nat)
    requires equity > 0.0 && i <= j < |steps| && steps[i].Validate? && steps[j].Validate?
    requires OutcomeAt(DEFAULTS, K.DEFAULT_MINIMUM, Start(equity, day), steps, j).Allowed?
    requires !OutcomeAt(DEFAULTS, K.DEFAULT_MINIMUM, Start(equity, day), steps, i).SwitchActive?
    ensures steps[j].signal.equity > 0.85 * equity && steps[j].signal.equity > 0.85 * steps[i].signal.equity
  {
    AllowedStaysNearEveryPeak(DEFAULTS, K.DEFAULT_MINIMUM, equity, day, steps, i, j);
  }

  /** A signal that passes the switch asks for the kill switch exactly when it falls to (1 - kill) of the peak or below. */
  lemma KillIsExact(t: Thresholds, e: Engine, s: Signal, today: int, later: int)
    requires !e.switch.active && e.monitor.peak > 0.0 && 0.0 < t.kill <= 1.0
    ensures Judge(t, e, s, today, later).1.DrawdownKill? <==> s.equity <= Rest(t.kill, Max(e.monitor.peak, s.equity))
  {
    DrawdownBelow(Max(e.monitor.peak, s.equity), s.equity, t.kill);
  }

  /** The documentation asks for the kill above the threshold only: the code departs exactly on it. */
  lemma KillDepartsAtThreshold(t: Thresholds, e: Engine, s: Signal, today: int, later: int)
    requires !e.switch.active && e.monitor.peak > 0.0 && 0.0 < t.kill <= 1.0
    ensures var peak := Max(e.monitor.peak, s.equity);
            Judge(t, e, s, today, later).1.DrawdownKill? != (Drawdown(peak, s.equity) > t.kill)
            <==> s.equity == Rest(t.kill, peak)
  {
    DrawdownIs(Max(e.monitor.peak, s.equity), s.equity, t.kill);
  }

  lemma DrawdownIs(peak: real, equity: real, k: real)
    requires peak > 0.0 && 0.0 < k <= 1.0
    ensures Drawdown(peak, equity) == k <==> equity == Rest(k, peak)
  {
    var loss := k * peak;
    assert Rest(k, peak) == peak - loss && loss > 0.0;
    if equity < peak {
      var d := (peak - equity) / peak;
      assert d * peak == peak - equity;
      assert (k - d) * peak == loss - d * peak;
      assert k != d ==> (k - d) * peak != 0.0;
    }
  }

  // ----- The daily loss limit -----

  /** Losses closed on a day since the monitor was last set to a new day by hand. */
  function LossOn(steps: seq<Step>, day: int): real {
    if |steps| == 0 then 0.0
    else
      var init := steps[..|steps| - 1];
      match steps[|steps| - 1]
      case Close(pnl, today) => LossOn(init, day) + if today == day && pnl < 0.0 then -pnl else 0.0
      case NewDay(_, _) => 0.0
      case _ => LossOn(init, day)
  }

  function StartOfDay(steps: seq<Step>, equity: real): real {
    if |steps| == 0 then equity
    else if steps[|steps| - 1].NewDay? then steps[|steps| - 1].equity
    else StartOfDay(steps[..|steps| - 1], equity)
  }

  /** No step reads a day after `day`, and days never run back; `from` is the first. */
  predicate DaysUpTo(steps: seq<Step>, from: int, day: int)
    decreases |steps|
  {
    if |steps| == 0 then from <= day
    else
      var init := steps[..|steps| - 1];
      match steps[|steps| - 1]
      case Validate(_, today, later) => today <= later <= day && DaysUpTo(init, from, today)
      case Close(_, today) => today <= day && DaysUpTo(init, from, today)
      case NewDay(equity, today) => today <= day && equity > 0.0 && DaysUpTo(init, from, today)
      case _ => DaysUpTo(init, from, day)
  }

  lemma {:induction false} LaterDaysHaveNoLoss(steps: seq<Step>, from: int, day: int, later: int)
    requires DaysUpTo(steps, from, day) && day < later
    ensures LossOn(steps, later) == 0.0 && DaysUpTo(steps, from, later)
  {
    if |steps| > 0 {
      var init := steps[..|steps| - 1];
      match steps[|steps| - 1]
      case Validate(_, today, _) => LaterDaysHaveNoLoss(init, from, today, later);
      case Close(_, today) => LaterDaysHaveNoLoss(init, from, today, later);
      case NewDay(_, today) => LaterDaysHaveNoLoss(init, from, today, later);
      case Activate(_, _) => LaterDaysHaveNoLoss(init, from, day, later);
      case Deactivate(_, _) => LaterDaysHaveNoLoss(init, from, day, later);
      case Observe(_) => LaterDaysHaveNoLoss(init, from, day, later);
    }
  }

  /** What the monitor knows on a day is what was closed on it. */
  predicate Tracks(t: Thresholds, m: Monitor, steps: seq<Step>, equity: real, day: int) {
    && m.day <= day && m.startEquity == StartOfDay(steps, equity)
    && OnDay(m, day).dailyLoss == LossOn(steps, day)
    && (OnDay(m, day).limitHit <==> LossOn(steps, day) >= DailyLimit(t, m))
  }

  lemma TracksLater(t: Thresholds, m: Monitor, steps: seq<Step>, equity: real, from: int, day: int, later: int)
    requires Tracks(t, m, steps, equity, day) && DaysUpTo(steps, from, day) && day <= later && DailyLimit(t, m) > 0.0
    ensures Tracks(t, m, steps, equity, later)
  {
    if day < later {
      LaterDaysHaveNoLoss(steps, from, day, later);
    }
  }

  lemma {:induction false} StartOfDayIsPositive(steps: seq<Step>, equity: real, from: int, day: int)
    requires equity > 0.0 && DaysUpTo(steps, from, day)
    ensures StartOfDay(steps, equity) > 0.0
  {
    if |steps| > 0 && !steps[|steps| - 1].NewDay? {
      var s := steps[|steps| - 1];
      StartOfDayIsPositive(steps[..|steps| - 1], equity, from, if s.Validate? || s.Close? then s.today else day);
    }
  }

  lemma LimitIsPositive(t: Thresholds, m: Monitor)
    requires t.dailyLoss > 0.0 && m.startEquity > 0.0
    ensures DailyLimit(t, m) > 0.0
  {
  }

  /** The day a step starts on, when all its readings are at most `day`. */
  function FirstDay(s: Step, day: int): int { if s.Validate? || s.Close? || s.NewDay? then s.today else day }

  lemma ClosedCounts(t: Thresholds, m: Monitor, pnl: real, today: int) returns (next: Monitor, loss: real)
    requires m.day <= today
    ensures next == Closed(t, m, pnl, today) == OnDay(next, today) && next.day <= today && next.startEquity == m.startEquity
    ensures loss == (if pnl < 0.0 then -pnl else 0.0) >= 0.0
    ensures next.dailyLoss == OnDay(m, today).dailyLoss + loss
    ensures next.limitHit <==> OnDay(m, today).limitHit || next.dailyLoss >= DailyLimit(t, m)
  {
    next, loss := Closed(t, m, pnl, today), if pnl < 0.0 then -pnl else 0.0;
    SameLimit(t, m, OnDay(m, today));
  }

  lemma SameLimit(t: Thresholds, m: Monitor, next: Monitor)
    requires next.startEquity == m.startEquity
    ensures DailyLimit(t, next) == DailyLimit(t, m)
  {
  }

  lemma CloseTracks(t: Thresholds, m: Monitor, steps: seq<Step>, pnl: real, equity: real, today: int)
    requires Tracks(t, m, steps, equity, today)
    ensures Tracks(t, Closed(t, m, pnl, today), steps + [Close(pnl, today)], equity, today)
  {
    assert (steps + [Close(pnl, today)])[..|steps|] == steps;
    var next, loss := ClosedCounts(t, m, pnl, today);
    SameLimit(t, m, next);
  }

  lemma StepTracks(t: Thresholds, e: Engine, minimum: int, steps: seq<Step>, s: Step, equity: real, from: int, day: int)
    requires Tracks(t, e.monitor, steps, equity, FirstDay(s, day)) && DaysUpTo(steps + [s], from, day)
    requires DailyLimit(t, e.monitor) > 0.0 && DailyLimit(t, Apply(t, minimum, e, s).monitor) > 0.0
    ensures Tracks(t, Apply(t, minimum, e, s).monitor, steps + [s], equity, day)
  {
    var all, next := steps + [s], Apply(t, minimum, e, s);
    assert all[..|steps|] == steps;
    match s
    case Validate(_, today, later) => TracksLater(t, e.monitor, steps, equity, from, today, day);
    case Close(pnl, today) =>
      assert DaysUpTo(all, from, today);
      CloseTracks(t, e.monitor, steps, pnl, equity, today);
      TracksLater(t, next.monitor, all, equity, from, today, day);
    case NewDay(_, today) =>
      assert DaysUpTo(all, from, today);
      TracksLater(t, next.monitor, all, equity, from, today, day);
    case Activate(_, _) =>
    case Deactivate(_, _) =>
    case Observe(_) =>
  }

  lemma {:induction false} RunTracks(
    t: Thresholds, minimum: int, equity: real, from: int, steps: seq<Step>, day: int)
    requires equity > 0.0 && t.dailyLoss > 0.0 && DaysUpTo(steps, from, day)
    ensures Tracks(t, Run(t, minimum, Start(equity, from), steps).monitor, steps, equity, day)
    ensures DailyLimit(t, Run(t, minimum, Start(equity, from), steps).monitor) > 0.0
  {
    var end := Run(t, minimum, Start(equity, from), steps);
    if |steps| == 0 {
      LimitIsPositive(t, end.monitor);
    } else {
      var init, s := steps[..|steps| - 1], steps[|steps| - 1];
      RunTracks(t, minimum, equity, from, init, FirstDay(s, day));
      assert init + [s] == steps;
      assert end.monitor.startEquity == StartOfDay(steps, equity);
      StartOfDayIsPositive(steps, equity, from, day);
      LimitIsPositive(t, end.monitor);
      StepTracks(t, Run(t, minimum, Start(equity, from), init), minimum, init, s, equity, from, day);
    }
  }

  lemma RejectsOnLoss(t: Thresholds, e: Engine, s: Signal, today: int, later: int)
    ensures var outcome := Judge(t, e, s, today, later).1;
            !outcome.SwitchActive? && !outcome.DrawdownKill?
            ==> (outcome.DailyLoss? <==> OnDay(e.monitor, today).limitHit
                                         || OnDay(OnDay(e.monitor, today), later).dailyLoss >= DailyLimit(t, e.monitor))
  {
    var m := OnDay(OnDay(Risen(OnDay(e.monitor, today), s.equity), today), later);
    assert DailyLimit(t, m) == DailyLimit(t, e.monitor);
  }

  /** The daily limit rejects a signal exactly when the losses closed on its day have reached the limit. */
  lemma DailyRejectionIsExact(
    t: Thresholds, minimum: int, equity: real, from: int, steps: seq<Step>, s: Signal, today: int, later: int)
    requires equity > 0.0 && t.dailyLoss > 0.0 && DaysUpTo(steps, from, today) && today <= later
    ensures var e := Run(t, minimum, Start(equity, from), steps);
            var outcome := Judge(t, e, s, today, later).1;
            !outcome.SwitchActive? && !outcome.DrawdownKill?
            ==> (outcome.DailyLoss? <==> LossOn(steps, today) >= DailyLimit(t, e.monitor))
  {
    RunTracks(t, minimum, equity, from, steps, today);
    var e := Run(t, minimum, Start(equity, from), steps);
    var m := e.monitor;
    RejectsOnLoss(t, e, s, today, later);
    TracksLater(t, m, steps, equity, from, today, later);
    if today < later {
      LaterDaysHaveNoLoss(steps, from, today, later);
    }
  }

  // ----- The monitor and the engine -----

  class DrawdownMonitor {
    const thresholds: Thresholds
    var peakEquity: real
    var dailyRealizedLoss: real
    var dailyStartEquity: real
    var currentDay: int
    var dailyLossLimitHit: bool

    ghost function State(): Monitor
      reads this
    {
      Monitor(peakEquity, dailyRealizedLoss, dailyStartEquity, currentDay, dailyLossLimitHit)
    }

    constructor (thresholds: Thresholds, equity: real, today: int)
      ensures this.thresholds == thresholds && State() == Start(equity, today).monitor
    {
      this.thresholds := thresholds;
      peakEquity, dailyRealizedLoss, dailyStartEquity, currentDay, dailyLossLimitHit := equity, 0.0, equity, today, false;
    }

    method UpdateEquity(equity: real)
      modifies this
      ensures State() == Risen(old(State()), equity)
    {
      if equity > peakEquity {
        peakEquity := equity;
      }
    }

    method ResetDailyIfNeeded(today: int)
      modifies this
      ensures State() == OnDay(old(State()), today)
    {
      if today > currentDay {
        dailyRealizedLoss, dailyLossLimitHit, currentDay := 0.0, false, today;
      }
    }

    method UpdateOnTradeClose(pnl: real, today: int)
      modifies this
      ensures State() == Closed(thresholds, old(State()), pnl, today)
    {
      ResetDailyIfNeeded(today);
      if pnl < 0.0 {
        dailyRealizedLoss := dailyRealizedLoss + Abs(pnl);
      }
      var dailyLimit := dailyStartEquity * thresholds.dailyLoss;
      if dailyRealizedLoss >= dailyLimit {
        dailyLossLimitHit := true;
      }
    }

    method CheckTradeAllowed(equity: real, today: int, later: int) returns (decision: Decision)
      modifies this
      ensures (State(), decision) == Check(thresholds, old(State()), equity, today, later)
    {
      ResetDailyIfNeeded(today);
      UpdateEquity(equity);
      var drawdown := Drawdown(peakEquity, equity);
      if drawdown >= thresholds.kill {
        return Kill;
      }
      if dailyLossLimitHit {
        return Reject;
      }
      ResetDailyIfNeeded(later);
      var dailyLimit := dailyStartEquity * thresholds.dailyLoss;
      if dailyRealizedLoss >= dailyLimit {
        return Reject;
      }
      if drawdown >= thresholds.reduction {
        return ReduceSize;
      }
      return Allow;
    }
  }

  class SignalValidator {
    const monitor: DrawdownMonitor
    const switch: K.KillSwitch

    constructor (monitor: DrawdownMonitor, switch: K.KillSwitch)
      ensures this.monitor == monitor && this.switch == switch
    {
      this.monitor, this.switch := monitor, switch;
    }

    ghost function State(): Engine
      reads this, monitor, switch
    {
      Engine(switch.State(), monitor.State())
    }

    /** The whole call when nothing runs during its awaits: a drawdown kill activates the switch. */
    method ValidateSignal(s: Signal, today: int, later: int, now: int) returns (outcome: Outcome)
      requires switch.Valid()
      modifies monitor, switch
      ensures switch.Valid()
      ensures outcome == Judge(monitor.thresholds, old(State()), s, today, later).1
      ensures var judged := Judge(monitor.thresholds, old(State()), s, today, later).0;
              State() == if outcome.DrawdownKill? then Apply(monitor.thresholds, switch.minimum, judged, Activate("drawdown", now))
                         else judged
    {
      var passes := switch.IsSignalAllowed();
      if !passes {
        return SwitchActive;
      }
      var decision := monitor.CheckTradeAllowed(s.equity, today, later);
      if decision.Kill? {
        var activated := switch.Activate("drawdown", now);
        return DrawdownKill;
      }
      if decision.Reject? {
        return DailyLoss;
      }
      if !s.exposureOk {
        return Exposure;
      }
      if !s.rewardOk {
        return RiskReward;
      }
      if !s.sizeOk {
        return Sizing;
      }
      return Allowed(decision.ReduceSize?);
    }
  }
}
