/** High-frequency order limits: rolling rate counters, rolling PnL and the circuit breaker. */
module HftRisk {
  import opened Core
  import opened SlidingWindow

  /** Clock ticks per second. */
  const SECOND := 1_000_000
  const PNL_WINDOW := 60 * SECOND
  const HALT := 60 * SECOND
  const ESCALATION_WINDOW := 3600 * SECOND
  const MAX_ACTIVATIONS := 3

  // ----- Order rates -----

  /** Every order ever recorded, over all instruments and per instrument. */
  datatype Log = Log(total: seq<int>, per: map<string, seq<int>>) {
    function Of(instrument: string): seq<int> { if instrument in per then per[instrument] else [] }

    function Append(instrument: string, at: int): Log { this.(per := per[instrument := Of(instrument) + [at]]) }

    /** The two counters read the clock one after the other. */
    function Record(instrument: string, atGlobal: int, atInstrument: int): Log {
      this.(total := total + [atGlobal]).Append(instrument, atInstrument)
    }
  }

  datatype Limits = Limits(perSecond: int, perInstrument: int)

  function LimitsOf(maxOrderRate: int, maxPerInstrumentRate: int): Limits {
    Limits(MaxInt(10, MinInt(500, maxOrderRate)), maxPerInstrumentRate)
  }

  /** The combined check on full histories. */
  predicate Allows(l: Limits, log: Log, instrument: string, atGlobal: int, atInstrument: int) {
    && CountIn(log.total, Tick, atGlobal - SECOND + 1, atGlobal) < l.perSecond
    && CountIn(log.Of(instrument), Tick, atInstrument - SECOND + 1, atInstrument) < l.perInstrument
  }

  /** One order: the check's two clock readings, then the record's. */
  datatype Order = Order(instrument: string, check: (int, int), stamp: (int, int))
  {
    predicate InOrder() { check.0 <= check.1 <= stamp.0 <= stamp.1 }
  }

  /** Recording happens right after an allowed check, and only then. */
  function Submit(l: Limits, log: Log, o: Order): Log {
    if Allows(l, log, o.instrument, o.check.0, o.check.1) then log.Record(o.instrument, o.stamp.0, o.stamp.1) else log
  }

  function Run(l: Limits, orders: seq<Order>): Log {
    if |orders| == 0 then Log([], map[]) else Submit(l, Run(l, orders[..|orders| - 1]), orders[|orders| - 1])
  }

  predicate Monotone(orders: seq<Order>) {
    && (forall i :: 0 <= i < |orders| ==> orders[i].InOrder())
    && forall i :: 0 < i < |orders| ==> orders[i - 1].stamp.1 <= orders[i].check.0
  }

  /** No recorded order is later than this. */
  ghost predicate UpTo(log: Log, now: int) {
    NotAfter(log.total, Tick, now) && forall i :: i in log.per ==> NotAfter(log.per[i], Tick, now)
  }

  /** Every half-open second holds at most the global and the per-instrument maximum. */
  ghost predicate WithinLimits(l: Limits, log: Log) {
    && Bounded(log.total, Tick, SECOND - 1, MaxInt(0, l.perSecond))
    && forall i :: i in log.per ==> Bounded(log.per[i], Tick, SECOND - 1, MaxInt(0, l.perInstrument))
  }

  lemma SubmitKeepsLimits(l: Limits, log: Log, o: Order)
    requires WithinLimits(l, log) && o.InOrder() && UpTo(log, o.check.0)
    ensures WithinLimits(l, Submit(l, log, o)) && UpTo(Submit(l, log, o), o.stamp.1)
  {
    if Allows(l, log, o.instrument, o.check.0, o.check.1) {
      SinceCounts(log.total, Tick, o.check.0 - SECOND + 1, o.check.0);
      AdmitKeepsBounded(log.total, o.stamp.0, Tick, o.check.0, SECOND - 1, MaxInt(0, l.perSecond));
      var own := log.Of(o.instrument);
      SinceCounts(own, Tick, o.check.1 - SECOND + 1, o.check.1);
      AdmitKeepsBounded(own, o.stamp.1, Tick, o.check.1, SECOND - 1, MaxInt(0, l.perInstrument));
    }
  }

  /** Rate bounds hold over every window of every run, not only when they are checked. */
  lemma {:induction false} EveryRunKeepsLimits(l: Limits, orders: seq<Order>)
    requires Monotone(orders)
    ensures WithinLimits(l, Run(l, orders))
    ensures |orders| > 0 ==> UpTo(Run(l, orders), orders[|orders| - 1].stamp.1)
  {
    if |orders| > 0 {
      EveryRunKeepsLimits(l, orders[..|orders| - 1]);
      SubmitKeepsLimits(l, Run(l, orders[..|orders| - 1]), orders[|orders| - 1]);
    }
  }

  // ----- The circuit breaker -----

  function At(entry: (int, real)): int { entry.0 }

  function Total(entries: seq<(int, real)>): real {
    if |entries| == 0 then 0.0 else Total(entries[..|entries| - 1]) + entries[|entries| - 1].1
  }

  /** PnL over the half-open minute that ends now, out of the full history. */
  function RollingPnl(pnls: seq<(int, real)>, now: int): real { Total(Since(pnls, At, now - PNL_WINDOW + 1)) }

  function LossLimit(equity: real): real { -equity / 200.0 }

  /** The last minute lost more than 0.5% of equity. */
  predicate Breached(pnls: seq<(int, real)>, now: int, equity: real) { RollingPnl(pnls, now) < LossLimit(equity) }

  /** `events` is the full history of activations. */
  datatype Breaker = Breaker(active: bool, since: Option<int>, events: seq<int>, disabled: bool)

  /** Manual steps read no clock themselves; `now` says when they were made. `breached` is the rolling test's outcome. */
  datatype Step =
    | UpdatePnl(now: int, later: int, breached: bool)
    | Poll(now: int)
    | Activate(now: int)
    | Deactivate(now: int)
    | ReEnable(now: int)
  {
    function End(): int { if UpdatePnl? then later else now }
  }

  function ActivateAt(b: Breaker, now: int): Breaker {
    var events := b.events + [now];
    b.(active := true, since := Some(now), events := events,
       disabled := b.disabled || |Since(events, Tick, now - ESCALATION_WINDOW + 1)| >= MAX_ACTIVATIONS)
  }

  predicate Allowed(b: Breaker, now: int) {
    !b.disabled && (b.active && b.since.Some? ==> now - b.since.value >= HALT)
  }

  function Apply(b: Breaker, s: Step): Breaker {
    match s
    case UpdatePnl(_, later, breached) => if breached && !b.active then ActivateAt(b, later) else b
    case Poll(now) => if b.active && b.since.Some? && Allowed(b, now) then b.(active := false, since := None) else b
    case Activate(now) => ActivateAt(b, now)
    case Deactivate(_) => b.(active := false, since := None)
    case ReEnable(_) => b.(active := false, since := None, disabled := false)
  }

  function After(steps: seq<Step>): Breaker {
    if |steps| == 0 then Breaker(false, None, [], false) else Apply(After(steps[..|steps| - 1]), steps[|steps| - 1])
  }

  predicate Timed(steps: seq<Step>) {
    && (forall i :: 0 <= i < |steps| ==> steps[i].now <= steps[i].End())
    && forall i :: 0 < i < |steps| ==> steps[i - 1].End() <= steps[i].now
  }

  /** Activation `k` came less than an hour after the last but one before it. */
  predicate IsThird(events: seq<int>, k: int) {
    MAX_ACTIVATIONS - 1 <= k < |events| && events[k] - events[k - MAX_ACTIVATIONS + 1] < ESCALATION_WINDOW
  }

  ghost predicate Burst(events: seq<int>) { exists k :: IsThird(events, k) }

  lemma BurstAppend(events: seq<int>, now: int)
    ensures Burst(events + [now]) <==> Burst(events) || IsThird(events + [now], |events|)
  {
    var all := events + [now];
    if Burst(events) {
      var k :| IsThird(events, k);
      assert IsThird(all, k);
    }
    if Burst(all) {
      var k :| IsThird(all, k);
      assert k < |events| ==> IsThird(events, k);
    }
  }

  predicate Ordered(events: seq<int>) { forall i, j :: 0 <= i <= j < |events| ==> events[i] <= events[j] }

  lemma {:induction false} SinceNone(events: seq<int>, from: int)
    requires forall i :: 0 <= i < |events| ==> events[i] < from
    ensures Since(events, Tick, from) == []
  {
    if |events| > 0 {
      SinceNone(events[..|events| - 1], from);
    }
  }

  /** In a time-ordered list the entries since a cutoff are its last ones. */
  lemma {:induction false} SinceIsSuffix(events: seq<int>, from: int) returns (k: nat)
    requires Ordered(events)
    ensures k <= |events| && |Since(events, Tick, from)| == |events| - k
    ensures forall i :: 0 <= i < |events| ==> (i < k <==> events[i] < from)
  {
    k := 0;
    if |events| > 0 {
      k := SinceIsSuffix(events[..|events| - 1], from);
      if events[|events| - 1] < from {
        k := |events|;
        SinceNone(events, from);
      } else if k > 0 {
        assert events[k - 1] == events[..|events| - 1][k - 1];
      }
    }
  }

  /** So three or more are recent exactly when the third last is. */
  lemma ThirdLastDecides(events: seq<int>, from: int)
    requires Ordered(events)
    ensures |Since(events, Tick, from)| >= MAX_ACTIVATIONS <==> |events| >= 3 && events[|events| - 3] >= from
  {
    var k := SinceIsSuffix(events, from);
  }

  lemma EventsStep(events: seq<int>, now: int)
    requires Ordered(events) && NotAfter(events, Tick, now)
    ensures Ordered(events + [now]) && NotAfter(events + [now], Tick, now)
    ensures Burst(events + [now])
       <==> Burst(events) || |Since(events + [now], Tick, now - ESCALATION_WINDOW + 1)| >= MAX_ACTIVATIONS
  {
    BurstAppend(events, now);
    ThirdLastDecides(events + [now], now - ESCALATION_WINDOW + 1);
  }

  /** A step either leaves the activations alone or adds one, which disables trading when it is the third in its hour. */
  lemma StepEvents(b: Breaker, s: Step)
    ensures var next := Apply(b, s);
            || (next.events == b.events && next.disabled == (b.disabled && !s.ReEnable?))
            || (&& !s.ReEnable? && next.events == b.events + [s.End()]
                && next.disabled == (b.disabled
                                     || |Since(next.events, Tick, s.End() - ESCALATION_WINDOW + 1)| >= MAX_ACTIVATIONS))
  {
  }

  lemma StepKeepsOrder(b: Breaker, s: Step)
    requires Ordered(b.events) && NotAfter(b.events, Tick, s.now) && s.now <= s.End()
    ensures Ordered(Apply(b, s).events) && NotAfter(Apply(b, s).events, Tick, s.End())
  {
    if Apply(b, s).events == b.events {
    } else {
      StepEvents(b, s);
    }
  }

  lemma {:induction false} EventsAreOrdered(steps: seq<Step>)
    requires Timed(steps)
    ensures Ordered(After(steps).events)
    ensures |steps| > 0 ==> NotAfter(After(steps).events, Tick, steps[|steps| - 1].End())
    ensures |steps| == 0 ==> After(steps).events == []
  {
    if |steps| > 0 {
      EventsAreOrdered(steps[..|steps| - 1]);
      StepKeepsOrder(After(steps[..|steps| - 1]), steps[|steps| - 1]);
    }
  }

  lemma StepEscalates(b: Breaker, s: Step)
    requires Ordered(b.events) && NotAfter(b.events, Tick, s.End())
    ensures (b.disabled ==> Burst(b.events)) ==> Apply(b, s).disabled ==> Burst(Apply(b, s).events)
    ensures !s.ReEnable? && (b.disabled <==> Burst(b.events)) ==> (Apply(b, s).disabled <==> Burst(Apply(b, s).events))
  {
    StepEvents(b, s);
    EventsStep(b.events, s.End());
  }

  /** Trading is disabled only by three activations within an hour, and by every such burst unless re-enabled. */
  lemma {:induction false} EscalationIsExact(steps: seq<Step>)
    requires Timed(steps)
    ensures After(steps).disabled ==> Burst(After(steps).events)
    ensures (forall i :: 0 <= i < |steps| ==> !steps[i].ReEnable?) ==> (Burst(After(steps).events) <==> After(steps).disabled)
  {
    if |steps| > 0 {
      var b, s := After(steps[..|steps| - 1]), steps[|steps| - 1];
      EscalationIsExact(steps[..|steps| - 1]);
      EventsAreOrdered(steps[..|steps| - 1]);
      StepEscalates(b, s);
    }
  }

  /** Re-enabling forgets no activation: the next one disables again exactly when two came within the hour before. */
  lemma ReEnablingForgetsNothing(b: Breaker, manual: int, now: int)
    requires NotAfter(b.events, Tick, now)
    ensures Apply(Apply(b, ReEnable(manual)), Activate(now)).disabled
       <==> CountIn(b.events, Tick, now - ESCALATION_WINDOW + 1, now) >= MAX_ACTIVATIONS - 1
  {
    SinceAppend(b.events, now, Tick, now - ESCALATION_WINDOW + 1);
    SinceCounts(b.events, Tick, now - ESCALATION_WINDOW + 1, now);
  }

  predicate Automatic(steps: seq<Step>) { forall i :: 0 <= i < |steps| ==> steps[i].UpdatePnl? || steps[i].Poll? }

  predicate Spaced(events: seq<int>) { forall i, j :: 0 <= i < j < |events| ==> events[i] + HALT <= events[j] }

  /** Without manual steps halts are at least a minute apart, and a released breaker has served its minute. */
  lemma {:induction false} HaltsAreServed(steps: seq<Step>)
    requires Timed(steps) && Automatic(steps)
    ensures var b := After(steps);
            && Spaced(b.events)
            && (b.active ==> |b.events| > 0 && b.since == Some(b.events[|b.events| - 1]))
            && (|steps| > 0 && !b.active ==> NotAfter(b.events, Tick, steps[|steps| - 1].End() - HALT))
            && (|steps| == 0 ==> b.events == [])
  {
    if |steps| > 0 {
      HaltsAreServed(steps[..|steps| - 1]);
    }
  }

  /** Trading is allowed only a full minute after every activation. */
  lemma NoTradingDuringAHalt(steps: seq<Step>, now: int)
    requires Timed(steps) && Automatic(steps) && Allowed(After(steps), now)
    requires |steps| > 0 ==> steps[|steps| - 1].End() <= now
    ensures NotAfter(After(steps).events, Tick, now - HALT)
  {
    HaltsAreServed(steps);
  }

  // ----- The manager -----

  class HftRiskManager {
    const limits: Limits
    const globalRate: SlidingWindowCounter
    const rejections: SlidingWindowCounter
    const totals: SlidingWindowCounter
    var instrumentRates: map<string, SlidingWindowCounter>
    var circuitBreakerActive: bool
    var activatedAt: Option<int>
    var activations: nat
    var circuitBreakerEvents: seq<int>
    var hftDisabled: bool
    var pnlWindow: seq<(int, real)>
    ghost var pnls: seq<(int, real)>
    ghost var pnlClock: int
    ghost var log: Log
    ghost var counters: set<SlidingWindowCounter>

    ghost predicate PnlValid()
      reads this
    {
      pnlWindow == Since(pnls, At, pnlClock - PNL_WINDOW + 1)
    }

    ghost function State(): Breaker
      reads this
    {
      Breaker(circuitBreakerActive, activatedAt, circuitBreakerEvents, hftDisabled)
    }

    /** The counters are separate objects, valid, and no further than `clock`. */
    ghost predicate Valid(clock: int)
      reads this, counters
    {
      && globalRate != rejections && globalRate != totals && rejections != totals
      && globalRate.width == SECOND && rejections.width == totals.width == 10 * SECOND
      && {globalRate, rejections, totals} <= counters
      && (forall c :: c in counters ==> c.Valid() && c.clock <= clock)
      && (forall i :: i in instrumentRates ==>
            && instrumentRates[i] in counters && instrumentRates[i] !in {globalRate, rejections, totals}
            && instrumentRates[i].width == SECOND)
      && log.total == globalRate.all && (forall i :: i in log.per ==> i in instrumentRates)
      && (forall i :: i in instrumentRates ==> instrumentRates[i].all == log.Of(i))
      && (forall i, j :: i in instrumentRates && j in instrumentRates && i != j ==> instrumentRates[i] != instrumentRates[j])
    }

    constructor (maxOrderRate: int, maxPerInstrumentRate: int, ghost now: int)
      ensures Valid(now) && PnlValid() && fresh(counters)
      ensures limits == LimitsOf(maxOrderRate, maxPerInstrumentRate)
      ensures log == Log([], map[]) && State() == After([])
    {
      limits := LimitsOf(maxOrderRate, maxPerInstrumentRate);
      globalRate := new SlidingWindowCounter(SECOND, now);
      rejections := new SlidingWindowCounter(10 * SECOND, now);
      totals := new SlidingWindowCounter(10 * SECOND, now);
      instrumentRates, log := map[], Log([], map[]);
      counters := {globalRate, rejections, totals};
      circuitBreakerActive, activatedAt, activations, circuitBreakerEvents, hftDisabled := false, None, 0, [], false;
      pnlWindow, pnls, pnlClock := [], [], now;
    }

    method CountGlobal(at: int) returns (n: nat)
      requires Valid(at)
      modifies globalRate
      ensures Valid(at) && n == CountIn(log.total, Tick, at - SECOND + 1, at)
    {
      n := globalRate.Count(at);
    }

    /** An instrument without a counter has had no order. */
    method CountInstrument(instrument: string, at: int) returns (n: nat)
      requires Valid(at)
      modifies if instrument in instrumentRates then {instrumentRates[instrument]} else {}
      ensures Valid(at) && n == CountIn(log.Of(instrument), Tick, at - SECOND + 1, at)
    {
      if instrument !in instrumentRates {
        return 0;
      }
      n := instrumentRates[instrument].Count(at);
    }

    /** The combined check decides on full histories, and changes none of them. */
    method CheckRateLimit(instrument: string, atGlobal: int, atInstrument: int, atReject: int, pruned: int)
      returns (allowed: bool)
      requires Valid(atGlobal) && atGlobal <= atInstrument <= atReject <= pruned
      modifies counters
      ensures Valid(pruned)
      ensures allowed == Allows(limits, log, instrument, atGlobal, atInstrument)
      ensures rejections.all == old(rejections.all) + if allowed then [] else [atReject]
    {
      var globalCount := CountGlobal(atGlobal);
      var instrumentCount := CountInstrument(instrument, atInstrument);
      if globalCount >= limits.perSecond || instrumentCount >= limits.perInstrument {
        rejections.Record(atReject, pruned);
        return false;
      }
      return true;
    }

    /** Each counter appends at one clock reading, the first of its pair, and prunes at the next. */
    method RecordOrder(instrument: string, global: (int, int), own: (int, int), total: (int, int))
      requires Valid(global.0) && global.0 <= global.1 <= own.0 <= own.1 <= total.0 <= total.1
      modifies this`instrumentRates, this`counters, this`log, counters
      ensures Valid(total.1) && fresh(counters - old(counters))
      ensures log == old(log).Record(instrument, global.0, own.0)
      ensures totals.all == old(totals.all) + [total.0]
    {
      RecordGlobal(global.0, global.1);
      if instrument !in instrumentRates {
        AddCounter(instrument, global.1);
      }
      RecordInstrument(instrument, own.0, own.1);
      RecordTotal(total.0, total.1);
    }

    method RecordTotal(at: int, pruned: int)
      requires Valid(at) && at <= pruned
      modifies totals
      ensures Valid(pruned) && totals.all == old(totals.all) + [at]
    {
      totals.Record(at, pruned);
    }

    method RecordGlobal(at: int, pruned: int)
      requires Valid(at) && at <= pruned
      modifies this`log, globalRate
      ensures Valid(pruned) && log == old(log).(total := old(log).total + [at])
    {
      globalRate.Record(at, pruned);
      log := log.(total := log.total + [at]);
    }

    method AddCounter(instrument: string, at: int)
      requires Valid(at) && instrument !in instrumentRates
      modifies this`instrumentRates, this`counters
      ensures Valid(at) && instrument in instrumentRates && fresh(instrumentRates[instrument])
      ensures counters == old(counters) + {instrumentRates[instrument]}
      ensures instrumentRates == old(instrumentRates)[instrument := instrumentRates[instrument]]
    {
      var counter := new SlidingWindowCounter(SECOND, at);
      instrumentRates, counters := instrumentRates[instrument := counter], counters + {counter};
    }

    method RecordInstrument(instrument: string, at: int, pruned: int)
      requires Valid(at) && at <= pruned && instrument in instrumentRates
      modifies this`log, instrumentRates[instrument]
      ensures Valid(pruned)
      ensures log == old(log).Append(instrument, at)
    {
      var counter := instrumentRates[instrument];
      counter.Record(at, pruned);
      ghost var before := log;
      log := log.Append(instrument, at);
      forall i | i in instrumentRates ensures instrumentRates[i].all == log.Of(i) {
        if i == instrument {
          assert counter.all == before.Of(i) + [at];
        } else {
          assert instrumentRates[i] != counter;
          assert log.Of(i) == before.Of(i);
        }
      }
    }

    /** The rolling sum over the pruned window is the sum over the last minute of the full history. */
    method RollPnl(now: int, pnl: real, equity: real) returns (breached: bool)
      requires PnlValid() && pnlClock <= now
      modifies this`pnlWindow, this`pnls, this`pnlClock
      ensures PnlValid() && pnlClock == now && pnls == old(pnls) + [(now, pnl)]
      ensures breached == Breached(pnls, now, equity)
    {
      ghost var all := pnls + [(now, pnl)];
      PruneAppend(pnls, (now, pnl), At, pnlClock - PNL_WINDOW + 1, now - PNL_WINDOW + 1);
      pnlWindow := pnlWindow + [(now, pnl)];
      var cutoff := now - PNL_WINDOW;
      pnlWindow := Since(pnlWindow, At, cutoff + 1);
      assert pnlWindow == Since(all, At, now - PNL_WINDOW + 1);
      pnls, pnlClock := all, now;
      var cumulative, threshold := Total(pnlWindow), LossLimit(equity);
      breached := cumulative < threshold;
    }

    method UpdatePnl(now: int, later: int, pnl: real, equity: real)
      requires PnlValid() && pnlClock <= now
      modifies this`circuitBreakerActive, this`activatedAt, this`activations, this`circuitBreakerEvents, this`hftDisabled,
               this`pnlWindow, this`pnls, this`pnlClock
      ensures PnlValid()
      ensures pnlClock == now && pnls == old(pnls) + [(now, pnl)]
      ensures State() == Apply(old(State()), Step.UpdatePnl(now, later, Breached(pnls, now, equity)))
    {
      var breached := RollPnl(now, pnl, equity);
      assert State() == old(State());
      if breached && !circuitBreakerActive {
        ActivateCircuitBreaker(later);
      }
    }

    method ActivateCircuitBreaker(now: int)
      modifies this`circuitBreakerActive, this`activatedAt, this`activations, this`circuitBreakerEvents, this`hftDisabled
      ensures State() == ActivateAt(old(State()), now)
      ensures activations == |Since(circuitBreakerEvents, Tick, now - ESCALATION_WINDOW + 1)|
    {
      circuitBreakerActive, activatedAt := true, Some(now);
      circuitBreakerEvents := circuitBreakerEvents + [now];
      activations := |Since(circuitBreakerEvents, Tick, now - ESCALATION_WINDOW + 1)|;
      if activations >= MAX_ACTIVATIONS {
        hftDisabled := true;
      }
    }

    method DeactivateCircuitBreaker()
      modifies this`circuitBreakerActive, this`activatedAt
      ensures forall now :: State() == Apply(old(State()), Deactivate(now))
    {
      circuitBreakerActive, activatedAt := false, None;
    }

    method IsHftAllowed(now: int) returns (allowed: bool)
      modifies this`circuitBreakerActive, this`activatedAt
      ensures allowed == Allowed(old(State()), now)
      ensures State() == Apply(old(State()), Poll(now))
    {
      if hftDisabled {
        return false;
      }
      if circuitBreakerActive {
        if activatedAt.Some? {
          var elapsed := now - activatedAt.value;
          if elapsed >= HALT {
            circuitBreakerActive, activatedAt := false, None;
            return true;
          }
          return false;
        }
      }
      return true;
    }

    method ReEnableHft()
      modifies this`circuitBreakerActive, this`activatedAt, this`activations, this`hftDisabled
      ensures forall now :: State() == Apply(old(State()), ReEnable(now))
      ensures activations == 0
    {
      hftDisabled, circuitBreakerActive, activatedAt, activations := false, false, None, 0;
    }
  }
}
