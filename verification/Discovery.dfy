/** The two rule-based research simulators: `run_spec` and `run_market_spec`. */
module Discovery {
  import opened Core
  import opened Bars

  const MAX_DAILY_TRADES := 3
  const DAILY_R_FLOOR := -5.0

  /** Bars with the columns the simulators read; days count from Thursday 1970-01-01. */
  datatype Frame = Frame(
    bars: seq<Bar>, days: seq<int>, atr: seq<Option<real>>, signal: seq<Option<Side>>, meanTarget: seq<Option<real>>)
  {
    predicate Shaped() {
      |days| == |atr| == |signal| == |meanTarget| == |bars|
    }
  }

  datatype StrategySpec = StrategySpec(targetR: real, stopAtr: real, maxHold: nat)

  datatype MarketCost = MarketCost(spread: real, slippagePerSide: real, commissionBps: real, crypto: bool)

  /** Multipliers of the cost sensitivity study. */
  datatype Stress = Stress(cost: real, slippage: real)

  datatype Setup = Setup(side: Side, entry: real, stop: real, target: real, stopDistance: real, perSide: real) {
    function Exits(): Barriers { Barriers(side, stop, target) }
  }

  datatype ExitKind = Stop | Target | Timeout

  datatype Trade = Trade(day: int, entryBar: nat, exitBar: nat, r: real, kind: ExitKind)

  function Weekday(day: int): int { (day + 3) % 7 }

  predicate Weekend(day: int) { Weekday(day) >= 5 }

  function StartBar(length: nat, fraction: real): int { MaxInt(250, (length as real * fraction).Floor) }

  function EndBar(length: nat, fraction: real): int { MinInt(length - 2, (length as real * fraction).Floor) }

  // ----- Setups: what each simulator would trade at a cursor, leaving the daily limits aside -----

  function MakeSetup(spec: StrategySpec, side: Side, raw: real, atr: real, mean: Option<real>, perSide: real): Setup {
    var entry, distance := raw + Along(side, perSide), atr * spec.stopAtr;
    var target := if mean.Some? && Along(side, mean.value - entry) > 0.0 then mean.value
                  else entry + Along(side, distance * spec.targetR);
    Setup(side, entry, entry - Along(side, distance), target, distance, perSide)
  }

  function SpecSetup(f: Frame, spec: StrategySpec, cost: real, i: nat): Option<Setup>
    requires f.Shaped() && i + 1 < |f.bars|
  {
    if f.signal[i].None? || Weekend(f.days[i]) || f.atr[i].None? || f.atr[i].value <= 0.0 || Weekend(f.days[i + 1]) then None
    else Some(MakeSetup(spec, f.signal[i].value, f.bars[i + 1].open, f.atr[i].value, f.meanTarget[i], cost))
  }

  function TotalSpread(f: Frame, c: MarketCost, x: Stress, i: nat): real
    requires f.Shaped() && i < |f.bars|
  {
    (if c.crypto then f.bars[i].close * 0.0002 else c.spread) * x.cost
  }

  function PerSide(f: Frame, c: MarketCost, x: Stress, i: nat): real
    requires f.Shaped() && i + 1 < |f.bars|
  {
    TotalSpread(f, c, x, i) / 2.0 + c.slippagePerSide * x.cost * x.slippage
    + f.bars[i + 1].open * c.commissionBps * x.cost / 10000.0
  }

  predicate TooWide(spread: real, atr: real)
    requires atr > 0.0
  {
    spread / atr > 0.2
  }

  function MarketSetup(f: Frame, spec: StrategySpec, c: MarketCost, x: Stress, i: nat): Option<Setup>
    requires f.Shaped() && i + 1 < |f.bars|
  {
    if f.signal[i].None? || (!c.crypto && Weekend(f.days[i])) || f.atr[i].None? || f.atr[i].value <= 0.0
       || TooWide(TotalSpread(f, c, x, i), f.atr[i].value) then None
    else Some(MakeSetup(spec, f.signal[i].value, f.bars[i + 1].open, f.atr[i].value, f.meanTarget[i], PerSide(f, c, x, i)))
  }

  // ----- The trades of a run -----

  function ROf(s: Setup, exit: real): real
    requires s.stopDistance != 0.0
  {
    Along(s.side, exit - Along(s.side, s.perSide) - s.entry) / s.stopDistance
  }

  function TradeOf(s: Setup, bars: seq<Bar>, day: int, entry: nat, last: nat): Trade
    requires entry <= last < |bars| && s.stopDistance != 0.0
  {
    var t := FirstTouch(s.Exits(), bars, entry, last);
    if t == last + 1 then Trade(day, entry, last, ROf(s, bars[last].close), Timeout)
    else if StopHit(s.side, bars[t], s.stop) then Trade(day, entry, t, ROf(s, s.stop), Stop)
    else Trade(day, entry, t, ROf(s, s.target), Target)
  }

  /** The trade a setup at `cursor` leads to in a run that ends before bar `end`. */
  function Candidate(s: Setup, f: Frame, spec: StrategySpec, cursor: nat, end: int): Trade
    requires f.Shaped() && cursor < end <= |f.bars| - 2 && s.stopDistance != 0.0
  {
    TradeOf(s, f.bars, f.days[cursor], cursor + 1, MinInt(end, cursor + 1 + spec.maxHold))
  }

  lemma PositiveStop(spec: StrategySpec, side: Side, raw: real, atr: real, mean: Option<real>, perSide: real)
    requires spec.stopAtr > 0.0 && atr > 0.0
    ensures MakeSetup(spec, side, raw, atr, mean, perSide).stopDistance > 0.0
  {
  }

  function SpecCandidate(f: Frame, spec: StrategySpec, cost: real, i: nat, end: int): Option<Trade>
    requires f.Shaped() && spec.stopAtr > 0.0 && i < end <= |f.bars| - 2
  {
    var s := SpecSetup(f, spec, cost, i);
    if s.None? then None
    else
      PositiveStop(spec, f.signal[i].value, f.bars[i + 1].open, f.atr[i].value, f.meanTarget[i], cost);
      Some(Candidate(s.value, f, spec, i, end))
  }

  function MarketCandidate(f: Frame, spec: StrategySpec, c: MarketCost, x: Stress, i: nat, end: int): Option<Trade>
    requires f.Shaped() && spec.stopAtr > 0.0 && i < end <= |f.bars| - 2
  {
    var s := MarketSetup(f, spec, c, x, i);
    if s.None? then None
    else
      PositiveStop(spec, f.signal[i].value, f.bars[i + 1].open, f.atr[i].value, f.meanTarget[i], PerSide(f, c, x, i));
      Some(Candidate(s.value, f, spec, i, end))
  }

  /** The candidate trade of every cursor before `end`. */
  function SpecCandidates(f: Frame, spec: StrategySpec, cost: real, end: int): (all: seq<Option<Trade>>)
    requires f.Shaped() && spec.stopAtr > 0.0 && end <= |f.bars| - 2
    ensures |all| == MaxInt(0, end)
    ensures forall i :: 0 <= i < end ==> all[i] == SpecCandidate(f, spec, cost, i, end)
  {
    seq(MaxInt(0, end), i requires 0 <= i < end => SpecCandidate(f, spec, cost, i, end))
  }

  function MarketCandidates(f: Frame, spec: StrategySpec, c: MarketCost, x: Stress, end: int): (all: seq<Option<Trade>>)
    requires f.Shaped() && spec.stopAtr > 0.0 && end <= |f.bars| - 2
    ensures |all| == MaxInt(0, end)
    ensures forall i :: 0 <= i < end ==> all[i] == MarketCandidate(f, spec, c, x, i, end)
  {
    seq(MaxInt(0, end), i requires 0 <= i < end => MarketCandidate(f, spec, c, x, i, end))
  }

  datatype Book = Book(r: map<int, real>, count: map<int, nat>) {
    predicate Closed(day: int) {
      CountOn(count, day) >= MAX_DAILY_TRADES || RealOn(r, day) <= DAILY_R_FLOOR
    }

    function After(t: Trade): Book {
      Book(r[t.day := RealOn(r, t.day) + t.r], count[t.day := CountOn(count, t.day) + 1])
    }
  }

  /** Candidates enter on the bar after their cursor and leave by the last bar of the run. */
  predicate WellPlaced(all: seq<Option<Trade>>) {
    forall i :: 0 <= i < |all| && all[i].Some? ==>
      all[i].value.entryBar == i + 1 <= all[i].value.exitBar <= |all|
  }

  lemma SpecIsWellPlaced(f: Frame, spec: StrategySpec, cost: real, end: int)
    requires f.Shaped() && spec.stopAtr > 0.0 && end <= |f.bars| - 2
    ensures WellPlaced(SpecCandidates(f, spec, cost, end))
  {
  }

  lemma MarketIsWellPlaced(f: Frame, spec: StrategySpec, c: MarketCost, x: Stress, end: int)
    requires f.Shaped() && spec.stopAtr > 0.0 && end <= |f.bars| - 2
    ensures WellPlaced(MarketCandidates(f, spec, c, x, end))
  {
  }

  /** The candidates a run takes: cursors jump past the exit, and closed days are skipped. */
  function Simulate(all: seq<Option<Trade>>, cursor: nat, book: Book): seq<Trade>
    requires WellPlaced(all)
    decreases |all| - cursor
  {
    if cursor >= |all| then []
    else if all[cursor].None? || book.Closed(all[cursor].value.day) then Simulate(all, cursor + 1, book)
    else
      var t := all[cursor].value;
      [t] + Simulate(all, t.exitBar + 1, book.After(t))
  }

  // ----- The two loops -----

  /** The barrier loop both simulators contain. */
  method HoldToBarrier(s: Setup, bars: seq<Bar>, day: int, entryBar: nat, finalBar: nat) returns (t: Trade)
    requires entryBar <= finalBar < |bars| && s.stopDistance != 0.0
    ensures t == TradeOf(s, bars, day, entryBar, finalBar)
  {
    for future := entryBar to finalBar + 1
      invariant FirstTouch(s.Exits(), bars, entryBar, finalBar) == FirstTouch(s.Exits(), bars, future, finalBar)
    {
      var bar := bars[future];
      var stopHit, targetHit := StopHit(s.side, bar, s.stop), LevelHit(s.side, bar, s.target);
      if stopHit {
        return Trade(day, entryBar, future, ROf(s, s.stop), Stop);
      }
      if targetHit {
        return Trade(day, entryBar, future, ROf(s, s.target), Target);
      }
    }
    return Trade(day, entryBar, finalBar, ROf(s, bars[finalBar].close), Timeout);
  }

  const EMPTY := Book(map[], map[])

  /** The trades made so far, and those still to come from a cursor. */
  function Complete(trades: seq<Trade>, all: seq<Option<Trade>>, cursor: nat, book: Book): seq<Trade>
    requires WellPlaced(all)
  {
    trades + Simulate(all, cursor, book)
  }

  /** A candidate on a day that is not closed. */
  function Gate(candidate: Option<Trade>, book: Book): Option<Trade> {
    if candidate.Some? && !book.Closed(candidate.value.day) then candidate else None
  }

  /** One pass of either loop keeps the complete list. */
  lemma PassStep(trades: seq<Trade>, all: seq<Option<Trade>>, cursor: nat, book: Book, entered: Option<Trade>)
    requires WellPlaced(all) && cursor < |all| && entered == Gate(all[cursor], book)
    ensures entered.None? ==> Complete(trades, all, cursor, book) == Complete(trades, all, cursor + 1, book)
    ensures entered.Some? ==> var t := entered.value;
      t.exitBar >= cursor
      && Complete(trades, all, cursor, book) == Complete(trades + [t], all, t.exitBar + 1, book.After(t))
  {
  }

  /** How both loops go on: a taken trade is booked on its day, and the cursor jumps past its exit. */
  method Advance(trades: seq<Trade>, book: Book, cursor: nat, entered: Option<Trade>, ghost all: seq<Option<Trade>>)
    returns (trades': seq<Trade>, book': Book, cursor': nat)
    requires WellPlaced(all) && cursor < |all| && entered == Gate(all[cursor], book)
    ensures cursor' > cursor && Complete(trades', all, cursor', book') == Complete(trades, all, cursor, book)
  {
    PassStep(trades, all, cursor, book, entered);
    if entered.None? {
      return trades, book, cursor + 1;
    }
    var t := entered.value;
    book' := Book(book.r[t.day := RealOn(book.r, t.day) + t.r], book.count[t.day := CountOn(book.count, t.day) + 1]);
    return trades + [t], book', t.exitBar + 1;
  }

  /** One pass of `run_spec` at a cursor: its filters in order, the barriers and the exit. */
  method SpecTrade(f: Frame, spec: StrategySpec, cost: real, book: Book, cursor: nat, end: int, ghost all: seq<Option<Trade>>)
    returns (t: Option<Trade>)
    requires f.Shaped() && spec.stopAtr > 0.0 && cursor < end <= |f.bars| - 2 && all == SpecCandidates(f, spec, cost, end)
    ensures t == Gate(all[cursor], book)
  {
    if f.signal[cursor].None? {
      return None;
    }
    var side, day := f.signal[cursor].value, f.days[cursor];
    if Weekend(day) {
      return None;
    }
    if CountOn(book.count, day) >= MAX_DAILY_TRADES || RealOn(book.r, day) <= DAILY_R_FLOOR {
      return None;
    }
    var atr := f.atr[cursor];
    if atr.None? || atr.value <= 0.0 {
      return None;
    }
    var entryCursor := cursor + 1;
    if Weekend(f.days[entryCursor]) {
      return None;
    }
    var setup := MakeSetup(spec, side, f.bars[entryCursor].open, atr.value, f.meanTarget[cursor], cost);
    PositiveStop(spec, side, f.bars[entryCursor].open, atr.value, f.meanTarget[cursor], cost);
    var trade := HoldToBarrier(setup, f.bars, day, entryCursor, MinInt(end, entryCursor + spec.maxHold));
    return Some(trade);
  }

  method RunSpecOver(f: Frame, spec: StrategySpec, cost: real, start: nat, end: int) returns (trades: seq<Trade>)
    requires f.Shaped() && spec.stopAtr > 0.0 && end <= |f.bars| - 2
    ensures var all := SpecCandidates(f, spec, cost, end);
            WellPlaced(all) && trades == Simulate(all, start, EMPTY)
  {
    ghost var all := SpecCandidates(f, spec, cost, end);
    SpecIsWellPlaced(f, spec, cost, end);
    var cursor := start;
    trades := [];
    var book := EMPTY;
    while cursor < end
      invariant 0 <= cursor
      invariant Complete(trades, all, cursor, book) == Complete([], all, start, EMPTY)
      decreases end - cursor
    {
      var entered := SpecTrade(f, spec, cost, book, cursor, end, all);
      trades, book, cursor := Advance(trades, book, cursor, entered, all);
    }
    assert trades + [] == trades && [] + Simulate(all, start, EMPTY) == Simulate(all, start, EMPTY);
  }

  method RunSpec(f: Frame, spec: StrategySpec, cost: real, startFraction: real, endFraction: real) returns (trades: seq<Trade>)
    requires f.Shaped() && spec.stopAtr > 0.0
    ensures var all := SpecCandidates(f, spec, cost, EndBar(|f.bars|, endFraction));
            WellPlaced(all) && trades == Simulate(all, StartBar(|f.bars|, startFraction), EMPTY)
  {
    trades := RunSpecOver(f, spec, cost, StartBar(|f.bars|, startFraction), EndBar(|f.bars|, endFraction));
  }

  /** One pass of `run_market_spec` at a cursor. */
  method MarketTrade(f: Frame, spec: StrategySpec, c: MarketCost, x: Stress, book: Book, cursor: nat, end: int,
                     ghost all: seq<Option<Trade>>)
    returns (t: Option<Trade>)
    requires f.Shaped() && spec.stopAtr > 0.0 && cursor < end <= |f.bars| - 2 && all == MarketCandidates(f, spec, c, x, end)
    ensures t == Gate(all[cursor], book)
  {
    if f.signal[cursor].None? {
      return None;
    }
    var side, day := f.signal[cursor].value, f.days[cursor];
    if !c.crypto && Weekend(day) {
      return None;
    }
    var atr, spread := f.atr[cursor], TotalSpread(f, c, x, cursor);
    if atr.None? || atr.value <= 0.0 || TooWide(spread, atr.value) {
      return None;
    }
    if CountOn(book.count, day) >= MAX_DAILY_TRADES || RealOn(book.r, day) <= DAILY_R_FLOOR {
      return None;
    }
    var entryCursor, perSide := cursor + 1, PerSide(f, c, x, cursor);
    var setup := MakeSetup(spec, side, f.bars[entryCursor].open, atr.value, f.meanTarget[cursor], perSide);
    PositiveStop(spec, side, f.bars[entryCursor].open, atr.value, f.meanTarget[cursor], perSide);
    var trade := HoldToBarrier(setup, f.bars, day, entryCursor, MinInt(end, entryCursor + spec.maxHold));
    return Some(trade);
  }

  method RunMarketSpecOver(f: Frame, spec: StrategySpec, c: MarketCost, x: Stress, start: nat, end: int) returns (trades: seq<Trade>)
    requires f.Shaped() && spec.stopAtr > 0.0 && end <= |f.bars| - 2
    ensures var all := MarketCandidates(f, spec, c, x, end);
            WellPlaced(all) && trades == Simulate(all, start, EMPTY)
  {
    ghost var all := MarketCandidates(f, spec, c, x, end);
    MarketIsWellPlaced(f, spec, c, x, end);
    var cursor := start;
    trades := [];
    var book := EMPTY;
    while cursor < end
      invariant 0 <= cursor
      invariant Complete(trades, all, cursor, book) == Complete([], all, start, EMPTY)
      decreases end - cursor
    {
      var entered := MarketTrade(f, spec, c, x, book, cursor, end, all);
      trades, book, cursor := Advance(trades, book, cursor, entered, all);
    }
    assert trades + [] == trades && [] + Simulate(all, start, EMPTY) == Simulate(all, start, EMPTY);
  }

  method RunMarketSpec(f: Frame, spec: StrategySpec, c: MarketCost, x: Stress, startFraction: real, endFraction: real)
    returns (trades: seq<Trade>)
    requires f.Shaped() && spec.stopAtr > 0.0
    ensures var all := MarketCandidates(f, spec, c, x, EndBar(|f.bars|, endFraction));
            WellPlaced(all) && trades == Simulate(all, StartBar(|f.bars|, startFraction), EMPTY)
  {
    trades := RunMarketSpecOver(f, spec, c, x, StartBar(|f.bars|, startFraction), EndBar(|f.bars|, endFraction));
  }

  /** What one side costs the market simulator on fixed costs. */
  function FixedCost(c: MarketCost, x: Stress): real { c.spread * x.cost / 2.0 + c.slippagePerSide * x.cost * x.slippage }

  /** The two simulators' private filters, weekend entries and wide spreads, where both would otherwise trade. */
  predicate FiltersAgree(f: Frame, c: MarketCost, x: Stress, i: nat)
    requires f.Shaped() && i + 1 < |f.bars|
  {
    f.signal[i].Some? && !Weekend(f.days[i]) && f.atr[i].Some? && f.atr[i].value > 0.0
    ==> (Weekend(f.days[i + 1]) <==> TooWide(TotalSpread(f, c, x, i), f.atr[i].value))
  }

  /** On fixed costs the two simulators plan the same trade at a cursor unless exactly one of these filters speaks up. */
  lemma SimulatorsPlanAlike(f: Frame, spec: StrategySpec, c: MarketCost, x: Stress, i: nat)
    requires f.Shaped() && i + 1 < |f.bars| && !c.crypto && c.commissionBps == 0.0
    ensures SpecSetup(f, spec, FixedCost(c, x), i) == MarketSetup(f, spec, c, x, i) <==> FiltersAgree(f, c, x, i)
    ensures SpecSetup(f, spec, FixedCost(c, x), i).Some? && MarketSetup(f, spec, c, x, i).Some? ==>
              SpecSetup(f, spec, FixedCost(c, x), i) == MarketSetup(f, spec, c, x, i)
  {
    NoCommission(f.bars[i + 1].open, x.cost);
    assert PerSide(f, c, x, i) == FixedCost(c, x);
  }

  lemma CandidatesAgree(f: Frame, spec: StrategySpec, c: MarketCost, x: Stress, i: nat, end: int)
    requires f.Shaped() && spec.stopAtr > 0.0 && i < end <= |f.bars| - 2 && !c.crypto && c.commissionBps == 0.0
    ensures SpecCandidate(f, spec, FixedCost(c, x), i, end) == MarketCandidate(f, spec, c, x, i, end)
       <==> FiltersAgree(f, c, x, i)
  {
    SimulatorsPlanAlike(f, spec, c, x, i);
  }

  /** On fixed costs both simulators have the same candidates exactly when their private filters agree on every cursor;
      then they return the same trades from any start. */
  lemma SimulatorsRunAlike(f: Frame, spec: StrategySpec, c: MarketCost, x: Stress, start: nat, end: int)
    requires f.Shaped() && spec.stopAtr > 0.0 && end <= |f.bars| - 2 && !c.crypto && c.commissionBps == 0.0
    ensures var (p, q) := (SpecCandidates(f, spec, FixedCost(c, x), end), MarketCandidates(f, spec, c, x, end));
            && WellPlaced(p) && WellPlaced(q)
            && (p == q <==> forall i :: 0 <= i < end ==> FiltersAgree(f, c, x, i))
            && (p == q ==> Simulate(p, start, EMPTY) == Simulate(q, start, EMPTY))
  {
    SpecIsWellPlaced(f, spec, FixedCost(c, x), end);
    MarketIsWellPlaced(f, spec, c, x, end);
    var p, q := SpecCandidates(f, spec, FixedCost(c, x), end), MarketCandidates(f, spec, c, x, end);
    forall i | 0 <= i < end ensures p[i] == q[i] <==> FiltersAgree(f, c, x, i) {
      CandidatesAgree(f, spec, c, x, i, end);
    }
  }

  lemma NoCommission(open: real, stress: real)
    ensures open * 0.0 * stress / 10000.0 == 0.0
  {
  }

  // ----- No look-ahead -----

  lemma {:induction false} SameTouch(s: Setup, bars: seq<Bar>, other: seq<Bar>, i: nat, last: nat, otherLast: nat)
    requires i <= last + 1 <= |bars| && last <= otherLast < |other|
    requires forall j :: 0 <= j <= last ==> bars[j] == other[j]
    ensures var (t, u) := (FirstTouch(s.Exits(), bars, i, last), FirstTouch(s.Exits(), other, i, otherLast));
            if t <= last then u == t else u > last
    decreases last + 1 - i
  {
    if i <= last && !Touches(s.Exits(), bars[i]) {
      SameTouch(s, bars, other, i + 1, last, otherLast);
    }
  }

  /** Either the same trade, or the one the shorter run timed out at its end while the other went on. */
  predicate SameUnlessCut(t: Option<Trade>, u: Option<Trade>, e: nat, hold: nat) {
    || t == u
    || (t.Some? && u.Some? && t.value.day == u.value.day && t.value.entryBar == u.value.entryBar > e - hold
        && t.value.kind == Timeout && t.value.exitBar == e < u.value.exitBar)
  }

  /** The columns agree up to and including bar `e`. */
  predicate SharePrefix(f: Frame, g: Frame, e: nat) {
    && f.Shaped() && g.Shaped() && e < |f.bars| && e < |g.bars|
    && forall i :: 0 <= i <= e ==>
      f.bars[i] == g.bars[i] && f.days[i] == g.days[i] && f.atr[i] == g.atr[i]
      && f.signal[i] == g.signal[i] && f.meanTarget[i] == g.meanTarget[i]
  }

  lemma SameOrCut(s: Setup, bars: seq<Bar>, other: seq<Bar>, day: int, entry: nat, last: nat, otherLast: nat, hold: nat)
    returns (t: Trade, u: Trade)
    requires entry <= last < |bars| && last <= otherLast < |other| && s.stopDistance != 0.0
    requires forall j :: 0 <= j <= last ==> bars[j] == other[j]
    requires last < otherLast ==> entry > last - hold
    ensures t == TradeOf(s, bars, day, entry, last) && u == TradeOf(s, other, day, entry, otherLast)
    ensures if last == otherLast then t == u else SameUnlessCut(Some(t), Some(u), last, hold)
  {
    SameTouch(s, bars, other, entry, last, otherLast);
    t, u := TradeOf(s, bars, day, entry, last), TradeOf(s, other, day, entry, otherLast);
  }

  lemma SameCandidateUnlessCut(s: Setup, f: Frame, g: Frame, spec: StrategySpec, i: nat, e: nat, longer: int)
    requires SharePrefix(f, g, e) && i < e <= longer && e <= |f.bars| - 2 && longer <= |g.bars| - 2 && s.stopDistance != 0.0
    ensures SameUnlessCut(Some(Candidate(s, f, spec, i, e)), Some(Candidate(s, g, spec, i, longer)), e, spec.maxHold)
  {
    var last, otherLast := MinInt(e, i + 1 + spec.maxHold), MinInt(longer, i + 1 + spec.maxHold);
    var t, u := SameOrCut(s, f.bars, g.bars, f.days[i], i + 1, last, otherLast, spec.maxHold);
    assert t == Candidate(s, f, spec, i, e) && u == Candidate(s, g, spec, i, longer);
  }

  lemma SharedCandidates(f: Frame, g: Frame, spec: StrategySpec, cost: real, c: MarketCost, x: Stress, i: nat, e: nat, longer: int)
    requires SharePrefix(f, g, e) && spec.stopAtr > 0.0
    requires i < e <= longer && e <= |f.bars| - 2 && longer <= |g.bars| - 2
    ensures SameUnlessCut(SpecCandidate(f, spec, cost, i, e), SpecCandidate(g, spec, cost, i, longer), e, spec.maxHold)
    ensures SameUnlessCut(MarketCandidate(f, spec, c, x, i, e), MarketCandidate(g, spec, c, x, i, longer), e, spec.maxHold)
  {
    assert f.bars[i + 1] == g.bars[i + 1] && f.days[i + 1] == g.days[i + 1];
    var s, m := SpecSetup(f, spec, cost, i), MarketSetup(f, spec, c, x, i);
    assert TotalSpread(f, c, x, i) == TotalSpread(g, c, x, i) && PerSide(f, c, x, i) == PerSide(g, c, x, i);
    assert s == SpecSetup(g, spec, cost, i) && m == MarketSetup(g, spec, c, x, i);
    if s.Some? {
      PositiveStop(spec, f.signal[i].value, f.bars[i + 1].open, f.atr[i].value, f.meanTarget[i], cost);
      SameCandidateUnlessCut(s.value, f, g, spec, i, e, longer);
    }
    if m.Some? {
      PositiveStop(spec, f.signal[i].value, f.bars[i + 1].open, f.atr[i].value, f.meanTarget[i], PerSide(f, c, x, i));
      SameCandidateUnlessCut(m.value, f, g, spec, i, e, longer);
    }
  }

  /** The trades whose whole holding period fits before bar `end`. */
  function Settled(trades: seq<Trade>, end: int, hold: nat): seq<Trade> {
    if |trades| == 0 then []
    else (if trades[0].entryBar + hold <= end then [trades[0]] else []) + Settled(trades[1..], end, hold)
  }

  lemma {:induction false} NothingSettlesLate(all: seq<Option<Trade>>, cursor: nat, book: Book, e: int, hold: nat)
    requires WellPlaced(all) && cursor >= e
    ensures Settled(Simulate(all, cursor, book), e, hold) == []
    decreases |all| - cursor
  {
    if cursor < |all| {
      if all[cursor].None? || book.Closed(all[cursor].value.day) {
        NothingSettlesLate(all, cursor + 1, book, e, hold);
      } else {
        var t := all[cursor].value;
        NothingSettlesLate(all, t.exitBar + 1, book.After(t), e, hold);
      }
    }
  }

  /** `a` is `b` cut short: a prefix of it, up to a last trade timed out at bar `e`. */
  predicate CutOff(a: seq<Trade>, b: seq<Trade>, e: int) {
    || a <= b
    || (|a| > 0 && a[..|a| - 1] <= b && a[|a| - 1].kind == Timeout && a[|a| - 1].exitBar == e)
  }

  lemma PrependKeepsCut(t: Trade, a: seq<Trade>, b: seq<Trade>, e: int)
    requires CutOff(a, b, e)
    ensures CutOff([t] + a, [t] + b, e)
    ensures ([t] + a)[1..] == a && ([t] + b)[1..] == b
  {
    if !(a <= b) {
      assert ([t] + a)[..|a|] == [t] + a[..|a| - 1];
    }
  }

  lemma {:induction false} RunsAgree(p: seq<Option<Trade>>, q: seq<Option<Trade>>, hold: nat, cursor: nat, book: Book)
    requires WellPlaced(p) && WellPlaced(q) && |p| <= |q|
    requires forall i :: 0 <= i < |p| ==> SameUnlessCut(p[i], q[i], |p|, hold)
    ensures CutOff(Simulate(p, cursor, book), Simulate(q, cursor, book), |p|)
    decreases |p| - cursor
  {
    if cursor < |p| {
      assert SameUnlessCut(p[cursor], q[cursor], |p|, hold);
      if p[cursor].None? || book.Closed(p[cursor].value.day) {
        RunsAgree(p, q, hold, cursor + 1, book);
      } else {
        var t, u := p[cursor].value, q[cursor].value;
        if t == u {
          RunsAgree(p, q, hold, t.exitBar + 1, book.After(t));
          PrependKeepsCut(t, Simulate(p, t.exitBar + 1, book.After(t)), Simulate(q, t.exitBar + 1, book.After(t)), |p|);
        } else {
          CutHere(t, u, Simulate(q, u.exitBar + 1, book.After(u)), |p|);
        }
      }
    }
  }

  lemma {:induction false} RunsSettleAlike(p: seq<Option<Trade>>, q: seq<Option<Trade>>, hold: nat, cursor: nat, book: Book)
    requires WellPlaced(p) && WellPlaced(q) && |p| <= |q|
    requires forall i :: 0 <= i < |p| ==> SameUnlessCut(p[i], q[i], |p|, hold)
    ensures Settled(Simulate(p, cursor, book), |p|, hold) == Settled(Simulate(q, cursor, book), |p|, hold)
    decreases |p| - cursor
  {
    if cursor < |p| {
      assert SameUnlessCut(p[cursor], q[cursor], |p|, hold);
      if p[cursor].None? || book.Closed(p[cursor].value.day) {
        RunsSettleAlike(p, q, hold, cursor + 1, book);
      } else {
        TakeAlike(p, q, hold, cursor, book);
        if p[cursor] == q[cursor] {
          RunsSettleAlike(p, q, hold, p[cursor].value.exitBar + 1, book.After(p[cursor].value));
        }
      }
    } else {
      NothingSettlesLate(q, cursor, book, |p|, hold);
    }
  }

  /** Where both runs take a trade, the rest settles alike if the trades are equal, and nothing does otherwise. */
  lemma TakeAlike(p: seq<Option<Trade>>, q: seq<Option<Trade>>, hold: nat, cursor: nat, book: Book)
    requires WellPlaced(p) && WellPlaced(q) && cursor < |p| <= |q| && SameUnlessCut(p[cursor], q[cursor], |p|, hold)
    requires p[cursor].Some? && !book.Closed(p[cursor].value.day)
    ensures p[cursor] == q[cursor] ==>
              var (t, e) := (p[cursor].value, |p|);
              Settled(Simulate(p, t.exitBar + 1, book.After(t)), e, hold)
              == Settled(Simulate(q, t.exitBar + 1, book.After(t)), e, hold)
              ==> Settled(Simulate(p, cursor, book), e, hold) == Settled(Simulate(q, cursor, book), e, hold)
    ensures p[cursor] != q[cursor] ==>
              Settled(Simulate(p, cursor, book), |p|, hold) == Settled(Simulate(q, cursor, book), |p|, hold)
  {
    var t, u := p[cursor].value, q[cursor].value;
    if t == u {
      SettledFirst(t, Simulate(p, t.exitBar + 1, book.After(t)), |p|, hold);
      SettledFirst(t, Simulate(q, t.exitBar + 1, book.After(t)), |p|, hold);
    } else {
      assert t.exitBar == |p|;
      NothingSettlesLate(q, u.exitBar + 1, book.After(u), |p|, hold);
      SettledSkips(u, Simulate(q, u.exitBar + 1, book.After(u)), |p|, hold);
      SettledSkips(t, [], |p|, hold);
    }
  }

  lemma SettledFirst(t: Trade, rest: seq<Trade>, end: int, hold: nat)
    ensures Settled([t] + rest, end, hold) == (if t.entryBar + hold <= end then [t] else []) + Settled(rest, end, hold)
  {
    assert ([t] + rest)[1..] == rest;
  }

  /** A trade without room for its holding period does not settle. */
  lemma SettledSkips(t: Trade, rest: seq<Trade>, end: int, hold: nat)
    requires t.entryBar + hold > end
    ensures Settled([t] + rest, end, hold) == Settled(rest, end, hold)
  {
    assert ([t] + rest)[1..] == rest;
  }

  lemma CutHere(t: Trade, u: Trade, rest: seq<Trade>, e: int)
    requires t.kind == Timeout && t.exitBar == e
    ensures CutOff([t], [u] + rest, e)
  {
    assert [t][..0] == [];
  }

  /** Running either simulator on a longer series reproduces the shorter run, except for a last trade
      that the end of the shorter one timed out; trades with room for their holding period are the same. */
  lemma NoLookAhead(f: Frame, g: Frame, spec: StrategySpec, cost: real, c: MarketCost, x: Stress, start: nat, e: nat, longer: int)
    requires SharePrefix(f, g, e) && spec.stopAtr > 0.0 && e <= longer && e <= |f.bars| - 2 && longer <= |g.bars| - 2
    ensures var (p, q) := (SpecCandidates(f, spec, cost, e), SpecCandidates(g, spec, cost, longer));
            && WellPlaced(p) && WellPlaced(q)
            && CutOff(Simulate(p, start, EMPTY), Simulate(q, start, EMPTY), e)
            && Settled(Simulate(p, start, EMPTY), e, spec.maxHold) == Settled(Simulate(q, start, EMPTY), e, spec.maxHold)
    ensures var (p, q) := (MarketCandidates(f, spec, c, x, e), MarketCandidates(g, spec, c, x, longer));
            && WellPlaced(p) && WellPlaced(q)
            && CutOff(Simulate(p, start, EMPTY), Simulate(q, start, EMPTY), e)
            && Settled(Simulate(p, start, EMPTY), e, spec.maxHold) == Settled(Simulate(q, start, EMPTY), e, spec.maxHold)
  {
    SpecIsWellPlaced(f, spec, cost, e);
    MarketIsWellPlaced(f, spec, c, x, e);
    SpecIsWellPlaced(g, spec, cost, longer);
    MarketIsWellPlaced(g, spec, c, x, longer);
    var p, q := SpecCandidates(f, spec, cost, e), SpecCandidates(g, spec, cost, longer);
    var p', q' := MarketCandidates(f, spec, c, x, e), MarketCandidates(g, spec, c, x, longer);
    forall i | 0 <= i < e
      ensures SameUnlessCut(p[i], q[i], e, spec.maxHold) && SameUnlessCut(p'[i], q'[i], e, spec.maxHold)
    {
      SharedCandidates(f, g, spec, cost, c, x, i, e, longer);
    }
    RunsAgree(p, q, spec.maxHold, start, EMPTY);
    RunsAgree(p', q', spec.maxHold, start, EMPTY);
    RunsSettleAlike(p, q, spec.maxHold, start, EMPTY);
    RunsSettleAlike(p', q', spec.maxHold, start, EMPTY);
  }

  // ----- Safety of every run -----

  lemma {:induction false} TradesAreDisjoint(all: seq<Option<Trade>>, cursor: nat, book: Book, i: nat, j: nat)
    requires WellPlaced(all) && i <= j < |Simulate(all, cursor, book)|
    ensures var trades := Simulate(all, cursor, book);
            && cursor < trades[j].entryBar <= trades[j].exitBar <= |all|
            && (i < j ==> trades[i].exitBar < trades[j].entryBar)
    decreases |all| - cursor
  {
    if all[cursor].None? || book.Closed(all[cursor].value.day) {
      TradesAreDisjoint(all, cursor + 1, book, i, j);
    } else if j > 0 {
      var t := all[cursor].value;
      TradesAreDisjoint(all, t.exitBar + 1, book.After(t), MaxInt(0, i - 1), j - 1);
    }
  }

  function CountOnDay(trades: seq<Trade>, day: int): nat {
    if |trades| == 0 then 0 else (if trades[0].day == day then 1 else 0) + CountOnDay(trades[1..], day)
  }

  function ROnDay(trades: seq<Trade>, day: int): real {
    if |trades| == 0 then 0.0 else (if trades[0].day == day then trades[0].r else 0.0) + ROnDay(trades[1..], day)
  }

  /** A trade never loses more than its stop and one cost; it loses exactly that when stopped out. */
  lemma WorstTrade(s: Setup, bars: seq<Bar>, day: int, entry: nat, last: nat)
    requires entry <= last < |bars| && SaneBars(bars) && s.stopDistance > 0.0
    requires s.stop == s.entry - Along(s.side, s.stopDistance) && Along(s.side, s.target - s.entry) > 0.0
    ensures var t := TradeOf(s, bars, day, entry, last);
            && -1.0 - s.perSide / s.stopDistance <= t.r
            && (t.r == -1.0 - s.perSide / s.stopDistance <==> t.kind == Stop)
  {
    var t := FirstTouch(s.Exits(), bars, entry, last);
    var exit := if t == last + 1 then bars[last].close else if StopHit(s.side, bars[t], s.stop) then s.stop else s.target;
    var gain := Along(s.side, exit - Along(s.side, s.perSide) - s.entry);
    if t == last + 1 {
      assert bars[last].Sane() && !Touches(s.Exits(), bars[last]);
    }
    assert gain >= -s.stopDistance - s.perSide;
    QuotientBound(gain, s.stopDistance, s.perSide);
  }

  lemma QuotientBound(gain: real, distance: real, cost: real)
    requires distance > 0.0 && gain >= -distance - cost
    ensures gain / distance >= -1.0 - cost / distance
    ensures gain / distance == -1.0 - cost / distance <==> gain == -distance - cost
  {
    QuotientSum(gain, distance + cost, distance);
    QuotientSum(distance, cost, distance);
    assert distance / distance == 1.0;
  }

  lemma QuotientSum(x: real, y: real, d: real)
    requires d > 0.0
    ensures (x + y) / d == x / d + y / d
  {
    assert x / d * d == x && y / d * d == y;
    assert (x / d + y / d) * d == x + y;
  }

  /** Cost per side in risk distances. */
  function CostInR(s: Setup): real { if s.stopDistance > 0.0 then s.perSide / s.stopDistance else 0.0 }

  lemma SetupIsBounded(f: Frame, spec: StrategySpec, perSide: real, i: nat, end: int)
    requires f.Shaped() && SaneBars(f.bars) && spec.stopAtr > 0.0 && spec.targetR > 0.0 && i < end <= |f.bars| - 2
    requires f.signal[i].Some? && f.atr[i].Some? && f.atr[i].value > 0.0
    ensures var s := MakeSetup(spec, f.signal[i].value, f.bars[i + 1].open, f.atr[i].value, f.meanTarget[i], perSide);
            s.stopDistance > 0.0 && s.perSide == perSide && Candidate(s, f, spec, i, end).r >= -1.0 - CostInR(s)
  {
    var s := MakeSetup(spec, f.signal[i].value, f.bars[i + 1].open, f.atr[i].value, f.meanTarget[i], perSide);
    PositiveStop(spec, f.signal[i].value, f.bars[i + 1].open, f.atr[i].value, f.meanTarget[i], perSide);
    assert s.stopDistance * spec.targetR > 0.0;
    WorstTrade(s, f.bars, f.days[i], i + 1, MinInt(end, i + 1 + spec.maxHold));
  }

  /** Both simulators place their barriers so that the worst-trade bound applies. */
  lemma CandidatesAreBounded(f: Frame, spec: StrategySpec, cost: real, c: MarketCost, x: Stress, i: nat, end: int)
    requires f.Shaped() && SaneBars(f.bars) && spec.stopAtr > 0.0 && spec.targetR > 0.0 && i < end <= |f.bars| - 2
    ensures var (s, t) := (SpecSetup(f, spec, cost, i), SpecCandidate(f, spec, cost, i, end));
            s.Some? <==> t.Some?
    ensures var (s, t) := (SpecSetup(f, spec, cost, i), SpecCandidate(f, spec, cost, i, end));
            s.Some? ==> s.value.stopDistance > 0.0 && s.value.perSide == cost && t.value.r >= -1.0 - CostInR(s.value)
    ensures var (s, t) := (MarketSetup(f, spec, c, x, i), MarketCandidate(f, spec, c, x, i, end));
            s.Some? <==> t.Some?
    ensures var (s, t) := (MarketSetup(f, spec, c, x, i), MarketCandidate(f, spec, c, x, i, end));
            s.Some? ==> s.value.stopDistance > 0.0 && s.value.perSide == PerSide(f, c, x, i)
                        && t.value.r >= -1.0 - CostInR(s.value)
  {
    if SpecSetup(f, spec, cost, i).Some? {
      SetupIsBounded(f, spec, cost, i, end);
    }
    if MarketSetup(f, spec, c, x, i).Some? {
      SetupIsBounded(f, spec, PerSide(f, c, x, i), i, end);
    }
  }

  /** No day signals more than three trades, and none loses six R and the worst cost. */
  lemma {:induction false} DailyLimitsHold(all: seq<Option<Trade>>, cursor: nat, book: Book, day: int, c: real)
    requires WellPlaced(all) && c >= 0.0
    requires forall i :: 0 <= i < |all| && all[i].Some? ==> all[i].value.r >= -1.0 - c
    requires CountOn(book.count, day) <= MAX_DAILY_TRADES && RealOn(book.r, day) > DAILY_R_FLOOR - 1.0 - c
    ensures CountOn(book.count, day) + CountOnDay(Simulate(all, cursor, book), day) <= MAX_DAILY_TRADES
    ensures RealOn(book.r, day) + ROnDay(Simulate(all, cursor, book), day) > DAILY_R_FLOOR - 1.0 - c
    decreases |all| - cursor
  {
    if cursor < |all| {
      if all[cursor].None? || book.Closed(all[cursor].value.day) {
        DailyLimitsHold(all, cursor + 1, book, day, c);
      } else {
        var t := all[cursor].value;
        DailyLimitsHold(all, t.exitBar + 1, book.After(t), day, c);
        assert Simulate(all, cursor, book)[1..] == Simulate(all, t.exitBar + 1, book.After(t));
      }
    }
  }

  /** No setup of a run pays more than `k` risk distances per side. */
  predicate SpecCostWithin(f: Frame, spec: StrategySpec, cost: real, end: int, k: real)
    requires f.Shaped() && end <= |f.bars| - 2
  {
    forall i :: 0 <= i < end && SpecSetup(f, spec, cost, i).Some? ==> CostInR(SpecSetup(f, spec, cost, i).value) <= k
  }

  predicate MarketCostWithin(f: Frame, spec: StrategySpec, c: MarketCost, x: Stress, end: int, k: real)
    requires f.Shaped() && end <= |f.bars| - 2
  {
    forall i :: 0 <= i < end && MarketSetup(f, spec, c, x, i).Some? ==> CostInR(MarketSetup(f, spec, c, x, i).value) <= k
  }

  /** So each run signals at most three trades a day and never loses more than six R and that cost on one. */
  lemma RunsKeepDailyLimits(
    f: Frame, spec: StrategySpec, cost: real, c: MarketCost, x: Stress, start: nat, end: int, day: int, k: real)
    requires f.Shaped() && SaneBars(f.bars) && spec.stopAtr > 0.0 && spec.targetR > 0.0 && end <= |f.bars| - 2 && k >= 0.0
    ensures WellPlaced(SpecCandidates(f, spec, cost, end)) && WellPlaced(MarketCandidates(f, spec, c, x, end))
    ensures SpecCostWithin(f, spec, cost, end, k) ==>
              var trades := Simulate(SpecCandidates(f, spec, cost, end), start, EMPTY);
              CountOnDay(trades, day) <= MAX_DAILY_TRADES && ROnDay(trades, day) > DAILY_R_FLOOR - 1.0 - k
    ensures MarketCostWithin(f, spec, c, x, end, k) ==>
              var trades := Simulate(MarketCandidates(f, spec, c, x, end), start, EMPTY);
              CountOnDay(trades, day) <= MAX_DAILY_TRADES && ROnDay(trades, day) > DAILY_R_FLOOR - 1.0 - k
  {
    SpecIsWellPlaced(f, spec, cost, end);
    MarketIsWellPlaced(f, spec, c, x, end);
    var p, q := SpecCandidates(f, spec, cost, end), MarketCandidates(f, spec, c, x, end);
    if SpecCostWithin(f, spec, cost, end, k) {
      forall i | 0 <= i < |p| && p[i].Some? ensures p[i].value.r >= -1.0 - k {
        CandidatesAreBounded(f, spec, cost, c, x, i, end);
      }
      DailyLimitsHold(p, start, EMPTY, day, k);
    }
    if MarketCostWithin(f, spec, c, x, end, k) {
      forall i | 0 <= i < |q| && q[i].Some? ensures q[i].value.r >= -1.0 - k {
        CandidatesAreBounded(f, spec, cost, c, x, i, end);
      }
      DailyLimitsHold(q, start, EMPTY, day, k);
    }
  }
}
