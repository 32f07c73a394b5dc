/** The model backtest: next-bar entries, barriers and a horizon, under daily risk limits. */
module ModelBacktest {
  import opened Core
  import opened Bars

  datatype Config = Config(
    initialEquity: real, riskPerTrade: real, maxDailyLoss: real, maxTradesPerDay: int, maxConsecutiveLosses: int,
    leverage: real, horizon: nat, stopAtr: real, targetAtr: real, minProbability: real,
    fixedSpread: real, slippage: real, commissionPerLot: real)

  /** The test rows: bars in time order with day, ATR, predicted probability and observed spread. */
  datatype Test = Test(
    bars: seq<Bar>, days: seq<int>, atr: seq<real>, probability: seq<real>, spread: seq<Option<real>>)
  {
    predicate Shaped() {
      && |days| == |atr| == |probability| == |spread| == |bars|
      && (forall i, j :: 0 <= i <= j < |days| ==> days[i] <= days[j])
    }
  }

  datatype ExitKind = Stop | Target | Horizon

  /** A trade before sizing: `move` is the price gained per unit after both sides' costs. */
  datatype Quote = Quote(day: int, entryBar: nat, exitBar: nat, kind: ExitKind, entry: real, stopDistance: real, move: real)

  datatype Trade = Trade(quote: Quote, pnl: real)

  // ----- Quotes -----

  function SideFor(c: Config, probability: real): Option<Side> {
    if probability >= c.minProbability then Some(Buy)
    else if probability <= 1.0 - c.minProbability then Some(Sell)
    else None
  }

  /** One side's cost: half the observed spread, or the fixed one, and slippage. */
  function CostAt(t: Test, c: Config, i: nat): real
    requires t.Shaped() && i < |t.bars|
  {
    (if t.spread[i].Some? && t.spread[i].value > 0.0 then t.spread[i].value else c.fixedSpread) / 2.0 + c.slippage
  }

  datatype Exit = Exit(bar: nat, kind: ExitKind, price: real)

  /** The first barrier touched by bar `last`, or the close of bar `last`. */
  function ExitOf(b: Barriers, bars: seq<Bar>, entry: nat, last: nat): Exit
    requires entry <= last < |bars|
  {
    var t := FirstTouch(b, bars, entry, last);
    if t == last + 1 then Exit(last, Horizon, bars[last].close)
    else if StopHit(b.side, bars[t], b.stop) then Exit(t, Stop, b.stop)
    else Exit(t, Target, b.target)
  }

  function StopDistance(t: Test, c: Config, i: nat): real
    requires t.Shaped() && i < |t.bars|
  {
    t.atr[i] * c.stopAtr
  }

  function TargetDistance(t: Test, c: Config, i: nat): real
    requires t.Shaped() && i < |t.bars|
  {
    t.atr[i] * c.targetAtr
  }

  function Entry(side: Side, open: real, cost: real): real { open + Along(side, cost) }

  function BarriersFrom(side: Side, entry: real, stopDistance: real, targetDistance: real): Barriers {
    Barriers(side, entry - Along(side, stopDistance), entry + Along(side, targetDistance))
  }

  /** Price gained per unit: the exit price pays its side's cost as well. */
  function Move(side: Side, entry: real, exit: real, cost: real): real {
    Along(side, exit - Along(side, cost) - entry)
  }

  function QuoteFrom(day: int, entryBar: nat, exit: Exit, side: Side, entry: real, stopDistance: real, cost: real): Quote {
    Quote(day, entryBar, exit.bar, exit.kind, entry, stopDistance, Move(side, entry, exit.price, cost))
  }

  function QuoteAt(t: Test, c: Config, i: nat): Option<Quote>
    requires t.Shaped() && i + 1 + c.horizon < |t.bars|
  {
    var side := SideFor(c, t.probability[i]);
    if side.None? then None
    else
      var cost := CostAt(t, c, i + 1);
      var entry := Entry(side.value, t.bars[i + 1].open, cost);
      var b := BarriersFrom(side.value, entry, StopDistance(t, c, i), TargetDistance(t, c, i));
      var exit := ExitOf(b, t.bars, i + 1, i + 1 + c.horizon);
      Some(QuoteFrom(t.days[i], i + 1, exit, side.value, entry, StopDistance(t, c, i), cost))
  }

  /** The barrier loop. */
  method HoldToBarrier(b: Barriers, bars: seq<Bar>, entryIndex: nat, horizon: nat) returns (exit: Exit)
    requires entryIndex + horizon < |bars|
    ensures exit == ExitOf(b, bars, entryIndex, entryIndex + horizon)
  {
    for cursor := entryIndex to entryIndex + horizon + 1
      invariant FirstTouch(b, bars, entryIndex, entryIndex + horizon) == FirstTouch(b, bars, cursor, entryIndex + horizon)
    {
      var stopHit, targetHit := StopHit(b.side, bars[cursor], b.stop), LevelHit(b.side, bars[cursor], b.target);
      if stopHit {
        return Exit(cursor, Stop, b.stop);
      }
      if targetHit {
        return Exit(cursor, Target, b.target);
      }
    }
    return Exit(entryIndex + horizon, Horizon, bars[entryIndex + horizon].close);
  }

  /** Entry, barriers and exit at one index. */
  method OpenQuote(t: Test, c: Config, index: nat) returns (q: Option<Quote>)
    requires t.Shaped() && index + 1 + c.horizon < |t.bars|
    ensures q == QuoteAt(t, c, index)
  {
    var direction := SideFor(c, t.probability[index]);
    if direction.None? {
      return None;
    }
    var side, entryIndex := direction.value, index + 1;
    var cost := CostAt(t, c, entryIndex);
    var entry := Entry(side, t.bars[entryIndex].open, cost);
    var stopDistance, targetDistance := StopDistance(t, c, index), TargetDistance(t, c, index);
    var exit := HoldToBarrier(BarriersFrom(side, entry, stopDistance, targetDistance), t.bars, entryIndex, c.horizon);
    return Some(QuoteFrom(t.days[index], entryIndex, exit, side, entry, stopDistance, cost));
  }

  // ----- Sizing -----

  /** Sizing divides by both. */
  predicate Divisible(q: Quote) { q.entry != 0.0 && q.stopDistance != 0.0 }

  function UnitsByRisk(c: Config, equity: real, q: Quote): real
    requires Divisible(q)
  {
    equity * c.riskPerTrade / q.stopDistance
  }

  function UnitsByLeverage(c: Config, equity: real, q: Quote): real
    requires Divisible(q)
  {
    equity * c.leverage / q.entry
  }

  function Profit(c: Config, units: real, q: Quote): real {
    q.move * units - c.commissionPerLot * (units / 100000.0)
  }

  /** Profit or loss of a quote taken at an equity; zero where sizing divides by zero. */
  function Earned(c: Config, equity: real, q: Quote): real {
    if Divisible(q) then Profit(c, Min(UnitsByRisk(c, equity, q), UnitsByLeverage(c, equity, q)), q) else 0.0
  }

  method Settle(c: Config, equity: real, q: Quote) returns (pnl: real)
    requires Divisible(q)
    ensures pnl == Earned(c, equity, q)
  {
    var units := UnitsByRisk(c, equity, q);
    var maxUnits := UnitsByLeverage(c, equity, q);
    units := Min(units, maxUnits);
    pnl := Profit(c, units, q);
  }

  // ----- The run over quotes -----

  datatype Book = Book(equity: real, pnl: map<int, real>, count: map<int, nat>, losses: nat, streakDay: Option<int>) {
    /** Arriving on a day resets the loss streak of any other day. */
    function On(day: int): Book {
      if streakDay == Some(day) then this else this.(losses := 0, streakDay := Some(day))
    }

    function Add(t: Trade): Book {
      var day := t.quote.day;
      Book(equity + t.pnl, pnl[day := RealOn(pnl, day) + t.pnl], count[day := CountOn(count, day) + 1],
           if t.pnl < 0.0 then losses + 1 else 0, streakDay)
    }
  }

  /** What a run needs to know of its configuration; `earned` is its profit function. */
  datatype Rules = Rules(dailyCap: real, maxTrades: int, maxLosses: int, earned: (real, Quote) -> real)

  predicate Shut(r: Rules, book: Book, day: int) {
    RealOn(book.pnl, day) <= -r.dailyCap || CountOn(book.count, day) >= r.maxTrades || book.losses >= r.maxLosses
  }

  predicate InOrder(days: seq<int>) { forall i, j :: 0 <= i <= j < |days| ==> days[i] <= days[j] }

  predicate WellPlaced(quotes: seq<Option<Quote>>, days: seq<int>) {
    && |quotes| <= |days|
    && forall i :: 0 <= i < |quotes| && quotes[i].Some? ==>
      quotes[i].value.day == days[i] && quotes[i].value.entryBar == i + 1 <= quotes[i].value.exitBar
  }

  function TradeOf(r: Rules, equity: real, q: Quote): Trade { Trade(q, r.earned(equity, q)) }

  function Journal(r: Rules, quotes: seq<Option<Quote>>, days: seq<int>, index: nat, book: Book): seq<Trade>
    requires WellPlaced(quotes, days)
    decreases |quotes| - index
  {
    if index >= |quotes| then []
    else if Shut(r, book.On(days[index]), days[index]) || quotes[index].None? then
      Journal(r, quotes, days, index + 1, book.On(days[index]))
    else
      var t := TradeOf(r, book.equity, quotes[index].value);
      [t] + Journal(r, quotes, days, t.quote.exitBar + 1, book.On(days[index]).Add(t))
  }

  /** The trades made so far, and those still to come from an index. */
  function Complete(trades: seq<Trade>, r: Rules, quotes: seq<Option<Quote>>, days: seq<int>, index: nat, book: Book): seq<Trade>
    requires WellPlaced(quotes, days)
  {
    trades + Journal(r, quotes, days, index, book)
  }

  /** What taking an index comes to. */
  datatype Taken = Nothing | Made(trade: Trade) | ZeroDivision

  function Sized(r: Rules, equity: real, quote: Option<Quote>): Taken {
    if quote.None? then Nothing
    else if !Divisible(quote.value) then ZeroDivision
    else Made(TradeOf(r, equity, quote.value))
  }

  /** What a visit to an index comes to, once its day has arrived. */
  function Visited(r: Rules, quote: Option<Quote>, day: int, book: Book): Taken {
    if Shut(r, book.On(day), day) then Nothing else Sized(r, book.equity, quote)
  }

  predicate AllDivisible(trades: seq<Trade>) { forall k :: 0 <= k < |trades| ==> Divisible(trades[k].quote) }

  /** One pass of the loop keeps the complete journal, or meets the trade in it that divides by zero. */
  lemma PassStep(trades: seq<Trade>, r: Rules, quotes: seq<Option<Quote>>, days: seq<int>, index: nat, book: Book, taken: Taken)
    requires WellPlaced(quotes, days) && index < |quotes|
    requires taken == Visited(r, quotes[index], days[index], book)
    ensures taken.Nothing? ==>
              Complete(trades, r, quotes, days, index, book) == Complete(trades, r, quotes, days, index + 1, book.On(days[index]))
    ensures taken.Made? ==> var t := taken.trade;
      && t.quote.exitBar > index && t.quote.day == days[index] && Divisible(t.quote)
      && Complete(trades, r, quotes, days, index, book)
         == Complete(trades + [t], r, quotes, days, t.quote.exitBar + 1, book.On(days[index]).Add(t))
    ensures taken.ZeroDivision? ==> !AllDivisible(Complete(trades, r, quotes, days, index, book))
  {
    if taken.Made? {
      var t := taken.trade;
      var rest := Journal(r, quotes, days, t.quote.exitBar + 1, book.On(days[index]).Add(t));
      assert trades + ([t] + rest) == (trades + [t]) + rest;
    } else if taken.ZeroDivision? {
      assert Journal(r, quotes, days, index, book)[0].quote == quotes[index].value;
      assert Complete(trades, r, quotes, days, index, book)[|trades|].quote == quotes[index].value;
    }
  }

  function DailyCap(c: Config): real { c.initialEquity * c.maxDailyLoss }

  function RulesOf(c: Config): Rules {
    Rules(DailyCap(c), c.maxTradesPerDay, c.maxConsecutiveLosses, (equity, q) => Earned(c, equity, q))
  }

  function Opening(c: Config): Book { Book(c.initialEquity, map[], map[], 0, None) }

  function Quotes(t: Test, c: Config): (quotes: seq<Option<Quote>>)
    requires t.Shaped()
    ensures |quotes| == MaxInt(0, |t.bars| - c.horizon - 1)
    ensures forall i :: 0 <= i < |quotes| ==> quotes[i] == QuoteAt(t, c, i)
  {
    seq(MaxInt(0, |t.bars| - c.horizon - 1), i requires 0 <= i < |t.bars| - c.horizon - 1 => QuoteAt(t, c, i))
  }

  lemma QuotesAreWellPlaced(t: Test, c: Config)
    requires t.Shaped()
    ensures WellPlaced(Quotes(t, c), t.days)
  {
    forall i | 0 <= i < |Quotes(t, c)| && Quotes(t, c)[i].Some?
      ensures var q := Quotes(t, c)[i].value;
              q.day == t.days[i] && q.entryBar == i + 1 <= q.exitBar
    {
    }
  }

  /** The trades of a run. */
  function TradesOf(t: Test, c: Config): seq<Trade>
    requires t.Shaped()
  {
    QuotesAreWellPlaced(t, c);
    Journal(RulesOf(c), Quotes(t, c), t.days, 0, Opening(c))
  }

  // ----- The loop -----

  /** One quote: open it, size it, settle it. */
  method TakeQuote(t: Test, c: Config, index: nat, equity: real) returns (taken: Taken)
    requires t.Shaped() && index < |t.bars| - c.horizon - 1
    ensures taken == Sized(RulesOf(c), equity, Quotes(t, c)[index])
  {
    var q := OpenQuote(t, c, index);
    if q.None? {
      return Nothing;
    }
    if !Divisible(q.value) {
      return ZeroDivision;
    }
    var pnl := Settle(c, equity, q.value);
    return Made(Trade(q.value, pnl));
  }

  /** The three daily limits. */
  method DayIsShut(c: Config, book: Book, day: int) returns (shut: bool)
    ensures shut == Shut(RulesOf(c), book, day)
  {
    if RealOn(book.pnl, day) <= -DailyCap(c) {
      return true;
    }
    if CountOn(book.count, day) >= c.maxTradesPerDay {
      return true;
    }
    return book.losses >= c.maxConsecutiveLosses;
  }

  /** Arriving at an index: the day's limits, then its quote. */
  method Visit(t: Test, c: Config, index: nat, book: Book) returns (arrived: Book, taken: Taken)
    requires t.Shaped() && index < |t.bars| - c.horizon - 1
    ensures arrived == book.On(t.days[index])
    ensures taken == Visited(RulesOf(c), Quotes(t, c)[index], t.days[index], book)
  {
    var day := t.days[index];
    arrived := if book.streakDay == Some(day) then book else book.(losses := 0, streakDay := Some(day));
    var shut := DayIsShut(c, arrived, day);
    if shut {
      return arrived, Nothing;
    }
    taken := TakeQuote(t, c, index, book.equity);
  }

  /** A trade made is booked, and the index jumps past its exit. */
  method Advance(trades: seq<Trade>, arrived: Book, index: nat, taken: Taken,
                 ghost book: Book, ghost r: Rules, ghost quotes: seq<Option<Quote>>, ghost days: seq<int>)
    returns (trades': seq<Trade>, book': Book, index': nat)
    requires WellPlaced(quotes, days) && index < |quotes| && arrived == book.On(days[index])
    requires taken == Visited(r, quotes[index], days[index], book) && !taken.ZeroDivision?
    ensures index' > index
    ensures Complete(trades', r, quotes, days, index', book') == Complete(trades, r, quotes, days, index, book)
    ensures AllDivisible(trades) ==> AllDivisible(trades')
    ensures book'.equity - Earnings(trades') == book.equity - Earnings(trades)
  {
    PassStep(trades, r, quotes, days, index, book, taken);
    match taken
    case Nothing => return trades, arrived, index + 1;
    case Made(trade) =>
      EarningsAppend(trades, trade);
      return trades + [trade], arrived.Add(trade), trade.quote.exitBar + 1;
  }

  datatype Outcome = Finished(trades: seq<Trade>, equity: real) | Raised

  method RunModelBacktest(t: Test, c: Config) returns (outcome: Outcome)
    requires t.Shaped()
    ensures outcome == if AllDivisible(TradesOf(t, c)) then Finished(TradesOf(t, c), c.initialEquity + Earnings(TradesOf(t, c)))
                       else Raised
  {
    QuotesAreWellPlaced(t, c);
    ghost var quotes, r := Quotes(t, c), RulesOf(c);
    var book, trades: seq<Trade>, index: nat := Opening(c), [], 0;
    assert [] + TradesOf(t, c) == TradesOf(t, c);
    while index < |t.bars| - c.horizon - 1
      invariant Complete(trades, r, quotes, t.days, index, book) == TradesOf(t, c)
      invariant AllDivisible(trades) && book.equity == c.initialEquity + Earnings(trades)
      decreases |t.bars| - index
    {
      var arrived, taken := Visit(t, c, index, book);
      if taken.ZeroDivision? {
        PassStep(trades, r, quotes, t.days, index, book, taken);
        return Raised;
      }
      trades, book, index := Advance(trades, arrived, index, taken, book, r, quotes, t.days);
    }
    assert trades + [] == trades;
    return Finished(trades, book.equity);
  }

  // ----- Folds over a journal -----

  function Earnings(trades: seq<Trade>): real {
    if |trades| == 0 then 0.0 else Earnings(trades[..|trades| - 1]) + trades[|trades| - 1].pnl
  }

  lemma EarningsAppend(trades: seq<Trade>, t: Trade)
    ensures Earnings(trades + [t]) == Earnings(trades) + t.pnl
  {
    assert (trades + [t])[..|trades|] == trades;
  }

  function PnlOnDay(trades: seq<Trade>, day: int): real {
    if |trades| == 0 then 0.0
    else PnlOnDay(trades[..|trades| - 1], day) + if trades[|trades| - 1].quote.day == day then trades[|trades| - 1].pnl else 0.0
  }

  function TradesOnDay(trades: seq<Trade>, day: int): nat {
    if |trades| == 0 then 0
    else TradesOnDay(trades[..|trades| - 1], day) + if trades[|trades| - 1].quote.day == day then 1 else 0
  }

  /** How many of the latest trades in a row were losses of this day. */
  function LatestLosses(trades: seq<Trade>, day: int): nat {
    if |trades| == 0 || trades[|trades| - 1].quote.day != day || trades[|trades| - 1].pnl >= 0.0 then 0
    else 1 + LatestLosses(trades[..|trades| - 1], day)
  }

  // ----- Whole-run safety -----

  /** The book after a list of trades. */
  function Replayed(book: Book, trades: seq<Trade>): Book
    decreases |trades|
  {
    if |trades| == 0 then book else Replayed(book.On(trades[0].quote.day).Add(trades[0]), trades[1..])
  }

  lemma {:induction false} ReplayedAppend(book: Book, trades: seq<Trade>, t: Trade)
    ensures Replayed(book, trades + [t]) == Replayed(book, trades).On(t.quote.day).Add(t)
    decreases |trades|
  {
    if |trades| == 0 {
      assert [] + [t] == [t] && [t][1..] == [];
    } else {
      ReplayedAppend(book.On(trades[0].quote.day).Add(trades[0]), trades[1..], t);
      assert (trades + [t])[1..] == trades[1..] + [t];
    }
  }

  /** The book's counters are the folds over the journal. */
  lemma {:induction false} ReplayedIsFolded(c: Config, trades: seq<Trade>, day: int)
    ensures var b := Replayed(Opening(c), trades).On(day);
            && b.equity == c.initialEquity + Earnings(trades)
            && RealOn(b.pnl, day) == PnlOnDay(trades, day)
            && CountOn(b.count, day) == TradesOnDay(trades, day)
            && b.losses == LatestLosses(trades, day)
  {
    if |trades| > 0 {
      var n := |trades| - 1;
      assert trades == trades[..n] + [trades[n]];
      ReplayedAppend(Opening(c), trades[..n], trades[n]);
      ReplayedIsFolded(c, trades[..n], day);
      ReplayedIsFolded(c, trades[..n], trades[n].quote.day);
    }
  }

  function EquityAfter(t: Test, c: Config, k: nat): real
    requires t.Shaped() && k <= |TradesOf(t, c)|
  {
    c.initialEquity + Earnings(TradesOf(t, c)[..k])
  }

  predicate OpenedFrom(r: Rules, book: Book, t: Trade) {
    !Shut(r, book.On(t.quote.day), t.quote.day) && t == TradeOf(r, book.equity, t.quote)
  }

  /** A book whose latest arrival was on no later day than this. */
  predicate NotAhead(book: Book, day: int) { book.streakDay.Some? ==> book.streakDay.value <= day }

  lemma JournalSkips(r: Rules, quotes: seq<Option<Quote>>, days: seq<int>, index: nat, book: Book)
    requires WellPlaced(quotes, days) && index < |quotes|
    requires Shut(r, book.On(days[index]), days[index]) || quotes[index].None?
    ensures Journal(r, quotes, days, index, book) == Journal(r, quotes, days, index + 1, book.On(days[index]))
  {
  }

  lemma JournalTakes(r: Rules, quotes: seq<Option<Quote>>, days: seq<int>, index: nat, book: Book) returns (t: Trade)
    requires WellPlaced(quotes, days) && index < |quotes|
    requires !Shut(r, book.On(days[index]), days[index]) && quotes[index].Some?
    ensures t == TradeOf(r, book.equity, quotes[index].value) && t.quote.day == days[index] && t.quote.exitBar > index
    ensures var all := Journal(r, quotes, days, index, book);
            && |all| > 0 && all[0] == t
            && all[1..] == Journal(r, quotes, days, t.quote.exitBar + 1, book.On(days[index]).Add(t))
  {
    t := TradeOf(r, book.equity, quotes[index].value);
  }

  /** Every trade comes from a quote at or after the starting index. */
  lemma {:induction false} JournalTakesQuotes(r: Rules, quotes: seq<Option<Quote>>, days: seq<int>, index: nat, book: Book, k: nat)
    requires WellPlaced(quotes, days) && k < |Journal(r, quotes, days, index, book)|
    ensures var q := Journal(r, quotes, days, index, book)[k].quote;
            index + 1 <= q.entryBar <= |quotes| && quotes[q.entryBar - 1] == Some(q)
    decreases |quotes| - index
  {
    if Shut(r, book.On(days[index]), days[index]) || quotes[index].None? {
      JournalSkips(r, quotes, days, index, book);
      JournalTakesQuotes(r, quotes, days, index + 1, book.On(days[index]), k);
    } else {
      var t := JournalTakes(r, quotes, days, index, book);
      if k > 0 {
        JournalTakesQuotes(r, quotes, days, t.quote.exitBar + 1, book.On(days[index]).Add(t), k - 1);
      }
    }
  }

  /** A visit that made no trade is forgotten at the next one. */
  lemma SameReplay(book: Book, arrived: Book, trades: seq<Trade>)
    requires |trades| > 0 && arrived.On(trades[0].quote.day) == book.On(trades[0].quote.day)
    ensures Replayed(arrived, trades) == Replayed(book, trades)
  {
  }

  lemma VisitIsForgotten(book: Book, day: int, later: int)
    requires NotAhead(book, day) && day <= later
    ensures book.On(day).On(later) == book.On(later) && NotAhead(book.On(day), later)
  {
  }

  lemma ReplayedFirst(book: Book, all: seq<Trade>, k: nat)
    requires 0 < k <= |all|
    ensures Replayed(book, all[..k]) == Replayed(book.On(all[0].quote.day).Add(all[0]), all[1..][..k - 1])
  {
    assert all[..k][0] == all[0] && all[..k][1..] == all[1..][..k - 1];
  }

  /** Every trade was opened from the book that its own predecessors produce. */
  lemma {:induction false} JournalOpensFromReplay(
    r: Rules, quotes: seq<Option<Quote>>, days: seq<int>, index: nat, book: Book, k: nat)
    requires WellPlaced(quotes, days) && InOrder(days) && k < |Journal(r, quotes, days, index, book)|
    requires index < |days| ==> NotAhead(book, days[index])
    ensures var all := Journal(r, quotes, days, index, book);
            OpenedFrom(r, Replayed(book, all[..k]), all[k])
    decreases |quotes| - index
  {
    var all, arrived := Journal(r, quotes, days, index, book), book.On(days[index]);
    if Shut(r, arrived, days[index]) || quotes[index].None? {
      JournalSkips(r, quotes, days, index, book);
      if index + 1 < |days| {
        VisitIsForgotten(book, days[index], days[index + 1]);
      }
      JournalOpensFromReplay(r, quotes, days, index + 1, arrived, k);
      JournalTakesQuotes(r, quotes, days, index + 1, arrived, 0);
      VisitIsForgotten(book, days[index], all[0].quote.day);
      if k > 0 {
        SameReplay(book, arrived, all[..k]);
      }
    } else {
      var t := JournalTakes(r, quotes, days, index, book);
      if k > 0 {
        JournalOpensFromReplay(r, quotes, days, t.quote.exitBar + 1, arrived.Add(t), k - 1);
        ReplayedFirst(book, all, k);
      }
    }
  }

  /** When a trade is made its day is above the loss cap, below the trade limit, and has fewer than the maximum of
      straight losses; and it is sized on the equity its predecessors left. */
  lemma EveryTradeKeepsTheLimits(t: Test, c: Config, k: nat)
    requires t.Shaped() && k < |TradesOf(t, c)|
    ensures var trades := TradesOf(t, c);
            && PnlOnDay(trades[..k], trades[k].quote.day) > -DailyCap(c)
            && TradesOnDay(trades[..k], trades[k].quote.day) < c.maxTradesPerDay
            && LatestLosses(trades[..k], trades[k].quote.day) < c.maxConsecutiveLosses
            && trades[k].pnl == Earned(c, EquityAfter(t, c, k), trades[k].quote)
  {
    QuotesAreWellPlaced(t, c);
    var trades := TradesOf(t, c);
    JournalOpensFromReplay(RulesOf(c), Quotes(t, c), t.days, 0, Opening(c), k);
    ReplayedIsFolded(c, trades[..k], trades[k].quote.day);
  }

  /** Positions never share a bar: a trade is entered after the bar that closed any earlier one. */
  lemma {:induction false} JournalIsDisjoint(
    r: Rules, quotes: seq<Option<Quote>>, days: seq<int>, index: nat, book: Book, j: nat, k: nat)
    requires WellPlaced(quotes, days) && j < k < |Journal(r, quotes, days, index, book)|
    ensures var all := Journal(r, quotes, days, index, book);
            all[j].quote.exitBar + 1 < all[k].quote.entryBar
    decreases |quotes| - index
  {
    if Shut(r, book.On(days[index]), days[index]) || quotes[index].None? {
      JournalSkips(r, quotes, days, index, book);
      JournalIsDisjoint(r, quotes, days, index + 1, book.On(days[index]), j, k);
    } else {
      var t := JournalTakes(r, quotes, days, index, book);
      var from := book.On(days[index]).Add(t);
      if j > 0 {
        JournalIsDisjoint(r, quotes, days, t.quote.exitBar + 1, from, j - 1, k - 1);
      } else {
        JournalTakesQuotes(r, quotes, days, t.quote.exitBar + 1, from, k - 1);
      }
    }
  }

  lemma TradesNeverOverlap(t: Test, c: Config, j: nat, k: nat)
    requires t.Shaped() && j < k < |TradesOf(t, c)|
    ensures TradesOf(t, c)[j].quote.exitBar + 1 < TradesOf(t, c)[k].quote.entryBar <= TradesOf(t, c)[k].quote.exitBar < |t.bars|
  {
    QuotesAreWellPlaced(t, c);
    JournalIsDisjoint(RulesOf(c), Quotes(t, c), t.days, 0, Opening(c), j, k);
    JournalTakesQuotes(RulesOf(c), Quotes(t, c), t.days, 0, Opening(c), k);
  }

  // ----- Bounds on losses -----

  /** Positive ATRs and stop multiple, prices above costs that are not negative. */
  predicate Sane(t: Test, c: Config) {
    && t.Shaped() && c.stopAtr > 0.0
    && forall i :: 0 <= i < |t.bars| ==> t.atr[i] > 0.0 && t.bars[i].open > CostAt(t, c, i) >= 0.0
  }

  predicate Sizable(q: Quote) { q.entry > 0.0 && q.stopDistance > 0.0 }

  lemma QuotesAreSizable(t: Test, c: Config, i: nat)
    requires Sane(t, c) && i < |Quotes(t, c)| && Quotes(t, c)[i].Some?
    ensures Sizable(Quotes(t, c)[i].value)
  {
    assert StopDistance(t, c, i) > 0.0;
    assert t.bars[i + 1].open > CostAt(t, c, i + 1) >= 0.0;
  }

  /** On sane data the run finishes. */
  lemma SaneRunsFinish(t: Test, c: Config)
    requires Sane(t, c)
    ensures AllDivisible(TradesOf(t, c))
  {
    QuotesAreWellPlaced(t, c);
    forall k | 0 <= k < |TradesOf(t, c)| ensures Divisible(TradesOf(t, c)[k].quote) {
      JournalTakesQuotes(RulesOf(c), Quotes(t, c), t.days, 0, Opening(c), k);
      QuotesAreSizable(t, c, TradesOf(t, c)[k].quote.entryBar - 1);
    }
  }

  /** A trade gives up at most its stop distance and the exit side's cost. */
  lemma WorstMove(t: Test, c: Config, i: nat)
    requires Sane(t, c) && SaneBars(t.bars) && c.targetAtr >= 0.0
    requires i < |Quotes(t, c)| && Quotes(t, c)[i].Some?
    ensures var q := Quotes(t, c)[i].value;
            && q.move >= -q.stopDistance - CostAt(t, c, i + 1)
            && (q.kind.Stop? <==> q.move == -q.stopDistance - CostAt(t, c, i + 1))
  {
    var side := SideFor(c, t.probability[i]).value;
    var stop, target := StopDistance(t, c, i), TargetDistance(t, c, i);
    assert stop > 0.0 && target >= 0.0;
  }

  function Friction(c: Config, cost: real): real { cost + c.commissionPerLot / 100000.0 }

  function Share(phi: real, x: real): real { phi * x }

  /** Costs per unit are at most the fraction `phi` of every stop distance. */
  predicate FrictionWithin(t: Test, c: Config, phi: real)
    requires t.Shaped()
  {
    forall i :: 0 <= i < |t.bars| - 1 ==> Friction(c, CostAt(t, c, i + 1)) <= Share(phi, StopDistance(t, c, i))
  }

  lemma UnitsAreBounded(c: Config, equity: real, q: Quote) returns (units: real)
    requires Sizable(q) && equity >= 0.0 && c.riskPerTrade >= 0.0 && c.leverage >= 0.0
    ensures Earned(c, equity, q) == Profit(c, units, q)
    ensures units >= 0.0 && units * q.stopDistance <= equity * c.riskPerTrade
  {
    units := Min(UnitsByRisk(c, equity, q), UnitsByLeverage(c, equity, q));
    Quotient(equity * c.riskPerTrade, q.stopDistance);
    Quotient(equity * c.leverage, q.entry);
    ScaleLe(units, UnitsByRisk(c, equity, q), q.stopDistance);
  }

  lemma Quotient(x: real, y: real)
    requires y > 0.0 && x >= 0.0
    ensures x / y >= 0.0 && x / y * y == x
  {
  }

  /** What one trade can lose: the risked cash and its share of friction. */
  function AtRisk(c: Config, phi: real, equity: real): real { equity * c.riskPerTrade * (1.0 + phi) }

  lemma LossIsBounded(units: real, move: real, stop: real, cost: real, rate: real, phi: real, cash: real)
    requires units >= 0.0 && units * stop <= cash && phi >= 0.0
    requires move >= -stop - cost && cost + rate / 100000.0 <= Share(phi, stop)
    ensures move * units - rate * (units / 100000.0) >= -(cash * (1.0 + phi))
  {
    var fee := rate / 100000.0;
    assert rate * (units / 100000.0) == fee * units;
    ScaleLe(-stop - phi * stop, move - fee, units);
    assert (-stop - phi * stop) * units == -((units * stop) * (1.0 + phi));
    ScaleLe(units * stop, cash, 1.0 + phi);
    assert (move - fee) * units == move * units - fee * units;
  }

  /** The bounds under which losses are limited: sane bars, non-negative settings, friction within `phi` stops. */
  predicate Bounded(t: Test, c: Config, phi: real) {
    && Sane(t, c) && SaneBars(t.bars) && FrictionWithin(t, c, phi)
    && c.targetAtr >= 0.0 && c.riskPerTrade >= 0.0 && c.leverage >= 0.0 && phi >= 0.0
  }

  /** What a quote's loss depends on. */
  predicate Limited(q: Quote, c: Config, phi: real, cost: real) {
    Sizable(q) && q.move >= -q.stopDistance - cost && Friction(c, cost) <= Share(phi, q.stopDistance)
  }

  lemma QuotesAreLimited(t: Test, c: Config, phi: real, i: nat) returns (q: Quote)
    requires Bounded(t, c, phi) && i < |Quotes(t, c)| && Quotes(t, c)[i].Some?
    ensures q == Quotes(t, c)[i].value && Limited(q, c, phi, CostAt(t, c, i + 1))
  {
    q := Quotes(t, c)[i].value;
    QuotesAreSizable(t, c, i);
    WorstMove(t, c, i);
    assert q.stopDistance == StopDistance(t, c, i);
  }

  lemma WorstLoss(c: Config, phi: real, q: Quote, cost: real, equity: real)
    requires Limited(q, c, phi, cost) && equity >= 0.0 && c.riskPerTrade >= 0.0 && c.leverage >= 0.0 && phi >= 0.0
    ensures Earned(c, equity, q) >= -AtRisk(c, phi, equity)
  {
    var units := UnitsAreBounded(c, equity, q);
    LossIsBounded(units, q.move, q.stopDistance, cost, c.commissionPerLot, phi, equity * c.riskPerTrade);
  }

  /** No trade loses more than its risked cash and friction, measured on the equity it was opened with. */
  lemma TradeLossIsBounded(t: Test, c: Config, phi: real, k: nat)
    requires Bounded(t, c, phi) && k < |TradesOf(t, c)| && EquityAfter(t, c, k) >= 0.0
    ensures TradesOf(t, c)[k].pnl >= -AtRisk(c, phi, EquityAfter(t, c, k))
  {
    QuotesAreWellPlaced(t, c);
    var trade := TradesOf(t, c)[k];
    var i := trade.quote.entryBar - 1;
    JournalTakesQuotes(RulesOf(c), Quotes(t, c), t.days, 0, Opening(c), k);
    assert trade.pnl == Earned(c, EquityAfter(t, c, k), trade.quote) by { EveryTradeKeepsTheLimits(t, c, k); }
    var q := QuotesAreLimited(t, c, phi, i);
    WorstLoss(c, phi, q, CostAt(t, c, i + 1), EquityAfter(t, c, k));
  }

  lemma LeavesSome(c: Config, phi: real, equity: real)
    requires equity > 0.0 && c.riskPerTrade * (1.0 + phi) < 1.0
    ensures equity - AtRisk(c, phi, equity) > 0.0
  {
    var share := c.riskPerTrade * (1.0 + phi);
    assert AtRisk(c, phi, equity) == equity * share;
    assert equity * (1.0 - share) > 0.0;
    assert equity * (1.0 - share) == equity - equity * share;
  }

  /** While one trade can lose less than all of it, equity never runs out. */
  lemma {:induction false} EquityStaysPositive(t: Test, c: Config, phi: real, k: nat)
    requires Bounded(t, c, phi) && c.riskPerTrade * (1.0 + phi) < 1.0 && c.initialEquity > 0.0
    requires k <= |TradesOf(t, c)|
    ensures EquityAfter(t, c, k) > 0.0
  {
    if k > 0 {
      var trades := TradesOf(t, c);
      EquityStaysPositive(t, c, phi, k - 1);
      TradeLossIsBounded(t, c, phi, k - 1);
      assert trades[..k] == trades[..k - 1] + [trades[k - 1]];
      EarningsAppend(trades[..k - 1], trades[k - 1]);
      LeavesSome(c, phi, EquityAfter(t, c, k - 1));
    }
  }

  /** After any trade its day has lost less than the daily cap and one worst-case trade. */
  lemma DailyLossIsBounded(t: Test, c: Config, phi: real, k: nat)
    requires Bounded(t, c, phi) && c.riskPerTrade * (1.0 + phi) < 1.0 && c.initialEquity > 0.0
    requires k < |TradesOf(t, c)|
    ensures var trades := TradesOf(t, c);
            PnlOnDay(trades[..k + 1], trades[k].quote.day)
            > -DailyCap(c) - AtRisk(c, phi, EquityAfter(t, c, k))
  {
    var trades := TradesOf(t, c);
    EveryTradeKeepsTheLimits(t, c, k);
    EquityStaysPositive(t, c, phi, k);
    TradeLossIsBounded(t, c, phi, k);
    assert trades[..k + 1][..k] == trades[..k];
  }
}
