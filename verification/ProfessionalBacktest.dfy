/** The professional backtester: the in-trade loop, sizing, and the cursor loop over five-minute bars. */
module ProfessionalBacktest {
  import opened Core
  import opened Bars
  import opened ExitReplay

  datatype TradeReason = StoppedOut | Breakeven | Target | DataEnd

  /** What the strategy answers at a cursor it wants to trade. */
  datatype Decision = Decision(
    side: Side, riskDistance: real, targetDistance: real, riskPerTrade: real, partialFraction: real)
  {
    /** Risk that is not negative, a share to close, and a target at 1R or beyond. */
    predicate Sane() { riskPerTrade >= 0.0 && 0.0 <= partialFraction <= 1.0 && targetDistance >= riskDistance }
  }

  datatype TradeExit = TradeExit(realized: real, reason: TradeReason, exitBar: nat)

  /** The names under which the diagnostics report the backtester's reasons. */
  function MapExitReason(r: TradeReason): ExitReason {
    match r
    case StoppedOut => StopLoss
    case Breakeven => PartialThenBreakeven
    case Target => TakeProfit
    case DataEnd => Timeout
  }

  /** The replay policy the backtester implements: partial close and breakeven both at 1R. */
  function HousePolicy(d: Decision): ExitPolicy
    requires d.riskDistance > 0.0
  {
    ExitPolicy(d.targetDistance / d.riskDistance, Some(1.0), d.partialFraction, Some(1.0))
  }

  lemma HouseLevels(d: Decision, entry: real)
    requires d.riskDistance > 0.0
    ensures var l := LevelsOf(d.side, entry, d.riskDistance, HousePolicy(d));
            && l.stop == entry - Along(d.side, d.riskDistance)
            && l.partial == l.breakeven == Some(entry + Along(d.side, d.riskDistance))
            && l.target == entry + Along(d.side, d.targetDistance)
  {
    assert d.riskDistance * (d.targetDistance / d.riskDistance) == d.targetDistance;
  }

  /** What `r` risk distances are worth on `units`. */
  function CashOf(units: real, risk: real, r: real): real { units * risk * r }

  /** Cash of closing `weight` of `units` at `level`, less the exit cost. */
  function FillInCash(side: Side, entry: real, units: real, cost: real): (real, real) -> real {
    (level, weight) => Along(side, level - Along(side, cost) - entry) * units * weight
  }

  /** The in-trade loop, which closes a part and moves the stop at one price. */
  method InTrade(l: Levels, fraction: real, bars: seq<Bar>, fill: (real, real) -> real)
    returns (realized: real, reason: TradeReason, exitBar: nat, partialTaken: bool)
    requires l.partial.Some? && l.breakeven == l.partial
    ensures var path := PathOf(l, bars);
            && realized == PathSum(l, fraction, path, fill)
            && MapExitReason(reason) == ReasonOf(path)
            && exitBar == (if path.end.StillOpen? then 0 else path.end.bar)
            && partialTaken == path.partialTaken
  {
    var stop, tp1, remaining := l.stop, l.partial.value, 1.0;
    realized, reason, exitBar, partialTaken := 0.0, DataEnd, 0, false;
    for i := 0 to |bars|
      invariant FirstEnd(l, bars, 0) == FirstEnd(l, bars, i)
      invariant stop == StopOn(l, bars, i)
      invariant partialTaken <==> Reached(l.side, bars, l.partial, i)
      invariant remaining == if partialTaken then 1.0 - fraction else 1.0
      invariant realized == PartialSum(l, fraction, partialTaken, fill)
    {
      var bar := bars[i];
      var stopHit, tp1Hit, targetHit := StopHit(l.side, bar, stop), LevelHit(l.side, bar, tp1), LevelHit(l.side, bar, l.target);
      if stopHit {
        realized := realized + fill(stop, remaining);
        return realized, if partialTaken then Breakeven else StoppedOut, i, partialTaken;
      }
      if tp1Hit && !partialTaken {
        realized := realized + fill(tp1, fraction);
        remaining := remaining - fraction;
        partialTaken := true;
        stop := l.entry;
      }
      if targetHit {
        realized := realized + fill(l.target, remaining);
        return realized, Target, i, partialTaken;
      }
    }
  }

  // ----- The two simulators agree -----

  lemma FillCashAtR(side: Side, entry: real, risk: real, units: real, cost: real, r: real, weight: real)
    requires risk > 0.0
    ensures FillInCash(side, entry, units, cost)(AtR(side, entry, risk, r), weight)
            == CashOf(units, risk, FillInR(side, entry, risk, cost)(AtR(side, entry, risk, r), weight))
  {
    var distance := Along(side, AtR(side, entry, risk, r) - Along(side, cost) - entry);
    CashOfDistance(distance, risk, units, weight);
  }

  lemma CashOfDistance(distance: real, risk: real, units: real, weight: real)
    requires risk > 0.0
    ensures distance * units * weight == CashOf(units, risk, distance / risk * weight)
  {
    var r := distance / risk;
    assert distance == risk * r;
    assert (risk * r) * units * weight == units * risk * (r * weight);
  }

  lemma DistributeOver(g: real, x: real, y: real)
    ensures g * (x + y) == g * x + g * y
  {
  }

  lemma RestCashAtR(side: Side, entry: real, risk: real, p: ExitPolicy, units: real, cost: real, path: Path)
    requires risk > 0.0
    ensures var (l, f) := (LevelsOf(side, entry, risk, p), p.partialFraction);
            RestSum(l, f, path, FillInCash(side, entry, units, cost))
            == CashOf(units, risk, RestSum(l, f, path, FillInR(side, entry, risk, cost)))
  {
    if !path.end.StillOpen? {
      ClosingPriceAtR(side, entry, risk, p, path.end);
      FillCashAtR(side, entry, risk, units, cost, ClosingR(p, path.end), if path.partialTaken then 1.0 - p.partialFraction else 1.0);
    }
  }

  lemma PathCashAtR(side: Side, entry: real, risk: real, p: ExitPolicy, units: real, cost: real, path: Path)
    requires risk > 0.0 && (path.partialTaken ==> p.partialAtR.Some?)
    ensures var l := LevelsOf(side, entry, risk, p);
            PathSum(l, p.partialFraction, path, FillInCash(side, entry, units, cost))
            == CashOf(units, risk, PathSum(l, p.partialFraction, path, FillInR(side, entry, risk, cost)))
  {
    var l, f := LevelsOf(side, entry, risk, p), FillInR(side, entry, risk, cost);
    if path.partialTaken {
      FillCashAtR(side, entry, risk, units, cost, p.partialAtR.value, p.partialFraction);
    }
    RestCashAtR(side, entry, risk, p, units, cost, path);
    DistributeOver(units * risk, PartialSum(l, p.partialFraction, path.partialTaken, f), RestSum(l, p.partialFraction, path, f));
  }

  lemma CashIsReplayed(d: Decision, entry: real, units: real, cost: real, bars: seq<Bar>, l: Levels)
    requires d.riskDistance > 0.0 && l == LevelsOf(d.side, entry, d.riskDistance, HousePolicy(d))
    ensures PathSum(l, d.partialFraction, PathOf(l, bars), FillInCash(d.side, entry, units, cost))
            == CashOf(units, d.riskDistance, Outcome(d.side, entry, d.riskDistance, HousePolicy(d), bars, cost).rMultiple)
  {
    var p, path := HousePolicy(d), PathOf(l, bars);
    var inR := PathSum(l, d.partialFraction, path, FillInR(d.side, entry, d.riskDistance, cost));
    assert inR == Earned(p, path, cost / d.riskDistance) by {
      PathSumIsEarned(d.side, entry, d.riskDistance, p, cost, path);
    }
    PathCashAtR(d.side, entry, d.riskDistance, p, units, cost, path);
  }

  /** A trade earns exactly `units * risk` times its replay, on the same bar and for the same reason. */
  method RunTrade(d: Decision, entry: real, units: real, cost: real, bars: seq<Bar>) returns (exit: TradeExit)
    requires d.riskDistance > 0.0
    ensures var replay := Outcome(d.side, entry, d.riskDistance, HousePolicy(d), bars, cost);
            && MapExitReason(exit.reason) == replay.reason
            && exit.exitBar == replay.exitBar
            && exit.realized == CashOf(units, d.riskDistance, replay.rMultiple)
  {
    var tp1 := Some(entry + Along(d.side, d.riskDistance));
    var l := Levels(d.side, entry, entry - Along(d.side, d.riskDistance), entry + Along(d.side, d.targetDistance), tp1, tp1);
    var realized, reason, exitBar, _ := InTrade(l, d.partialFraction, bars, FillInCash(d.side, entry, units, cost));
    exit := TradeExit(realized, reason, exitBar);
    HouseLevels(d, entry);
    CashIsReplayed(d, entry, units, cost, bars, l);
  }

  // ----- The cursor loop -----

  datatype Market = Market(bars: seq<Bar>, days: seq<int>, decisions: seq<Option<Decision>>)

  datatype Config = Config(
    initialEquity: real, cost: real, commissionPerLot: real,
    maxDailyTrades: int, maxDailyLoss: real, maxLeverage: real)

  datatype Trade = Trade(day: int, entryBar: nat, exitBar: nat, reason: TradeReason, pnl: real, rMultiple: real)

  datatype Book = Book(equity: real, pnl: map<int, real>, count: map<int, nat>) {
    function After(t: Trade): Book {
      Book(equity + t.pnl, pnl[t.day := RealOn(pnl, t.day) + t.pnl], count[t.day := CountOn(count, t.day) + 1])
    }
  }

  predicate Tradable(m: Market, c: Config) {
    && |m.days| == |m.decisions| == |m.bars|
    && (forall i :: 0 <= i < |m.decisions| && m.decisions[i].Some? ==> m.decisions[i].value.riskDistance > 0.0)
    && (forall i :: 0 <= i < |m.bars| ==> m.bars[i].open > c.cost >= 0.0)
  }

  function UnitsByRisk(equity: real, d: Decision): real
    requires d.riskDistance > 0.0
  {
    equity * d.riskPerTrade / d.riskDistance
  }

  function UnitsByLeverage(c: Config, equity: real, entry: real): real
    requires entry > 0.0
  {
    equity * c.maxLeverage / entry
  }

  function Units(c: Config, equity: real, d: Decision, entry: real): real
    requires d.riskDistance > 0.0 && entry > 0.0
  {
    Min(UnitsByRisk(equity, d), UnitsByLeverage(c, equity, entry))
  }

  function EntryPrice(m: Market, c: Config, cursor: nat): (price: real)
    requires Tradable(m, c) && cursor + 1 < |m.bars| && m.decisions[cursor].Some?
    ensures price > 0.0
  {
    m.bars[cursor + 1].open + Along(m.decisions[cursor].value.side, c.cost)
  }

  /** The replay of the trade signalled at `cursor`. */
  function ReplayAt(m: Market, c: Config, cursor: nat): Replay
    requires Tradable(m, c) && cursor + 1 < |m.bars| && m.decisions[cursor].Some?
  {
    var d := m.decisions[cursor].value;
    Outcome(d.side, EntryPrice(m, c, cursor), d.riskDistance, HousePolicy(d), m.bars[cursor + 1..], c.cost)
  }

  function ReasonFor(r: ExitReason): TradeReason {
    match r
    case StopLoss => StoppedOut
    case PartialThenBreakeven => Breakeven
    case TakeProfit => Target
    case _ => DataEnd
  }

  function Commission(c: Config, units: real): real { c.commissionPerLot * (units / 100000.0) }

  function ReportedR(pnl: real, equity: real, d: Decision): real {
    var riskCash := equity * d.riskPerTrade;
    if riskCash != 0.0 then pnl / riskCash else 0.0
  }

  /** The journal line of the trade signalled at `cursor`, priced through its replay. */
  function TradeAt(m: Market, c: Config, cursor: nat, equity: real): Trade
    requires Tradable(m, c) && cursor + 1 < |m.bars| && m.decisions[cursor].Some?
  {
    var d, replay := m.decisions[cursor].value, ReplayAt(m, c, cursor);
    var units := Units(c, equity, d, EntryPrice(m, c, cursor));
    var pnl := CashOf(units, d.riskDistance, replay.rMultiple) - Commission(c, units);
    Trade(m.days[cursor], cursor + 1, cursor + 1 + replay.exitBar, ReasonFor(replay.reason), pnl, ReportedR(pnl, equity, d))
  }

  // ----- The run over signals -----

  /** What a run needs to know of its configuration: how deep a day may fall at an equity, and the trade that the signal of
      a bar turns into at an equity. */
  datatype Rules = Rules(maxTrades: int, floor: real -> real, trade: (nat, real) -> Trade)

  predicate Shut(r: Rules, book: Book, day: int) {
    CountOn(book.count, day) >= r.maxTrades || RealOn(book.pnl, day) <= r.floor(book.equity)
  }

  predicate PlacedAt(t: Trade, day: int, i: nat) { t.day == day && t.entryBar == i + 1 <= t.exitBar }

  ghost predicate Placed(r: Rules, days: seq<int>, signals: seq<bool>) {
    |signals| <= |days| && forall i: nat, e: real :: i < |signals| && signals[i] ==> PlacedAt(r.trade(i, e), days[i], i)
  }

  ghost function Journal(r: Rules, days: seq<int>, signals: seq<bool>, cursor: nat, book: Book): seq<Trade>
    requires Placed(r, days, signals)
    decreases |signals| - cursor
  {
    if cursor >= |signals| then []
    else if Shut(r, book, days[cursor]) || !signals[cursor] then Journal(r, days, signals, cursor + 1, book)
    else
      var t := r.trade(cursor, book.equity);
      assert PlacedAt(t, days[cursor], cursor);
      [t] + Journal(r, days, signals, t.exitBar + 1, book.After(t))
  }

  lemma JournalSkips(r: Rules, days: seq<int>, signals: seq<bool>, cursor: nat, book: Book)
    requires Placed(r, days, signals) && cursor < |signals| && (Shut(r, book, days[cursor]) || !signals[cursor])
    ensures Journal(r, days, signals, cursor, book) == Journal(r, days, signals, cursor + 1, book)
  {
  }

  lemma JournalTakes(r: Rules, days: seq<int>, signals: seq<bool>, cursor: nat, book: Book) returns (t: Trade)
    requires Placed(r, days, signals) && cursor < |signals| && !Shut(r, book, days[cursor]) && signals[cursor]
    ensures t == r.trade(cursor, book.equity) && PlacedAt(t, days[cursor], cursor)
    ensures var trades := Journal(r, days, signals, cursor, book);
            |trades| > 0 && trades[0] == t && trades[1..] == Journal(r, days, signals, t.exitBar + 1, book.After(t))
  {
    t := r.trade(cursor, book.equity);
    assert PlacedAt(t, days[cursor], cursor);
  }

  function Earnings(trades: seq<Trade>): real {
    if |trades| == 0 then 0.0 else trades[0].pnl + Earnings(trades[1..])
  }

  function PnlOn(trades: seq<Trade>, day: int): real {
    if |trades| == 0 then 0.0 else (if trades[0].day == day then trades[0].pnl else 0.0) + PnlOn(trades[1..], day)
  }

  function TradesOn(trades: seq<Trade>, day: int): nat {
    if |trades| == 0 then 0 else (if trades[0].day == day then 1 else 0) + TradesOn(trades[1..], day)
  }

  /** Booking the first trade moves it from the folds into the book. */
  lemma AfterFolds(book: Book, trades: seq<Trade>, k: nat, day: int)
    requires 0 < k <= |trades|
    ensures var (after, rest) := (book.After(trades[0]), trades[1..][..k - 1]);
            && after.equity + Earnings(rest) == book.equity + Earnings(trades[..k])
            && RealOn(after.pnl, day) + PnlOn(rest, day) == RealOn(book.pnl, day) + PnlOn(trades[..k], day)
  {
    assert trades[..k][0] == trades[0] && trades[..k][1..] == trades[1..][..k - 1];
  }

  /** Every trade answers a signal on the equity its predecessors left, with its day above the floor of that equity. */
  lemma {:induction false} JournalPassesTheGate(
    r: Rules, days: seq<int>, signals: seq<bool>, cursor: nat, book: Book, k: nat)
    requires Placed(r, days, signals) && k < |Journal(r, days, signals, cursor, book)|
    ensures var trades := Journal(r, days, signals, cursor, book);
            var (t, equity) := (trades[k], book.equity + Earnings(trades[..k]));
            && cursor < t.entryBar <= |signals| && signals[t.entryBar - 1] && t.entryBar <= t.exitBar
            && t == r.trade(t.entryBar - 1, equity)
            && RealOn(book.pnl, t.day) + PnlOn(trades[..k], t.day) > r.floor(equity)
    decreases |signals| - cursor
  {
    if Shut(r, book, days[cursor]) || !signals[cursor] {
      JournalSkips(r, days, signals, cursor, book);
      JournalPassesTheGate(r, days, signals, cursor + 1, book, k);
    } else {
      var trades := Journal(r, days, signals, cursor, book);
      var t := JournalTakes(r, days, signals, cursor, book);
      if k > 0 {
        JournalPassesTheGate(r, days, signals, t.exitBar + 1, book.After(t), k - 1);
        AfterFolds(book, trades, k, trades[k].day);
      }
    }
  }

  /** A trade is entered after the bar an earlier one reports as its exit. */
  lemma {:induction false} JournalIsOrdered(
    r: Rules, days: seq<int>, signals: seq<bool>, cursor: nat, book: Book, i: nat, j: nat)
    requires Placed(r, days, signals) && i < j < |Journal(r, days, signals, cursor, book)|
    ensures Journal(r, days, signals, cursor, book)[i].exitBar + 1 < Journal(r, days, signals, cursor, book)[j].entryBar
    decreases |signals| - cursor
  {
    if Shut(r, book, days[cursor]) || !signals[cursor] {
      JournalSkips(r, days, signals, cursor, book);
      JournalIsOrdered(r, days, signals, cursor + 1, book, i, j);
    } else {
      var t := JournalTakes(r, days, signals, cursor, book);
      if i == 0 {
        JournalPassesTheGate(r, days, signals, t.exitBar + 1, book.After(t), j - 1);
      } else {
        JournalIsOrdered(r, days, signals, t.exitBar + 1, book.After(t), i - 1, j - 1);
      }
    }
  }

  lemma {:induction false} JournalKeepsTheCap(
    r: Rules, days: seq<int>, signals: seq<bool>, cursor: nat, book: Book, day: int)
    requires Placed(r, days, signals)
    ensures CountOn(book.count, day) + TradesOn(Journal(r, days, signals, cursor, book), day)
            <= MaxInt(CountOn(book.count, day), r.maxTrades)
    decreases |signals| - cursor
  {
    if cursor < |signals| {
      if Shut(r, book, days[cursor]) || !signals[cursor] {
        JournalSkips(r, days, signals, cursor, book);
        JournalKeepsTheCap(r, days, signals, cursor + 1, book, day);
      } else {
        var t := JournalTakes(r, days, signals, cursor, book);
        JournalKeepsTheCap(r, days, signals, t.exitBar + 1, book.After(t), day);
      }
    }
  }

  // ----- The backtester's run -----

  function LossFloor(c: Config, equity: real): real { -(equity * c.maxDailyLoss) }

  const NO_TRADE := Trade(0, 0, 0, DataEnd, 0.0, 0.0)

  function RulesOf(m: Market, c: Config): Rules
    requires Tradable(m, c)
  {
    Rules(c.maxDailyTrades, equity => LossFloor(c, equity),
          (i: nat, equity: real) => if i + 1 < |m.bars| && m.decisions[i].Some? then TradeAt(m, c, i, equity) else NO_TRADE)
  }

  function SignalsOf(m: Market, c: Config, final: int): (signals: seq<bool>)
    requires Tradable(m, c) && final <= |m.bars| - 2
    ensures |signals| == MaxInt(0, final)
    ensures forall i :: 0 <= i < |signals| ==> signals[i] == m.decisions[i].Some?
  {
    seq(MaxInt(0, final), i requires 0 <= i < final => m.decisions[i].Some?)
  }

  function Opening(c: Config): Book { Book(c.initialEquity, map[], map[]) }

  lemma SignalsArePlaced(m: Market, c: Config, final: int)
    requires Tradable(m, c) && final <= |m.bars| - 2
    ensures Placed(RulesOf(m, c), m.days, SignalsOf(m, c, final))
  {
    forall i: nat, e: real | i < |SignalsOf(m, c, final)| && SignalsOf(m, c, final)[i]
      ensures PlacedAt(RulesOf(m, c).trade(i, e), m.days[i], i)
    {
      assert RulesOf(m, c).trade(i, e) == TradeAt(m, c, i, e);
    }
  }

  /** The trades of a run. */
  ghost function TradesOf(m: Market, c: Config, start: nat, final: int): seq<Trade>
    requires Tradable(m, c) && final <= |m.bars| - 2
  {
    SignalsArePlaced(m, c, final);
    Journal(RulesOf(m, c), m.days, SignalsOf(m, c, final), start, Opening(c))
  }

  /** The equity curve, one point after each trade. */
  function Curve(initial: real, trades: seq<Trade>): (curve: seq<real>)
    ensures |curve| == |trades| + 1
  {
    if |trades| == 0 then [initial]
    else
      var before := Curve(initial, trades[..|trades| - 1]);
      before + [before[|trades| - 1] + trades[|trades| - 1].pnl]
  }

  lemma CurveGrows(initial: real, trades: seq<Trade>, t: Trade)
    ensures Curve(initial, trades + [t]) == Curve(initial, trades) + [Curve(initial, trades)[|trades|] + t.pnl]
  {
    assert (trades + [t])[..|trades|] == trades;
  }

  /** The trades made so far, and those still to come from a cursor. */
  ghost function Complete(trades: seq<Trade>, r: Rules, days: seq<int>, signals: seq<bool>, cursor: nat, book: Book): seq<Trade>
    requires Placed(r, days, signals)
  {
    trades + Journal(r, days, signals, cursor, book)
  }

  lemma TakeStep(trades: seq<Trade>, r: Rules, days: seq<int>, signals: seq<bool>, cursor: nat, book: Book, t: Trade)
    requires Placed(r, days, signals) && cursor < |signals| && !Shut(r, book, days[cursor]) && signals[cursor]
    requires t == r.trade(cursor, book.equity)
    ensures cursor < t.exitBar
    ensures Complete(trades, r, days, signals, cursor, book)
         == Complete(trades + [t], r, days, signals, t.exitBar + 1, book.After(t))
  {
    var same := JournalTakes(r, days, signals, cursor, book);
    var all := Journal(r, days, signals, cursor, book);
    assert all == [t] + all[1..] && trades + ([t] + all[1..]) == (trades + [t]) + all[1..];
  }

  lemma SkipStep(trades: seq<Trade>, r: Rules, days: seq<int>, signals: seq<bool>, cursor: nat, book: Book)
    requires Placed(r, days, signals) && cursor < |signals| && (Shut(r, book, days[cursor]) || !signals[cursor])
    ensures Complete(trades, r, days, signals, cursor, book) == Complete(trades, r, days, signals, cursor + 1, book)
  {
  }

  /** The gates and the strategy's answer at one cursor, and the trade they lead to. */
  method TakeSignal(m: Market, c: Config, final: int, cursor: nat, equity: real, dailyPnl: map<int, real>,
                    dailyTrades: map<int, nat>, ghost book: Book, ghost r: Rules, ghost signals: seq<bool>)
    returns (t: Option<Trade>)
    requires Tradable(m, c) && cursor < final <= |m.bars| - 2
    requires book == Book(equity, dailyPnl, dailyTrades) && r == RulesOf(m, c) && signals == SignalsOf(m, c, final)
    ensures t.None? <==> Shut(r, book, m.days[cursor]) || !signals[cursor]
    ensures t.Some? ==> t.value == r.trade(cursor, equity) && t.value.day == m.days[cursor]
  {
    var day := m.days[cursor];
    if CountOn(dailyTrades, day) >= c.maxDailyTrades {
      return None;
    }
    if RealOn(dailyPnl, day) <= LossFloor(c, equity) {
      return None;
    }
    if m.decisions[cursor].None? {
      return None;
    }
    var trade := OpenAndClose(m, c, cursor, equity);
    return Some(trade);
  }

  method Run(m: Market, c: Config, start: nat, final: int) returns (trades: seq<Trade>, equity: real, curve: seq<real>)
    requires Tradable(m, c) && final <= |m.bars| - 2
    ensures trades == TradesOf(m, c, start, final)
    ensures curve == Curve(c.initialEquity, trades) && equity == curve[|trades|]
  {
    SignalsArePlaced(m, c, final);
    ghost var r, signals, book := RulesOf(m, c), SignalsOf(m, c, final), Opening(c);
    var cursor := start;
    equity, trades, curve := c.initialEquity, [], [c.initialEquity];
    var dailyPnl: map<int, real>, dailyTrades: map<int, nat> := map[], map[];
    while cursor < final
      invariant book == Book(equity, dailyPnl, dailyTrades)
      invariant Complete(trades, r, m.days, signals, cursor, book) == Complete([], r, m.days, signals, start, Opening(c))
      invariant curve == Curve(c.initialEquity, trades) && equity == curve[|trades|]
      decreases final - cursor
    {
      var taken := TakeSignal(m, c, final, cursor, equity, dailyPnl, dailyTrades, book, r, signals);
      if taken.None? {
        SkipStep(trades, r, m.days, signals, cursor, book);
        cursor := cursor + 1;
        continue;
      }
      var t := taken.value;
      TakeStep(trades, r, m.days, signals, cursor, book, t);
      CurveGrows(c.initialEquity, trades, t);
      equity := equity + t.pnl;
      dailyPnl := dailyPnl[t.day := RealOn(dailyPnl, t.day) + t.pnl];
      dailyTrades := dailyTrades[t.day := CountOn(dailyTrades, t.day) + 1];
      book := book.After(t);
      curve, trades := curve + [equity], trades + [t];
      cursor := if cursor + 1 >= t.exitBar + 1 then cursor + 1 else t.exitBar + 1;
    }
    assert trades + [] == trades && [] + TradesOf(m, c, start, final) == TradesOf(m, c, start, final);
  }

  /** One pass of the loop body: sizing, the in-trade loop, and commission. */
  method OpenAndClose(m: Market, c: Config, cursor: nat, equity: real) returns (t: Trade)
    requires Tradable(m, c) && cursor + 1 < |m.bars| && m.decisions[cursor].Some?
    ensures t == TradeAt(m, c, cursor, equity)
  {
    var d, entry := m.decisions[cursor].value, EntryPrice(m, c, cursor);
    var units := Units(c, equity, d, entry);
    var exit := RunTrade(d, entry, units, c.cost, m.bars[cursor + 1..]);
    var pnl := exit.realized - Commission(c, units);
    t := Trade(m.days[cursor], cursor + 1, cursor + 1 + exit.exitBar, exit.reason, pnl, ReportedR(pnl, equity, d));
  }

  // ----- Properties of whole runs -----

  /** Every point of the curve is the initial equity plus the profits booked so far. */
  lemma {:induction false} CurveIsConserved(initial: real, trades: seq<Trade>, k: nat)
    requires k <= |trades|
    ensures Curve(initial, trades)[k] == initial + Earnings(trades[..k])
  {
    if k < |trades| {
      CurveIsConserved(initial, trades[..|trades| - 1], k);
      assert trades[..|trades| - 1][..k] == trades[..k];
    } else if k > 0 {
      var before, t := trades[..k - 1], trades[k - 1];
      CurveIsConserved(initial, before, k - 1);
      assert before[..k - 1] == before && trades[..k] == trades == before + [t];
      EarningsAppend(before, t);
    }
  }

  lemma {:induction false} EarningsAppend(trades: seq<Trade>, t: Trade)
    ensures Earnings(trades + [t]) == Earnings(trades) + t.pnl
  {
    if |trades| == 0 {
      assert [] + [t] == [t] && [t][1..] == [];
    } else {
      EarningsAppend(trades[1..], t);
      assert (trades + [t])[1..] == trades[1..] + [t];
    }
  }

  /** No day signals more trades than the cap. */
  lemma DailyCapHolds(m: Market, c: Config, start: nat, final: int, day: int)
    requires Tradable(m, c) && final <= |m.bars| - 2
    ensures TradesOn(TradesOf(m, c, start, final), day) <= MaxInt(0, c.maxDailyTrades)
  {
    SignalsArePlaced(m, c, final);
    JournalKeepsTheCap(RulesOf(m, c), m.days, SignalsOf(m, c, final), start, Opening(c), day);
  }

  /** Every trade answers a decision, on the equity its predecessors left, with its day above the loss floor. */
  lemma EveryTradePassesTheGate(m: Market, c: Config, start: nat, final: int, k: nat) returns (i: nat, equity: real)
    requires Tradable(m, c) && final <= |m.bars| - 2 && k < |TradesOf(m, c, start, final)|
    ensures var (trades, t) := (TradesOf(m, c, start, final), TradesOf(m, c, start, final)[k]);
            && i + 1 == t.entryBar && i < final && m.decisions[i].Some?
            && equity == c.initialEquity + Earnings(trades[..k]) && t == TradeAt(m, c, i, equity)
            && PnlOn(trades[..k], t.day) > LossFloor(c, equity)
  {
    SignalsArePlaced(m, c, final);
    JournalPassesTheGate(RulesOf(m, c), m.days, SignalsOf(m, c, final), start, Opening(c), k);
    var trades := TradesOf(m, c, start, final);
    i, equity := trades[k].entryBar - 1, c.initialEquity + Earnings(trades[..k]);
  }

  /** What a position sized by risk can lose: its risk distance, one cost and the commission, on every unit. */
  function WorstLoss(c: Config, equity: real, d: Decision): real
    requires d.riskDistance > 0.0
  {
    UnitsByRisk(equity, d) * (d.riskDistance + c.cost + c.commissionPerLot / 100000.0)
  }

  lemma TradeLossIsBounded(m: Market, c: Config, i: nat, equity: real)
    requires Tradable(m, c) && i + 1 < |m.bars| && m.decisions[i].Some?
    requires equity >= 0.0 && c.maxLeverage >= 0.0 && c.commissionPerLot >= 0.0
    requires m.decisions[i].value.Sane()
    ensures TradeAt(m, c, i, equity).pnl >= -WorstLoss(c, equity, m.decisions[i].value)
  {
    var r := WorstR(m, c, i);
    WorstCash(c, equity, m.decisions[i].value, EntryPrice(m, c, i), r);
  }

  lemma WorstCash(c: Config, equity: real, d: Decision, entry: real, r: real)
    requires d.Sane() && d.riskDistance > 0.0 && entry > 0.0 && c.cost >= 0.0
    requires equity >= 0.0 && c.maxLeverage >= 0.0 && c.commissionPerLot >= 0.0 && r >= -1.0 - c.cost / d.riskDistance
    ensures var units := Units(c, equity, d, entry);
            CashOf(units, d.riskDistance, r) - Commission(c, units) >= -WorstLoss(c, equity, d)
  {
    UnitsAreBounded(c, equity, d, entry);
    LossIsBounded(Units(c, equity, d, entry), UnitsByRisk(equity, d), d.riskDistance, c.cost, c.commissionPerLot, r);
  }

  lemma WorstR(m: Market, c: Config, i: nat) returns (r: real)
    requires Tradable(m, c) && i + 1 < |m.bars| && m.decisions[i].Some? && m.decisions[i].value.Sane()
    ensures r == ReplayAt(m, c, i).rMultiple && r >= -1.0 - c.cost / m.decisions[i].value.riskDistance
  {
    var d := m.decisions[i].value;
    r := ReplayAt(m, c, i).rMultiple;
    OneOrMore(d.targetDistance, d.riskDistance);
    RIsBounded(d.side, EntryPrice(m, c, i), d.riskDistance, HousePolicy(d), m.bars[i + 1..], c.cost);
  }

  lemma OneOrMore(x: real, y: real)
    requires x >= y > 0.0
    ensures x / y >= 1.0
  {
    assert x / y * y == x;
  }

  lemma UnitsAreBounded(c: Config, equity: real, d: Decision, entry: real)
    requires d.riskDistance > 0.0 && entry > 0.0 && equity >= 0.0 && d.riskPerTrade >= 0.0 && c.maxLeverage >= 0.0
    ensures 0.0 <= Units(c, equity, d, entry) <= UnitsByRisk(equity, d)
  {
    NotNegative(equity * d.riskPerTrade, d.riskDistance);
    NotNegative(equity * c.maxLeverage, entry);
  }

  lemma NotNegative(x: real, y: real)
    requires x >= 0.0 && y > 0.0
    ensures x / y >= 0.0
  {
  }

  lemma LossIsBounded(units: real, most: real, risk: real, cost: real, rate: real, r: real)
    requires 0.0 <= units <= most && risk > 0.0 && cost >= 0.0 && rate >= 0.0 && r >= -1.0 - cost / risk
    ensures CashOf(units, risk, r) - rate * (units / 100000.0) >= -(most * (risk + cost + rate / 100000.0))
  {
    var gain, share, fee := risk * r, cost / risk, rate / 100000.0;
    assert share * risk == cost;
    ScaleLe(-1.0 - share, r, risk);
    assert gain >= -risk - cost;
    assert CashOf(units, risk, r) == gain * units;
    ScaleLe(-risk - cost, gain, units);
    assert rate * (units / 100000.0) == fee * units;
    assert (-risk - cost) * units - fee * units == -((risk + cost + fee) * units);
    ScaleLe(units, most, risk + cost + fee);
  }

  /** So after any trade opened on equity that is not negative its day has lost less than the gate's cap and one worst trade. */
  lemma DailyLossIsBounded(m: Market, c: Config, start: nat, final: int, k: nat) returns (i: nat, equity: real)
    requires Tradable(m, c) && final <= |m.bars| - 2 && c.maxLeverage >= 0.0 && c.commissionPerLot >= 0.0
    requires forall i :: 0 <= i < |m.bars| && m.decisions[i].Some? ==> m.decisions[i].value.Sane()
    requires k < |TradesOf(m, c, start, final)|
    ensures var trades := TradesOf(m, c, start, final);
            && i + 1 == trades[k].entryBar && i < |m.bars| && m.decisions[i].Some?
            && equity == c.initialEquity + Earnings(trades[..k])
            && (equity >= 0.0 ==> PnlOn(trades[..k], trades[k].day) + trades[k].pnl
                                  > LossFloor(c, equity) - WorstLoss(c, equity, m.decisions[i].value))
  {
    i, equity := EveryTradePassesTheGate(m, c, start, final, k);
    if equity >= 0.0 {
      TradeLossIsBounded(m, c, i, equity);
    }
  }

  // ----- Which trades overlap -----

  /** The levels of the trade signalled at `cursor`, and the bars from its entry on. */
  function LevelsAt(m: Market, c: Config, cursor: nat): Levels
    requires Tradable(m, c) && cursor + 1 < |m.bars| && m.decisions[cursor].Some?
  {
    var d := m.decisions[cursor].value;
    LevelsOf(d.side, EntryPrice(m, c, cursor), d.riskDistance, HousePolicy(d))
  }

  /** No bar from the entry on touches the stop in force or the target. */
  predicate NeverEnds(m: Market, c: Config, cursor: nat)
    requires Tradable(m, c) && cursor + 1 < |m.bars| && m.decisions[cursor].Some?
  {
    var bars := m.bars[cursor + 1..];
    forall k :: 0 <= k < |bars| ==> !EndsAt(LevelsAt(m, c, cursor), bars, k)
  }

  /** The bar on which the position opened at `cursor` is closed, or the last bar if nothing closes it. */
  function HeldTo(m: Market, c: Config, cursor: nat): int
    requires Tradable(m, c) && cursor + 1 < |m.bars| && m.decisions[cursor].Some?
  {
    var bars := m.bars[cursor + 1..];
    var e := FirstEnd(LevelsAt(m, c, cursor), bars, 0);
    if e == |bars| then |m.bars| - 1 else cursor + 1 + e
  }

  lemma ExitIsHeldTo(m: Market, c: Config, cursor: nat, equity: real)
    requires Tradable(m, c) && cursor + 1 < |m.bars| && m.decisions[cursor].Some?
    ensures TradeAt(m, c, cursor, equity).exitBar
         == if NeverEnds(m, c, cursor) then cursor + 1 else HeldTo(m, c, cursor)
    ensures NeverEnds(m, c, cursor) ==> HeldTo(m, c, cursor) == |m.bars| - 1
  {
    var e := FirstEnd(LevelsAt(m, c, cursor), m.bars[cursor + 1..], 0);
  }

  /** A trade is entered while an earlier position is still held exactly when no bar ever ends that position. */
  lemma OverlapOnlyAfterDataEnd(m: Market, c: Config, start: nat, final: int, i: nat, j: nat) returns (at: nat)
    requires Tradable(m, c) && final <= |m.bars| - 2 && i < j < |TradesOf(m, c, start, final)|
    ensures at + 1 == TradesOf(m, c, start, final)[i].entryBar < |m.bars| && m.decisions[at].Some?
    ensures TradesOf(m, c, start, final)[j].entryBar <= HeldTo(m, c, at) <==> NeverEnds(m, c, at)
  {
    var earlier, other, last;
    at, earlier := EveryTradePassesTheGate(m, c, start, final, i);
    other, last := EveryTradePassesTheGate(m, c, start, final, j);
    SignalsArePlaced(m, c, final);
    JournalIsOrdered(RulesOf(m, c), m.days, SignalsOf(m, c, final), start, Opening(c), i, j);
    ExitIsHeldTo(m, c, at, earlier);
  }

  /** Such runs exist: on flat bars the second trade opens inside the first. */
  lemma OverlapHappens(m: Market, c: Config)
    requires |m.bars| == |m.days| == |m.decisions| == 90
    requires forall i :: 0 <= i < 90 ==>
      m.bars[i] == Bar(1.0, 1.0, 1.0, 1.0) && m.days[i] == 0 && m.decisions[i] == Some(Decision(Buy, 0.5, 1.0, 0.01, 0.5))
    requires c == Config(1000.0, 0.0, 0.0, 3, 0.01, 20.0)
    ensures Tradable(m, c)
    ensures var trades := TradesOf(m, c, 80, 88);
            |trades| >= 2 && trades[0].entryBar == 81 && trades[1].entryBar == 83 && HeldTo(m, c, 80) == 89
  {
    SignalsArePlaced(m, c, 88);
    var r, signals := RulesOf(m, c), SignalsOf(m, c, 88);
    assert r.floor(1000.0) == -10.0 by { FlatFloor(c); }
    FlatSignal(m, c, 80);
    FlatSignal(m, c, 82);
    FlatRunTakesTwo(r, m.days, signals);
    assert HeldTo(m, c, 80) == 89 by {
      FlatNeverEnds(m, c, 80);
      ExitIsHeldTo(m, c, 80, 1000.0);
    }
  }

  lemma FlatFloor(c: Config)
    requires c.maxDailyLoss == 0.01
    ensures LossFloor(c, 1000.0) == -10.0
  {
  }

  lemma FlatSignal(m: Market, c: Config, i: nat)
    requires Tradable(m, c) && i + 1 < |m.bars| && c.cost == 0.0 && c.commissionPerLot == 0.0
    requires forall k :: 0 <= k < |m.bars| ==> m.bars[k] == Bar(1.0, 1.0, 1.0, 1.0)
    requires m.decisions[i] == Some(Decision(Buy, 0.5, 1.0, 0.01, 0.5))
    ensures var t := RulesOf(m, c).trade(i, 1000.0);
            t.entryBar == t.exitBar == i + 1 && t.day == m.days[i] && t.pnl == 0.0
  {
    FlatReplay(m, c, i);
    FlatlyBooked(m, c, i, 1000.0);
  }

  /** With room on the day, two signals whose trades exit at entry and earn nothing are both taken. */
  lemma FlatRunTakesTwo(r: Rules, days: seq<int>, signals: seq<bool>)
    requires Placed(r, days, signals) && |signals| == 88 && signals[80] && signals[82] && days[80] == days[82] == 0
    requires r.maxTrades == 3 && r.floor(1000.0) == -10.0
    requires forall i :: i in {80, 82} ==>
      && r.trade(i, 1000.0).entryBar == r.trade(i, 1000.0).exitBar == i + 1
      && r.trade(i, 1000.0).day == 0 && r.trade(i, 1000.0).pnl == 0.0
    ensures var trades := Journal(r, days, signals, 80, Book(1000.0, map[], map[]));
            |trades| >= 2 && trades[0].entryBar == 81 && trades[1].entryBar == 83
  {
    var book := Book(1000.0, map[], map[]);
    var first := JournalTakes(r, days, signals, 80, book);
    assert first == r.trade(80, 1000.0) && 80 in {80, 82} && 82 in {80, 82};
    var second := JournalTakes(r, days, signals, 82, book.After(first));
  }

  lemma FlatNeverEnds(m: Market, c: Config, cursor: nat)
    requires Tradable(m, c) && cursor + 1 < |m.bars| && c.cost == 0.0
    requires forall i :: 0 <= i < |m.bars| ==> m.bars[i] == Bar(1.0, 1.0, 1.0, 1.0)
    requires m.decisions[cursor] == Some(Decision(Buy, 0.5, 1.0, 0.01, 0.5))
    ensures NeverEnds(m, c, cursor) && PathOf(LevelsAt(m, c, cursor), m.bars[cursor + 1..]) == Path(StillOpen, false)
  {
    var d, bars := m.decisions[cursor].value, m.bars[cursor + 1..];
    HouseLevels(d, 1.0);
    var l := LevelsOf(Buy, 1.0, 0.5, HousePolicy(d));
    assert EntryPrice(m, c, cursor) == 1.0;
    assert l.stop == 0.5 && l.target == 2.0 && l.partial == l.breakeven == Some(1.5);
    assert forall j :: 0 <= j < |bars| ==> bars[j] == Bar(1.0, 1.0, 1.0, 1.0);
    assert forall j :: 0 <= j < |bars| ==> !EndsAt(l, bars, j);
    assert FirstEnd(l, bars, 0) == |bars|;
  }

  lemma FlatlyBooked(m: Market, c: Config, i: nat, equity: real)
    requires Tradable(m, c) && i + 1 < |m.bars| && m.decisions[i].Some? && c.commissionPerLot == 0.0
    requires ReplayAt(m, c, i) == Replay(0.0, Timeout, 0)
    ensures var t := RulesOf(m, c).trade(i, equity);
            t.entryBar == t.exitBar == i + 1 && t.day == m.days[i] && t.pnl == 0.0
  {
    NothingBooked(m, c, i, equity);
    assert RulesOf(m, c).trade(i, equity) == TradeAt(m, c, i, equity);
  }

  /** A trade that its replay times out on entry at R zero. */
  lemma NothingBooked(m: Market, c: Config, cursor: nat, equity: real)
    requires Tradable(m, c) && cursor + 1 < |m.bars| && m.decisions[cursor].Some? && c.commissionPerLot == 0.0
    requires ReplayAt(m, c, cursor) == Replay(0.0, Timeout, 0)
    ensures var t := TradeAt(m, c, cursor, equity);
            t.entryBar == t.exitBar == cursor + 1 && t.day == m.days[cursor] && t.pnl == 0.0
  {
    var d := m.decisions[cursor].value;
    var units := Units(c, equity, d, EntryPrice(m, c, cursor));
    NothingGained(units, d.riskDistance);
    FreeCommission(c, units);
  }

  lemma FlatReplay(m: Market, c: Config, cursor: nat)
    requires Tradable(m, c) && cursor + 1 < |m.bars| && c.cost == 0.0
    requires forall i :: 0 <= i < |m.bars| ==> m.bars[i] == Bar(1.0, 1.0, 1.0, 1.0)
    requires m.decisions[cursor] == Some(Decision(Buy, 0.5, 1.0, 0.01, 0.5))
    ensures ReplayAt(m, c, cursor) == Replay(0.0, Timeout, 0)
  {
    FlatNeverEnds(m, c, cursor);
    var d := m.decisions[cursor].value;
    NothingEarned(HousePolicy(d), c.cost / d.riskDistance);
  }

  lemma NothingEarned(p: ExitPolicy, c: real)
    ensures Earned(p, Path(StillOpen, false), c) == 0.0
  {
  }

  lemma NothingGained(units: real, risk: real)
    ensures CashOf(units, risk, 0.0) == 0.0
  {
  }

  // ----- Reported R -----

  /** The R that a trade would report if its replay earned `r`. */
  function ReportedFor(c: Config, equity: real, d: Decision, entry: real, r: real): real
    requires d.riskDistance > 0.0 && entry > 0.0
  {
    var units := Units(c, equity, d, entry);
    ReportedR(CashOf(units, d.riskDistance, r) - Commission(c, units), equity, d)
  }

  /** The reported R is the replayed one exactly when what leverage kept out of the trade would have earned what commission
      took, with the opposite sign. */
  lemma ReportedRBalances(c: Config, equity: real, d: Decision, entry: real, r: real)
    requires d.riskDistance > 0.0 && entry > 0.0 && equity > 0.0 && d.riskPerTrade > 0.0
    ensures var units := Units(c, equity, d, entry);
            ReportedFor(c, equity, d, entry, r) == r
            <==> CashOf(UnitsByRisk(equity, d) - units, d.riskDistance, r) == -Commission(c, units)
  {
    var units := Units(c, equity, d, entry);
    var cash := RiskCash(equity, d);
    RatioBalances(units, UnitsByRisk(equity, d), d.riskDistance, cash, r, Commission(c, units),
                  ReportedFor(c, equity, d, entry, r));
  }

  lemma RiskCash(equity: real, d: Decision) returns (cash: real)
    requires equity > 0.0 && d.riskPerTrade > 0.0 && d.riskDistance > 0.0
    ensures cash == equity * d.riskPerTrade && cash > 0.0
    ensures UnitsByRisk(equity, d) == cash / d.riskDistance && UnitsByRisk(equity, d) > 0.0
  {
    cash := equity * d.riskPerTrade;
    PositiveQuotient(cash, d.riskDistance);
  }

  lemma PositiveQuotient(x: real, y: real)
    requires x > 0.0 && y > 0.0
    ensures x / y > 0.0
  {
  }

  lemma RatioBalances(units: real, most: real, risk: real, cash: real, r: real, fee: real, reported: real)
    requires risk > 0.0 && cash > 0.0 && most == cash / risk && reported == (CashOf(units, risk, r) - fee) / cash
    ensures reported == r <==> CashOf(most - units, risk, r) == -fee
  {
    var x := units * risk;
    assert most * risk == cash && reported * cash == x * r - fee;
    SameProduct(reported, r, cash);
    assert (most - units) * risk == cash - x;
    assert (cash - x) * r == cash * r - x * r;
  }

  /** Before the trade: whatever its replay will earn, the reported R is the replayed one exactly when there is no commission
      and leverage does not shrink the position. Afterwards: exactly when the two balance. */
  lemma ReportedRIsReplayed(m: Market, c: Config, cursor: nat, equity: real)
    requires Tradable(m, c) && cursor + 1 < |m.bars| && m.decisions[cursor].Some?
    requires equity > 0.0 && m.decisions[cursor].value.riskPerTrade > 0.0
    ensures var (d, entry, r) := (m.decisions[cursor].value, EntryPrice(m, c, cursor), ReplayAt(m, c, cursor).rMultiple);
            var units := Units(c, equity, d, entry);
            && TradeAt(m, c, cursor, equity).rMultiple == ReportedFor(c, equity, d, entry, r)
            && (ReportedFor(c, equity, d, entry, r) == r
                <==> CashOf(UnitsByRisk(equity, d) - units, d.riskDistance, r) == -Commission(c, units))
            && (c.commissionPerLot == 0.0 ==>
                  (ReportedFor(c, equity, d, entry, r) == r
                   <==> UnitsByRisk(equity, d) <= UnitsByLeverage(c, equity, entry) || r == 0.0))
            && ((forall x :: ReportedFor(c, equity, d, entry, x) == x)
                <==> c.commissionPerLot == 0.0 && UnitsByRisk(equity, d) <= UnitsByLeverage(c, equity, entry))
  {
    var d, entry, r := m.decisions[cursor].value, EntryPrice(m, c, cursor), ReplayAt(m, c, cursor).rMultiple;
    ReportedRBalances(c, equity, d, entry, r);
    FreelyReported(c, equity, d, entry, r);
    AlwaysReported(c, equity, d, entry);
  }

  lemma FreelyReported(c: Config, equity: real, d: Decision, entry: real, r: real)
    requires d.riskDistance > 0.0 && entry > 0.0 && equity > 0.0 && d.riskPerTrade > 0.0
    ensures c.commissionPerLot == 0.0 ==>
              (ReportedFor(c, equity, d, entry, r) == r
               <==> UnitsByRisk(equity, d) <= UnitsByLeverage(c, equity, entry) || r == 0.0)
  {
    ReportedRBalances(c, equity, d, entry, r);
    FeeIsFree(c, Units(c, equity, d, entry));
    NothingEither(UnitsByRisk(equity, d) - Units(c, equity, d, entry), d.riskDistance, r);
  }

  lemma NothingEither(units: real, risk: real, r: real)
    requires risk > 0.0
    ensures CashOf(units, risk, r) == 0.0 <==> units == 0.0 || r == 0.0
  {
    SameProduct(units, 0.0, risk);
    Cancels(units * risk, 0.0, r);
  }

  lemma AlwaysReported(c: Config, equity: real, d: Decision, entry: real)
    requires d.riskDistance > 0.0 && entry > 0.0 && equity > 0.0 && d.riskPerTrade > 0.0
    ensures (forall x :: ReportedFor(c, equity, d, entry, x) == x)
       <==> c.commissionPerLot == 0.0 && UnitsByRisk(equity, d) <= UnitsByLeverage(c, equity, entry)
  {
    if c.commissionPerLot == 0.0 && UnitsByRisk(equity, d) <= UnitsByLeverage(c, equity, entry) {
      forall x ensures ReportedFor(c, equity, d, entry, x) == x {
        ReportedAsReplayed(c, equity, d, entry, x);
      }
    } else {
      var x := ReportedOtherwise(c, equity, d, entry);
    }
  }

  lemma ReportedAsReplayed(c: Config, equity: real, d: Decision, entry: real, x: real)
    requires d.riskDistance > 0.0 && entry > 0.0 && equity > 0.0 && d.riskPerTrade > 0.0
    requires c.commissionPerLot == 0.0 && UnitsByRisk(equity, d) <= UnitsByLeverage(c, equity, entry)
    ensures ReportedFor(c, equity, d, entry, x) == x
  {
    ReportedRBalances(c, equity, d, entry, x);
    FeeIsFree(c, Units(c, equity, d, entry));
    NothingHeld(d.riskDistance, x);
  }

  /** An R at which they differ: 0 where commission is paid, otherwise 1. */
  lemma ReportedOtherwise(c: Config, equity: real, d: Decision, entry: real) returns (x: real)
    requires d.riskDistance > 0.0 && entry > 0.0 && equity > 0.0 && d.riskPerTrade > 0.0
    requires c.commissionPerLot != 0.0 || UnitsByRisk(equity, d) > UnitsByLeverage(c, equity, entry)
    ensures ReportedFor(c, equity, d, entry, x) != x
  {
    var units, most := Units(c, equity, d, entry), UnitsByRisk(equity, d);
    var cash := RiskCash(equity, d);
    FeeIsFree(c, units);
    NothingGained(most - units, d.riskDistance);
    OneRisk(most - units, d.riskDistance);
    x := if Commission(c, units) == 0.0 then 1.0 else 0.0;
    ReportedRBalances(c, equity, d, entry, x);
  }

  lemma FeeIsFree(c: Config, units: real)
    ensures Commission(c, units) == 0.0 <==> c.commissionPerLot == 0.0 || units == 0.0
  {
    var lots := units / 100000.0;
    assert lots == 0.0 <==> units == 0.0;
    Cancels(c.commissionPerLot, 0.0, lots);
  }

  lemma OneRisk(units: real, risk: real)
    requires risk > 0.0
    ensures CashOf(units, risk, 1.0) == 0.0 <==> units == 0.0
  {
    SameProduct(units, 0.0, risk);
  }

  lemma NothingHeld(risk: real, r: real)
    ensures CashOf(0.0, risk, r) == 0.0
  {
  }

  /** On a bar that reaches the partial and the target at once, the default leverage reports 1.2 R for a replay of 1.5 R. */
  lemma LeverageShrinksR(m: Market, c: Config)
    requires m.bars == [Bar(1.0, 1.0, 1.0, 1.0), Bar(1.0, 1.0008, 1.0, 1.0008)] && m.days == [0, 0]
    requires m.decisions == [Some(Decision(Buy, 0.0004, 0.0008, 0.01, 0.5)), None]
    requires c == Config(1000.0, 0.0, 0.0, 3, 0.01, 20.0)
    ensures Tradable(m, c)
    ensures ReplayAt(m, c, 0).rMultiple == 1.5 && TradeAt(m, c, 0, 1000.0).rMultiple == 1.2
  {
    TargetAtOnce(m, c);
    var d := m.decisions[0].value;
    assert EntryPrice(m, c, 0) == 1.0;
    LeveragedReport(c, d);
    assert TradeAt(m, c, 0, 1000.0).rMultiple == ReportedFor(c, 1000.0, d, 1.0, 1.5);
  }

  lemma LeveragedReport(c: Config, d: Decision)
    requires d == Decision(Buy, 0.0004, 0.0008, 0.01, 0.5) && c.commissionPerLot == 0.0 && c.maxLeverage == 20.0
    ensures ReportedFor(c, 1000.0, d, 1.0, 1.5) == 1.2
  {
    assert UnitsByRisk(1000.0, d) == 25000.0;
    assert UnitsByLeverage(c, 1000.0, 1.0) == 20000.0;
    var units := Units(c, 1000.0, d, 1.0);
    assert units == 20000.0;
    FreeCommission(c, units);
    assert CashOf(units, 0.0004, 1.5) == 12.0;
  }

  lemma TargetAtOnce(m: Market, c: Config)
    requires m.bars == [Bar(1.0, 1.0, 1.0, 1.0), Bar(1.0, 1.0008, 1.0, 1.0008)] && m.days == [0, 0]
    requires m.decisions == [Some(Decision(Buy, 0.0004, 0.0008, 0.01, 0.5)), None] && c.cost == 0.0
    ensures Tradable(m, c) && ReplayAt(m, c, 0) == Replay(1.5, TakeProfit, 0)
  {
    var d, bars := m.decisions[0].value, m.bars[1..];
    HouseLevels(d, 1.0);
    var l := LevelsOf(Buy, 1.0, 0.0004, HousePolicy(d));
    assert EntryPrice(m, c, 0) == 1.0 && |bars| == 1 && bars[0] == Bar(1.0, 1.0008, 1.0, 1.0008);
    assert l.stop == 0.9996 && l.target == 1.0008 && l.partial == l.breakeven == Some(1.0004);
    assert !StopsAt(l, bars, 0) && EndsAt(l, bars, 0) && FirstEnd(l, bars, 0) == 0;
    assert Reached(l.side, bars, l.partial, 1) by { assert LevelHit(Buy, bars[0], 1.0004); }
    assert PathOf(l, bars) == Path(Targeted(0), true);
    HalfAtTarget(HousePolicy(d));
  }

  lemma HalfAtTarget(p: ExitPolicy)
    requires p == ExitPolicy(2.0, Some(1.0), 0.5, Some(1.0))
    ensures Earned(p, Path(Targeted(0), true), 0.0) == 1.5
  {
  }

  lemma FreeCommission(c: Config, units: real)
    requires c.commissionPerLot == 0.0
    ensures Commission(c, units) == 0.0
  {
  }

  lemma SameProduct(x: real, y: real, k: real)
    requires k > 0.0
    ensures x * k == y * k <==> x == y
  {
    assert (x - y) * k == x * k - y * k;
  }

  lemma Cancels(x: real, y: real, k: real)
    ensures x * k == k * y <==> x == y || k == 0.0
  {
    assert (x - y) * k == x * k - k * y;
  }
}
