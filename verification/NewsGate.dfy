/** The cached, fail-closed news gate in front of strategy signals. */
module NewsGate {
  import opened Core

  datatype Impact = High | Medium | Low

  datatype Event = Event(title: string, time: int, impact: Impact, currency: string) {
    function Key(): (string, int, string) { (title, time, currency) }
  }

  datatype Symbol = XAUUSD | BTCUSD | EURUSD | GBPUSD | USDJPY | Unsupported(name: string)

  function Currencies(s: Symbol): set<string> {
    match s
    case XAUUSD => {"USD"}
    case BTCUSD => {"USD"}
    case EURUSD => {"EUR", "USD"}
    case GBPUSD => {"GBP", "USD"}
    case USDJPY => {"USD", "JPY"}
    case Unsupported(_) => {}
  }

  /** One provider's answer to a calendar request, and whether it counts as a calendar source. */
  datatype Answer = Raised(economic: bool) | Answered(economic: bool, events: seq<Event>)

  /** All answers to one refresh, and the best headline score each symbol got from it. */
  datatype Fetch = Fetch(answers: seq<Answer>, scores: map<Symbol, int>)

  datatype Config = Config(enabled: bool, checkInterval: int, blockBefore: int, blockAfter: int) {
    predicate Valid() { checkInterval >= 1 && blockBefore >= 0 && blockAfter >= 0 }
  }

  datatype Action = AllowNormal | RequireExtraConfirmation | ReduceSize | BlockTrade

  datatype Reason = NoSignal | Disabled | UnsupportedSymbol | CalendarUnavailable | EventWindow | Headlines

  datatype Decision = Decision(score: int, action: Action, reason: Reason)

  function ActionForScore(score: int): Action {
    if score >= 80 then BlockTrade
    else if score >= 55 then ReduceSize
    else if score >= 35 then RequireExtraConfirmation
    else AllowNormal
  }

  /** Duplicates by title, time and currency: the last one wins. */
  function ByKey(events: seq<Event>): map<(string, int, string), Event> {
    if |events| == 0 then map[]
    else ByKey(events[..|events| - 1])[events[|events| - 1].Key() := events[|events| - 1]]
  }

  function Gathered(answers: seq<Answer>): seq<Event> {
    if |answers| == 0 then []
    else
      var last := answers[|answers| - 1];
      Gathered(answers[..|answers| - 1]) + if last.Answered? then last.events else []
  }

  predicate CalendarAnswered(answers: seq<Answer>) {
    exists i :: 0 <= i < |answers| && answers[i].Answered? && answers[i].economic
  }

  datatype State = State(
    calendar: map<(string, int, string), Event>, scores: map<Symbol, int>, available: bool, lastRefresh: Option<int>)

  const INITIAL := State(map[], map[], false, None)

  predicate Stale(c: Config, s: State, now: int) {
    s.lastRefresh.None? || now - s.lastRefresh.value >= c.checkInterval
  }

  function Refreshed(c: Config, s: State, now: int, fetch: Fetch): State {
    if Stale(c, s, now) then State(ByKey(Gathered(fetch.answers)), fetch.scores, CalendarAnswered(fetch.answers), Some(now))
    else s
  }

  predicate InWindow(c: Config, e: Event, now: int) {
    e.time - c.blockBefore <= now <= e.time + c.blockAfter
  }

  predicate Concerns(e: Event, symbol: Symbol) {
    e.impact.High? && e.currency in Currencies(symbol)
  }

  /** The decision on a fresh enough cache. */
  function Decide(c: Config, s: State, symbol: Symbol, now: int): Decision {
    if !s.available then Decision(100, BlockTrade, CalendarUnavailable)
    else if exists k :: k in s.calendar && Concerns(s.calendar[k], symbol) && InWindow(c, s.calendar[k], now) then
      Decision(100, BlockTrade, EventWindow)
    else
      var score := if symbol in s.scores then s.scores[symbol] else 0;
      Decision(score, ActionForScore(score), Headlines)
  }

  // ----- The layer -----

  class FreeNewsSafetyLayer {
    const config: Config
    var calendar: map<(string, int, string), Event>
    var scores: map<Symbol, int>
    var calendarAvailable: bool
    var lastRefresh: Option<int>

    constructor (enabled: bool, checkInterval: int, blockBefore: int, blockAfter: int)
      ensures config == Config(enabled, MaxInt(1, checkInterval), MaxInt(0, blockBefore), MaxInt(0, blockAfter))
      ensures config.Valid() && Current() == INITIAL
    {
      config := Config(enabled, MaxInt(1, checkInterval), MaxInt(0, blockBefore), MaxInt(0, blockAfter));
      calendar, scores, calendarAvailable, lastRefresh := map[], map[], false, None;
    }

    function Current(): State
      reads this
    {
      State(calendar, scores, calendarAvailable, lastRefresh)
    }

    method Refresh(now: int, fetch: Fetch)
      modifies this
      ensures Current() == Refreshed(config, old(Current()), now, fetch)
    {
      if lastRefresh.Some? && now - lastRefresh.value < config.checkInterval {
        return;
      }
      var gathered: seq<Event>, available := [], false;
      for i := 0 to |fetch.answers|
        invariant gathered == Gathered(fetch.answers[..i])
        invariant available <==> CalendarAnswered(fetch.answers[..i])
      {
        assert fetch.answers[..i + 1][..i] == fetch.answers[..i];
        OneMoreAnswer(fetch.answers, i);
        if fetch.answers[i].Answered? {
          if fetch.answers[i].economic {
            available := true;
          }
          gathered := gathered + fetch.answers[i].events;
        }
      }
      assert fetch.answers[..|fetch.answers|] == fetch.answers;
      var unique: map<(string, int, string), Event> := map[];
      for i := 0 to |gathered|
        invariant unique == ByKey(gathered[..i])
      {
        assert gathered[..i + 1][..i] == gathered[..i];
        unique := unique[gathered[i].Key() := gathered[i]];
      }
      assert gathered[..|gathered|] == gathered;
      calendar, scores, calendarAvailable, lastRefresh := unique, fetch.scores, available, Some(now);
    }

    method Evaluate(symbol: Symbol, strategySignal: bool, now: int, fetch: Fetch) returns (d: Decision)
      modifies this
      ensures !strategySignal ==> d == Decision(100, BlockTrade, NoSignal) && Current() == old(Current())
      ensures strategySignal && !config.enabled ==> d == Decision(0, AllowNormal, Disabled) && Current() == old(Current())
      ensures strategySignal && config.enabled && symbol.Unsupported? ==>
        d == Decision(100, BlockTrade, UnsupportedSymbol) && Current() == old(Current())
      ensures strategySignal && config.enabled && !symbol.Unsupported? ==>
        Current() == Refreshed(config, old(Current()), now, fetch) && d == Decide(config, Current(), symbol, now)
    {
      if !strategySignal {
        return Decision(100, BlockTrade, NoSignal);
      }
      if !config.enabled {
        return Decision(0, AllowNormal, Disabled);
      }
      if symbol.Unsupported? {
        return Decision(100, BlockTrade, UnsupportedSymbol);
      }
      Refresh(now, fetch);
      if !calendarAvailable {
        return Decision(100, BlockTrade, CalendarUnavailable);
      }
      var left, matched := calendar.Keys, false;
      while left != {}
        invariant left <= calendar.Keys
        invariant matched
          <==> exists k :: k in calendar.Keys - left && Concerns(calendar[k], symbol) && InWindow(config, calendar[k], now)
        decreases left
      {
        var k :| k in left;
        if Concerns(calendar[k], symbol) && InWindow(config, calendar[k], now) {
          matched := true;
        }
        left := left - {k};
      }
      if matched {
        return Decision(100, BlockTrade, EventWindow);
      }
      var score := if symbol in scores then scores[symbol] else 0;
      return Decision(score, ActionForScore(score), Headlines);
    }
  }

  lemma OneMoreAnswer(answers: seq<Answer>, i: nat)
    requires i < |answers|
    ensures CalendarAnswered(answers[..i + 1]) <==> CalendarAnswered(answers[..i]) || (answers[i].Answered? && answers[i].economic)
  {
    assert answers[..i + 1][i] == answers[i];
    assert forall j :: 0 <= j < i ==> answers[..i + 1][j] == answers[..i][j];
  }

  // ----- Against a live calendar -----

  /** If a calendar answered at all, the answers are exact for `truth` on the range a refresh at `r` asks for: nothing is
      missing, no high-impact event is invented, and no duplicate disputes an event's impact. */
  ghost predicate Exact(c: Config, truth: set<Event>, r: int, answers: seq<Answer>) {
    var events := Gathered(answers);
    CalendarAnswered(answers) ==>
    && (forall e :: e in truth && r - c.blockAfter <= e.time <= r + c.blockBefore ==> e in events)
    && (forall e :: e in events && e.impact.High? ==> e in truth)
    && (forall e, o :: e in truth && o in events && o.Key() == e.Key() ==> o == e)
  }

  /** What the cache owes to the calendar it was refreshed from. */
  ghost predicate Faithful(c: Config, truth: set<Event>, s: State) {
    s.lastRefresh.Some? && s.available ==>
      && (forall e :: e in truth && s.lastRefresh.value - c.blockAfter <= e.time <= s.lastRefresh.value + c.blockBefore ==>
            e.Key() in s.calendar && s.calendar[e.Key()] == e)
      && (forall k :: k in s.calendar && s.calendar[k].impact.High? ==> s.calendar[k] in truth)
  }

  lemma {:induction false} ByKeyKeepsTheLast(events: seq<Event>, k: (string, int, string))
    ensures k in ByKey(events) <==> exists e :: e in events && e.Key() == k
    ensures k in ByKey(events) ==> ByKey(events)[k] in events && ByKey(events)[k].Key() == k
  {
    if |events| > 0 {
      var init, last := events[..|events| - 1], events[|events| - 1];
      ByKeyKeepsTheLast(init, k);
      assert events == init + [last];
      if k == last.Key() {
        assert last in events;
      }
    }
  }

  lemma RefreshIsFaithful(c: Config, truth: set<Event>, now: int, fetch: Fetch)
    requires Exact(c, truth, now, fetch.answers)
    ensures Faithful(c, truth, Refreshed(c, INITIAL, now, fetch))
  {
    var events := Gathered(fetch.answers);
    forall k | k in ByKey(events) ensures ByKey(events)[k] in events && ByKey(events)[k].Key() == k {
      ByKeyKeepsTheLast(events, k);
    }
    forall e | CalendarAnswered(fetch.answers) && e in truth && e in events
      ensures e.Key() in ByKey(events) && ByKey(events)[e.Key()] == e
    {
      ByKeyKeepsTheLast(events, e.Key());
    }
  }

  datatype Call = Call(now: int, fetch: Fetch)

  /** The cache after a sequence of evaluations of supported symbols. */
  function Run(c: Config, calls: seq<Call>): State {
    if |calls| == 0 then INITIAL
    else
      var last := calls[|calls| - 1];
      Refreshed(c, Run(c, calls[..|calls| - 1]), last.now, last.fetch)
  }

  /** Calls in time order. Whenever one refreshes, the calendar providers answer exactly or not at all. */
  ghost predicate LiveRun(c: Config, truth: set<Event>, calls: seq<Call>) {
    && (forall i, j :: 0 <= i < j < |calls| ==> calls[i].now <= calls[j].now)
    && (forall i :: 0 <= i < |calls| && Stale(c, Run(c, calls[..i]), calls[i].now) ==>
          Exact(c, truth, calls[i].now, calls[i].fetch.answers))
  }

  lemma {:induction false} RunIsFaithful(c: Config, truth: set<Event>, calls: seq<Call>)
    requires c.Valid() && LiveRun(c, truth, calls)
    ensures Faithful(c, truth, Run(c, calls))
    ensures |calls| > 0 ==> var (s, now) := (Run(c, calls), calls[|calls| - 1].now);
                            s.lastRefresh.Some? && now - c.checkInterval < s.lastRefresh.value <= now
  {
    if |calls| > 0 {
      var init, last := calls[..|calls| - 1], calls[|calls| - 1];
      assert forall i :: 0 <= i < |init| ==> init[i] == calls[i] && init[..i] == calls[..i];
      RunIsFaithful(c, truth, init);
      if Stale(c, Run(c, init), last.now) {
        RefreshIsFaithful(c, truth, last.now, last.fetch);
      }
    }
  }

  /** The gate blocks from one check interval into an event's window to its end, names an event window
      only inside one, and blocks whenever no calendar answered. Times are whole clock ticks. */
  lemma GateIsSound(c: Config, truth: set<Event>, calls: seq<Call>, symbol: Symbol)
    requires c.Valid() && |calls| > 0 && LiveRun(c, truth, calls)
    ensures var (s, now) := (Run(c, calls), calls[|calls| - 1].now);
            var d := Decide(c, s, symbol, now);
            && (!s.available ==> d.action == BlockTrade)
            && ((exists e :: e in truth && Concerns(e, symbol)
                  && e.time - c.blockBefore + c.checkInterval - 1 <= now <= e.time + c.blockAfter) ==> d.action == BlockTrade)
            && (d.reason == EventWindow ==> exists e :: e in truth && Concerns(e, symbol) && InWindow(c, e, now))
  {
    RunIsFaithful(c, truth, calls);
    var s, now := Run(c, calls), calls[|calls| - 1].now;
    if e :| e in truth && Concerns(e, symbol) && e.time - c.blockBefore + c.checkInterval - 1 <= now <= e.time + c.blockAfter {
      if s.available {
        var k := e.Key();
        assert k in s.calendar && s.calendar[k] == e;
      }
    }
  }

  /** The gate's fail-closed case is such a run, whatever events there are: a provider that raises blocks trading. */
  lemma OutagesBlock(c: Config, truth: set<Event>, symbol: Symbol, now: int)
    requires c.Valid()
    ensures var calls := [Call(now, Fetch([Raised(true)], map[]))];
            LiveRun(c, truth, calls) && Decide(c, Run(c, calls), symbol, now) == Decision(100, BlockTrade, CalendarUnavailable)
  {
    var calls := [Call(now, Fetch([Raised(true)], map[]))];
    assert calls[..0] == [] && !CalendarAnswered(calls[0].fetch.answers);
  }

  /** The slack is real and exactly that long: with a refresh one tick before an event's window opens, no
      later call inside the first check interval less a tick sees the event. */
  lemma SlackIsTight(c: Config, e: Event, symbol: Symbol, now: int)
    requires c.Valid() && Concerns(e, symbol)
    requires e.time - c.blockBefore <= now < e.time - c.blockBefore + c.checkInterval - 1
    ensures var quiet := Fetch([Answered(true, [])], map[]);
            var calls := [Call(e.time - c.blockBefore - 1, quiet), Call(now, Fetch([Answered(true, [e])], map[]))];
            && LiveRun(c, {e}, calls)
            && Decide(c, Run(c, calls), symbol, now).action == AllowNormal
  {
    var quiet := Fetch([Answered(true, [])], map[]);
    var first, second := Call(e.time - c.blockBefore - 1, quiet), Call(now, Fetch([Answered(true, [e])], map[]));
    var calls := [first, second];
    assert calls[..1] == [first] && [first][..0] == [];
    assert quiet.answers[..0] == [] && Gathered(quiet.answers) == [];
    assert quiet.answers[0].Answered? && CalendarAnswered(quiet.answers);
    assert Run(c, [first]) == State(map[], map[], true, Some(first.now));
    assert Run(c, calls) == Run(c, [first]);
  }

  ghost predicate LastOfItsKey(events: seq<Event>, i: int) {
    0 <= i < |events| && forall j :: i < j < |events| ==> events[j].Key() != events[i].Key()
  }

  ghost predicate Prevails(events: seq<Event>, e: Event) {
    exists i :: LastOfItsKey(events, i) && events[i] == e
  }

  lemma PrevailsStep(events: seq<Event>, last: Event, e: Event)
    ensures Prevails(events + [last], e) <==> last == e || (last.Key() != e.Key() && Prevails(events, e))
  {
    var all := events + [last];
    assert all[|events|] == last && LastOfItsKey(all, |events|);
    assert forall j :: 0 <= j < |events| ==> events[j] == all[j];
    if i :| LastOfItsKey(all, i) && all[i] == e && i < |events| {
      assert LastOfItsKey(events, i) && events[i] == e;
    }
    if last.Key() != e.Key() && Prevails(events, e) {
      var i :| LastOfItsKey(events, i) && events[i] == e;
      assert LastOfItsKey(all, i) && all[i] == e;
    }
  }

  lemma {:induction false} ByKeyHoldsLastDuplicates(events: seq<Event>, k: (string, int, string), e: Event)
    ensures (k in ByKey(events) && ByKey(events)[k] == e) <==> (e.Key() == k && Prevails(events, e))
  {
    if |events| > 0 {
      var init, last := events[..|events| - 1], events[|events| - 1];
      ByKeyHoldsLastDuplicates(init, k, e);
      PrevailsStep(init, last, e);
      assert events == init + [last];
    }
  }

  /** On arbitrary answers: right after a refresh the event window is named exactly when, among all
      gathered events, some last duplicate is high-impact, concerns the symbol and is in its window. */
  lemma LastDuplicatesDecide(c: Config, s: State, fetch: Fetch, symbol: Symbol, now: int)
    requires Stale(c, s, now)
    ensures var events := Gathered(fetch.answers);
            Decide(c, Refreshed(c, s, now, fetch), symbol, now).reason == EventWindow <==>
            CalendarAnswered(fetch.answers)
            && exists e :: e in events && Prevails(events, e) && Concerns(e, symbol) && InWindow(c, e, now)
  {
    var events := Gathered(fetch.answers);
    var m := ByKey(events);
    if k :| k in m && Concerns(m[k], symbol) && InWindow(c, m[k], now) {
      ByKeyHoldsLastDuplicates(events, k, m[k]);
    }
    if e :| e in events && Prevails(events, e) && Concerns(e, symbol) && InWindow(c, e, now) {
      ByKeyHoldsLastDuplicates(events, e.Key(), e);
    }
  }

  /** A later provider that rates a duplicate lower silences the event: the last duplicate alone decides. */
  lemma LastDuplicateDecides(c: Config, e: Event, impact: Impact, symbol: Symbol)
    requires c.Valid() && Concerns(e, symbol)
    ensures var fetch := Fetch([Answered(true, [e]), Answered(true, [e.(impact := impact)])], map[]);
            Decide(c, Refreshed(c, INITIAL, e.time, fetch), symbol, e.time).action == BlockTrade <==> impact == High
  {
    var low := e.(impact := impact);
    var first, answers := [Answered(true, [e])], [Answered(true, [e]), Answered(true, [low])];
    assert first[..0] == [] && Gathered(first) == [e];
    assert answers[..1] == first && Gathered(answers) == [e] + [low];
    assert [e][..0] == [] && ByKey([e]) == map[e.Key() := e];
    assert ([e] + [low])[..1] == [e] && ByKey([e] + [low]) == map[e.Key() := e][low.Key() := low];
    assert answers[0].Answered? && CalendarAnswered(answers);
    assert e.Key() in ByKey([e] + [low]) && ByKey([e] + [low])[e.Key()] == low;
  }
}
