/** Mistake patterns: detection, resolution, reactivation, and the cache that penalises signals. */
module Mistakes {
  import opened Core

  const PATTERN_THRESHOLD := 5
  const WINDOW_SECONDS := 30 * 24 * 3600
  const RESOLUTION_STREAK := 20

  datatype Classification =
    CounterTrend | FalseBreakout | VolatilityMisjudgment | PoorTiming | Overexposure | RegimeMisclassification

  const CLASSES := [CounterTrend, FalseBreakout, VolatilityMisjudgment, PoorTiming, Overexposure, RegimeMisclassification]

  datatype Record = Record(classification: Classification, createdAt: int)

  /** Averaged indicators of a pattern in their stored order, with its regime and strategy. */
  datatype Conditions = Conditions(regime: Option<string>, strategy: Option<string>, indicators: seq<(string, real)>)

  datatype Signal = Signal(regime: string, strategy: string, indicators: map<string, real>)

  datatype ClosedTrade = ClosedTrade(signal: Signal, pnl: real)

  /** Identifiers are handed out in creation order. */
  datatype Pattern = Pattern(
    id: nat, classification: Classification, lossCount: nat, first: int, last: int,
    active: bool, reactivated: bool, penalty: int, size: real, progress: int, conditions: Conditions)

  // ----- Matching -----

  predicate IndicatorMatches(signalValue: real, patternValue: real) {
    if patternValue == 0.0 then Abs(signalValue) < 0.01
    else Abs(signalValue - patternValue) <= Abs(patternValue) * 0.2
  }

  function MatchCount(signal: Signal, indicators: seq<(string, real)>): nat {
    if |indicators| == 0 then 0
    else
      var (name, value) := indicators[|indicators| - 1];
      MatchCount(signal, indicators[..|indicators| - 1])
      + if name in signal.indicators && IndicatorMatches(signal.indicators[name], value) then 1 else 0
  }

  /** Same regime, same strategy, and three of the first five indicators. */
  predicate Matches(signal: Signal, c: Conditions) {
    && (c.regime.Some? ==> signal.regime == c.regime.value)
    && (c.strategy.Some? ==> signal.strategy == c.strategy.value)
    && MatchCount(signal, if |c.indicators| <= 5 then c.indicators else c.indicators[..5]) >= 3
  }

  // ----- What each operation does to the store alone -----

  function Find(store: seq<Pattern>, c: Classification): (i: nat)
    ensures i <= |store|
    ensures i < |store| ==> store[i].classification == c
    ensures forall j :: 0 <= j < i ==> store[j].classification != c
  {
    FindFrom(store, c, 0)
  }

  function FindFrom(store: seq<Pattern>, c: Classification, i: nat): (f: nat)
    requires i <= |store|
    ensures i <= f <= |store|
    ensures f < |store| ==> store[f].classification == c
    ensures forall j :: i <= j < f ==> store[j].classification != c
    decreases |store| - i
  {
    if i == |store| || store[i].classification == c then i else FindFrom(store, c, i + 1)
  }

  function Created(id: nat, c: Classification, seen: seq<Record>, conditions: Conditions): Pattern
    requires |seen| > 0
  {
    Pattern(id, c, |seen|, seen[0].createdAt, seen[|seen| - 1].createdAt, true, false, 20, 0.7, 0, conditions)
  }

  function Revived(p: Pattern): Pattern {
    p.(active := true, reactivated := true, penalty := 30, size := 0.5, progress := 0)
  }

  function SeenAgain(p: Pattern, seen: seq<Record>): Pattern
    requires |seen| > 0
  {
    p.(lossCount := |seen|, last := seen[|seen| - 1].createdAt)
  }

  function Recent(records: seq<Record>, c: Classification, since: int): seq<Record> {
    if |records| == 0 then []
    else
      var last := records[|records| - 1];
      Recent(records[..|records| - 1], c, since)
      + if last.classification == c && last.createdAt >= since then [last] else []
  }

  function DetectClass(store: seq<Pattern>, seen: seq<Record>, c: Classification, conditions: Conditions): seq<Pattern> {
    var i := Find(store, c);
    if |seen| < PATTERN_THRESHOLD then store
    else if i == |store| then store + [Created(|store|, c, seen, conditions)]
    else if store[i].active then store[i := SeenAgain(store[i], seen)]
    else store[i := Revived(store[i])]
  }

  function Detected(store: seq<Pattern>, records: seq<Record>, since: int, classes: seq<Classification>,
                    average: seq<Record> -> Conditions): seq<Pattern>
  {
    if |classes| == 0 then store
    else
      var c := classes[|classes| - 1];
      var seen := Recent(records, c, since);
      DetectClass(Detected(store, records, since, classes[..|classes| - 1], average), seen, c, average(seen))
  }

  function Reactivated(store: seq<Pattern>, c: Classification): seq<Pattern> {
    var i := Find(store, c);
    if i < |store| && !store[i].active then store[i := Revived(store[i])] else store
  }

  /** A matching profit moves an active pattern towards resolution, a matching loss sets it back. */
  function Progressed(p: Pattern, t: ClosedTrade): Pattern {
    if !p.active || !Matches(t.signal, p.conditions) then p
    else if t.pnl <= 0.0 then p.(progress := 0)
    else if p.progress + 1 >= RESOLUTION_STREAK then p.(active := false)
    else p.(progress := p.progress + 1)
  }

  function AllProgressed(store: seq<Pattern>, t: ClosedTrade): seq<Pattern> {
    seq(|store|, i requires 0 <= i < |store| => Progressed(store[i], t))
  }

  // ----- Invariants -----

  predicate Priced(p: Pattern) {
    && (if p.reactivated then p.penalty == 30 && p.size == 0.5 else p.penalty == 20 && p.size == 0.7)
    && 0 <= p.progress < RESOLUTION_STREAK
  }

  /** One pattern per classification, numbered in order, with its two prices and its progress in range. */
  predicate StoreOk(store: seq<Pattern>) {
    && (forall i :: 0 <= i < |store| ==> store[i].id == i && Priced(store[i]))
    && (forall i, j :: 0 <= i < j < |store| ==> store[i].classification != store[j].classification)
  }

  /** Equal but for the loss statistics, which only the store keeps up to date. */
  predicate Same(p: Pattern, q: Pattern) {
    q.(lossCount := p.lossCount, last := p.last) == p
  }

  predicate Holds(cache: seq<Pattern>, id: nat) {
    exists k :: 0 <= k < |cache| && cache[k].id == id
  }

  /** The cache holds the store's active patterns, each once. */
  predicate Mirrors(store: seq<Pattern>, cache: seq<Pattern>) {
    && (forall k :: 0 <= k < |cache| ==> cache[k].active && cache[k].id < |store| && Same(store[cache[k].id], cache[k]))
    && (forall j, k :: 0 <= j < k < |cache| ==> cache[j].id != cache[k].id)
    && (forall i :: 0 <= i < |store| && store[i].active ==> Holds(cache, i))
  }

  // ----- Runs over the store -----

  datatype Event =
    | Detect(records: seq<Record>, since: int, average: seq<Record> -> Conditions)
    | Resolve(trade: ClosedTrade)
    | Reactivate(classification: Classification)
    | Restart

  function After(store: seq<Pattern>, e: Event): seq<Pattern> {
    match e
    case Detect(records, since, average) => Detected(store, records, since, CLASSES, average)
    case Resolve(trade) => AllProgressed(store, trade)
    case Reactivate(c) => Reactivated(store, c)
    case Restart => store
  }

  lemma DetectClassKeepsStoreOk(store: seq<Pattern>, seen: seq<Record>, c: Classification, conditions: Conditions)
    requires StoreOk(store)
    ensures StoreOk(DetectClass(store, seen, c, conditions))
  {
  }

  lemma {:induction false} DetectedKeepsStoreOk(store: seq<Pattern>, records: seq<Record>, since: int,
                                                classes: seq<Classification>, average: seq<Record> -> Conditions)
    requires StoreOk(store)
    ensures StoreOk(Detected(store, records, since, classes, average))
  {
    if |classes| > 0 {
      var c, init := classes[|classes| - 1], classes[..|classes| - 1];
      var seen := Recent(records, c, since);
      DetectedKeepsStoreOk(store, records, since, init, average);
      DetectClassKeepsStoreOk(Detected(store, records, since, init, average), seen, c, average(seen));
    }
  }

  function Run(store: seq<Pattern>, events: seq<Event>): seq<Pattern> {
    if |events| == 0 then store else After(Run(store, events[..|events| - 1]), events[|events| - 1])
  }

  lemma ProgressKeepsStoreOk(store: seq<Pattern>, trade: ClosedTrade)
    requires StoreOk(store)
    ensures StoreOk(AllProgressed(store, trade))
  {
  }

  lemma ReactivationKeepsStoreOk(store: seq<Pattern>, c: Classification)
    requires StoreOk(store)
    ensures StoreOk(Reactivated(store, c))
  {
  }

  lemma StepKeepsStoreOk(store: seq<Pattern>, e: Event) returns (after: seq<Pattern>)
    requires StoreOk(store)
    ensures after == After(store, e)
    ensures StoreOk(after)
  {
    after := After(store, e);
    match e
    case Detect(records, since, average) => DetectedKeepsStoreOk(store, records, since, CLASSES, average);
    case Resolve(trade) => ProgressKeepsStoreOk(store, trade);
    case Reactivate(c) => ReactivationKeepsStoreOk(store, c);
    case Restart =>
  }

  /** Every run keeps one pattern per classification, its prices, and its progress below twenty. */
  lemma {:induction false} EveryRunKeepsStoreOk(store: seq<Pattern>, events: seq<Event>) returns (end: seq<Pattern>)
    requires StoreOk(store)
    ensures end == Run(store, events)
    ensures StoreOk(end)
  {
    if |events| == 0 {
      end := store;
    } else {
      var before := EveryRunKeepsStoreOk(store, events[..|events| - 1]);
      end := StepKeepsStoreOk(before, events[|events| - 1]);
    }
  }

  // ----- Penalties -----

  predicate Hits(p: Pattern, signal: Signal) { p.active && Matches(signal, p.conditions) }

  /** The accumulator of `get_confidence_penalty`. */
  function Penalty(ps: seq<Pattern>, signal: Signal): int {
    if |ps| == 0 then 0
    else Penalty(ps[..|ps| - 1], signal) + if Hits(ps[|ps| - 1], signal) then ps[|ps| - 1].penalty else 0
  }

  /** The accumulator of `get_size_reduction_factor`. */
  function Factor(ps: seq<Pattern>, signal: Signal): real {
    if |ps| == 0 then 1.0
    else Factor(ps[..|ps| - 1], signal) * if Hits(ps[|ps| - 1], signal) then ps[|ps| - 1].size else 1.0
  }

  function HitCount(ps: seq<Pattern>, signal: Signal, revived: bool): nat {
    if |ps| == 0 then 0
    else HitCount(ps[..|ps| - 1], signal, revived)
         + if Hits(ps[|ps| - 1], signal) && ps[|ps| - 1].reactivated == revived then 1 else 0
  }

  function ClassHits(ps: seq<Pattern>, signal: Signal, revived: bool, c: Classification): nat {
    if |ps| == 0 then 0
    else ClassHits(ps[..|ps| - 1], signal, revived, c)
         + if Hits(ps[|ps| - 1], signal) && ps[|ps| - 1].reactivated == revived && ps[|ps| - 1].classification == c then 1 else 0
  }

  lemma {:induction false} HitsByClass(ps: seq<Pattern>, signal: Signal, revived: bool)
    ensures HitCount(ps, signal, revived) ==
            ClassHits(ps, signal, revived, CounterTrend) + ClassHits(ps, signal, revived, FalseBreakout)
            + ClassHits(ps, signal, revived, VolatilityMisjudgment) + ClassHits(ps, signal, revived, PoorTiming)
            + ClassHits(ps, signal, revived, Overexposure) + ClassHits(ps, signal, revived, RegimeMisclassification)
  {
    if |ps| > 0 {
      HitsByClass(ps[..|ps| - 1], signal, revived);
    }
  }

  predicate DistinctClasses(ps: seq<Pattern>) {
    forall i, j :: 0 <= i < j < |ps| ==> ps[i].classification != ps[j].classification
  }

  lemma {:induction false} ClassHitsOf(ps: seq<Pattern>, signal: Signal, revived: bool, c: Classification)
    requires DistinctClasses(ps)
    ensures (forall k :: 0 <= k < |ps| ==> ps[k].classification != c) ==> ClassHits(ps, signal, revived, c) == 0
    ensures forall k :: 0 <= k < |ps| && ps[k].classification == c ==>
      ClassHits(ps, signal, revived, c) == if Hits(ps[k], signal) && ps[k].reactivated == revived then 1 else 0
    ensures ClassHits(ps, signal, revived, c) <= 1
  {
    if |ps| > 0 {
      var init := ps[..|ps| - 1];
      ClassHitsOf(init, signal, revived, c);
      assert forall k :: 0 <= k < |init| ==> init[k] == ps[k];
    }
  }

  lemma MirrorHasDistinctClasses(store: seq<Pattern>, cache: seq<Pattern>)
    requires StoreOk(store) && Mirrors(store, cache)
    ensures DistinctClasses(cache)
    ensures forall k :: 0 <= k < |cache| ==> cache[k].classification == store[cache[k].id].classification
  {
  }

  lemma ClassHitsAt(ps: seq<Pattern>, signal: Signal, revived: bool, k: nat)
    requires DistinctClasses(ps) && k < |ps|
    ensures ClassHits(ps, signal, revived, ps[k].classification)
         == if Hits(ps[k], signal) && ps[k].reactivated == revived then 1 else 0
  {
    ClassHitsOf(ps, signal, revived, ps[k].classification);
  }

  lemma ClassHitsNone(ps: seq<Pattern>, signal: Signal, revived: bool, c: Classification)
    requires DistinctClasses(ps) && forall k :: 0 <= k < |ps| ==> ps[k].classification != c
    ensures ClassHits(ps, signal, revived, c) == 0
  {
    ClassHitsOf(ps, signal, revived, c);
  }

  /** A class is cached exactly when its pattern is active. */
  lemma CachedClass(store: seq<Pattern>, cache: seq<Pattern>, c: Classification) returns (k: nat)
    requires StoreOk(store) && Mirrors(store, cache)
    ensures var i := Find(store, c);
            if i < |store| && store[i].active then k < |cache| && Same(store[i], cache[k]) && cache[k].classification == c
            else forall k :: 0 <= k < |cache| ==> cache[k].classification != c
  {
    var i := Find(store, c);
    k := 0;
    MirrorHasDistinctClasses(store, cache);
    if i < |store| && store[i].active {
      k := CachedAt(store, cache, i);
    }
  }

  lemma MirrorHitsAlike(store: seq<Pattern>, cache: seq<Pattern>, signal: Signal, revived: bool, c: Classification)
    requires StoreOk(store) && Mirrors(store, cache)
    ensures ClassHits(cache, signal, revived, c) == ClassHits(store, signal, revived, c)
  {
    var i := Find(store, c);
    var k := CachedClass(store, cache, c);
    MirrorHasDistinctClasses(store, cache);
    if i < |store| {
      ClassHitsAt(store, signal, revived, i);
    } else {
      ClassHitsNone(store, signal, revived, c);
    }
    if i < |store| && store[i].active {
      ClassHitsAt(cache, signal, revived, k);
    } else {
      ClassHitsNone(cache, signal, revived, c);
    }
  }

  lemma CachedAt(store: seq<Pattern>, cache: seq<Pattern>, i: nat) returns (k: nat)
    requires Mirrors(store, cache) && i < |store| && store[i].active
    ensures k < |cache| && Same(store[i], cache[k])
  {
    assert Holds(cache, i);
    k :| 0 <= k < |cache| && cache[k].id == i;
  }

  lemma MirrorCountsAlike(store: seq<Pattern>, cache: seq<Pattern>, signal: Signal, revived: bool)
    requires StoreOk(store) && Mirrors(store, cache)
    ensures HitCount(cache, signal, revived) == HitCount(store, signal, revived)
  {
    forall c: Classification ensures ClassHits(cache, signal, revived, c) == ClassHits(store, signal, revived, c) {
      MirrorHitsAlike(store, cache, signal, revived, c);
    }
    HitsByClass(store, signal, revived);
    HitsByClass(cache, signal, revived);
  }

  function Power(x: real, n: nat): real { if n == 0 then 1.0 else Power(x, n - 1) * x }

  /** The size factor of `a` base and `b` reactivated hits. */
  function Shrunk(a: nat, b: nat): real { Power(0.7, a) * Power(0.5, b) }

  lemma ShrunkGrows(a: nat, b: nat)
    ensures Shrunk(a + 1, b) == Shrunk(a, b) * 0.7 && Shrunk(a, b + 1) == Shrunk(a, b) * 0.5
  {
    var x, y := Power(0.7, a), Power(0.5, b);
    assert (x * 0.7) * y == (x * y) * 0.7 && x * (y * 0.5) == (x * y) * 0.5;
  }

  /** Penalty and factor depend only on how many base and reactivated patterns a signal hits. */
  lemma {:induction false} PenaltyIsCounted(ps: seq<Pattern>, signal: Signal)
    requires forall k :: 0 <= k < |ps| ==> Priced(ps[k])
    ensures Penalty(ps, signal) == 20 * HitCount(ps, signal, false) + 30 * HitCount(ps, signal, true)
    ensures Factor(ps, signal) == Shrunk(HitCount(ps, signal, false), HitCount(ps, signal, true))
  {
    if |ps| > 0 {
      var init, last := ps[..|ps| - 1], ps[|ps| - 1];
      PenaltyIsCounted(init, signal);
      ShrunkGrows(HitCount(init, signal, false), HitCount(init, signal, true));
      assert Priced(last);
    }
  }

  lemma {:induction false} FactorFloor(a: nat, b: nat)
    ensures 0.0 < Power(0.5, a + b) <= Shrunk(a, b)
    decreases a + b
  {
    if a > 0 {
      FactorFloor(a - 1, b);
      ShrunkGrows(a - 1, b);
    } else if b > 0 {
      FactorFloor(0, b - 1);
      ShrunkGrows(0, b - 1);
    }
  }

  lemma {:induction false} HalvesShrink(n: nat)
    requires n <= 6
    ensures Power(0.5, n) >= 1.0 / 64.0
  {
    assert Power(0.5, 1) == 0.5 && Power(0.5, 2) == 0.25 && Power(0.5, 3) == 0.125;
    assert Power(0.5, 4) == 0.0625 && Power(0.5, 5) == 0.03125 && Power(0.5, 6) == 0.015625;
  }

  lemma {:induction false} EachClassHitsOnce(ps: seq<Pattern>, signal: Signal, c: Classification)
    requires DistinctClasses(ps)
    ensures ClassHits(ps, signal, false, c) + ClassHits(ps, signal, true, c) <= 1
  {
    ClassHitsOf(ps, signal, false, c);
    ClassHitsOf(ps, signal, true, c);
    if k :| 0 <= k < |ps| && ps[k].classification == c {
    }
  }

  lemma AtMostSixHits(ps: seq<Pattern>, signal: Signal)
    requires DistinctClasses(ps)
    ensures HitCount(ps, signal, false) + HitCount(ps, signal, true) <= 6
  {
    HitsByClass(ps, signal, false);
    HitsByClass(ps, signal, true);
    forall c: Classification ensures ClassHits(ps, signal, false, c) + ClassHits(ps, signal, true, c) <= 1 {
      EachClassHitsOnce(ps, signal, c);
    }
  }

  lemma CacheIsPriced(store: seq<Pattern>, cache: seq<Pattern>)
    requires StoreOk(store) && Mirrors(store, cache)
    ensures forall k :: 0 <= k < |cache| ==> Priced(cache[k])
  {
    assert forall k :: 0 <= k < |cache| ==> Same(store[cache[k].id], cache[k]);
  }

  /** Whatever mirrors the store penalises alike: reloading at a method boundary changes no penalty and
      no size factor. */
  lemma RestartIsTransparent(store: seq<Pattern>, cache: seq<Pattern>, signal: Signal)
    requires StoreOk(store) && Mirrors(store, cache)
    ensures Penalty(cache, signal) == Penalty(store, signal) && Factor(cache, signal) == Factor(store, signal)
  {
    MirrorCountsAlike(store, cache, signal, false);
    MirrorCountsAlike(store, cache, signal, true);
    CacheIsPriced(store, cache);
    PenaltyIsCounted(store, signal);
    PenaltyIsCounted(cache, signal);
  }

  /** Six classifications bound the penalty by 180 points and the size factor by 1/64. */
  lemma PenaltyIsBounded(store: seq<Pattern>, signal: Signal)
    requires StoreOk(store)
    ensures 0 <= Penalty(store, signal) <= 180 && 1.0 / 64.0 <= Factor(store, signal)
  {
    PenaltyIsCounted(store, signal);
    AtMostSixHits(store, signal);
    FactorFloor(HitCount(store, signal, false), HitCount(store, signal, true));
    HalvesShrink(HitCount(store, signal, false) + HitCount(store, signal, true));
  }

  lemma FindIsUnique(store: seq<Pattern>, i: nat)
    requires DistinctClasses(store) && i < |store|
    ensures Find(store, store[i].classification) == i
  {
    var f := Find(store, store[i].classification);
    assert f <= i;
  }

  lemma ChangeKeepsStoreOk(store: seq<Pattern>, i: nat, p: Pattern)
    requires StoreOk(store) && i < |store| && p.id == i && p.classification == store[i].classification && Priced(p)
    ensures StoreOk(store[i := p])
  {
  }

  /** What a search for a class and a status finds. */
  lemma FoundIsUnique(store: seq<Pattern>, c: Classification, active: bool, found: Option<Pattern>)
    requires StoreOk(store)
    requires found.Some? ==> found.value in store && found.value.classification == c && found.value.active == active
    requires found.None? ==> forall p :: p in store ==> p.classification != c || p.active != active
    ensures var i := Find(store, c);
            if i < |store| && store[i].active == active then found == Some(store[i]) && store[i].id == i else found.None?
  {
    if found.Some? {
      var k :| 0 <= k < |store| && store[k] == found.value;
      FindIsUnique(store, k);
    }
  }

  // ----- Resolved patterns -----

  lemma DetectClassOnOthers(store: seq<Pattern>, seen: seq<Record>, c: Classification, conditions: Conditions, i: nat)
    requires StoreOk(store) && i < |store|
    ensures var after := DetectClass(store, seen, c, conditions);
            && |after| >= |store| && after[i].classification == store[i].classification
            && (store[i].classification != c ==> after[i] == store[i])
            && (store[i].active ==> after[i].active && after[i].reactivated == store[i].reactivated)
            && (!store[i].active && store[i].classification == c ==>
                  after[i] == if |seen| >= PATTERN_THRESHOLD then Revived(store[i]) else store[i])
  {
    FindIsUnique(store, i);
  }

  /** Detection revives a resolved pattern exactly when the window holds five losses of its class, and then at the harsher
      prices. When those losses were recorded does not matter. */
  lemma {:induction false} DetectionRevives(store: seq<Pattern>, records: seq<Record>, since: int,
                                            classes: seq<Classification>, average: seq<Record> -> Conditions, i: nat)
    requires StoreOk(store) && i < |store| && !store[i].active
    ensures var after := Detected(store, records, since, classes, average);
            && |after| >= |store| && after[i].classification == store[i].classification
            && (after[i].active <==> store[i].classification in classes
                                     && |Recent(records, store[i].classification, since)| >= PATTERN_THRESHOLD)
            && (if after[i].active then after[i].reactivated else after[i] == store[i])
  {
    if |classes| > 0 {
      var init, c := classes[..|classes| - 1], classes[|classes| - 1];
      var seen := Recent(records, c, since);
      DetectionRevives(store, records, since, init, average, i);
      DetectedKeepsStoreOk(store, records, since, init, average);
      DetectClassOnOthers(Detected(store, records, since, init, average), seen, c, average(seen), i);
      assert classes == init + [c];
    }
  }

  lemma {:induction false} LaterLossesAreFewer(records: seq<Record>, c: Classification, since: int, later: int)
    requires since <= later
    ensures |Recent(records, c, later)| <= |Recent(records, c, since)|
  {
    if |records| > 0 {
      LaterLossesAreFewer(records[..|records| - 1], c, since, later);
    }
  }

  /** The documented rule, that five new losses within thirty days after its resolution revive a pattern, as read at a time
      of detection: five losses of the last thirty days are later than the resolution. */
  predicate Recurs(records: seq<Record>, c: Classification, resolved: int, now: int) {
    |Recent(records, c, MaxInt(now - WINDOW_SECONDS, resolved + 1))| >= PATTERN_THRESHOLD
  }

  /** Detection keeps that rule for a pattern resolved at a time exactly unless the window holds five losses of which fewer
      than five are new: then the pattern returns too early. It never stays away too long. */
  lemma ResolvedPatternReturns(store: seq<Pattern>, i: nat, records: seq<Record>, average: seq<Record> -> Conditions,
                               resolved: int, now: int)
    requires StoreOk(store) && i < |store| && !store[i].active
    ensures var c := store[i].classification;
            var after := Detected(store, records, now - WINDOW_SECONDS, CLASSES, average);
            && |after| >= |store|
            && (Recurs(records, c, resolved, now) ==> after[i].active)
            && ((after[i].active <==> Recurs(records, c, resolved, now))
                <==> (|Recent(records, c, now - WINDOW_SECONDS)| >= PATTERN_THRESHOLD ==> Recurs(records, c, resolved, now)))
  {
    DetectionRevives(store, records, now - WINDOW_SECONDS, CLASSES, average, i);
    AllClasses(store[i].classification);
    LaterLossesAreFewer(records, store[i].classification, now - WINDOW_SECONDS,
                        MaxInt(now - WINDOW_SECONDS, resolved + 1));
  }

  lemma AllClasses(c: Classification)
    ensures c in CLASSES
  {
    assert CLASSES[0] == CounterTrend && CLASSES[1] == FalseBreakout && CLASSES[2] == VolatilityMisjudgment;
    assert CLASSES[3] == PoorTiming && CLASSES[4] == Overexposure && CLASSES[5] == RegimeMisclassification;
  }

  /** Five losses of one class, all at one time. */
  function FiveLosses(c: Classification, at: int): seq<Record> { seq(5, _ => Record(c, at)) }

  lemma {:induction false} RecentOfSame(records: seq<Record>, c: Classification, at: int, since: int)
    requires forall k :: 0 <= k < |records| ==> records[k] == Record(c, at)
    ensures |Recent(records, c, since)| == if at >= since then |records| else 0
  {
    if |records| > 0 {
      RecentOfSame(records[..|records| - 1], c, at, since);
    }
  }

  /** Such a list: five losses, then the resolution, then no loss at all. The next detection revives the pattern. */
  lemma OldLossesReviveIt(store: seq<Pattern>, i: nat, average: seq<Record> -> Conditions, lost: int, resolved: int, now: int)
    requires StoreOk(store) && i < |store| && !store[i].active
    requires now - WINDOW_SECONDS <= lost <= resolved <= now
    ensures var records := FiveLosses(store[i].classification, lost);
            var after := Detected(store, records, now - WINDOW_SECONDS, CLASSES, average);
            && |after| >= |store| && after[i].active && after[i].reactivated
            && !Recurs(records, store[i].classification, resolved, now)
  {
    var c := store[i].classification;
    var records := FiveLosses(c, lost);
    RecentOfSame(records, c, lost, now - WINDOW_SECONDS);
    RecentOfSame(records, c, lost, MaxInt(now - WINDOW_SECONDS, resolved + 1));
    DetectionRevives(store, records, now - WINDOW_SECONDS, CLASSES, average, i);
    AllClasses(c);
  }

  // ----- The database -----

  function ActiveOf(ps: seq<Pattern>): seq<Pattern> {
    if |ps| == 0 then []
    else ActiveOf(ps[..|ps| - 1]) + if ps[|ps| - 1].active then [ps[|ps| - 1]] else []
  }

  /** `loaded` is the active part of the first `n` patterns, in order. */
  predicate LoadedFrom(store: seq<Pattern>, loaded: seq<Pattern>, n: nat) {
    && (forall k :: 0 <= k < |loaded| ==> loaded[k].active && loaded[k].id < n <= |store| && store[loaded[k].id] == loaded[k])
    && (forall j, k :: 0 <= j < k < |loaded| ==> loaded[j].id < loaded[k].id)
    && (forall i :: 0 <= i < n <= |store| && store[i].active ==> Holds(loaded, i))
  }

  lemma LoadOneMore(store: seq<Pattern>, loaded: seq<Pattern>, n: nat)
    requires StoreOk(store) && n < |store| && LoadedFrom(store, loaded, n)
    ensures LoadedFrom(store, loaded + if store[n].active then [store[n]] else [], n + 1)
  {
    var after := loaded + if store[n].active then [store[n]] else [];
    if !store[n].active {
      assert after == loaded;
      return;
    }
    assert after[|loaded|] == store[n] && forall k :: 0 <= k < |loaded| ==> after[k] == loaded[k];
    forall i | 0 <= i < n && store[i].active ensures Holds(after, i) {
      assert Holds(loaded, i);
      var k :| 0 <= k < |loaded| && loaded[k].id == i;
      assert after[k].id == i;
    }
  }

  lemma {:induction false} ActivesAreLoaded(store: seq<Pattern>, n: nat)
    requires StoreOk(store) && n <= |store|
    ensures LoadedFrom(store, ActiveOf(store[..n]), n)
  {
    if n > 0 {
      ActivesAreLoaded(store, n - 1);
      assert store[..n][..n - 1] == store[..n - 1];
      LoadOneMore(store, ActiveOf(store[..n - 1]), n - 1);
    }
  }

  /** A load at any point mirrors the store. */
  lemma LoadMirrors(store: seq<Pattern>)
    requires StoreOk(store)
    ensures Mirrors(store, ActiveOf(store))
  {
    ActivesAreLoaded(store, |store|);
    assert store[..|store|] == store;
  }

  predicate Numbered(ps: seq<Pattern>) {
    forall i :: 0 <= i < |ps| ==> ps[i].id == i
  }

  class MistakeDatabase {
    var records: seq<Record>
    var patterns: seq<Pattern>

    constructor ()
      ensures records == [] && patterns == []
    {
      records, patterns := [], [];
    }

    method StoreRecord(record: Record)
      modifies this`records
      ensures records == old(records) + [record]
    {
      records := records + [record];
    }

    method GetRecordsByClassification(c: Classification, since: int) returns (found: seq<Record>)
      ensures found == Recent(records, c, since)
    {
      found := [];
      for i := 0 to |records|
        invariant found == Recent(records[..i], c, since)
      {
        assert records[..i + 1][..i] == records[..i];
        if records[i].classification == c && records[i].createdAt >= since {
          found := found + [records[i]];
        }
      }
      assert records[..|records|] == records;
    }

    method GetActivePatterns() returns (found: seq<Pattern>)
      ensures found == ActiveOf(patterns)
    {
      found := [];
      for i := 0 to |patterns|
        invariant found == ActiveOf(patterns[..i])
      {
        assert patterns[..i + 1][..i] == patterns[..i];
        if patterns[i].active {
          found := found + [patterns[i]];
        }
      }
      assert patterns[..|patterns|] == patterns;
    }

    /** The first pattern of a classification with the wanted status. */
    method FindPattern(c: Classification, active: bool) returns (found: Option<Pattern>)
      ensures found.Some? ==> found.value in patterns && found.value.classification == c && found.value.active == active
      ensures found.None? ==> forall p :: p in patterns ==> p.classification != c || p.active != active
    {
      for i := 0 to |patterns|
        invariant forall j :: 0 <= j < i ==> patterns[j].classification != c || patterns[j].active != active
      {
        if patterns[i].classification == c && patterns[i].active == active {
          return Some(patterns[i]);
        }
      }
      return None;
    }

    method CreatePattern(p: Pattern)
      modifies this`patterns
      ensures patterns == old(patterns) + [p]
    {
      patterns := patterns + [p];
    }

    /** Partial update by identifier; an unknown identifier changes nothing. */
    method UpdatePattern(id: nat, change: Pattern -> Pattern)
      requires Numbered(patterns)
      modifies this`patterns
      ensures patterns == if id < |old(patterns)| then old(patterns)[id := change(old(patterns)[id])] else old(patterns)
    {
      for i := 0 to |patterns|
        invariant patterns == old(patterns) && i <= id
      {
        if patterns[i].id == id {
          patterns := patterns[i := change(patterns[i])];
          return;
        }
      }
    }
  }

  // ----- The cache -----

  /** Objects in the cache are changed in place. */
  function Replaced(cache: seq<Pattern>, p: Pattern): seq<Pattern> {
    seq(|cache|, k requires 0 <= k < |cache| => if cache[k].id == p.id then p else cache[k])
  }

  function Without(cache: seq<Pattern>, id: nat): seq<Pattern> {
    if |cache| == 0 then []
    else Without(cache[..|cache| - 1], id) + if cache[|cache| - 1].id != id then [cache[|cache| - 1]] else []
  }

  lemma {:induction false} WithoutKeepsOthers(cache: seq<Pattern>, id: nat, other: nat)
    ensures Holds(Without(cache, id), other) <==> Holds(cache, other) && other != id
    ensures forall k :: 0 <= k < |Without(cache, id)| ==> Without(cache, id)[k] in cache && Without(cache, id)[k].id != id
  {
    if |cache| > 0 {
      var init, last := cache[..|cache| - 1], cache[|cache| - 1];
      WithoutKeepsOthers(init, id, other);
      var before, after := Without(init, id), Without(cache, id);
      assert forall k :: 0 <= k < |init| ==> init[k] == cache[k];
      assert forall k :: 0 <= k < |before| ==> after[k] == before[k];
      if last.id != id {
        assert after[|before|] == last;
      }
    }
  }

  lemma {:induction false} WithoutStaysDistinct(cache: seq<Pattern>, id: nat)
    requires forall j, k :: 0 <= j < k < |cache| ==> cache[j].id != cache[k].id
    ensures var after := Without(cache, id);
            forall j, k :: 0 <= j < k < |after| ==> after[j].id != after[k].id
  {
    if |cache| > 0 {
      var init, last := cache[..|cache| - 1], cache[|cache| - 1];
      WithoutStaysDistinct(init, id);
      WithoutKeepsOthers(init, id, last.id);
      var before := Without(init, id);
      assert forall k :: 0 <= k < |init| ==> init[k].id != last.id;
      assert forall k :: 0 <= k < |before| ==> before[k].id != last.id;
    }
  }

  lemma CacheFollowsChange(store: seq<Pattern>, cache: seq<Pattern>, p: Pattern, q: Pattern)
    requires Mirrors(store, cache) && Numbered(store) && p.id < |store| && q.active && q.id == p.id && Same(p, q)
    requires Holds(cache, p.id)
    ensures Mirrors(store[p.id := p], Replaced(cache, q))
  {
    var store', cache' := store[p.id := p], Replaced(cache, q);
    forall i | 0 <= i < |store'| && store'[i].active ensures Holds(cache', i) {
      assert Holds(cache, i);
      var k :| 0 <= k < |cache| && cache[k].id == i;
      assert cache'[k].id == i;
    }
  }

  lemma CacheDropsResolved(store: seq<Pattern>, cache: seq<Pattern>, p: Pattern)
    requires Mirrors(store, cache) && p.id < |store| && !p.active
    ensures Mirrors(store[p.id := p], Without(cache, p.id))
  {
    var store', cache' := store[p.id := p], Without(cache, p.id);
    WithoutStaysDistinct(cache, p.id);
    WithoutKeepsOthers(cache, p.id, 0);
    forall i | 0 <= i < |store'| && store'[i].active ensures Holds(cache', i) {
      WithoutKeepsOthers(cache, p.id, i);
    }
  }

  lemma CacheGainsActive(store: seq<Pattern>, cache: seq<Pattern>, store': seq<Pattern>, p: Pattern)
    requires Mirrors(store, cache) && p.active && p.id <= |store| && (p.id < |store| ==> !store[p.id].active)
    requires store' == if p.id < |store| then store[p.id := p] else store + [p]
    ensures Mirrors(store', cache + [p])
  {
    var cache' := cache + [p];
    assert forall k :: 0 <= k < |cache| ==> cache'[k] == cache[k] && store[cache[k].id].active;
    forall i | 0 <= i < |store'| && store'[i].active ensures Holds(cache', i) {
      if i == p.id {
        assert cache'[|cache|].id == i;
      } else {
        assert Holds(cache, i);
        var k :| 0 <= k < |cache| && cache[k].id == i;
        assert cache'[k].id == i;
      }
    }
  }

  lemma CacheIgnoresStatistics(store: seq<Pattern>, cache: seq<Pattern>, i: nat, seen: seq<Record>)
    requires Mirrors(store, cache) && i < |store| && |seen| > 0
    ensures Mirrors(store[i := SeenAgain(store[i], seen)], cache)
  {
  }

  class MistakeAnalyzer {
    const db: MistakeDatabase
    var activePatterns: seq<Pattern>

    ghost predicate Valid()
      reads this, db
    {
      StoreOk(db.patterns) && Mirrors(db.patterns, activePatterns)
    }

    constructor (db: MistakeDatabase)
      ensures this.db == db && activePatterns == []
    {
      this.db := db;
      activePatterns := [];
    }

    method LoadPatternsOnStartup()
      requires StoreOk(db.patterns)
      modifies this
      ensures Valid() && activePatterns == ActiveOf(db.patterns)
    {
      activePatterns := db.GetActivePatterns();
      LoadMirrors(db.patterns);
    }

    method ReactivatePattern(c: Classification)
      requires Valid()
      modifies this, db`patterns
      ensures Valid() && db.patterns == After(old(db.patterns), Reactivate(c))
    {
      var resolved := db.FindPattern(c, false);
      FoundIsUnique(db.patterns, c, false, resolved);
      if resolved.Some? {
        Revive(resolved.value);
      }
    }

    /** A resolved pattern comes back, in the store and in the cache. */
    method Revive(resolved: Pattern)
      requires Valid() && resolved in db.patterns && !resolved.active
      modifies this, db`patterns
      ensures Valid() && resolved.id < |old(db.patterns)|
      ensures db.patterns == old(db.patterns)[resolved.id := Revived(old(db.patterns)[resolved.id])]
    {
      var p := Revived(resolved);
      ChangeKeepsStoreOk(db.patterns, p.id, p);
      db.UpdatePattern(p.id, x => Revived(x));
      CacheGainsActive(old(db.patterns), activePatterns, db.patterns, p);
      if p !in activePatterns {
        activePatterns := activePatterns + [p];
      }
    }

    /** The losses of an active pattern; the cached object keeps its old count. */
    method CountLosses(id: nat, seen: seq<Record>)
      requires Valid() && id < |db.patterns| && |seen| > 0
      modifies db`patterns
      ensures Valid() && db.patterns == old(db.patterns)[id := SeenAgain(old(db.patterns)[id], seen)]
    {
      CacheIgnoresStatistics(db.patterns, activePatterns, id, seen);
      db.UpdatePattern(id, x => SeenAgain(x, seen));
    }

    /** A new pattern, in the store and in the cache. */
    method Track(p: Pattern)
      requires Valid() && StoreOk(db.patterns + [p]) && p.active && p.id == |db.patterns|
      modifies this, db`patterns
      ensures Valid() && db.patterns == old(db.patterns) + [p]
    {
      CacheGainsActive(db.patterns, activePatterns, db.patterns + [p], p);
      db.CreatePattern(p);
      activePatterns := activePatterns + [p];
    }

    /** One classification of `detect_patterns`. */
    method DetectOne(c: Classification, since: int, average: seq<Record> -> Conditions)
      requires Valid()
      modifies this, db`patterns
      ensures Valid()
      ensures var seen := Recent(db.records, c, since);
              db.patterns == DetectClass(old(db.patterns), seen, c, average(seen))
    {
      var seen := db.GetRecordsByClassification(c, since);
      if |seen| < PATTERN_THRESHOLD {
        return;
      }
      DetectClassKeepsStoreOk(db.patterns, seen, c, average(seen));
      var existing := db.FindPattern(c, true);
      FoundIsUnique(db.patterns, c, true, existing);
      if existing.Some? {
        CountLosses(existing.value.id, seen);
        return;
      }
      var resolved := db.FindPattern(c, false);
      FoundIsUnique(db.patterns, c, false, resolved);
      if resolved.Some? {
        ReactivatePattern(c);
      } else {
        Track(Created(|db.patterns|, c, seen, average(seen)));
      }
    }

    method DetectPatterns(now: int, average: seq<Record> -> Conditions)
      requires Valid()
      modifies this, db`patterns
      ensures Valid()
      ensures db.patterns == After(old(db.patterns), Detect(db.records, now - WINDOW_SECONDS, average))
    {
      var since := now - WINDOW_SECONDS;
      for i := 0 to |CLASSES|
        invariant Valid() && db.records == old(db.records)
        invariant db.patterns == Detected(old(db.patterns), db.records, since, CLASSES[..i], average)
      {
        assert CLASSES[..i + 1][..i] == CLASSES[..i];
        DetectOne(CLASSES[i], since, average);
      }
      assert CLASSES[..|CLASSES|] == CLASSES;
    }

    /** Writes a new streak to the store and to the cached object. */
    method SetProgress(q: Pattern, progress: nat)
      requires Valid() && q in activePatterns && progress < RESOLUTION_STREAK
      modifies this, db`patterns
      ensures Valid()
      ensures q.id < |old(db.patterns)|
      ensures db.patterns == old(db.patterns)[q.id := old(db.patterns)[q.id].(progress := progress)]
      ensures forall p :: p in old(activePatterns) && p.id != q.id ==> p in activePatterns
    {
      ghost var p := db.patterns[q.id];
      assert Same(p, q) && Holds(activePatterns, q.id);
      ChangeKeepsStoreOk(db.patterns, q.id, p.(progress := progress));
      CacheFollowsChange(db.patterns, activePatterns, p.(progress := progress), q.(progress := progress));
      KeptOnReplace(activePatterns, q.(progress := progress));
      db.UpdatePattern(q.id, (x: Pattern) => x.(progress := progress));
      activePatterns := Replaced(activePatterns, q.(progress := progress));
    }

    /** Deactivates a pattern in the store and drops it from the cache. */
    method Deactivate(q: Pattern)
      requires Valid() && q in activePatterns
      modifies this, db`patterns
      ensures Valid()
      ensures q.id < |old(db.patterns)|
      ensures db.patterns == old(db.patterns)[q.id := old(db.patterns)[q.id].(active := false)]
      ensures forall p :: p in old(activePatterns) && p.id != q.id ==> p in activePatterns
    {
      ghost var p := db.patterns[q.id];
      ChangeKeepsStoreOk(db.patterns, q.id, p.(active := false));
      CacheDropsResolved(db.patterns, activePatterns, p.(active := false));
      KeptOnDrop(activePatterns, q.id);
      db.UpdatePattern(q.id, (x: Pattern) => x.(active := false));
      activePatterns := Without(activePatterns, q.id);
    }

    /** What `update_resolution_progress` does for one pattern of its snapshot. */
    method Progress(q: Pattern, trade: ClosedTrade)
      requires Valid() && q in activePatterns
      modifies this, db`patterns
      ensures Valid()
      ensures q.id < |old(db.patterns)| && db.patterns == old(db.patterns)[q.id := Progressed(old(db.patterns)[q.id], trade)]
      ensures forall p :: p in old(activePatterns) && p.id != q.id ==> p in activePatterns
    {
      ghost var p := db.patterns[q.id];
      assert Same(p, q) && p.active && Priced(p);
      if !Matches(trade.signal, q.conditions) {
        assert db.patterns[q.id := p] == db.patterns;
        return;
      }
      if trade.pnl > 0.0 {
        var progress := q.progress + 1;
        if progress >= RESOLUTION_STREAK {
          Deactivate(q);
        } else {
          SetProgress(q, progress);
        }
      } else {
        SetProgress(q, 0);
      }
    }

    method UpdateResolutionProgress(trade: ClosedTrade)
      requires Valid()
      modifies this, db`patterns
      ensures Valid() && db.patterns == After(old(db.patterns), Resolve(trade))
    {
      var snapshot := activePatterns;
      for k := 0 to |snapshot|
        invariant Valid() && |db.patterns| == |old(db.patterns)|
        invariant forall j :: k <= j < |snapshot| ==> snapshot[j] in activePatterns
        invariant forall i :: 0 <= i < |db.patterns| ==>
          db.patterns[i] == if Holds(snapshot[..k], i) then Progressed(old(db.patterns)[i], trade) else old(db.patterns)[i]
      {
        var q := snapshot[k];
        HoldsStep(snapshot, k);
        Progress(q, trade);
      }
      assert snapshot[..|snapshot|] == snapshot;
    }

    method GetConfidencePenalty(signal: Signal) returns (total: int)
      ensures total == Penalty(activePatterns, signal)
    {
      total := 0;
      for i := 0 to |activePatterns|
        invariant total == Penalty(activePatterns[..i], signal)
      {
        assert activePatterns[..i + 1][..i] == activePatterns[..i];
        if !activePatterns[i].active {
          continue;
        }
        if Matches(signal, activePatterns[i].conditions) {
          total := total + activePatterns[i].penalty;
        }
      }
      assert activePatterns[..|activePatterns|] == activePatterns;
    }

    method GetSizeReductionFactor(signal: Signal) returns (factor: real)
      ensures factor == Factor(activePatterns, signal)
    {
      factor := 1.0;
      for i := 0 to |activePatterns|
        invariant factor == Factor(activePatterns[..i], signal)
      {
        assert activePatterns[..i + 1][..i] == activePatterns[..i];
        if !activePatterns[i].active {
          continue;
        }
        if Matches(signal, activePatterns[i].conditions) {
          factor := factor * activePatterns[i].size;
        }
      }
      assert activePatterns[..|activePatterns|] == activePatterns;
    }
  }

  lemma KeptOnDrop(cache: seq<Pattern>, id: nat)
    ensures forall p :: p in cache && p.id != id ==> p in Without(cache, id)
  {
    if |cache| > 0 {
      KeptOnDrop(cache[..|cache| - 1], id);
    }
  }

  lemma KeptOnReplace(cache: seq<Pattern>, q: Pattern)
    ensures forall p :: p in cache && p.id != q.id ==> p in Replaced(cache, q)
  {
    forall p | p in cache && p.id != q.id ensures p in Replaced(cache, q) {
      var k :| 0 <= k < |cache| && cache[k] == p;
      assert Replaced(cache, q)[k] == p;
    }
  }

  lemma HoldsStep(ps: seq<Pattern>, k: nat)
    requires k < |ps|
    ensures forall i :: Holds(ps[..k + 1], i) <==> Holds(ps[..k], i) || i == ps[k].id
  {
    forall i: nat ensures Holds(ps[..k + 1], i) <==> Holds(ps[..k], i) || i == ps[k].id {
      assert ps[..k + 1][k].id == ps[k].id;
      assert forall j :: 0 <= j < k ==> ps[..k][j] == ps[..k + 1][j];
    }
  }
}
