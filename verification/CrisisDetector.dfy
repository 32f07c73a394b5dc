/** News crises: raised by three severe articles in ten minutes, resolved by recovery, escalated by persistence. */
module CrisisDetector {
  import opened Core
  import opened SlidingWindow

  /** Clock ticks are microseconds. */
  const MINUTE := 60_000_000
  const THRESHOLD := 3
  const SEVERE := -0.7
  const RECOVERY := -0.3
  const WINDOW := 10 * MINUTE
  const PERSISTENCE := 30 * MINUTE

  datatype Key = Region(name: string) | AssetClass(name: string) | Global

  /** A name as written and in lower case; folding case is the language's. */
  datatype Name = Name(text: string, folded: string)

  datatype Article = Article(high: bool, sentiment: real, region: Option<Name>, assetClass: Option<Name>, received: int)

  function Received(a: Article): int { a.received }

  /** An empty name counts as absent. */
  predicate Given(name: Option<Name>) { name.Some? && name.value.text != "" }

  function OrGlobal(area: string): string { if area == "" then "global" else area }

  /** The region an article is followed under: as written, where crises are labelled by folded names. */
  function RegionOf(a: Article): string { if a.region.Some? then OrGlobal(a.region.value.text) else "global" }

  /** The groups an article belongs to. */
  function GroupingKeys(a: Article): seq<Key> {
    var byRegion := if Given(a.region) then [Region(a.region.value.folded)] else [];
    var byClass := if Given(a.assetClass) then [AssetClass(a.assetClass.value.folded)] else [];
    if byRegion + byClass == [] then [Global] else byRegion + byClass
  }

  /** An article shares a group with another exactly when their folded regions or asset classes agree, or neither has any. */
  lemma GroupsAreShared(a: Article, b: Article)
    ensures (exists key :: key in GroupingKeys(a) && key in GroupingKeys(b))
       <==> || (Given(a.region) && Given(b.region) && a.region.value.folded == b.region.value.folded)
            || (Given(a.assetClass) && Given(b.assetClass) && a.assetClass.value.folded == b.assetClass.value.folded)
            || !(Given(a.region) || Given(a.assetClass) || Given(b.region) || Given(b.assetClass))
  {
    KeyIsOf(a);
    KeyIsOf(b);
    if Given(a.region) && Given(b.region) && a.region.value.folded == b.region.value.folded {
      assert Region(a.region.value.folded) in GroupingKeys(a) && Region(a.region.value.folded) in GroupingKeys(b);
    } else if Given(a.assetClass) && Given(b.assetClass) && a.assetClass.value.folded == b.assetClass.value.folded {
      assert AssetClass(a.assetClass.value.folded) in GroupingKeys(a) && AssetClass(a.assetClass.value.folded) in GroupingKeys(b);
    } else if !(Given(a.region) || Given(a.assetClass) || Given(b.region) || Given(b.assetClass)) {
      assert Global in GroupingKeys(a) && Global in GroupingKeys(b);
    }
  }

  lemma KeyIsOf(a: Article)
    ensures Global in GroupingKeys(a) <==> !Given(a.region) && !Given(a.assetClass)
    ensures forall name :: Region(name) in GroupingKeys(a) <==> Given(a.region) && name == a.region.value.folded
    ensures forall name :: AssetClass(name) in GroupingKeys(a) <==> Given(a.assetClass) && name == a.assetClass.value.folded
  {
  }

  function AreaOf(key: Key): string { if key.Global? then "global" else key.name }

  predicate Qualifies(a: Article) { a.high && a.sentiment <= SEVERE }

  /** What the documentation asks of an article: high impact and a sentiment below -0.7. */
  predicate Documented(a: Article) { a.high && a.sentiment < SEVERE }

  datatype Crisis = Crisis(area: string, triggers: seq<Article>, started: int, active: bool, escalated: bool)

  /** Crises are numbered in the order they are raised, and never forgotten. */
  datatype State = State(recent: seq<Article>, crises: seq<Crisis>, keys: map<Key, nat>, tracked: map<nat, seq<real>>)

  const EMPTY := State([], [], map[], map[])

  // ----- Following active crises -----

  predicate Relevant(c: Crisis, a: Article) {
    OrGlobal(c.area) == RegionOf(a) || OrGlobal(c.area) == "global" || RegionOf(a) == "global"
  }

  predicate Recovered(sentiments: seq<real>) { exists i :: 0 <= i < |sentiments| && sentiments[i] > RECOVERY }

  function Resolve(st: State, id: nat): State
    requires id < |st.crises|
  {
    st.(crises := st.crises[id := st.crises[id].(active := false)],
        keys := map k | k in st.keys && st.keys[k] != id :: st.keys[k],
        tracked := st.tracked - {id})
  }

  function Escalate(st: State, id: nat): State
    requires id < |st.crises|
  {
    st.(crises := st.crises[id := st.crises[id].(escalated := true)])
  }

  function Track(st: State, id: nat, sentiment: real): State {
    if id in st.tracked then st.(tracked := st.tracked[id := st.tracked[id] + [sentiment]]) else st
  }

  function TrackedFor(st: State, id: nat): seq<real> { if id in st.tracked then st.tracked[id] else [] }

  function CheckOne(st: State, id: nat, a: Article): State
    requires id < |st.crises|
  {
    var c := st.crises[id];
    if !c.active || c.escalated || !Relevant(c, a) then st
    else
      var seen := Track(st, id, a.sentiment);
      if a.sentiment > RECOVERY then Resolve(seen, id)
      else if a.received - c.started >= PERSISTENCE && !Recovered(TrackedFor(seen, id)) then Escalate(seen, id)
      else seen
  }

  function CheckFirst(st: State, a: Article, n: nat): (r: State)
    requires n <= |st.crises|
    ensures |r.crises| == |st.crises| && r.recent == st.recent
    ensures forall i :: n <= i < |st.crises| ==> r.crises[i] == st.crises[i]
  {
    if n == 0 then st else CheckOne(CheckFirst(st, a, n - 1), n - 1, a)
  }

  // ----- Raising crises -----

  function DropOld(xs: seq<Article>, cutoff: int): seq<Article> {
    if |xs| > 0 && xs[0].received < cutoff then DropOld(xs[1..], cutoff) else xs
  }

  function ForKey(articles: seq<Article>, key: Key): seq<Article> {
    if |articles| == 0 then []
    else ForKey(articles[..|articles| - 1], key)
         + if key in GroupingKeys(articles[|articles| - 1]) then [articles[|articles| - 1]] else []
  }

  predicate Ripe(st: State, window: seq<Article>, key: Key) {
    key !in st.keys && |ForKey(window, key)| >= THRESHOLD
  }

  function Raise(st: State, window: seq<Article>, key: Key, now: int): State {
    st.(crises := st.crises + [Crisis(AreaOf(key), ForKey(window, key), now, true, false)],
        keys := st.keys[key := |st.crises|], tracked := st.tracked[|st.crises| := []])
  }

  /** The first ripe key raises a crisis. */
  function RaiseFirst(st: State, window: seq<Article>, keys: seq<Key>, now: int): State {
    if |keys| == 0 then st
    else if Ripe(st, window, keys[0]) then Raise(st, window, keys[0], now)
    else RaiseFirst(st, window, keys[1..], now)
  }

  /** A qualifying article joins the recent ones, from which the old are pruned. */
  function Collected(recent: seq<Article>, a: Article, prune: int): seq<Article> {
    if Qualifies(a) then DropOld(recent + [a], prune - WINDOW) else recent
  }

  function SelectWindow(recent: seq<Article>, select: int): seq<Article> { Since(recent, Received, select - WINDOW) }

  function RaiseFor(st: State, a: Article, prune: int, select: int, raised: int): State {
    if !Qualifies(a) then st
    else
      var pruned := st.(recent := Collected(st.recent, a, prune));
      RaiseFirst(pruned, SelectWindow(pruned.recent, select), GroupingKeys(a), raised)
  }

  /** Three clock readings: pruning, selecting the window, raising. */
  function Evaluate(st: State, a: Article, prune: int, select: int, raised: int): State {
    RaiseFor(CheckFirst(st, a, |st.crises|), a, prune, select, raised)
  }

  /** A manual persistence check; `given` overrides the tracked sentiments. */
  function CheckPersistence(st: State, id: nat, given: Option<seq<real>>, now: int): State {
    if !Overdue(st, id, now) then st
    else if Recovered(if given.Some? then given.value else TrackedFor(st, id)) then Resolve(st, id)
    else Escalate(st, id)
  }

  predicate Overdue(st: State, id: nat, now: int) {
    id < |st.crises| && st.crises[id].active && now - st.crises[id].started >= PERSISTENCE
  }

  datatype Step =
    | Arrived(a: Article, prune: int, select: int, raised: int)
    | Persistence(id: nat, given: Option<seq<real>>, now: int)
    | Resolved(id: nat)

  function Apply(st: State, s: Step): State {
    match s
    case Arrived(a, prune, select, raised) => Evaluate(st, a, prune, select, raised)
    case Persistence(id, given, now) => CheckPersistence(st, id, given, now)
    case Resolved(id) => if id < |st.crises| then Resolve(st, id) else st
  }

  function Run(steps: seq<Step>): State {
    if |steps| == 0 then EMPTY else Apply(Run(steps[..|steps| - 1]), steps[|steps| - 1])
  }

  lemma RunStep(steps: seq<Step>, s: Step)
    ensures Run(steps + [s]) == Apply(Run(steps), s)
  {
    assert (steps + [s])[..|steps|] == steps;
  }

  // ----- Keys and crises are in bijection; tracked sentiments show no recovery -----

  predicate Active(st: State, id: int) { 0 <= id < |st.crises| && st.crises[id].active }

  ghost predicate Keyed(st: State, id: int) { exists k :: k in st.keys && st.keys[k] == id }

  ghost predicate KeysMatchCrises(st: State) {
    && (forall k :: k in st.keys ==> Active(st, st.keys[k]))
    && (forall k, k' :: k in st.keys && k' in st.keys && st.keys[k] == st.keys[k'] ==> k == k')
    && (forall id :: Active(st, id) ==> Keyed(st, id))
  }

  ghost predicate TracksUnrecovered(st: State) {
    && (forall id :: id in st.tracked <==> Active(st, id))
    && (forall id :: id in st.tracked ==> !Recovered(st.tracked[id]))
  }

  ghost predicate Consistent(st: State) { KeysMatchCrises(st) && TracksUnrecovered(st) }

  lemma ResolveKeepsConsistent(st: State, id: nat) returns (r: State)
    requires Consistent(st) && id < |st.crises|
    ensures r == Resolve(st, id)
    ensures Consistent(r)
  {
    r := Resolve(st, id);
    assert forall i :: Active(r, i) <==> Active(st, i) && i != id;
    forall i | Active(r, i) ensures Keyed(r, i) {
      assert Keyed(st, i);
      var k :| k in st.keys && st.keys[k] == i;
      assert k in r.keys && r.keys[k] == i;
    }
  }

  lemma EscalateKeepsConsistent(st: State, id: nat) returns (r: State)
    requires Consistent(st) && id < |st.crises|
    ensures r == Escalate(st, id)
    ensures Consistent(r)
  {
    r := Escalate(st, id);
    assert forall i :: Active(r, i) <==> Active(st, i);
    forall i | Active(r, i) ensures Keyed(r, i) {
      assert Keyed(st, i);
      var k :| k in st.keys && st.keys[k] == i;
      assert k in r.keys && r.keys[k] == i;
    }
  }

  lemma TrackKeepsConsistent(st: State, id: nat, sentiment: real) returns (r: State)
    requires Consistent(st) && sentiment <= RECOVERY
    ensures r == Track(st, id, sentiment)
    ensures Consistent(r)
  {
    r := Track(st, id, sentiment);
    assert forall i :: Active(r, i) <==> Active(st, i);
    forall i | Active(r, i) ensures Keyed(r, i) {
      assert Keyed(st, i);
      var k :| k in st.keys && st.keys[k] == i;
      assert k in r.keys && r.keys[k] == i;
    }
    forall i | i in r.tracked ensures !Recovered(r.tracked[i]) {
      assert !Recovered(st.tracked[i]);
    }
  }

  lemma CheckKeepsConsistent(st: State, id: nat, a: Article) returns (r: State)
    requires Consistent(st) && id < |st.crises|
    ensures r == CheckOne(st, id, a)
    ensures Consistent(r)
  {
    var c := st.crises[id];
    r := st;
    if c.active && !c.escalated && Relevant(c, a) {
      if a.sentiment > RECOVERY {
        assert Resolve(Track(st, id, a.sentiment), id) == Resolve(st, id);
        r := ResolveKeepsConsistent(st, id);
      } else {
        r := TrackKeepsConsistent(st, id, a.sentiment);
        if a.received - c.started >= PERSISTENCE && !Recovered(TrackedFor(r, id)) {
          r := EscalateKeepsConsistent(r, id);
        }
      }
    }
  }

  lemma RaiseKeepsConsistent(st: State, window: seq<Article>, key: Key, now: int)
    requires Consistent(st) && key !in st.keys
    ensures Consistent(Raise(st, window, key, now))
  {
    RaiseKeepsKeys(st, window, key, now);
    RaiseKeepsTracking(st, window, key, now);
  }

  lemma RaiseKeepsTracking(st: State, window: seq<Article>, key: Key, now: int)
    requires Consistent(st)
    ensures TracksUnrecovered(Raise(st, window, key, now))
  {
    var r := Raise(st, window, key, now);
    assert forall i :: Active(r, i) <==> Active(st, i) || i == |st.crises|;
    forall i | i in r.tracked ensures !Recovered(r.tracked[i]) {
      assert i != |st.crises| ==> !Recovered(st.tracked[i]);
    }
  }

  lemma RaiseKeepsKeys(st: State, window: seq<Article>, key: Key, now: int)
    requires KeysMatchCrises(st) && key !in st.keys
    ensures KeysMatchCrises(Raise(st, window, key, now))
  {
    var r := Raise(st, window, key, now);
    assert forall i :: Active(r, i) <==> Active(st, i) || i == |st.crises|;
    forall i | Active(r, i) ensures Keyed(r, i) {
      if i == |st.crises| {
        assert key in r.keys && r.keys[key] == i;
      } else {
        assert Keyed(st, i);
        var k :| k in st.keys && st.keys[k] == i;
        assert k in r.keys && r.keys[k] == i;
      }
    }
  }

  lemma {:induction false} CheckFirstKeepsConsistent(st: State, a: Article, n: nat) returns (r: State)
    requires Consistent(st) && n <= |st.crises|
    ensures r == CheckFirst(st, a, n)
    ensures Consistent(r)
  {
    if n == 0 {
      r := st;
    } else {
      var before := CheckFirstKeepsConsistent(st, a, n - 1);
      r := CheckKeepsConsistent(before, n - 1, a);
    }
  }

  lemma {:induction false} RaiseFirstKeepsConsistent(st: State, window: seq<Article>, keys: seq<Key>, now: int)
    returns (r: State)
    requires Consistent(st)
    ensures r == RaiseFirst(st, window, keys, now)
    ensures Consistent(r)
  {
    if |keys| == 0 {
      r := st;
    } else if Ripe(st, window, keys[0]) {
      RaiseKeepsConsistent(st, window, keys[0], now);
      r := Raise(st, window, keys[0], now);
    } else {
      r := RaiseFirstKeepsConsistent(st, window, keys[1..], now);
    }
  }

  lemma PruneKeepsConsistent(st: State, recent: seq<Article>) returns (r: State)
    requires Consistent(st)
    ensures r == st.(recent := recent)
    ensures Consistent(r)
  {
    r := st.(recent := recent);
    assert forall i :: Active(r, i) <==> Active(st, i);
    assert forall i :: Keyed(st, i) ==> Keyed(r, i);
  }

  lemma EvaluateKeepsConsistent(st: State, a: Article, prune: int, select: int, raised: int) returns (r: State)
    requires Consistent(st)
    ensures r == Evaluate(st, a, prune, select, raised)
    ensures Consistent(r)
  {
    r := CheckFirstKeepsConsistent(st, a, |st.crises|);
    if Qualifies(a) {
      r := PruneKeepsConsistent(r, Collected(r.recent, a, prune));
      r := RaiseFirstKeepsConsistent(r, SelectWindow(r.recent, select), GroupingKeys(a), raised);
    }
  }

  lemma StepKeepsConsistent(st: State, s: Step) returns (next: State)
    requires Consistent(st)
    ensures next == Apply(st, s)
    ensures Consistent(next)
  {
    next := st;
    match s
    case Arrived(a, prune, select, raised) => next := EvaluateKeepsConsistent(st, a, prune, select, raised);
    case Persistence(id, given, now) =>
      if Overdue(st, id, now) {
        if Recovered(if given.Some? then given.value else TrackedFor(st, id)) {
          next := ResolveKeepsConsistent(st, id);
        } else {
          next := EscalateKeepsConsistent(st, id);
        }
      }
    case Resolved(id) =>
      if id < |st.crises| {
        next := ResolveKeepsConsistent(st, id);
      }
  }

  /** Every run keeps grouping keys and active crises in bijection, and tracks only unrecovered sentiments. */
  lemma {:induction false} EveryRunIsConsistent(steps: seq<Step>) returns (st: State)
    ensures st == Run(steps)
    ensures Consistent(st)
  {
    if |steps| == 0 {
      st := EMPTY;
    } else {
      var before := EveryRunIsConsistent(steps[..|steps| - 1]);
      st := StepKeepsConsistent(before, steps[|steps| - 1]);
    }
  }

  /** So a persistence check on tracked data never finds a recovery: it escalates every overdue crisis. */
  lemma TrackedDataNeverRecovers(steps: seq<Step>, id: nat, now: int)
    ensures !Recovered(TrackedFor(Run(steps), id))
    ensures Overdue(Run(steps), id, now) ==> CheckPersistence(Run(steps), id, None, now) == Escalate(Run(steps), id)
  {
    var st := EveryRunIsConsistent(steps);
  }

  // ----- The pruned window agrees with the full history -----

  function Joined(articles: seq<Article>, s: Step): seq<Article> {
    if s.Arrived? && Qualifies(s.a) then articles + [s.a] else articles
  }

  /** Every qualifying article of a run, in order of arrival. */
  function Qualifying(steps: seq<Step>): seq<Article> {
    if |steps| == 0 then []
    else
      var s := steps[|steps| - 1];
      Joined(Qualifying(steps[..|steps| - 1]), s)
  }

  predicate ReadsInOrder(s: Step, earliest: int) { s.Arrived? ==> earliest <= s.prune <= s.select <= s.raised }

  predicate Precedes(s: Step, t: Step) { s.Arrived? && t.Arrived? ==> s.raised <= t.prune }

  /** The clock readings of article steps never run back, and start at `earliest`. */
  predicate Timed(steps: seq<Step>, earliest: int) {
    && (forall i :: 0 <= i < |steps| ==> ReadsInOrder(steps[i], earliest))
    && (forall i, j :: 0 <= i < j < |steps| ==> Precedes(steps[i], steps[j]))
  }

  /** The last reading at which articles were pruned. */
  function LastPrune(steps: seq<Step>, earliest: int): int {
    if |steps| == 0 then earliest
    else
      var s := steps[|steps| - 1];
      if s.Arrived? && Qualifies(s.a) then s.prune else LastPrune(steps[..|steps| - 1], earliest)
  }

  lemma {:induction false} LastPruneIsPast(steps: seq<Step>, earliest: int, now: int)
    requires Timed(steps, earliest) && earliest <= now
    requires forall i :: 0 <= i < |steps| && steps[i].Arrived? ==> steps[i].prune <= now
    ensures LastPrune(steps, earliest) <= now
  {
    if |steps| > 0 {
      LastPruneIsPast(steps[..|steps| - 1], earliest, now);
    }
  }

  /** Popping old articles from the front loses none that a later window selects, in whatever order they came. */
  lemma {:induction false} DropOldKeeps(xs: seq<Article>, cutoff: int, from: int)
    requires cutoff <= from
    ensures Since(DropOld(xs, cutoff), Received, from) == Since(xs, Received, from)
  {
    if |xs| > 0 && xs[0].received < cutoff {
      DropOldKeeps(xs[1..], cutoff, from);
      assert xs == [xs[0]] + xs[1..];
      SinceConcat([xs[0]], xs[1..], Received, from);
      assert Since([xs[0]], Received, from) == [];
    }
  }

  lemma WindowStep(recent: seq<Article>, all: seq<Article>, s: Step, from: int)
    requires Since(recent, Received, from) == Since(all, Received, from)
    requires s.Arrived? && Qualifies(s.a) ==> s.prune - WINDOW <= from
    ensures Since(Kept(recent, s), Received, from) == Since(Joined(all, s), Received, from)
  {
    if s.Arrived? && Qualifies(s.a) {
      DropOldKeeps(recent + [s.a], s.prune - WINDOW, from);
      SinceAppend(recent, s.a, Received, from);
      SinceAppend(all, s.a, Received, from);
    }
  }

  /** The first ripe key, if any, is the one raised. */
  lemma {:induction false} RaisesFirstRipe(st: State, window: seq<Article>, keys: seq<Key>, now: int)
    returns (r: State, key: Option<Key>)
    ensures r == RaiseFirst(st, window, keys, now) && r.recent == st.recent
    ensures key.None? ==> r == st && forall k :: k in keys ==> !Ripe(st, window, k)
    ensures key.Some? ==> key.value in keys && Ripe(st, window, key.value) && r == Raise(st, window, key.value, now)
  {
    r, key := st, None;
    if |keys| > 0 {
      if Ripe(st, window, keys[0]) {
        r, key := Raise(st, window, keys[0], now), Some(keys[0]);
      } else {
        r, key := RaisesFirstRipe(st, window, keys[1..], now);
        assert forall k :: k in keys ==> k == keys[0] || k in keys[1..];
      }
    }
  }

  function Newly(window: seq<Article>, key: Key, now: int): Crisis {
    Crisis(AreaOf(key), ForKey(window, key), now, true, false)
  }

  /** What the raising half of an evaluation does to the articles and the list of crises. */
  lemma RaisesOne(st: State, a: Article, prune: int, select: int, raised: int, window: seq<Article>)
    returns (r: State, key: Option<Key>)
    requires Qualifies(a) ==> window == SelectWindow(Collected(st.recent, a, prune), select)
    ensures r == RaiseFor(st, a, prune, select, raised) && r.recent == Collected(st.recent, a, prune)
    ensures key.None? ==> r.crises == st.crises
    ensures key.None? && Qualifies(a) ==> forall k :: k in GroupingKeys(a) ==> !Ripe(st, window, k)
    ensures key.Some? ==> Qualifies(a) && key.value in GroupingKeys(a) && Ripe(st, window, key.value)
    ensures key.Some? ==> r.crises == st.crises + [Newly(window, key.value, raised)]
  {
    r, key := st, None;
    if Qualifies(a) {
      var pruned := st.(recent := Collected(st.recent, a, prune));
      r, key := RaisesFirstRipe(pruned, window, GroupingKeys(a), raised);
      assert forall k :: Ripe(pruned, window, k) == Ripe(st, window, k);
    }
  }

  lemma StepRaises(st: State, s: Step) returns (next: State, key: Option<Key>)
    requires s.Arrived?
    ensures next == Apply(st, s) && next.recent == Kept(st.recent, s)
    ensures var checked := CheckFirst(st, s.a, |st.crises|);
            checked.crises == next.crises || exists c :: next.crises == checked.crises + [c]
  {
    var checked := CheckFirst(st, s.a, |st.crises|);
    next, key := RaisesOne(checked, s.a, s.prune, s.select, s.raised, SelectWindow(Collected(st.recent, s.a, s.prune), s.select));
  }

  function Kept(recent: seq<Article>, s: Step): seq<Article> {
    if s.Arrived? then Collected(recent, s.a, s.prune) else recent
  }

  /** The kept articles of a run. */
  function Recent(steps: seq<Step>): seq<Article> {
    if |steps| == 0 then [] else Kept(Recent(steps[..|steps| - 1]), steps[|steps| - 1])
  }

  lemma {:induction false} RecentIsKept(steps: seq<Step>)
    ensures Run(steps).recent == Recent(steps)
  {
    if |steps| > 0 {
      var st, s := Run(steps[..|steps| - 1]), steps[|steps| - 1];
      RecentIsKept(steps[..|steps| - 1]);
      if s.Arrived? {
        var next, key := StepRaises(st, s);
      }
    }
  }

  lemma TimedStep(init: seq<Step>, s: Step, earliest: int)
    requires Timed(init + [s], earliest)
    ensures Timed(init, earliest)
    ensures s.Arrived? ==> LastPrune(init, earliest) <= s.prune <= s.select
  {
    var all := init + [s];
    assert all[|init|] == s && forall i :: 0 <= i < |init| ==> all[i] == init[i];
    if s.Arrived? {
      assert ReadsInOrder(all[|init|], earliest);
      forall i | 0 <= i < |init| && init[i].Arrived? ensures init[i].prune <= s.prune {
        assert ReadsInOrder(all[i], earliest) && Precedes(all[i], all[|init|]);
      }
      LastPruneIsPast(init, earliest, s.prune);
    }
  }

  lemma {:induction false} RecentIsHistory(steps: seq<Step>, earliest: int, from: int)
    requires Timed(steps, earliest) && LastPrune(steps, earliest) - WINDOW <= from
    ensures Since(Recent(steps), Received, from) == Since(Qualifying(steps), Received, from)
  {
    if |steps| > 0 {
      var init, s := steps[..|steps| - 1], steps[|steps| - 1];
      assert steps == init + [s];
      TimedStep(init, s, earliest);
      RecentIsHistory(init, earliest, from);
      WindowStep(Recent(init), Qualifying(init), s, from);
    }
  }

  /** Every window selected after the last pruning is the full history's, in whatever order the articles came. */
  lemma WindowIsHistory(steps: seq<Step>, earliest: int, from: int)
    requires Timed(steps, earliest) && LastPrune(steps, earliest) - WINDOW <= from
    ensures Since(Run(steps).recent, Received, from) == Since(Qualifying(steps), Received, from)
  {
    RecentIsKept(steps);
    RecentIsHistory(steps, earliest, from);
  }

  // ----- Every crisis was raised by its articles -----

  /** The window an article is judged in: the whole history's qualifying articles of the last ten minutes. */
  function WindowAt(steps: seq<Step>, s: Step): seq<Article>
    requires s.Arrived?
  {
    SelectWindow(Joined(Qualifying(steps), s), s.select)
  }

  /** An article raises a crisis exactly when it is severe and one of its keys, without an active crisis, has three
      qualifying articles in the full history's window; those articles are then the crisis's triggers. */
  lemma RaisedByThreeArticles(steps: seq<Step>, s: Step, earliest: int) returns (key: Option<Key>)
    requires s.Arrived? && Timed(steps + [s], earliest)
    ensures var checked := CheckFirst(Run(steps), s.a, |Run(steps).crises|);
            var next := Run(steps + [s]);
            && (key.Some? <==> Qualifies(s.a) && exists k :: k in GroupingKeys(s.a) && Ripe(checked, WindowAt(steps, s), k))
            && (key.Some? ==> && key.value in GroupingKeys(s.a) && Ripe(checked, WindowAt(steps, s), key.value)
                              && next.crises == checked.crises + [Newly(WindowAt(steps, s), key.value, s.raised)])
            && (key.None? ==> next.crises == checked.crises)
  {
    RunStep(steps, s);
    RecentIsKept(steps);
    SelectsHistory(steps, s, earliest);
    var checked, next := CheckFirst(Run(steps), s.a, |Run(steps).crises|), EMPTY;
    next, key := RaisesOne(checked, s.a, s.prune, s.select, s.raised, WindowAt(steps, s));
  }

  lemma SelectsHistory(steps: seq<Step>, s: Step, earliest: int)
    requires s.Arrived? && Timed(steps + [s], earliest)
    ensures SelectWindow(Kept(Recent(steps), s), s.select) == WindowAt(steps, s)
  {
    TimedStep(steps, s, earliest);
    RecentIsHistory(steps, earliest, s.select - WINDOW);
    WindowStep(Recent(steps), Qualifying(steps), s, s.select - WINDOW);
  }

  lemma {:induction false} SinceSelects(xs: seq<Article>, from: int, a: Article)
    requires a in Since(xs, Received, from)
    ensures a in xs && a.received >= from
  {
    if a in Since(xs[..|xs| - 1], Received, from) {
      SinceSelects(xs[..|xs| - 1], from, a);
    }
  }

  lemma {:induction false} ForKeySelects(xs: seq<Article>, key: Key, a: Article)
    requires a in ForKey(xs, key)
    ensures a in xs && key in GroupingKeys(a)
  {
    if a in ForKey(xs[..|xs| - 1], key) {
      ForKeySelects(xs[..|xs| - 1], key, a);
    }
  }

  lemma {:induction false} QualifyingQualify(steps: seq<Step>, a: Article)
    requires a in Qualifying(steps)
    ensures Qualifies(a)
  {
    if a in Qualifying(steps[..|steps| - 1]) {
      QualifyingQualify(steps[..|steps| - 1], a);
    }
  }

  /** The articles of a window are severe, carry its key, and arrived no more than ten minutes before it was selected. */
  lemma WindowMembers(steps: seq<Step>, s: Step, key: Key, a: Article)
    requires s.Arrived? && a in ForKey(WindowAt(steps, s), key)
    ensures a in Qualifying(steps + [s]) && Qualifies(a) && key in GroupingKeys(a) && s.select - a.received <= WINDOW
  {
    ForKeySelects(WindowAt(steps, s), key, a);
    SinceSelects(Qualifying(steps + [s]), s.select - WINDOW, a);
    QualifyingQualify(steps + [s], a);
  }

  /** A crisis was raised at step `j` by the three or more articles of that moment's window that carry `key`. */
  predicate RaisedAt(c: Crisis, steps: seq<Step>, j: int, key: Key) {
    && 0 <= j < |steps| && steps[j].Arrived? && Qualifies(steps[j].a) && key in GroupingKeys(steps[j].a)
    && c.area == AreaOf(key) && c.started == steps[j].raised
    && |c.triggers| >= THRESHOLD && c.triggers == ForKey(WindowAt(steps[..j], steps[j]), key)
  }

  predicate SameOrigin(c: Crisis, d: Crisis) { c.area == d.area && c.triggers == d.triggers && c.started == d.started }

  lemma {:induction false} CheckingKeepsOrigin(st: State, a: Article, n: nat, id: nat)
    requires n <= |st.crises| && id < |st.crises|
    ensures SameOrigin(CheckFirst(st, a, n).crises[id], st.crises[id])
  {
    if n > 0 {
      CheckingKeepsOrigin(st, a, n - 1, id);
    }
  }

  /** Every crisis of every run was raised by at least three severe articles that share its key in one window. */
  lemma {:induction false} EveryCrisisWasRaised(steps: seq<Step>, earliest: int, id: nat) returns (j: nat, key: Key)
    requires Timed(steps, earliest) && id < |Run(steps).crises|
    ensures RaisedAt(Run(steps).crises[id], steps, j, key)
  {
    var init, s := steps[..|steps| - 1], steps[|steps| - 1];
    assert steps == init + [s];
    if id < |Run(init).crises| {
      j, key := EveryCrisisWasRaised(init, earliest, id);
      StepKeepsOrigin(Run(init), s, id);
      assert steps[..j] == init[..j];
    } else {
      j := |init|;
      key := NewCrisisWasRaised(init, s, earliest, id);
    }
  }

  lemma NewCrisisWasRaised(steps: seq<Step>, s: Step, earliest: int, id: nat) returns (key: Key)
    requires Timed(steps + [s], earliest) && |Run(steps).crises| <= id < |Run(steps + [s]).crises|
    ensures RaisedAt(Run(steps + [s]).crises[id], steps + [s], |steps|, key)
  {
    var all := steps + [s];
    assert all[..|steps|] == steps;
    if s.Arrived? {
      var raised := RaisedByThreeArticles(steps, s, earliest);
      key := raised.value;
    }
  }

  lemma StepKeepsOrigin(st: State, s: Step, id: nat)
    requires id < |st.crises|
    ensures id < |Apply(st, s).crises| && SameOrigin(Apply(st, s).crises[id], st.crises[id])
  {
    if s.Arrived? {
      CheckingKeepsOrigin(st, s.a, |st.crises|, id);
      var next, key := StepRaises(st, s);
    }
  }

  // ----- The threshold itself -----

  /** Code and documentation differ on the articles exactly at the threshold. */
  lemma ThresholdQualifies(a: Article)
    ensures Qualifies(a) != Documented(a) <==> a.high && a.sentiment == SEVERE
  {
  }

  /** A crisis has only documented triggers exactly when none of them is at the threshold. */
  lemma TriggersAreDocumented(steps: seq<Step>, earliest: int, id: nat)
    requires Timed(steps, earliest) && id < |Run(steps).crises|
    ensures var triggers := Run(steps).crises[id].triggers;
            (forall i :: 0 <= i < |triggers| ==> Documented(triggers[i]))
            <==> (forall i :: 0 <= i < |triggers| ==> triggers[i].sentiment != SEVERE)
  {
    var j, key := EveryCrisisWasRaised(steps, earliest, id);
    var triggers := Run(steps).crises[id].triggers;
    forall i | 0 <= i < |triggers| ensures Qualifies(triggers[i]) {
      WindowMembers(steps[..j], steps[j], key, triggers[i]);
    }
  }

  // ----- The fate of a crisis on the article path -----

  function Judge(c: Crisis, a: Article): Crisis {
    if !c.active || c.escalated || !Relevant(c, a) then c
    else if a.sentiment > RECOVERY then c.(active := false)
    else if a.received - c.started >= PERSISTENCE then c.(escalated := true)
    else c
  }

  function Judged(c: Crisis, articles: seq<Article>): Crisis {
    if |articles| == 0 then c else Judge(Judged(c, articles[..|articles| - 1]), articles[|articles| - 1])
  }

  predicate Decides(c: Crisis, a: Article) {
    Relevant(c, a) && (a.sentiment > RECOVERY || a.received - c.started >= PERSISTENCE)
  }

  function FirstDecision(c: Crisis, articles: seq<Article>): (k: nat)
    ensures k <= |articles|
    ensures forall i :: 0 <= i < k ==> !Decides(c, articles[i])
    ensures k < |articles| ==> Decides(c, articles[k])
  {
    if |articles| == 0 then 0
    else
      var k := FirstDecision(c, articles[..|articles| - 1]);
      if k < |articles| - 1 || Decides(c, articles[|articles| - 1]) then k else |articles|
  }

  /** The first relevant article that recovers, or that comes half an hour or more after the start, decides the crisis:
      recovery resolves it, anything else escalates it, and no later article changes that. */
  lemma {:induction false} FirstDecisionIsFinal(c: Crisis, articles: seq<Article>)
    requires c.active && !c.escalated
    ensures var k := FirstDecision(c, articles);
            Judged(c, articles) == if k == |articles| then c
                                   else if articles[k].sentiment > RECOVERY then c.(active := false)
                                   else c.(escalated := true)
  {
    if |articles| > 0 {
      FirstDecisionIsFinal(c, articles[..|articles| - 1]);
    }
  }

  /** No tracked sentiment has recovered. */
  predicate Unrecovered(st: State) { forall id :: id in st.tracked ==> !Recovered(st.tracked[id]) }

  lemma TrackKeepsUnrecovered(st: State, id: nat, sentiment: real)
    requires Unrecovered(st) && sentiment <= RECOVERY
    ensures Unrecovered(Track(st, id, sentiment))
  {
    var r := Track(st, id, sentiment);
    forall i | i in r.tracked ensures !Recovered(r.tracked[i]) {
      assert !Recovered(st.tracked[i]);
    }
  }

  /** So an article judges a crisis without a look at what was tracked before it. */
  lemma CheckOneJudges(st: State, id: nat, a: Article) returns (r: State)
    requires Unrecovered(st) && id < |st.crises|
    ensures r == CheckOne(st, id, a) && Unrecovered(r)
    ensures r.crises == st.crises[id := Judge(st.crises[id], a)]
  {
    r := CheckOne(st, id, a);
    var c := st.crises[id];
    if c.active && !c.escalated && Relevant(c, a) && a.sentiment <= RECOVERY {
      TrackKeepsUnrecovered(st, id, a.sentiment);
    }
  }

  lemma {:induction false} CheckFirstJudges(st: State, a: Article, n: nat, id: nat) returns (r: State)
    requires Unrecovered(st) && n <= |st.crises| && id < |st.crises|
    ensures r == CheckFirst(st, a, n) && Unrecovered(r)
    ensures r.crises[id] == if id < n then Judge(st.crises[id], a) else st.crises[id]
  {
    if n == 0 {
      r := st;
    } else {
      var before := CheckFirstJudges(st, a, n - 1, id);
      r := CheckOneJudges(before, n - 1, a);
    }
  }

  lemma ArticleJudgesEveryCrisis(st: State, s: Step, id: nat)
    requires Consistent(st) && s.Arrived? && id < |st.crises|
    ensures id < |Apply(st, s).crises| && Apply(st, s).crises[id] == Judge(st.crises[id], s.a)
  {
    var checked := CheckFirstJudges(st, s.a, |st.crises|, id);
    var next, key := StepRaises(st, s);
  }

  function ArticlesOf(steps: seq<Step>): seq<Article>
    requires forall i :: 0 <= i < |steps| ==> steps[i].Arrived?
  {
    seq(|steps|, i requires 0 <= i < |steps| => steps[i].a)
  }

  /** However many other crises and articles there are, a crisis's fate depends on the articles after it alone. */
  lemma {:induction false} FateFollowsArticles(steps: seq<Step>, later: seq<Step>, id: nat)
    requires id < |Run(steps).crises| && forall i :: 0 <= i < |later| ==> later[i].Arrived?
    ensures id < |Run(steps + later).crises|
    ensures Run(steps + later).crises[id] == Judged(Run(steps).crises[id], ArticlesOf(later))
  {
    if |later| == 0 {
      assert steps + later == steps;
    } else {
      var init := later[..|later| - 1];
      FateFollowsArticles(steps, init, id);
      var st := EveryRunIsConsistent(steps + init);
      assert (steps + later)[..|steps + later| - 1] == steps + init;
      ArticleJudgesEveryCrisis(Run(steps + init), later[|later| - 1], id);
      assert ArticlesOf(later)[..|later| - 1] == ArticlesOf(init);
    }
  }

  predicate RecoversOrPersists(c: Crisis, a: Article) {
    a.sentiment > RECOVERY || a.received - c.started >= PERSISTENCE
  }

  /** A crisis keeps its region's folded name and is compared with names as written: articles of its own region settle it
      exactly when one of them recovers or comes late and the name is written in lower case. */
  lemma OwnRegionSettles(steps: seq<Step>, later: seq<Step>, id: nat, name: Name)
    requires id < |Run(steps).crises| && Run(steps).crises[id].area == name.folded
    requires OrGlobal(name.folded) != "global" && OrGlobal(name.text) != "global"
    requires forall i :: 0 <= i < |later| ==> later[i].Arrived? && later[i].a.region == Some(name)
    ensures id < |Run(steps + later).crises|
    ensures var c := Run(steps).crises[id];
            Run(steps + later).crises[id] != c
            <==> && c.active && !c.escalated && name.text == name.folded
                 && exists i :: 0 <= i < |later| && RecoversOrPersists(c, later[i].a)
  {
    var c, articles := Run(steps).crises[id], ArticlesOf(later);
    FateFollowsArticles(steps, later, id);
    assert forall i :: 0 <= i < |articles| ==> articles[i] == later[i].a && RegionOf(articles[i]) == name.text;
    if c.active && !c.escalated {
      FirstDecisionIsFinal(c, articles);
      var k := FirstDecision(c, articles);
      assert k < |articles| ==> Decides(c, articles[k]);
      assert forall i :: 0 <= i < |later| && name.text == name.folded && RecoversOrPersists(c, later[i].a) ==>
        Decides(c, articles[i]);
    } else {
      SettledIsFinal(c, articles);
    }
  }

  const EUROPE := Name("Europe", "europe")
  function News(sentiment: real): Article { Article(true, sentiment, Some(EUROPE), None, 0) }

  /** The same article on Europe, `n` times over. */
  function Copies(sentiment: real, n: nat): (articles: seq<Article>)
    ensures |articles| == n && forall i :: 0 <= i < n ==> articles[i] == News(sentiment)
  {
    if n == 0 then [] else Copies(sentiment, n - 1) + [News(sentiment)]
  }

  function Repeated(sentiment: real, n: nat): seq<Step> { seq(n, _ => Arrived(News(sentiment), 0, 0, 0)) }

  lemma {:induction false} CopiesAreSelected(sentiment: real, n: nat)
    ensures SelectWindow(Copies(sentiment, n), 0) == Copies(sentiment, n)
  {
    if n > 0 {
      CopiesAreSelected(sentiment, n - 1);
      SinceAppend(Copies(sentiment, n - 1), News(sentiment), Received, -WINDOW);
    }
  }

  lemma {:induction false} CopiesAreForKey(sentiment: real, n: nat)
    ensures ForKey(Copies(sentiment, n), Region("europe")) == Copies(sentiment, n)
  {
    if n > 0 {
      CopiesAreForKey(sentiment, n - 1);
      assert Copies(sentiment, n)[..n - 1] == Copies(sentiment, n - 1);
      assert Region("europe") in GroupingKeys(News(sentiment));
    }
  }

  function AfterCopies(sentiment: real, n: nat): State {
    if n < THRESHOLD then EMPTY.(recent := Copies(sentiment, n))
    else
      State(Copies(sentiment, n), [Crisis("europe", Copies(sentiment, n), 0, true, false)],
            map[Region("europe") := 0], map[0 := []])
  }

  lemma CopiesAreCollected(sentiment: real, n: nat)
    requires n > 0 && sentiment <= SEVERE
    ensures Collected(Copies(sentiment, n - 1), News(sentiment), 0) == Copies(sentiment, n)
  {
  }

  lemma CopyIsKeyed(sentiment: real)
    ensures GroupingKeys(News(sentiment)) == [Region("europe")]
  {
  }

  lemma RaisesOnly(st: State, window: seq<Article>, key: Key)
    ensures RaiseFirst(st, window, [key], 0) == if Ripe(st, window, key) then Raise(st, window, key, 0) else st
  {
  }

  lemma CopyRaises(sentiment: real, n: nat)
    requires 0 < n <= THRESHOLD && sentiment <= SEVERE
    ensures RaiseFor(AfterCopies(sentiment, n - 1), News(sentiment), 0, 0, 0) == AfterCopies(sentiment, n)
  {
    CopiesAreCollected(sentiment, n);
    CopiesAreSelected(sentiment, n);
    CopyIsKeyed(sentiment);
    CopiesAreForKey(sentiment, n);
    RaisesOnly(EMPTY.(recent := Copies(sentiment, n)), Copies(sentiment, n), Region("europe"));
  }

  /** The first two copies raise nothing, the third a crisis. */
  lemma {:induction false} RepeatedRaise(sentiment: real, n: nat)
    requires n <= THRESHOLD && sentiment <= SEVERE
    ensures Run(Repeated(sentiment, n)) == AfterCopies(sentiment, n)
  {
    if n > 0 {
      RepeatedRaise(sentiment, n - 1);
      assert Repeated(sentiment, n) == Repeated(sentiment, n - 1) + [Arrived(News(sentiment), 0, 0, 0)];
      RunStep(Repeated(sentiment, n - 1), Arrived(News(sentiment), 0, 0, 0));
      CopyRaises(sentiment, n);
    }
  }

  /** So three severe articles on "Europe" raise a crisis that no run of articles on "Europe" settles. */
  lemma EuropeIsMissed(sentiment: real, later: seq<Step>)
    requires sentiment <= SEVERE
    requires forall i :: 0 <= i < |later| ==> later[i].Arrived? && later[i].a.region == Some(EUROPE)
    ensures var raising := Repeated(sentiment, THRESHOLD);
            && |Run(raising).crises| == 1 && Run(raising).crises[0].active && !Run(raising).crises[0].escalated
            && |Run(raising + later).crises| > 0 && Run(raising + later).crises[0] == Run(raising).crises[0]
  {
    RepeatedRaise(sentiment, THRESHOLD);
    OwnRegionSettles(Repeated(sentiment, THRESHOLD), later, 0, EUROPE);
  }

  /** A run of three articles at the threshold raises a crisis without a documented trigger. */
  lemma ThresholdRaises()
    ensures var st := Run(Repeated(SEVERE, THRESHOLD));
            && |st.crises| == 1 && st.crises[0].active && |st.crises[0].triggers| == THRESHOLD
            && forall i :: 0 <= i < THRESHOLD ==> !Documented(st.crises[0].triggers[i])
  {
    RepeatedRaise(SEVERE, THRESHOLD);
  }

  lemma {:induction false} SettledIsFinal(c: Crisis, articles: seq<Article>)
    requires !c.active || c.escalated
    ensures Judged(c, articles) == c
  {
    if |articles| > 0 {
      SettledIsFinal(c, articles[..|articles| - 1]);
    }
  }

  // ----- The detector -----

  class Detector {
    var recent: seq<Article>
    var crises: seq<Crisis>
    var crisisKeys: map<Key, nat>
    var tracked: map<nat, seq<real>>

    ghost function Contents(): State
      reads this
    {
      State(recent, crises, crisisKeys, tracked)
    }

    constructor ()
      ensures Contents() == EMPTY
    {
      recent, crises, crisisKeys, tracked := [], [], map[], map[];
    }

    method ResolveCrisis(id: nat)
      modifies this
      ensures Contents() == Apply(old(Contents()), Resolved(id))
    {
      if id < |crises| {
        crises := crises[id := crises[id].(active := false)];
        crisisKeys := map k | k in crisisKeys && crisisKeys[k] != id :: crisisKeys[k];
        tracked := tracked - {id};
      }
    }

    method AnyRecovered(sentiments: seq<real>) returns (found: bool)
      ensures found == Recovered(sentiments)
    {
      for i := 0 to |sentiments|
        invariant forall j :: 0 <= j < i ==> sentiments[j] <= RECOVERY
      {
        if sentiments[i] > RECOVERY {
          return true;
        }
      }
      return false;
    }

    method CheckPersistence(id: nat, given: Option<seq<real>>, now: int) returns (persists: bool)
      modifies this
      ensures Contents() == Apply(old(Contents()), Persistence(id, given, now))
      ensures persists == (Overdue(old(Contents()), id, now)
                           && !Recovered(if given.Some? then given.value else TrackedFor(old(Contents()), id)))
    {
      if id >= |crises| || !crises[id].active {
        return false;
      }
      var elapsed := now - crises[id].started;
      if elapsed < PERSISTENCE {
        return false;
      }
      var recovered := AnyRecovered(if given.Some? then given.value else if id in tracked then tracked[id] else []);
      if recovered {
        ResolveCrisis(id);
        return false;
      }
      crises := crises[id := crises[id].(escalated := true)];
      return true;
    }

    /** One crisis against one article. */
    method CheckCrisis(id: nat, a: Article)
      requires id < |crises|
      modifies this
      ensures Contents() == CheckOne(old(Contents()), id, a)
    {
      var crisis := crises[id];
      if !crisis.active || crisis.escalated || !Relevant(crisis, a) {
        return;
      }
      if id in tracked {
        tracked := tracked[id := tracked[id] + [a.sentiment]];
      }
      assert Contents() == Track(old(Contents()), id, a.sentiment);
      if a.sentiment > RECOVERY {
        ResolveCrisis(id);
        return;
      }
      var elapsed := a.received - crisis.started;
      if elapsed >= PERSISTENCE {
        var recovered := AnyRecovered(if id in tracked then tracked[id] else []);
        if !recovered {
          crises := crises[id := crisis.(escalated := true)];
        }
      }
    }

    method CheckActiveCrises(a: Article)
      modifies this
      ensures Contents() == CheckFirst(old(Contents()), a, |old(crises)|)
    {
      for id := 0 to |crises|
        invariant |crises| == |old(crises)|
        invariant Contents() == CheckFirst(old(Contents()), a, id)
      {
        CheckCrisis(id, a);
      }
    }

    method Prune(cutoff: int)
      modifies this`recent
      ensures recent == DropOld(old(recent), cutoff)
    {
      while |recent| > 0 && recent[0].received < cutoff
        invariant DropOld(recent, cutoff) == DropOld(old(recent), cutoff)
        decreases |recent|
      {
        recent := recent[1..];
      }
    }

    method Matching(articles: seq<Article>, key: Key) returns (matching: seq<Article>)
      ensures matching == ForKey(articles, key)
    {
      matching := [];
      for i := 0 to |articles|
        invariant matching == ForKey(articles[..i], key)
      {
        assert articles[..i + 1][..i] == articles[..i];
        if key in GroupingKeys(articles[i]) {
          matching := matching + [articles[i]];
        }
      }
      assert articles[..|articles|] == articles;
    }

    /** The first ripe key raises a crisis. */
    method CheckConditions(window: seq<Article>, keys: seq<Key>, now: int) returns (raised: bool)
      modifies this
      ensures Contents() == RaiseFirst(old(Contents()), window, keys, now)
      ensures raised == (|crises| > |old(crises)|)
    {
      for i := 0 to |keys|
        invariant Contents() == old(Contents())
        invariant RaiseFirst(Contents(), window, keys[i..], now) == RaiseFirst(Contents(), window, keys, now)
      {
        assert keys[i..][0] == keys[i] && keys[i..][1..] == keys[i + 1..];
        if keys[i] !in crisisKeys {
          var matching := Matching(window, keys[i]);
          if |matching| >= THRESHOLD {
            crisisKeys, tracked := crisisKeys[keys[i] := |crises|], tracked[|crises| := []];
            crises := crises + [Crisis(AreaOf(keys[i]), matching, now, true, false)];
            return true;
          }
        }
      }
      return false;
    }

    method EvaluateArticle(a: Article, prune: int, select: int, raised: int) returns (alert: bool)
      modifies this
      ensures Contents() == Apply(old(Contents()), Arrived(a, prune, select, raised))
      ensures alert == (|crises| > |old(crises)|)
    {
      CheckActiveCrises(a);
      if !a.high || a.sentiment > SEVERE {
        return false;
      }
      recent := recent + [a];
      Prune(prune - WINDOW);
      var window := SelectWindow(recent, select);
      alert := CheckConditions(window, GroupingKeys(a), raised);
    }
  }
}
