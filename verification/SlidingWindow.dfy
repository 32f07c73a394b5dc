/** Pruned sliding windows agree with the full history, and admission through one bounds every window. */
module SlidingWindow {

  /** The entries at or after `from`, in order. Clock ticks are integers, so `t > c` is `t >= c + 1`. */
  function Since<T>(xs: seq<T>, at: T -> int, from: int): seq<T> {
    if |xs| == 0 then [] else Since(xs[..|xs| - 1], at, from) + if at(xs[|xs| - 1]) >= from then [xs[|xs| - 1]] else []
  }

  /** How many entries lie in the closed interval from `lo` to `hi`. */
  function CountIn<T>(xs: seq<T>, at: T -> int, lo: int, hi: int): nat {
    if |xs| == 0 then 0
    else CountIn(xs[..|xs| - 1], at, lo, hi) + if lo <= at(xs[|xs| - 1]) <= hi then 1 else 0
  }

  predicate NotAfter<T>(xs: seq<T>, at: T -> int, now: int) {
    forall i :: 0 <= i < |xs| ==> at(xs[i]) <= now
  }

  lemma NotAfterAppend<T>(xs: seq<T>, x: T, at: T -> int, clock: int, now: int)
    requires NotAfter(xs, at, clock) && clock <= now && at(x) <= now
    ensures NotAfter(xs + [x], at, now)
  {
  }

  lemma SinceAppend<T>(xs: seq<T>, x: T, at: T -> int, from: int)
    ensures Since(xs + [x], at, from) == Since(xs, at, from) + if at(x) >= from then [x] else []
  {
    assert (xs + [x])[..|xs|] == xs;
  }

  lemma CountInAppend<T>(xs: seq<T>, x: T, at: T -> int, lo: int, hi: int)
    ensures CountIn(xs + [x], at, lo, hi) == CountIn(xs, at, lo, hi) + if lo <= at(x) <= hi then 1 else 0
  {
    assert (xs + [x])[..|xs|] == xs;
  }

  lemma {:induction false} SinceConcat<T>(xs: seq<T>, ys: seq<T>, at: T -> int, from: int)
    ensures Since(xs + ys, at, from) == Since(xs, at, from) + Since(ys, at, from)
  {
    if |ys| == 0 {
      assert xs + ys == xs;
    } else {
      var n := |ys| - 1;
      SinceConcat(xs, ys[..n], at, from);
      assert xs + ys == (xs + ys[..n]) + [ys[n]];
      SinceAppend(xs + ys[..n], ys[n], at, from);
    }
  }

  /** Pruning twice is pruning once at the later cutoff. */
  lemma {:induction false} SinceSince<T>(xs: seq<T>, at: T -> int, from: int, later: int)
    requires from <= later
    ensures Since(Since(xs, at, from), at, later) == Since(xs, at, later)
  {
    if |xs| > 0 {
      var init, last := xs[..|xs| - 1], xs[|xs| - 1];
      SinceSince(init, at, from, later);
      SinceAppend(Since(init, at, from), last, at, later);
      assert Since(init, at, from) + [] == Since(init, at, from);
      assert Since(init, at, later) + [] == Since(init, at, later);
    }
  }

  /** A pruned list that gains an entry and is pruned again is the pruned full list. */
  lemma PruneAppend<T>(xs: seq<T>, x: T, at: T -> int, from: int, later: int)
    requires from <= later
    ensures Since(Since(xs, at, from) + [x], at, later) == Since(xs + [x], at, later)
  {
    SinceSince(xs, at, from, later);
    SinceAppend(Since(xs, at, from), x, at, later);
    SinceAppend(xs, x, at, later);
  }

  /** The length of a pruned list counts the window that ends now. */
  lemma {:induction false} SinceCounts<T>(xs: seq<T>, at: T -> int, from: int, now: int)
    requires NotAfter(xs, at, now)
    ensures |Since(xs, at, from)| == CountIn(xs, at, from, now)
  {
    if |xs| > 0 {
      SinceCounts(xs[..|xs| - 1], at, from, now);
    }
  }

  lemma {:induction false} NarrowerCountsLess<T>(xs: seq<T>, at: T -> int, lo: int, hi: int, lo': int, hi': int)
    requires lo <= lo' && hi' <= hi
    ensures CountIn(xs, at, lo', hi') <= CountIn(xs, at, lo, hi)
  {
    if |xs| > 0 {
      NarrowerCountsLess(xs[..|xs| - 1], at, lo, hi, lo', hi');
    }
  }

  function Window<T>(xs: seq<T>, at: T -> int, lo: int, length: int): nat { CountIn(xs, at, lo, lo + length) }

  /** Every closed window of this length holds at most `most` entries. */
  ghost predicate Bounded<T>(xs: seq<T>, at: T -> int, length: int, most: int) {
    forall lo :: Window(xs, at, lo, length) <= most
  }

  /** Admitting an entry while fewer than `most` lie within `length` of a check made no later keeps every window bounded. */
  lemma AdmitKeepsBounded<T>(xs: seq<T>, x: T, at: T -> int, check: int, length: int, most: int)
    requires Bounded(xs, at, length, most) && NotAfter(xs, at, check) && check <= at(x)
    requires |Since(xs, at, check - length)| < most
    ensures Bounded(xs + [x], at, length, most)
  {
    forall lo ensures Window(xs + [x], at, lo, length) <= most {
      CountInAppend(xs, x, at, lo, lo + length);
      assert Window(xs, at, lo, length) <= most;
      if lo <= at(x) <= lo + length {
        assert NotAfter(xs, at, at(x));
        SinceCounts(xs, at, check - length, at(x));
        NarrowerCountsLess(xs, at, check - length, at(x), lo, at(x));
        CountIsUpTo(xs, at, lo, at(x), lo + length);
      }
    }
  }

  /** Entries after `hi` do not exist, so the window may end anywhere after it. */
  lemma {:induction false} CountIsUpTo<T>(xs: seq<T>, at: T -> int, lo: int, hi: int, hi': int)
    requires NotAfter(xs, at, hi) && hi <= hi'
    ensures CountIn(xs, at, lo, hi) == CountIn(xs, at, lo, hi')
  {
    if |xs| > 0 {
      CountIsUpTo(xs[..|xs| - 1], at, lo, hi, hi');
    }
  }

  /** Timestamps are their own time. */
  function Tick(t: int): int { t }

  /** The kept timestamps are the full history's last `width` ticks. */
  ghost predicate Pruned(timestamps: seq<int>, all: seq<int>, clock: int, width: nat) {
    timestamps == Since(all, Tick, clock - width + 1) && NotAfter(all, Tick, clock)
  }

  lemma RecordKeepsPruned(timestamps: seq<int>, all: seq<int>, clock: int, width: nat, now: int, later: int)
    requires Pruned(timestamps, all, clock, width) && clock <= now <= later
    ensures Pruned(Since(timestamps + [now], Tick, later - width + 1), all + [now], later, width)
  {
    PruneAppend(all, now, Tick, clock - width + 1, later - width + 1);
    NotAfterAppend(all, now, Tick, clock, later);
  }

  /** The counter: `all` is every event ever recorded, `clock` the last clock reading. */
  class SlidingWindowCounter {
    const width: nat
    var timestamps: seq<int>
    ghost var all: seq<int>
    ghost var clock: int

    ghost predicate Valid()
      reads this
    {
      Pruned(timestamps, all, clock, width)
    }

    constructor (width: nat, ghost now: int)
      ensures Valid() && this.width == width && all == [] && clock == now
    {
      this.width := width;
      timestamps := [];
      all, clock := [], now;
    }

    /** Appends the reading `now`, then prunes at the reading `later`. */
    method Record(now: int, later: int)
      requires Valid() && clock <= now <= later
      modifies this
      ensures Valid() && clock == later && all == old(all) + [now]
    {
      RecordKeepsPruned(timestamps, all, clock, width, now, later);
      timestamps := timestamps + [now];
      var cutoff := later - width;
      timestamps := Since(timestamps, Tick, cutoff + 1);
      all, clock := all + [now], later;
    }

    /** Counts the full history's events in the half-open window that ends now. */
    method Count(now: int) returns (n: nat)
      requires Valid() && clock <= now
      modifies this
      ensures Valid() && clock == now && all == old(all)
      ensures n == |Since(all, Tick, now - width + 1)| == CountIn(all, Tick, now - width + 1, now)
    {
      SinceSince(all, Tick, clock - width + 1, now - width + 1);
      timestamps := Since(timestamps, Tick, now - width + 1);
      clock := now;
      SinceCounts(all, Tick, now - width + 1, now);
      n := |timestamps|;
    }
  }
}
