/** The resumable history download: append a window, then move the checkpoint, across crashes. */
module HistoryDownload {
  import opened Core

  const MINUTE := 60
  const WINDOW := 3 * 24 * 3600
  const OUTPUT_SIZE := 5000

  // ----- The server -----

  /** Candle times in seconds: whole minutes, each once, in order. */
  predicate Candles(server: seq<int>) {
    && (forall i :: 0 <= i < |server| ==> server[i] % MINUTE == 0)
    && (forall i, j :: 0 <= i < j < |server| ==> server[i] < server[j])
  }

  function Between(xs: seq<int>, low: int, high: int): seq<int> {
    if |xs| == 0 then []
    else Between(xs[..|xs| - 1], low, high) + if low <= xs[|xs| - 1] <= high then [xs[|xs| - 1]] else []
  }

  /** A reply holds the closed interval, oldest first, cut at the output size. */
  function Reply(server: seq<int>, from: int, to: int): seq<int> {
    var all := Between(server, from, to);
    if |all| <= OUTPUT_SIZE then all else all[..OUTPUT_SIZE]
  }

  /** The rows of a window that the downloader keeps: its right end is left for the next window. */
  function Kept(server: seq<int>, from: int, to: int): seq<int> {
    Between(Reply(server, from, to), from, to - 1)
  }

  lemma OneMore(xs: seq<int>, x: int, m: int)
    ensures multiset(xs + [x])[m] == multiset(xs)[m] + if x == m then 1 else 0
  {
  }

  lemma {:induction false} BetweenSelects(xs: seq<int>, low: int, high: int, m: int)
    ensures multiset(Between(xs, low, high))[m] == if low <= m <= high then multiset(xs)[m] else 0
  {
    if |xs| > 0 {
      var init, last := xs[..|xs| - 1], xs[|xs| - 1];
      BetweenSelects(init, low, high, m);
      OneMore(init, last, m);
      assert xs == init + [last];
      var before := Between(init, low, high);
      if low <= last <= high {
        OneMore(before, last, m);
      } else {
        assert before + [] == before;
      }
    }
  }

  lemma {:induction false} BetweenIsOrdered(xs: seq<int>, low: int, high: int)
    requires Candles(xs)
    ensures Candles(Between(xs, low, high))
    ensures forall i :: 0 <= i < |Between(xs, low, high)| ==>
      low <= Between(xs, low, high)[i] <= high && Between(xs, low, high)[i] in xs
  {
    if |xs| > 0 {
      BetweenIsOrdered(xs[..|xs| - 1], low, high);
    }
  }

  /** At most one candle fits in each minute. */
  lemma {:induction false} FewCandlesFit(xs: seq<int>, low: int, high: int)
    requires Candles(xs) && forall i :: 0 <= i < |xs| ==> low <= xs[i] <= high
    ensures |xs| > 0 ==> |xs| <= (high - low) / MINUTE + 1
  {
    if |xs| > 1 {
      var init, last := xs[..|xs| - 1], xs[|xs| - 1];
      assert forall i :: 0 <= i < |init| ==> init[i] <= last - MINUTE;
      FewCandlesFit(init, low, last - MINUTE);
    }
  }

  /** A three-day window never reaches the output size, so nothing is cut off. */
  lemma WindowFitsInReply(server: seq<int>, from: int, to: int)
    requires Candles(server) && from <= to <= from + WINDOW
    ensures |Between(server, from, to)| <= 4321 < OUTPUT_SIZE
    ensures Reply(server, from, to) == Between(server, from, to)
  {
    BetweenIsOrdered(server, from, to);
    FewCandlesFit(Between(server, from, to), from, to);
  }

  lemma {:induction false} CandlesAreUnique(server: seq<int>, m: int)
    requires Candles(server)
    ensures multiset(server)[m] == if m in server then 1 else 0
  {
    if |server| > 0 {
      CandlesAreUnique(server[..|server| - 1], m);
      assert server == server[..|server| - 1] + [server[|server| - 1]];
    }
  }

  /** A window keeps each of the server's candles of [from, to) once, and nothing else. */
  lemma WindowIsComplete(server: seq<int>, from: int, to: int, m: int)
    requires Candles(server) && from <= to <= from + WINDOW
    ensures multiset(Kept(server, from, to))[m] == if m in server && from <= m < to then 1 else 0
  {
    WindowFitsInReply(server, from, to);
    BetweenSelects(server, from, to, m);
    BetweenSelects(Between(server, from, to), from, to - 1, m);
    CandlesAreUnique(server, m);
  }

  // ----- Disks and sessions -----

  /** `write_text` truncates before it writes: a crash in between leaves a torn checkpoint. */
  datatype Checkpoint = Missing | At(next: int) | Torn

  /** What is on disk, with its history: how far windows were completed, and the rows that crashed
      windows left behind. */
  datatype Disk = Disk(rows: seq<int>, checkpoint: Checkpoint, covered: int, orphans: seq<seq<int>>)

  function Crashed(d: Disk, part: seq<int>, checkpoint: Checkpoint): Disk {
    Disk(d.rows + part, checkpoint, d.covered, d.orphans + [part])
  }

  function Completed(d: Disk, rows: seq<int>, to: int): Disk {
    Disk(d.rows + rows, At(to), to, d.orphans)
  }

  /** The windows of one process that dies after `budget` row and checkpoint writes. */
  function Windows(server: seq<int>, end: int, cursor: int, d: Disk, budget: nat): Disk
    decreases end - cursor
  {
    if cursor >= end then d
    else
      var windowEnd := MinInt(cursor + WINDOW, end);
      var rows := Kept(server, cursor, windowEnd);
      if budget < |rows| then Crashed(d, rows[..budget], d.checkpoint)
      else if budget == |rows| then Crashed(d, rows, d.checkpoint)
      else if budget == |rows| + 1 then Crashed(d, rows, Torn)
      else Windows(server, end, windowEnd, Completed(d, rows, windowEnd), budget - |rows| - 2)
  }

  /** One run of the downloader; a torn checkpoint cannot be parsed and ends it at once. */
  function Session(server: seq<int>, start: int, end: int, d: Disk, budget: nat): Disk {
    match d.checkpoint
    case Torn => d
    case Missing => Windows(server, end, start, d, budget)
    case At(next) => Windows(server, end, MaxInt(start, next), d, budget)
  }

  datatype Launch = Launch(end: int, budget: nat)

  function Sessions(server: seq<int>, start: int, d: Disk, launches: seq<Launch>): Disk {
    if |launches| == 0 then d
    else
      var last := launches[|launches| - 1];
      Session(server, start, last.end, Sessions(server, start, d, launches[..|launches| - 1]), last.budget)
  }

  function Fresh(start: int): Disk { Disk([], Missing, start, []) }

  function OrphanCopies(orphans: seq<seq<int>>, m: int): nat {
    if |orphans| == 0 then 0
    else OrphanCopies(orphans[..|orphans| - 1], m) + multiset(orphans[|orphans| - 1])[m]
  }

  predicate Consistent(start: int, d: Disk) {
    && start <= d.covered
    && (d.checkpoint.Missing? ==> d.covered == start)
    && (d.checkpoint.At? ==> d.checkpoint.next == d.covered)
  }

  /** The exact stock of candle `m`. */
  predicate Accounted(server: seq<int>, start: int, d: Disk, m: int) {
    && Consistent(start, d)
    && multiset(d.rows)[m] == (if m in server && start <= m < d.covered then 1 else 0) + OrphanCopies(d.orphans, m)
    && OrphanCopies(d.orphans, m) <= if m in server then |d.orphans| else 0
  }

  lemma OrphansGrow(orphans: seq<seq<int>>, rows: seq<int>, m: int)
    ensures OrphanCopies(orphans + [rows], m) == OrphanCopies(orphans, m) + multiset(rows)[m]
  {
    assert (orphans + [rows])[..|orphans|] == orphans;
  }

  lemma PrefixCopies(rows: seq<int>, n: nat, m: int)
    requires n <= |rows|
    ensures multiset(rows[..n])[m] <= multiset(rows)[m]
  {
    assert rows == rows[..n] + rows[n..];
  }

  /** A crash in a window leaves at most one more copy of each of its candles. */
  lemma CrashIsAccounted(server: seq<int>, start: int, d: Disk, to: int, n: nat, checkpoint: Checkpoint, m: int)
    requires Candles(server) && Accounted(server, start, d, m) && d.covered <= to <= d.covered + WINDOW
    requires n <= |Kept(server, d.covered, to)| && (checkpoint == d.checkpoint || checkpoint.Torn?)
    ensures Accounted(server, start, Crashed(d, Kept(server, d.covered, to)[..n], checkpoint), m)
  {
    var rows := Kept(server, d.covered, to);
    OrphansGrow(d.orphans, rows[..n], m);
    PrefixCopies(rows, n, m);
    WindowIsComplete(server, d.covered, to, m);
  }

  lemma WindowIsAccounted(server: seq<int>, start: int, d: Disk, to: int, m: int)
    requires Candles(server) && Accounted(server, start, d, m) && d.covered <= to <= d.covered + WINDOW
    ensures Accounted(server, start, Completed(d, Kept(server, d.covered, to), to), m)
  {
    WindowIsComplete(server, d.covered, to, m);
  }

  lemma {:induction false} WindowsAreAccounted(server: seq<int>, start: int, end: int, d: Disk, budget: nat, m: int)
    returns (last: Disk)
    requires Candles(server) && Accounted(server, start, d, m)
    ensures last == Windows(server, end, d.covered, d, budget)
    ensures Accounted(server, start, last, m)
    decreases end - d.covered
  {
    if d.covered >= end {
      return d;
    }
    var to := MinInt(d.covered + WINDOW, end);
    var rows := Kept(server, d.covered, to);
    assert rows[..|rows|] == rows;
    if budget <= |rows| {
      CrashIsAccounted(server, start, d, to, budget, d.checkpoint, m);
      last := Crashed(d, rows[..budget], d.checkpoint);
    } else if budget == |rows| + 1 {
      CrashIsAccounted(server, start, d, to, |rows|, Torn, m);
      last := Crashed(d, rows, Torn);
    } else {
      WindowIsAccounted(server, start, d, to, m);
      last := WindowsAreAccounted(server, start, end, Completed(d, rows, to), budget - |rows| - 2, m);
    }
  }

  /** A launch either reaches the end or crashes, which leaves one batch of orphans. */
  lemma {:induction false} WindowsFinishOrCrash(server: seq<int>, end: int, d: Disk, budget: nat)
    ensures var d' := Windows(server, end, d.covered, d, budget);
            || (d'.orphans == d.orphans && d'.covered == MaxInt(d.covered, end))
            || (|d'.orphans| == |d.orphans| + 1 && d.covered <= d'.covered < end)
    decreases end - d.covered
  {
    if d.covered < end {
      var to := MinInt(d.covered + WINDOW, end);
      var rows := Kept(server, d.covered, to);
      if budget >= |rows| + 2 {
        WindowsFinishOrCrash(server, end, Completed(d, rows, to), budget - |rows| - 2);
      }
    }
  }

  /** Over every history of launches and crashes the disk is accounted for, and each launch adds at
      most one batch of orphans: the one its own crash left. */
  lemma {:induction false} EveryRunIsAccounted(server: seq<int>, start: int, launches: seq<Launch>, m: int)
    requires Candles(server)
    ensures var d := Sessions(server, start, Fresh(start), launches);
            Accounted(server, start, d, m) && |d.orphans| <= |launches|
  {
    if |launches| > 0 {
      var before, last := launches[..|launches| - 1], launches[|launches| - 1];
      EveryRunIsAccounted(server, start, before, m);
      var d := Sessions(server, start, Fresh(start), before);
      if !d.checkpoint.Torn? {
        var after := WindowsAreAccounted(server, start, last.end, d, last.budget, m);
        WindowsFinishOrCrash(server, last.end, d, last.budget);
      }
    }
  }

  /** Only the server's candles are stored; below the checkpoint each one is there, at most once more
      than there were crashes, and exactly once if no crash caught it between append and checkpoint. */
  lemma CheckpointIsSound(server: seq<int>, start: int, launches: seq<Launch>, m: int)
    requires Candles(server)
    ensures var d := Sessions(server, start, Fresh(start), launches);
            && multiset(d.rows)[m] <= (if m in server then 1 + |d.orphans| else 0)
            && (d.checkpoint.At? && m in server && start <= m < d.checkpoint.next ==>
                  && multiset(d.rows)[m] >= 1
                  && (multiset(d.rows)[m] == 1 <==> OrphanCopies(d.orphans, m) == 0))
  {
    EveryRunIsAccounted(server, start, launches, m);
  }

  /** A launch that does not crash, from a readable checkpoint, leaves every candle of [start, end) stored. */
  lemma FinishedRunCovers(server: seq<int>, start: int, launches: seq<Launch>, last: Launch, m: int)
    requires Candles(server) && m in server && start <= m < last.end
    ensures var (d, d') := (Sessions(server, start, Fresh(start), launches), Sessions(server, start, Fresh(start), launches + [last]));
            !d.checkpoint.Torn? && d'.orphans == d.orphans ==> multiset(d'.rows)[m] >= 1
  {
    var d := Sessions(server, start, Fresh(start), launches);
    EveryRunIsAccounted(server, start, launches, m);
    EveryRunIsAccounted(server, start, launches + [last], m);
    assert (launches + [last])[..|launches|] == launches;
    if !d.checkpoint.Torn? {
      WindowsFinishOrCrash(server, last.end, d, last.budget);
    }
  }

  /** A torn checkpoint stops all progress: no later launch changes the disk. */
  lemma {:induction false} TornIsForever(server: seq<int>, start: int, launches: seq<Launch>, later: seq<Launch>)
    requires Sessions(server, start, Fresh(start), launches).checkpoint.Torn?
    ensures Sessions(server, start, Fresh(start), launches + later) == Sessions(server, start, Fresh(start), launches)
  {
    if |later| == 0 {
      assert launches + later == launches;
    } else {
      TornIsForever(server, start, launches, later[..|later| - 1]);
      assert (launches + later)[..|launches + later| - 1] == launches + later[..|later| - 1];
    }
  }

  /** Such a disk is reached by the first launch that dies between truncating and writing its checkpoint. */
  lemma TornIsReachable(server: seq<int>, start: int, end: int)
    requires start < end
    ensures var rows := Kept(server, start, MinInt(start + WINDOW, end));
            Sessions(server, start, Fresh(start), [Launch(end, |rows| + 1)]) == Disk(rows, Torn, start, [rows])
  {
    var rows := Kept(server, start, MinInt(start + WINDOW, end));
    var launches := [Launch(end, |rows| + 1)];
    assert launches[..0] == [] && [] + rows == rows;
    assert Session(server, start, end, Fresh(start), |rows| + 1) == Windows(server, end, start, Fresh(start), |rows| + 1);
  }

  /** With enough writes left a launch reaches its end. */
  lemma {:induction false} EnoughWrites(server: seq<int>, end: int, d: Disk) returns (budget: nat)
    ensures Windows(server, end, d.covered, d, budget).orphans == d.orphans
    decreases end - d.covered
  {
    budget := 0;
    if d.covered < end {
      var to := MinInt(d.covered + WINDOW, end);
      var rows := Kept(server, d.covered, to);
      var rest := EnoughWrites(server, end, Completed(d, rows, to));
      budget := |rows| + 2 + rest;
    }
  }

  predicate Stored(server: seq<int>, start: int, launches: seq<Launch>, m: int) {
    multiset(Sessions(server, start, Fresh(start), launches).rows)[m] >= 1
  }

  /** The download is resumable exactly while its checkpoint is readable: whatever launches and crashes came before, a
      minute that is still missing can be stored by later launches if and only if the checkpoint is not torn. */
  lemma ResumesIffReadable(server: seq<int>, start: int, launches: seq<Launch>, m: int)
    requires Candles(server) && m in server && start <= m && !Stored(server, start, launches, m)
    ensures (exists later :: Stored(server, start, launches + later, m))
       <==> !Sessions(server, start, Fresh(start), launches).checkpoint.Torn?
  {
    var d := Sessions(server, start, Fresh(start), launches);
    if d.checkpoint.Torn? {
      forall later ensures !Stored(server, start, launches + later, m) {
        TornIsForever(server, start, launches, later);
      }
    } else {
      EveryRunIsAccounted(server, start, launches, m);
      var budget := EnoughWrites(server, m + 1, d);
      var last := Launch(m + 1, budget);
      assert (launches + [last])[..|launches|] == launches;
      assert Sessions(server, start, Fresh(start), launches + [last]) == Session(server, start, m + 1, d, budget);
      assert MaxInt(start, d.covered) == d.covered;
      FinishedRunCovers(server, start, launches, last, m);
      assert Stored(server, start, launches + [last], m);
    }
  }

  // ----- The downloader -----

  class Downloader {
    var files: seq<int>
    var checkpoint: Checkpoint
    ghost var covered: int
    ghost var orphans: seq<seq<int>>

    ghost function Contents(): Disk
      reads this
    {
      Disk(files, checkpoint, covered, orphans)
    }

    constructor (start: int)
      ensures Contents() == Fresh(start)
    {
      files, checkpoint, covered, orphans := [], Missing, start, [];
    }

    /** Appends rows one by one until they are written or the process dies. */
    method AppendRows(rows: seq<int>, budget: nat) returns (left: nat, alive: bool)
      modifies this`files
      ensures alive <==> |rows| <= budget
      ensures files == old(files) + (if alive then rows else rows[..budget])
      ensures left == if alive then budget - |rows| else 0
    {
      var i := 0;
      while i < |rows|
        invariant 0 <= i <= |rows| && i <= budget
        invariant files == old(files) + rows[..i]
      {
        if i == budget {
          return 0, false;
        }
        files := files + [rows[i]];
        i := i + 1;
        assert rows[..i] == rows[..i - 1] + [rows[i - 1]];
      }
      assert rows[..i] == rows;
      return budget - |rows|, true;
    }

    /** Truncates the checkpoint file, then writes it. */
    method SaveCheckpoint(next: int, budget: nat) returns (left: nat, alive: bool)
      modifies this`checkpoint
      ensures alive <==> budget >= 2
      ensures checkpoint == if budget == 0 then old(checkpoint) else if budget == 1 then Torn else At(next)
      ensures left == if alive then budget - 2 else 0
    {
      if budget == 0 {
        return 0, false;
      }
      checkpoint := Torn;
      if budget == 1 {
        return 0, false;
      }
      checkpoint := At(next);
      return budget - 2, true;
    }

    /** One launch; `finished` is false when the process died or could not read its checkpoint. */
    method Download(server: seq<int>, start: int, end: int, budget: nat) returns (finished: bool, requests: nat)
      modifies this
      ensures Contents() == Session(server, start, end, old(Contents()), budget)
      ensures finished ==> orphans == old(orphans) && !old(checkpoint).Torn?
      ensures !finished && !old(checkpoint).Torn? ==> |orphans| == |old(orphans)| + 1
    {
      requests := 0;
      if checkpoint.Torn? {
        return false, 0;
      }
      var cursor := if checkpoint.At? then MaxInt(start, checkpoint.next) else start;
      var left := budget;
      while cursor < end
        invariant Windows(server, end, cursor, Contents(), left) == Session(server, start, end, old(Contents()), budget)
        invariant orphans == old(orphans)
        decreases end - cursor
      {
        var windowEnd := MinInt(cursor + WINDOW, end);
        var rows := Kept(server, cursor, windowEnd);
        requests := requests + 1;
        var alive := true;
        ghost var before := Contents();
        if |rows| > 0 {
          left, alive := AppendRows(rows, left);
          if !alive {
            orphans := orphans + [files[|before.rows|..]];
            return false, requests;
          }
        }
        cursor := windowEnd;
        left, alive := SaveCheckpoint(cursor, left);
        if !alive {
          orphans := orphans + [rows];
          return false, requests;
        }
        covered := cursor;
        assert files == before.rows + rows;
        assert Contents() == Completed(before, rows, windowEnd);
      }
      finished := true;
    }
  }
}
