/** Streaming fifteen-minute aggregation of minute files, and its resampling to coarser bins. */
module MinuteAggregation {
  import opened Core

  /** Open, high, low, close and volume of any stretch of time. */
  datatype Ohlcv = Ohlcv(open: real, high: real, low: real, close: real, volume: real)

  datatype Row = Row(time: int, v: Ohlcv)

  const BUCKET := 900000

  // ----- Labels -----

  /** The end of the bucket [end - width, end) that a minute opens in. */
  function Next(width: int, time: int): int
    requires width > 0
  {
    (time / width + 1) * width
  }

  /** The label of the right-closed, right-labelled bin (end - width, end]. */
  function Ceil(width: int, time: int): int
    requires width > 0
  {
    (time + width - 1) / width * width
  }

  lemma CancelLess(a: int, b: int, w: int)
    requires w > 0 && a * w < b * w
    ensures a < b
  {
    assert (b - a) * w > 0;
  }

  lemma QuotientIs(x: int, w: int, q: int)
    requires w > 0 && q * w <= x < (q + 1) * w
    ensures x / w == q
  {
    var n := x / w;
    assert n * w <= x < (n + 1) * w by { assert x == n * w + x % w; }
    CancelLess(n, q + 1, w);
    CancelLess(q, n + 1, w);
  }

  lemma NextIsNext(time: int, w: int)
    requires w > 0
    ensures Next(w, time) - w <= time < Next(w, time)
  {
    assert time == time / w * w + time % w;
  }

  lemma CeilIsCeil(time: int, w: int, q: int)
    requires w > 0 && (q - 1) * w < time <= q * w
    ensures Ceil(w, time) == q * w
  {
    QuotientIs(time + w - 1, w, q);
  }

  /** Fine labels fall into the coarse bin of the minutes behind them. */
  lemma LabelsCompose(time: int, f: int, k: int)
    requires f > 0 && k > 0
    ensures f * k > 0 && Ceil(f * k, Next(f, time)) == Next(f * k, time)
  {
    var w := f * k;
    assert w > 0;
    var n, q := time / f, time / w;
    NextIsNext(time, f);
    NextIsNext(time, w);
    BucketsNest(n, q, f, k);
    CeilIsCeil((n + 1) * f, w, q + 1);
  }

  /** Bucket `n` of width `f` that shares an instant with bucket `q` of width `f * k` lies inside it. */
  lemma BucketsNest(n: int, q: int, f: int, k: int)
    requires f > 0 && k > 0 && q * (f * k) < (n + 1) * f && n * f < (q + 1) * (f * k)
    ensures q * (f * k) < (n + 1) * f <= (q + 1) * (f * k)
  {
    var m := (q + 1) * k;
    Reassociate(q + 1, f, k);
    CancelLess(n, m, f);
    KeepLessEqual(n + 1, m, f);
  }

  lemma Reassociate(q: int, f: int, k: int)
    ensures q * k * f == q * (f * k)
  {
  }

  lemma KeepLessEqual(a: int, b: int, w: int)
    requires w > 0 && a <= b
    ensures a * w <= b * w
  {
    assert (b - a) * w >= 0;
  }

  /** Resampling raw minutes right-closed differs from the bucket convention exactly on the boundary minutes. */
  lemma ConventionsDifferOnBoundaries(time: int, w: int)
    requires w > 0
    ensures Ceil(w, time) == Next(w, time) <==> time % w != 0
  {
    var q := time / w;
    assert time == q * w + time % w;
    if time % w == 0 {
      CeilIsCeil(time, w, q);
    } else {
      CeilIsCeil(time, w, q + 1);
    }
  }

  // ----- Group by -----

  function Merge(a: Ohlcv, b: Ohlcv): Ohlcv {
    Ohlcv(a.open, Max(a.high, b.high), Min(a.low, b.low), b.close, a.volume + b.volume)
  }

  function Fold(vs: seq<Ohlcv>): Ohlcv
    requires |vs| > 0
  {
    if |vs| == 1 then vs[0] else Merge(Fold(vs[..|vs| - 1]), vs[|vs| - 1])
  }

  function Volumes(vs: seq<Ohlcv>): seq<real> { seq(|vs|, i requires 0 <= i < |vs| => vs[i].volume) }

  /** A fold is first, max, min, last and sum. */
  lemma {:induction false} FoldIsFirstMaxMinLastSum(vs: seq<Ohlcv>)
    requires |vs| > 0
    ensures var f := Fold(vs);
            && f.open == vs[0].open && f.close == vs[|vs| - 1].close && f.volume == Sum(Volumes(vs))
            && (forall i :: 0 <= i < |vs| ==> vs[i].high <= f.high && f.low <= vs[i].low)
            && (exists i :: 0 <= i < |vs| && vs[i].high == f.high)
            && (exists i :: 0 <= i < |vs| && vs[i].low == f.low)
  {
    var init, last := vs[..|vs| - 1], vs[|vs| - 1];
    assert Volumes(vs) == Volumes(init) + [last.volume];
    SumAppend(Volumes(init), last.volume);
    if |vs| > 1 {
      FoldIsFirstMaxMinLastSum(init);
      var i :| 0 <= i < |init| && init[i].high == Fold(init).high;
      var j :| 0 <= j < |init| && init[j].low == Fold(init).low;
      assert vs[i].high == Fold(init).high && vs[j].low == Fold(init).low;
      assert forall k :: 0 <= k < |init| ==> vs[k] == init[k];
    }
  }

  /** The rows of one group, in order. */
  function Group(rows: seq<Row>, key: int -> int, bin: int): seq<Ohlcv> {
    if |rows| == 0 then []
    else
      var last := rows[|rows| - 1];
      Group(rows[..|rows| - 1], key, bin) + if key(last.time) == bin then [last.v] else []
  }

  lemma GroupGrows(rows: seq<Row>, row: Row, key: int -> int, bin: int)
    ensures Group(rows + [row], key, bin) == Group(rows, key, bin) + if key(row.time) == bin then [row.v] else []
  {
    assert (rows + [row])[..|rows|] == rows;
  }

  lemma FoldGrows(vs: seq<Ohlcv>, v: Ohlcv)
    ensures Fold(vs + [v]) == if |vs| == 0 then v else Merge(Fold(vs), v)
  {
    assert (vs + [v])[..|vs|] == vs;
  }

  // ----- One file -----

  /** The records of a file: each run of rows with one label, merged. */
  function Stream(rows: seq<Row>): seq<Row> {
    if |rows| == 0 then []
    else Put(Stream(rows[..|rows| - 1]), rows[|rows| - 1])
  }

  function Put(records: seq<Row>, row: Row): seq<Row> {
    var bucket := Next(BUCKET, row.time);
    if |records| > 0 && records[|records| - 1].time == bucket then
      records[..|records| - 1] + [Row(bucket, Merge(records[|records| - 1].v, row.v))]
    else
      records + [Row(bucket, row.v)]
  }

  /** The reader loop over one file: a finished bucket is flushed when the label changes. */
  method ReadFile(rows: seq<Row>) returns (records: seq<Row>)
    ensures records == Stream(rows)
  {
    var current: Option<Row> := None;
    records := [];
    for i := 0 to |rows|
      invariant Stream(rows[..i]) == records + if current.Some? then [current.value] else []
      invariant current.None? <==> i == 0
      invariant i == 0 ==> records == []
    {
      var row := rows[i];
      assert rows[..i + 1][..i] == rows[..i];
      var nextBucket := Next(BUCKET, row.time);
      if current.None? || nextBucket != current.value.time {
        if current.Some? {
          records := records + [current.value];
        }
        current := Some(Row(nextBucket, row.v));
      } else {
        var v := current.value.v;
        current := Some(Row(nextBucket,
          Ohlcv(v.open, Max(v.high, row.v.high), Min(v.low, row.v.low), row.v.close, v.volume + row.v.volume)));
      }
    }
    assert rows[..|rows|] == rows;
    if current.Some? {
      records := records + [current.value];
    }
  }

  /** `coarse` bins the records exactly as `direct` bins the minutes. */
  ghost predicate Composes(coarse: int -> int, direct: int -> int) {
    forall t :: coarse(Next(BUCKET, t)) == direct(t)
  }

  /** Putting a row into the records adds it to the group of its coarse bin and to no other. */
  lemma PutGroups(records: seq<Row>, row: Row, coarse: int -> int, direct: int -> int, bin: int)
    requires Composes(coarse, direct)
    ensures var (before, after) := (Group(records, coarse, bin), Group(Put(records, row), coarse, bin));
            if direct(row.time) == bin then |after| > 0 && Fold(after) == Fold(before + [row.v]) else after == before
  {
    var bucket := Next(BUCKET, row.time);
    if |records| > 0 && records[|records| - 1].time == bucket {
      var init, last := records[..|records| - 1], records[|records| - 1];
      assert records == init + [last];
      GroupGrows(init, last, coarse, bin);
      GroupGrows(init, Row(bucket, Merge(last.v, row.v)), coarse, bin);
      if direct(row.time) == bin {
        var g := Group(init, coarse, bin);
        FoldGrows(g, last.v);
        FoldGrows(g + [last.v], row.v);
        FoldGrows(g, Merge(last.v, row.v));
      }
    } else {
      GroupGrows(records, Row(bucket, row.v), coarse, bin);
    }
  }

  lemma {:induction false} GroupsCompose(rows: seq<Row>, coarse: int -> int, direct: int -> int, bin: int)
    requires Composes(coarse, direct)
    ensures var (fine, plain) := (Group(Stream(rows), coarse, bin), Group(rows, direct, bin));
            (|fine| == 0 <==> |plain| == 0) && (|fine| > 0 ==> Fold(fine) == Fold(plain))
  {
    if |rows| > 0 {
      var init, last := rows[..|rows| - 1], rows[|rows| - 1];
      GroupsCompose(init, coarse, direct, bin);
      PutGroups(Stream(init), last, coarse, direct, bin);
      var fine, plain := Group(Stream(init), coarse, bin), Group(init, direct, bin);
      FoldGrows(fine, last.v);
      FoldGrows(plain, last.v);
      assert Group(rows, direct, bin) == if direct(last.time) == bin then plain + [last.v] else plain;
    }
  }

  function NextKey(width: int): int -> int
    requires width > 0
  {
    t => Next(width, t)
  }

  function CeilKey(width: int): int -> int
    requires width > 0
  {
    t => Ceil(width, t)
  }

  /** Aggregating the fifteen-minute records again in right-closed bins of k buckets equals aggregating
      the minutes directly. */
  lemma AggregationComposes(rows: seq<Row>, k: int, bin: int)
    requires k > 0
    ensures var (fine, direct) := (Group(Stream(rows), CeilKey(BUCKET * k), bin), Group(rows, NextKey(BUCKET * k), bin));
            (|fine| == 0 <==> |direct| == 0) && (|fine| > 0 ==> Fold(fine) == Fold(direct))
  {
    forall t: int ensures CeilKey(BUCKET * k)(Next(BUCKET, t)) == NextKey(BUCKET * k)(t) {
      LabelsCompose(t, BUCKET, k);
    }
    GroupsCompose(rows, CeilKey(BUCKET * k), NextKey(BUCKET * k), bin);
  }

  // ----- Files in time order -----

  predicate InOrder(rows: seq<Row>) {
    forall i, j :: 0 <= i <= j < |rows| ==> Next(BUCKET, rows[i].time) <= Next(BUCKET, rows[j].time)
  }

  predicate Increasing(records: seq<Row>) {
    forall i, j :: 0 <= i < j < |records| ==> records[i].time < records[j].time
  }

  lemma {:induction false} StreamEndsInLastBucket(rows: seq<Row>)
    requires |rows| > 0
    ensures |Stream(rows)| > 0 && Stream(rows)[|Stream(rows)| - 1].time == Next(BUCKET, rows[|rows| - 1].time)
  {
  }

  /** The records come out in strictly increasing buckets exactly when the minutes' buckets never go back. */
  lemma {:induction false} IncreasingIffInOrder(rows: seq<Row>)
    ensures Increasing(Stream(rows)) <==> InOrder(rows)
  {
    if |rows| > 1 {
      var init, last := rows[..|rows| - 1], rows[|rows| - 1];
      var records, bucket := Stream(init), Next(BUCKET, last.time);
      IncreasingIffInOrder(init);
      StreamEndsInLastBucket(init);
      LastDecidesOrder(rows);
      PutKeepsOrder(records, last);
    }
  }

  lemma PutKeepsOrder(records: seq<Row>, row: Row)
    requires |records| > 0
    ensures Increasing(Put(records, row)) <==>
            Increasing(records) && records[|records| - 1].time <= Next(BUCKET, row.time)
  {
    var after, n := Put(records, row), |records|;
    if records[n - 1].time == Next(BUCKET, row.time) {
      assert forall i :: 0 <= i < n ==> after[i].time == records[i].time;
    } else {
      assert forall i :: 0 <= i < n ==> after[i] == records[i];
      if Increasing(after) {
        assert after[n - 1].time < after[n].time;
      }
    }
  }

  lemma LastDecidesOrder(rows: seq<Row>)
    requires |rows| > 1
    ensures var n := |rows|;
            InOrder(rows) <==> InOrder(rows[..n - 1]) && Next(BUCKET, rows[n - 2].time) <= Next(BUCKET, rows[n - 1].time)
  {
    var init := rows[..|rows| - 1];
    assert forall i :: 0 <= i < |init| ==> init[i] == rows[i];
    if InOrder(rows) {
      assert InOrder(init);
    }
  }

  /** On records in strictly increasing buckets, each record is alone in its group. */
  lemma {:induction false} RecordsAreAlone(records: seq<Row>, i: nat)
    requires Increasing(records) && i < |records|
    ensures Group(records, t => t, records[i].time) == [records[i].v]
  {
    var init, last := records[..|records| - 1], records[|records| - 1];
    if i < |init| {
      RecordsAreAlone(init, i);
    } else {
      NoSuchRecord(init, last.time);
    }
  }

  lemma {:induction false} NoSuchRecord(records: seq<Row>, bin: int)
    requires forall i :: 0 <= i < |records| ==> records[i].time != bin
    ensures Group(records, t => t, bin) == []
  {
    if |records| > 0 {
      NoSuchRecord(records[..|records| - 1], bin);
    }
  }

  /** On minutes in time order every record is first, max, min, last and sum of exactly its bucket, and
      every bucket that has minutes has a record. */
  lemma StreamIsGroupBy(rows: seq<Row>, i: nat)
    requires InOrder(rows) && i < |Stream(rows)|
    ensures var record := Stream(rows)[i];
            var group := Group(rows, NextKey(BUCKET), record.time);
            |group| > 0 && record.v == Fold(group)
  {
    IncreasingIffInOrder(rows);
    RecordsAreAlone(Stream(rows), i);
    GroupsCompose(rows, t => t, NextKey(BUCKET), Stream(rows)[i].time);
  }

  predicate Recorded(records: seq<Row>, bin: int) {
    exists i :: 0 <= i < |records| && records[i].time == bin
  }

  lemma PutRecords(records: seq<Row>, row: Row, bin: int)
    ensures Recorded(Put(records, row), bin) <==> Recorded(records, bin) || bin == Next(BUCKET, row.time)
  {
    var after := Put(records, row);
    assert after[|after| - 1].time == Next(BUCKET, row.time);
    assert forall i :: 0 <= i < |records| ==> after[i].time == records[i].time;
  }

  lemma {:induction false} EveryBucketIsRecorded(rows: seq<Row>, bin: int)
    ensures |Group(rows, NextKey(BUCKET), bin)| > 0 <==> Recorded(Stream(rows), bin)
  {
    if |rows| > 0 {
      EveryBucketIsRecorded(rows[..|rows| - 1], bin);
      PutRecords(Stream(rows[..|rows| - 1]), rows[|rows| - 1], bin);
    }
  }

  function RowVolumes(rows: seq<Row>): seq<real> { seq(|rows|, i requires 0 <= i < |rows| => rows[i].v.volume) }

  /** No volume is lost or invented, in whatever order the minutes come. */
  lemma {:induction false} VolumeIsConserved(rows: seq<Row>)
    ensures Sum(RowVolumes(Stream(rows))) == Sum(RowVolumes(rows))
  {
    if |rows| > 0 {
      var init, last := rows[..|rows| - 1], rows[|rows| - 1];
      VolumeIsConserved(init);
      assert RowVolumes(rows) == RowVolumes(init) + [last.v.volume];
      SumAppend(RowVolumes(init), last.v.volume);
      PutAddsVolume(Stream(init), last);
    }
  }

  lemma PutAddsVolume(records: seq<Row>, row: Row)
    ensures Sum(RowVolumes(Put(records, row))) == Sum(RowVolumes(records)) + row.v.volume
  {
    var after, bucket := Put(records, row), Next(BUCKET, row.time);
    if |records| > 0 && records[|records| - 1].time == bucket {
      var init, last := records[..|records| - 1], records[|records| - 1];
      SumAppend(RowVolumes(init), last.v.volume);
      SumAppend(RowVolumes(init), last.v.volume + row.v.volume);
      assert RowVolumes(records) == RowVolumes(init) + [last.v.volume];
      assert RowVolumes(after) == RowVolumes(init) + [last.v.volume + row.v.volume];
    } else {
      SumAppend(RowVolumes(records), row.v.volume);
      assert RowVolumes(after) == RowVolumes(records) + [row.v.volume];
    }
  }

  // ----- Several files -----

  /** Dropping duplicate timestamps keeps the last record; the map is the indexed, sorted frame. */
  function KeepLast(records: seq<Row>): map<int, Ohlcv> {
    if |records| == 0 then map[]
    else KeepLast(records[..|records| - 1])[records[|records| - 1].time := records[|records| - 1].v]
  }

  function AllRows(files: seq<seq<Row>>): seq<Row> {
    if |files| == 0 then [] else AllRows(files[..|files| - 1]) + files[|files| - 1]
  }

  function AllRecords(files: seq<seq<Row>>): seq<Row> {
    if |files| == 0 then [] else AllRecords(files[..|files| - 1]) + Stream(files[|files| - 1])
  }

  method LoadMinutes(files: seq<seq<Row>>) returns (frame: map<int, Ohlcv>)
    ensures frame == KeepLast(AllRecords(files))
  {
    var records := [];
    for i := 0 to |files|
      invariant records == AllRecords(files[..i])
    {
      var ofFile := ReadFile(files[i]);
      assert files[..i + 1][..i] == files[..i];
      records := records + ofFile;
    }
    assert files[..|files|] == files;
    frame := KeepLast(records);
  }

  /** How many files have minutes of a bucket. */
  function FilesWith(files: seq<seq<Row>>, bin: int): nat {
    if |files| == 0 then 0
    else FilesWith(files[..|files| - 1], bin) + if |Group(files[|files| - 1], NextKey(BUCKET), bin)| > 0 then 1 else 0
  }

  lemma {:induction false} KeepLastConcat(a: seq<Row>, b: seq<Row>)
    ensures KeepLast(a + b) == KeepLast(a) + KeepLast(b)
  {
    if |b| == 0 {
      assert a + b == a;
    } else {
      KeepLastConcat(a, b[..|b| - 1]);
      assert (a + b)[..|a + b| - 1] == a + b[..|b| - 1];
    }
  }

  lemma {:induction false} GroupConcat(a: seq<Row>, b: seq<Row>, key: int -> int, bin: int)
    ensures Group(a + b, key, bin) == Group(a, key, bin) + Group(b, key, bin)
  {
    if |b| == 0 {
      assert a + b == a;
    } else {
      GroupConcat(a, b[..|b| - 1], key, bin);
      assert (a + b)[..|a + b| - 1] == a + b[..|b| - 1];
    }
  }

  lemma {:induction false} KeepLastOfIncreasing(records: seq<Row>, bin: int)
    requires Increasing(records)
    ensures bin in KeepLast(records) <==> Recorded(records, bin)
    ensures forall i :: 0 <= i < |records| && records[i].time == bin ==> KeepLast(records)[bin] == records[i].v
  {
    if |records| > 0 {
      var init := records[..|records| - 1];
      KeepLastOfIncreasing(init, bin);
      assert forall i :: 0 <= i < |init| ==> init[i] == records[i];
    }
  }

  /** One file in time order loads as its group-by. */
  lemma FileLoadsAsGroupBy(rows: seq<Row>, bin: int)
    requires InOrder(rows)
    ensures var (frame, group) := (KeepLast(Stream(rows)), Group(rows, NextKey(BUCKET), bin));
            (bin in frame <==> |group| > 0) && (bin in frame ==> frame[bin] == Fold(group))
  {
    IncreasingIffInOrder(rows);
    KeepLastOfIncreasing(Stream(rows), bin);
    EveryBucketIsRecorded(rows, bin);
    if Recorded(Stream(rows), bin) {
      var i :| 0 <= i < |Stream(rows)| && Stream(rows)[i].time == bin;
      StreamIsGroupBy(rows, i);
    }
  }

  predicate Positive(rows: seq<Row>) {
    forall i :: 0 <= i < |rows| ==> rows[i].v.volume > 0.0
  }

  lemma {:induction false} GroupVolumeIsPositive(rows: seq<Row>, key: int -> int, bin: int)
    requires Positive(rows) && |Group(rows, key, bin)| > 0
    ensures Fold(Group(rows, key, bin)).volume > 0.0
  {
    var init, last := rows[..|rows| - 1], rows[|rows| - 1];
    if |Group(init, key, bin)| > 0 {
      GroupVolumeIsPositive(init, key, bin);
      FoldGrows(Group(init, key, bin), last.v);
      assert Group(init, key, bin) + [] == Group(init, key, bin);
    }
  }

  lemma {:induction false} FoldOfConcat(a: seq<Ohlcv>, b: seq<Ohlcv>)
    requires |a| > 0 && |b| > 0
    ensures Fold(a + b).volume == Fold(a).volume + Fold(b).volume
  {
    var init, last := b[..|b| - 1], b[|b| - 1];
    assert a + b == (a + init) + [last];
    FoldGrows(a + init, last);
    if |init| > 0 {
      FoldOfConcat(a, init);
    } else {
      assert a + init == a;
    }
  }

  predicate LoadsAsGroupByIffUnsplit(frame: map<int, Ohlcv>, group: seq<Ohlcv>, bin: int, holders: nat) {
    && (bin in frame <==> |group| > 0)
    && (holders > 0 <==> |group| > 0)
    && (|group| > 0 ==> Fold(group).volume > 0.0)
    && (bin in frame && |group| > 0 ==> (frame[bin] == Fold(group) <==> holders == 1))
  }

  lemma OneMoreFile(frame: map<int, Ohlcv>, group: seq<Ohlcv>, bin: int, holders: nat, frame': map<int, Ohlcv>, group': seq<Ohlcv>)
    requires LoadsAsGroupByIffUnsplit(frame, group, bin, holders)
    requires (bin in frame' <==> |group'| > 0) && (|group'| > 0 ==> frame'[bin] == Fold(group') && Fold(group').volume > 0.0)
    ensures LoadsAsGroupByIffUnsplit(frame + frame', group + group', bin, holders + if |group'| > 0 then 1 else 0)
  {
    if |group| == 0 {
      assert group + group' == group';
    } else if |group'| == 0 {
      assert group + group' == group;
    } else {
      FoldOfConcat(group, group');
    }
  }

  /** Loading several ordered files equals grouping all their minutes on a bucket exactly when only one
      file has minutes of it: keeping the last duplicate drops the earlier file's part of a split bucket. */
  lemma {:induction false} LoadIsGroupByIffUnsplit(files: seq<seq<Row>>, bin: int)
    requires forall i :: 0 <= i < |files| ==> InOrder(files[i]) && Positive(files[i])
    ensures LoadsAsGroupByIffUnsplit(KeepLast(AllRecords(files)), Group(AllRows(files), NextKey(BUCKET), bin), bin,
                                     FilesWith(files, bin))
  {
    if |files| > 0 {
      var before, last := files[..|files| - 1], files[|files| - 1];
      LoadIsGroupByIffUnsplit(before, bin);
      KeepLastConcat(AllRecords(before), Stream(last));
      GroupConcat(AllRows(before), last, NextKey(BUCKET), bin);
      FileLoadsAsGroupBy(last, bin);
      var group := Group(last, NextKey(BUCKET), bin);
      if |group| > 0 {
        GroupVolumeIsPositive(last, NextKey(BUCKET), bin);
      }
      OneMoreFile(KeepLast(AllRecords(before)), Group(AllRows(before), NextKey(BUCKET), bin), bin, FilesWith(before, bin),
                  KeepLast(Stream(last)), group);
    }
  }

  /** Such a split: of two files with a minute each of one bucket, only the second is loaded. */
  lemma SplitBucketLosesAFile(v: Ohlcv, w: Ohlcv)
    requires v.volume > 0.0 && w.volume > 0.0
    ensures var files := [[Row(0, v)], [Row(60000, w)]];
            var (frame, group) := (KeepLast(AllRecords(files)), Group(AllRows(files), NextKey(BUCKET), BUCKET));
            BUCKET in frame && frame[BUCKET] == w && group == [v, w] && frame[BUCKET] != Fold(group)
  {
    var files, first, second := [[Row(0, v)], [Row(60000, w)]], [Row(0, v)], [Row(60000, w)];
    TwoFiles(first, second);
    assert NextKey(BUCKET)(0) == BUCKET == NextKey(BUCKET)(60000);
    OneMinute(Row(0, v));
    OneMinute(Row(60000, w));
    assert (first + second)[..1] == first;
    assert Group(first + second, NextKey(BUCKET), BUCKET) == [v, w];
  }

  lemma OneFileMore(files: seq<seq<Row>>, last: seq<Row>)
    ensures AllRows(files + [last]) == AllRows(files) + last
    ensures AllRecords(files + [last]) == AllRecords(files) + Stream(last)
  {
    assert (files + [last])[..|files|] == files;
  }

  lemma OneFile(rows: seq<Row>)
    ensures AllRows([rows]) == rows && AllRecords([rows]) == Stream(rows)
  {
    assert [rows][..0] == [];
    assert [] + rows == rows && [] + Stream(rows) == Stream(rows);
  }

  lemma TwoFiles(first: seq<Row>, second: seq<Row>)
    ensures AllRows([first, second]) == first + second
    ensures AllRecords([first, second]) == Stream(first) + Stream(second)
  {
    OneFile(first);
    OneFileMore([first], second);
    assert [first] + [second] == [first, second];
  }

  lemma OneMinute(row: Row)
    ensures Stream([row]) == [Row(Next(BUCKET, row.time), row.v)]
    ensures Group([row], NextKey(BUCKET), NextKey(BUCKET)(row.time)) == [row.v]
  {
  }
}
