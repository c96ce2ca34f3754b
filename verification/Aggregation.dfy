/** Minute bars merged into longer bars: by the bar store, and by the backtest's grouping. */
module Aggregation {
  import opened Common

  /** Prices extended with the infinity that stands for a missing low. */
  datatype Price = Fin(value: real) | Inf

  /** A bar as a record whose fields may be missing; `at` is None if its time does not parse. */
  datatype Bar = Bar(
    at: Option<int>, open: Option<real>, high: Option<real>, low: Option<Price>, close: Option<real>,
    volume: Option<int>)

  datatype Resolution = OneMinute | FiveMinutes | FifteenMinutes | OneHour {
    function Minutes(): (m: int)
      ensures m > 0
    {
      match this
      case OneMinute => 1
      case FiveMinutes => 5
      case FifteenMinutes => 15
      case OneHour => 60
    }
  }

  function MinuteOfDay(at: int): (m: int)
    ensures 0 <= m < 1440
  {
    at % DAY / MINUTE
  }

  /** The first minute of the bucket a minute is in. */
  function Cut(minute: int, r: Resolution): int {
    match r
    case OneMinute => minute
    case FiveMinutes => minute / 5 * 5
    case FifteenMinutes => minute / 15 * 15
    case OneHour => minute / 60 * 60
  }

  /** The start of the bucket a time falls in: whole buckets since midnight. */
  function BucketOf(at: int, r: Resolution): int {
    at - at % DAY + Cut(MinuteOfDay(at), r) * MINUTE
  }

  // ---- merging ----

  function High(b: Bar): real {
    if b.high.Some? then b.high.value else 0.0
  }

  /** A low of zero counts as missing. */
  function Low(b: Bar): Price {
    if b.low.Some? && b.low.value != Fin(0.0) then b.low.value else Inf
  }

  function Volume(b: Bar): int {
    if b.volume.Some? then b.volume.value else 0
  }

  function Least(x: Price, y: Price): Price {
    if y == Inf then x else if x == Inf || y.value < x.value then y else x
  }

  function Highest(bs: seq<Bar>): real
    requires bs != []
  {
    if |bs| == 1 then High(bs[0]) else Max(Highest(bs[..|bs| - 1]), High(bs[|bs| - 1]))
  }

  function Lowest(bs: seq<Bar>): Price
    requires bs != []
  {
    if |bs| == 1 then Low(bs[0]) else Least(Lowest(bs[..|bs| - 1]), Low(bs[|bs| - 1]))
  }

  function Total(bs: seq<Bar>): int {
    if bs == [] then 0 else Total(bs[..|bs| - 1]) + Volume(bs[|bs| - 1])
  }

  /** One bar for the bars of a bucket. */
  function Merge(start: int, bs: seq<Bar>): Bar
    requires bs != []
  {
    Bar(Some(start), bs[0].open, Some(Highest(bs)), Some(Lowest(bs)), bs[|bs| - 1].close, Some(Total(bs)))
  }

  // ---- aggregation as a fold ----

  /** The bar a bucket starts with, and the bar after one more of the bucket. */
  function Begin(start: int, b: Bar): Bar {
    Bar(Some(start), b.open, Some(High(b)), Some(Low(b)), b.close, Some(Volume(b)))
  }

  function Absorb(merged: Bar, b: Bar): Bar {
    Bar(merged.at, merged.open, Some(Max(High(merged), High(b))), Some(Least(Low(merged), Low(b))), b.close,
        Some(Volume(merged) + Volume(b)))
  }

  /** The next bar joins the last bucket if it falls in it and starts a new one otherwise. */
  function AddTo(out: seq<Bar>, start: int, b: Bar): seq<Bar> {
    if out != [] && out[|out| - 1].at == Some(start)
    then out[..|out| - 1] + [Absorb(out[|out| - 1], b)]
    else out + [Begin(start, b)]
  }

  function Add(out: seq<Bar>, b: Bar, r: Resolution): seq<Bar> {
    if b.at == None then out else AddTo(out, BucketOf(b.at.value, r), b)
  }

  function Fold(bs: seq<Bar>, r: Resolution): seq<Bar> {
    if bs == [] then [] else Add(Fold(bs[..|bs| - 1], r), bs[|bs| - 1], r)
  }

  /** One-minute bars are returned as they are. */
  function Aggregate(bs: seq<Bar>, r: Resolution): seq<Bar> {
    if r == OneMinute then bs else Fold(bs, r)
  }

  // ---- the loop ----

  lemma MergeAppend(start: int, bs: seq<Bar>, b: Bar)
    requires bs != []
    ensures Merge(start, bs + [b]) == Absorb(Merge(start, bs), b)
  {
    assert (bs + [b])[..|bs|] == bs;
    LowestMeaningful(bs);
  }

  lemma {:induction false} LowestMeaningful(bs: seq<Bar>)
    requires bs != []
    ensures Lowest(bs) != Fin(0.0)
  {
    if |bs| > 1 {
      LowestMeaningful(bs[..|bs| - 1]);
    }
  }

  lemma MergeOne(start: int, b: Bar)
    ensures Merge(start, [b]) == Begin(start, b)
  {
    assert [b][..0] == [];
    assert Total([b]) == Total([]) + Volume(b);
  }

  /** What has been output, and the open bucket if there is one. */
  function Flush(result: seq<Bar>, start: int, bucket: seq<Bar>): seq<Bar> {
    if bucket == [] then result else result + [Merge(start, bucket)]
  }

  lemma FlushAdd(result: seq<Bar>, start: int, bucket: seq<Bar>, b: Bar, r: Resolution)
    requires b.at.Some? && bucket != []
    ensures var next := BucketOf(b.at.value, r);
            Add(Flush(result, start, bucket), b, r) ==
            if next == start then Flush(result, start, bucket + [b])
            else Flush(Flush(result, start, bucket), next, [b])
  {
    MergeAppend(start, bucket, b);
    MergeOne(BucketOf(b.at.value, r), b);
    var out := result + [Merge(start, bucket)];
    assert out[..|out| - 1] == result;
  }

  method AggregateBars(bs: seq<Bar>, r: Resolution) returns (result: seq<Bar>)
    ensures result == Aggregate(bs, r)
  {
    if bs == [] {
      return [];
    }
    if r == OneMinute {
      return bs;
    }
    result := [];
    var start, bucket: seq<Bar> := 0, [];
    for i := 0 to |bs|
      invariant bucket == [] ==> result == []
      invariant Flush(result, start, bucket) == Fold(bs[..i], r)
    {
      assert bs[..i + 1][..i] == bs[..i];
      var b := bs[i];
      if b.at != None {
        var next := BucketOf(b.at.value, r);
        if bucket == [] {
          MergeOne(next, b);
        } else {
          FlushAdd(result, start, bucket, b, r);
        }
        if bucket != [] && start != next {
          result := result + [Merge(start, bucket)];
          bucket := [];
        }
        start, bucket := next, bucket + [b];
      }
    }
    assert bs[..|bs|] == bs;
    if bucket != [] {
      result := result + [Merge(start, bucket)];
    }
  }

  /** The merged high is the largest of the bucket's highs, a missing one counting as zero. */
  lemma {:induction false} HighestIsMax(bs: seq<Bar>)
    requires bs != []
    ensures forall b :: b in bs ==> High(b) <= Highest(bs)
    ensures exists b :: b in bs && High(b) == Highest(bs)
  {
    if |bs| == 1 {
      assert bs[0] in bs;
    } else {
      var init, last := bs[..|bs| - 1], bs[|bs| - 1];
      HighestIsMax(init);
      var top :| top in init && High(top) == Highest(init);
      assert bs == init + [last];
      assert top in bs && last in bs;
    }
  }

  predicate AtMost(x: Price, y: Price) {
    y == Inf || (x.Fin? && x.value <= y.value)
  }

  /** The merged low is the smallest of the bucket's lows, missing and zero ones counting as infinite. */
  lemma {:induction false} LowestIsMin(bs: seq<Bar>)
    requires bs != []
    ensures forall b :: b in bs ==> AtMost(Lowest(bs), Low(b))
    ensures exists b :: b in bs && Low(b) == Lowest(bs)
  {
    if |bs| == 1 {
      assert bs[0] in bs;
    } else {
      var init, last := bs[..|bs| - 1], bs[|bs| - 1];
      LowestIsMin(init);
      var least :| least in init && Low(least) == Lowest(init);
      assert bs == init + [last];
      assert least in bs && last in bs;
    }
  }

  // ---- the tower ----

  /** The cut is the multiple of the bucket length at or below the minute, and the only one close to it. */
  lemma CutUnique(minute: int, r: Resolution, n: int)
    ensures n * r.Minutes() <= minute < (n + 1) * r.Minutes() <==> Cut(minute, r) == n * r.Minutes()
  {
    match r
    case OneMinute =>
    case FiveMinutes =>
    case FifteenMinutes =>
    case OneHour =>
  }

  /** The number of finer buckets in a coarser one. */
  function Ratio(fine: Resolution, coarse: Resolution): (n: int)
    requires fine.Minutes() <= coarse.Minutes()
    ensures n * fine.Minutes() == coarse.Minutes()
  {
    coarse.Minutes() / fine.Minutes()
  }

  lemma CutNests(minute: int, fine: Resolution, coarse: Resolution)
    requires 0 <= minute && fine.Minutes() <= coarse.Minutes()
    ensures Cut(Cut(minute, fine), coarse) == Cut(minute, coarse)
    ensures 0 <= Cut(minute, fine) <= minute
  {
    var n, k := minute / coarse.Minutes(), minute / fine.Minutes();
    CutUnique(minute, coarse, n);
    CutUnique(minute, fine, k);
    CutUnique(k * fine.Minutes(), coarse, n);
    CutUnique(minute, fine, n * Ratio(fine, coarse));
  }

  lemma MinuteOfStart(day: int, minute: int)
    requires 0 <= minute < 1440
    ensures var at := day * DAY + minute * MINUTE; MinuteOfDay(at) == minute && at - at % DAY == day * DAY
  {
    var at := day * DAY + minute * MINUTE;
    assert 0 <= minute * MINUTE < DAY;
    assert at % DAY == minute * MINUTE;
  }

  /** Buckets of the finer resolution lie within buckets of the coarser one. */
  lemma BucketsNest(at: int, fine: Resolution, coarse: Resolution)
    requires fine.Minutes() <= coarse.Minutes()
    ensures BucketOf(BucketOf(at, fine), coarse) == BucketOf(at, coarse)
  {
    CutNests(MinuteOfDay(at), fine, coarse);
    assert at - at % DAY == at / DAY * DAY;
    MinuteOfStart(at / DAY, Cut(MinuteOfDay(at), fine));
  }

  /** Bars the fold puts out have every field a merge needs, and a low of zero never among them. */
  predicate Merged(b: Bar) {
    b.at.Some? && b.high.Some? && b.low.Some? && b.volume.Some? && b.low.value != Fin(0.0)
  }

  lemma {:induction false} FoldMerged(bs: seq<Bar>, r: Resolution)
    ensures forall b :: b in Fold(bs, r) ==> Merged(b)
  {
    if bs != [] {
      FoldMerged(bs[..|bs| - 1], r);
    }
  }

  /** Merging two bars first and then adding the result is adding them one by one. */
  lemma AbsorbTwice(out: seq<Bar>, start: int, l: Bar, b: Bar)
    requires Merged(l)
    ensures AddTo(out, start, Absorb(l, b)) == AddTo(AddTo(out, start, l), start, b)
  {
    if out != [] && out[|out| - 1].at == Some(start) {
      var last := out[|out| - 1];
      assert Absorb(last, Absorb(l, b)) == Absorb(Absorb(last, l), b);
      var mid := out[..|out| - 1] + [Absorb(last, l)];
      assert mid[..|mid| - 1] == out[..|out| - 1];
    } else {
      assert Begin(start, Absorb(l, b)) == Absorb(Begin(start, l), b);
      var mid := out + [Begin(start, l)];
      assert mid[..|mid| - 1] == out;
    }
  }

  lemma FoldAppend(bs: seq<Bar>, b: Bar, r: Resolution)
    ensures Fold(bs + [b], r) == Add(Fold(bs, r), b, r)
  {
    assert (bs + [b])[..|bs|] == bs;
  }

  /** Growing the last finer bar is adding the bar to the coarser ones. */
  lemma TowerJoin(rest: seq<Bar>, l: Bar, b: Bar, r: Resolution)
    requires Merged(l) && b.at.Some? && BucketOf(l.at.value, r) == BucketOf(b.at.value, r)
    ensures Fold(rest + [Absorb(l, b)], r) == Add(Fold(rest + [l], r), b, r)
  {
    FoldAppend(rest, l, r);
    FoldAppend(rest, Absorb(l, b), r);
    AbsorbTwice(Fold(rest, r), BucketOf(b.at.value, r), l, b);
  }

  /** So is starting a new one. */
  lemma TowerBegin(out: seq<Bar>, start: int, b: Bar, r: Resolution)
    requires b.at.Some? && BucketOf(start, r) == BucketOf(b.at.value, r)
    ensures Fold(out + [Begin(start, b)], r) == Add(Fold(out, r), b, r)
  {
    FoldAppend(out, Begin(start, b), r);
  }

  /** Adding to the finer bars first makes no difference to the coarser ones. */
  lemma TowerAdd(out: seq<Bar>, b: Bar, fine: Resolution, coarse: Resolution)
    requires fine.Minutes() <= coarse.Minutes() && b.at.Some? && forall l :: l in out ==> Merged(l)
    ensures Fold(AddTo(out, BucketOf(b.at.value, fine), b), coarse) == Add(Fold(out, coarse), b, coarse)
  {
    var start := BucketOf(b.at.value, fine);
    BucketsNest(b.at.value, fine, coarse);
    if out != [] && out[|out| - 1].at == Some(start) {
      var rest, l := out[..|out| - 1], out[|out| - 1];
      assert out == rest + [l];
      TowerJoin(rest, l, b, coarse);
    } else {
      TowerBegin(out, start, b, coarse);
    }
  }

  lemma {:induction false} FoldTower(bs: seq<Bar>, fine: Resolution, coarse: Resolution)
    requires fine.Minutes() <= coarse.Minutes()
    ensures Fold(Fold(bs, fine), coarse) == Fold(bs, coarse)
  {
    if bs != [] {
      var init, b := bs[..|bs| - 1], bs[|bs| - 1];
      FoldTower(init, fine, coarse);
      if b.at != None {
        FoldMerged(init, fine);
        TowerAdd(Fold(init, fine), b, fine, coarse);
      }
    }
  }

  /** Going through a finer resolution gives the bars of direct aggregation, for bars in any order, with
      missing fields and unreadable times. */
  lemma Tower(bs: seq<Bar>, fine: Resolution, coarse: Resolution)
    requires fine.Minutes() <= coarse.Minutes()
    ensures Aggregate(Aggregate(bs, fine), coarse) == Aggregate(bs, coarse)
  {
    if fine != OneMinute {
      FoldTower(bs, fine, coarse);
    }
  }

  // ---- conservation ----

  function Readable(bs: seq<Bar>): seq<Bar> {
    if bs == [] then []
    else Readable(bs[..|bs| - 1]) + if bs[|bs| - 1].at.Some? then [bs[|bs| - 1]] else []
  }

  lemma TotalAppend(bs: seq<Bar>, b: Bar)
    ensures Total(bs + [b]) == Total(bs) + Volume(b)
  {
    assert (bs + [b])[..|bs|] == bs;
  }

  lemma AddVolume(out: seq<Bar>, start: int, b: Bar)
    ensures Total(AddTo(out, start, b)) == Total(out) + Volume(b)
  {
    if out != [] && out[|out| - 1].at == Some(start) {
      var rest, l := out[..|out| - 1], out[|out| - 1];
      assert out == rest + [l];
      TotalAppend(rest, l);
      TotalAppend(rest, Absorb(l, b));
    } else {
      TotalAppend(out, Begin(start, b));
    }
  }

  /** The bars with readable times keep their total volume. */
  lemma {:induction false} AggregateVolume(bs: seq<Bar>, r: Resolution)
    ensures Total(Fold(bs, r)) == Total(Readable(bs))
  {
    if bs != [] {
      var init, b := bs[..|bs| - 1], bs[|bs| - 1];
      AggregateVolume(init, r);
      if b.at == None {
        assert Readable(bs) == Readable(init) && Fold(bs, r) == Fold(init, r);
      } else {
        var out, start := Fold(init, r), BucketOf(b.at.value, r);
        assert Fold(bs, r) == AddTo(out, start, b) && Readable(bs) == Readable(init) + [b];
        AddVolume(out, start, b);
        TotalAppend(Readable(init), b);
      }
    }
  }

  /** Neighbouring output bars belong to different buckets, and each is stamped with a bucket start. */
  lemma {:induction false} BucketsAlternate(bs: seq<Bar>, r: Resolution)
    ensures forall i :: 0 < i < |Fold(bs, r)| ==> Fold(bs, r)[i - 1].at != Fold(bs, r)[i].at
    ensures forall b :: b in Fold(bs, r) ==> b.at.Some? && BucketOf(b.at.value, r) == b.at.value
  {
    if bs != [] {
      var init, b := bs[..|bs| - 1], bs[|bs| - 1];
      BucketsAlternate(init, r);
      if b.at != None {
        BucketsNest(b.at.value, r, r);
        var out := Fold(init, r);
        assert out != [] ==> out[|out| - 1] in out;
      }
    }
  }

  lemma CutIs(minute: int, r: Resolution) returns (k: nat)
    requires minute >= 0
    ensures Cut(minute, r) == k * r.Minutes() <= minute < (k + 1) * r.Minutes()
  {
    k := minute / r.Minutes();
    CutUnique(minute, r, k);
  }

  /** A time's bucket is the stretch of the resolution's length, counted from midnight, that it falls in. */
  lemma BucketIs(at: int, r: Resolution) returns (k: nat)
    ensures var start, length := at / DAY * DAY + k * (r.Minutes() * 60_000_000), r.Minutes() * 60_000_000;
            BucketOf(at, r) == start <= at < start + length
    ensures DAY == 24 * 60 * 60_000_000
  {
    var minute := MinuteOfDay(at);
    k := CutIs(minute, r);
    assert at == at / DAY * DAY + at % DAY && at % DAY == minute * MINUTE + at % DAY % MINUTE;
    assert BucketOf(at, r) - at / DAY * DAY == Cut(minute, r) * MINUTE;
    assert k * (r.Minutes() * MINUTE) == k * r.Minutes() * MINUTE;
    assert (k + 1) * r.Minutes() == k * r.Minutes() + r.Minutes();
  }

  // ---- the buckets ----

  function Joined(gs: seq<seq<Bar>>): seq<Bar> {
    if gs == [] then [] else Joined(gs[..|gs| - 1]) + gs[|gs| - 1]
  }

  /** The bar of a bucket: open of its first bar, close of its last, extremes and total volume, missing highs
      counting as zero, missing and zero lows as infinite. */
  predicate SumsUp(o: Bar, bs: seq<Bar>) {
    && bs != [] && o.open == bs[0].open && o.close == bs[|bs| - 1].close && o.volume == Some(Total(bs))
    && o.high.Some? && (forall b :: b in bs ==> High(b) <= o.high.value)
    && (exists b :: b in bs && High(b) == o.high.value)
    && o.low.Some? && (forall b :: b in bs ==> AtMost(o.low.value, Low(b)))
    && (exists b :: b in bs && Low(b) == o.low.value)
  }

  predicate InBucket(bs: seq<Bar>, start: int, r: Resolution) {
    forall b :: b in bs ==> b.at.Some? && BucketOf(b.at.value, r) == start
  }

  lemma MergeSumsUp(start: int, bs: seq<Bar>)
    requires bs != []
    ensures SumsUp(Merge(start, bs), bs)
  {
    HighestIsMax(bs);
    LowestIsMin(bs);
  }

  /** Group by group, the output bars are merges of bars of one bucket. */
  predicate Buckets(out: seq<Bar>, gs: seq<seq<Bar>>, r: Resolution) {
    |out| == |gs| && forall i :: 0 <= i < |out| ==> BucketBar(out[i], gs[i], r)
  }

  predicate BucketBar(o: Bar, bs: seq<Bar>, r: Resolution) {
    bs != [] && o.at.Some? && InBucket(bs, o.at.value, r) && o == Merge(o.at.value, bs)
  }

  lemma JoinedAppend(gs: seq<seq<Bar>>, g: seq<Bar>)
    ensures Joined(gs + [g]) == Joined(gs) + g
  {
    assert (gs + [g])[..|gs|] == gs;
  }

  lemma BucketsAppend(out: seq<Bar>, gs: seq<seq<Bar>>, o: Bar, g: seq<Bar>, r: Resolution)
    requires Buckets(out, gs, r) && BucketBar(o, g, r)
    ensures Buckets(out + [o], gs + [g], r)
  {
  }

  lemma AbsorbBucket(o: Bar, g: seq<Bar>, b: Bar, r: Resolution)
    requires BucketBar(o, g, r) && b.at.Some? && o.at == Some(BucketOf(b.at.value, r))
    ensures BucketBar(Absorb(o, b), g + [b], r)
  {
    MergeAppend(o.at.value, g, b);
  }

  lemma BeginBucket(b: Bar, r: Resolution)
    requires b.at.Some?
    ensures BucketBar(Begin(BucketOf(b.at.value, r), b), [b], r)
  {
    MergeOne(BucketOf(b.at.value, r), b);
  }

  lemma BucketsAdd(out: seq<Bar>, gs: seq<seq<Bar>>, b: Bar, r: Resolution) returns (gs': seq<seq<Bar>>)
    requires Buckets(out, gs, r) && b.at.Some?
    ensures Buckets(Add(out, b, r), gs', r) && Joined(gs') == Joined(gs) + [b]
  {
    var start, n := BucketOf(b.at.value, r), |out| - 1;
    if out != [] && out[n].at == Some(start) {
      var rest, g := gs[..n], gs[n];
      assert gs == rest + [g] && Buckets(out[..n], rest, r);
      gs' := rest + [g + [b]];
      AbsorbBucket(out[n], g, b, r);
      BucketsAppend(out[..n], rest, Absorb(out[n], b), g + [b], r);
      JoinedAppend(rest, g);
      JoinedAppend(rest, g + [b]);
      assert Joined(rest) + g + [b] == Joined(rest) + (g + [b]);
    } else {
      gs' := gs + [[b]];
      BeginBucket(b, r);
      BucketsAppend(out, gs, Begin(start, b), [b], r);
      JoinedAppend(gs, [b]);
    }
  }

  /** Every output bar sums up a run of readable bars of one bucket, and the runs joined are all of them. */
  lemma {:induction false} FoldBuckets(bs: seq<Bar>, r: Resolution) returns (gs: seq<seq<Bar>>)
    ensures Buckets(Fold(bs, r), gs, r) && Joined(gs) == Readable(bs)
    ensures forall i :: 0 <= i < |gs| ==> SumsUp(Fold(bs, r)[i], gs[i])
  {
    gs := [];
    if bs != [] {
      var init, b := bs[..|bs| - 1], bs[|bs| - 1];
      gs := FoldBuckets(init, r);
      if b.at != None {
        gs := BucketsAdd(Fold(init, r), gs, b, r);
      }
    }
    var out := Fold(bs, r);
    forall i | 0 <= i < |gs|
      ensures SumsUp(out[i], gs[i])
    {
      assert BucketBar(out[i], gs[i], r);
      MergeSumsUp(out[i].at.value, gs[i]);
    }
  }

  // ---- the backtest's grouping ----

  /** Bars the backtest loads have all fields. */
  datatype Candle = Candle(at: int, open: real, high: real, low: real, close: real, volume: int)

  /** The minute within the hour is cut to the bucket; the hour and everything above it stay. */
  function GroupKey(at: int, r: Resolution): int {
    at - at % HOUR + Cut(at % HOUR / MINUTE, r) * MINUTE
  }

  type Group = g: seq<Candle> | g != [] witness [Candle(0, 0.0, 0.0, 0.0, 0.0, 0)]

  predicate Joins(gs: seq<Group>, c: Candle, r: Resolution) {
    gs != [] && GroupKey(gs[|gs| - 1][0].at, r) == GroupKey(c.at, r)
  }

  function Place(gs: seq<Group>, c: Candle, joins: bool): seq<Group>
    requires joins ==> gs != []
  {
    if joins then gs[..|gs| - 1] + [gs[|gs| - 1] + [c]] else gs + [[c]]
  }

  /** Runs of neighbouring candles with equal keys. */
  function GroupBy(cs: seq<Candle>, r: Resolution): seq<Group> {
    if cs == [] then []
    else
      var gs, c := GroupBy(cs[..|cs| - 1], r), cs[|cs| - 1];
      Place(gs, c, Joins(gs, c, r))
  }

  function TopHigh(g: Group): real {
    if |g| == 1 then g[0].high else Max(TopHigh(g[..|g| - 1]), g[|g| - 1].high)
  }

  function BottomLow(g: Group): real {
    if |g| == 1 then g[0].low
    else if g[|g| - 1].low < BottomLow(g[..|g| - 1]) then g[|g| - 1].low else BottomLow(g[..|g| - 1])
  }

  function VolumeOf(g: seq<Candle>): int {
    if g == [] then 0 else VolumeOf(g[..|g| - 1]) + g[|g| - 1].volume
  }

  function GroupCandle(g: Group): Candle {
    Candle(g[0].at, g[0].open, TopHigh(g), BottomLow(g), g[|g| - 1].close, VolumeOf(g))
  }

  function Flatten(gs: seq<Group>): seq<Candle> {
    if gs == [] then [] else Flatten(gs[..|gs| - 1]) + gs[|gs| - 1]
  }

  predicate OneKey(g: Group, r: Resolution) {
    forall c: Candle :: c in g ==> GroupKey(c.at, r) == GroupKey(g[0].at, r)
  }

  predicate KeysDiffer(gs: seq<Group>, i: nat, r: Resolution)
    requires i + 1 < |gs|
  {
    GroupKey(gs[i][0].at, r) != GroupKey(gs[i + 1][0].at, r)
  }

  /** The groups cut the candles into runs of equal keys that no neighbour continues. */
  predicate Groups(gs: seq<Group>, cs: seq<Candle>, r: Resolution) {
    && Flatten(gs) == cs
    && (forall i :: 0 <= i < |gs| ==> OneKey(gs[i], r))
    && (forall i :: 0 <= i < |gs| - 1 ==> KeysDiffer(gs, i, r))
  }

  /** The candle of a group: time and open of its first, close of its last, extremes and total volume. */
  predicate Summarizes(c: Candle, g: Group) {
    && c.at == g[0].at && c.open == g[0].open && c.close == g[|g| - 1].close && c.volume == VolumeOf(g)
    && (forall x: Candle :: x in g ==> x.high <= c.high && c.low <= x.low)
    && (exists x: Candle :: x in g && x.high == c.high)
    && (exists x: Candle :: x in g && x.low == c.low)
  }

  predicate Candles(result: seq<Candle>, gs: seq<Group>) {
    |result| == |gs| && forall i :: 0 <= i < |gs| ==> Summarizes(result[i], gs[i])
  }

  lemma {:induction false} HighOfGroup(g: Group)
    ensures forall x: Candle :: x in g ==> x.high <= TopHigh(g)
    ensures exists x: Candle :: x in g && x.high == TopHigh(g)
  {
    if |g| == 1 {
      assert g[0] in g;
    } else {
      var init: Group, last := g[..|g| - 1], g[|g| - 1];
      HighOfGroup(init);
      var x: Candle :| x in init && x.high == TopHigh(init);
      assert g == init + [last] && x in g && last in g;
    }
  }

  lemma {:induction false} LowIsMin(g: Group)
    ensures forall x: Candle :: x in g ==> BottomLow(g) <= x.low
    ensures exists x: Candle :: x in g && x.low == BottomLow(g)
  {
    if |g| == 1 {
      assert g[0] in g;
    } else {
      var init: Group, last := g[..|g| - 1], g[|g| - 1];
      LowIsMin(init);
      var x: Candle :| x in init && x.low == BottomLow(init);
      assert g == init + [last] && x in g && last in g;
    }
  }

  lemma GroupSummary(g: Group)
    ensures Summarizes(GroupCandle(g), g)
  {
    HighOfGroup(g);
    LowIsMin(g);
  }

  lemma FlattenAppend(gs: seq<Group>, g: Group)
    ensures Flatten(gs + [g]) == Flatten(gs) + g
  {
    assert (gs + [g])[..|gs|] == gs;
  }

  /** Appending a group with one key, different from its neighbour's, keeps a cut into runs. */
  lemma GroupsSnoc(gs: seq<Group>, cs: seq<Candle>, g: Group, r: Resolution)
    requires Groups(gs, cs, r) && OneKey(g, r) && !Joins(gs, g[0], r)
    ensures Groups(gs + [g], cs + g, r)
  {
    FlattenAppend(gs, g);
    forall i | 0 <= i < |gs + [g]| - 1
      ensures KeysDiffer(gs + [g], i, r)
    {
      assert i < |gs| - 1 ==> KeysDiffer(gs, i, r);
    }
  }

  /** And every cut into runs has come about so. */
  lemma GroupsInit(rest: seq<Group>, g: Group, cs: seq<Candle>, r: Resolution)
    requires Groups(rest + [g], cs, r)
    ensures cs == Flatten(rest) + g && Groups(rest, Flatten(rest), r) && OneKey(g, r) && !Joins(rest, g[0], r)
  {
    var gs := rest + [g];
    FlattenAppend(rest, g);
    assert gs[|rest|] == g;
    forall i | 0 <= i < |rest|
      ensures OneKey(rest[i], r) && (i < |rest| - 1 ==> KeysDiffer(rest, i, r))
    {
      assert gs[i] == rest[i] && KeysDiffer(gs, i, r);
    }
    assert rest != [] ==> KeysDiffer(gs, |rest| - 1, r);
  }

  /** A further candle begins a group, or goes into the last one. */
  lemma GroupsPlace(gs: seq<Group>, cs: seq<Candle>, c: Candle, r: Resolution)
    requires Groups(gs, cs, r)
    ensures Groups(Place(gs, c, Joins(gs, c, r)), cs + [c], r)
  {
    if Joins(gs, c, r) {
      var rest, g := gs[..|gs| - 1], gs[|gs| - 1];
      assert gs == rest + [g];
      GroupsInit(rest, g, cs, r);
      GroupsSnoc(rest, Flatten(rest), g + [c], r);
      assert Flatten(rest) + (g + [c]) == cs + [c];
    } else {
      GroupsSnoc(gs, cs, [c], r);
    }
  }

  /** The grouping function cuts at exactly the changes of key. */
  lemma {:induction false} GroupByGroups(cs: seq<Candle>, r: Resolution)
    ensures Groups(GroupBy(cs, r), cs, r)
  {
    if cs != [] {
      var init, c := cs[..|cs| - 1], cs[|cs| - 1];
      GroupByGroups(init, r);
      GroupsPlace(GroupBy(init, r), init, c, r);
      assert cs == init + [c];
    }
  }

  lemma GroupByLast(cs: seq<Candle>, c: Candle, r: Resolution)
    ensures GroupBy(cs + [c], r) == Place(GroupBy(cs, r), c, Joins(GroupBy(cs, r), c, r))
  {
    assert (cs + [c])[..|cs|] == cs;
  }

  lemma PlaceIn(rest: seq<Group>, g: Group, c: Candle, r: Resolution)
    requires GroupKey(g[0].at, r) == GroupKey(c.at, r)
    ensures Place(rest + [g], c, Joins(rest + [g], c, r)) == rest + [g + [c]]
  {
    assert (rest + [g])[..|rest|] == rest;
  }

  /** The last group is what its candles have been placed into, one after the other. */
  lemma {:induction false} GroupFills(cs: seq<Candle>, g: Group, r: Resolution)
    requires OneKey(g, r) && !Joins(GroupBy(cs, r), g[0], r)
    ensures GroupBy(cs + g, r) == GroupBy(cs, r) + [g]
  {
    var init, last := g[..|g| - 1], g[|g| - 1];
    assert g == init + [last] && cs + g == (cs + init) + [last];
    GroupByLast(cs + init, last, r);
    if init == [] {
      assert cs + init == cs;
    } else {
      GroupFills(cs, init, r);
      PlaceIn(GroupBy(cs, r), init, last, r);
    }
  }

  /** There is no other way to cut them. */
  lemma {:induction false} GroupingUnique(gs: seq<Group>, cs: seq<Candle>, r: Resolution)
    requires Groups(gs, cs, r)
    ensures gs == GroupBy(cs, r)
  {
    if gs != [] {
      var rest, g := gs[..|gs| - 1], gs[|gs| - 1];
      assert gs == rest + [g];
      GroupsInit(rest, g, cs, r);
      GroupingUnique(rest, Flatten(rest), r);
      GroupFills(Flatten(rest), g, r);
    }
  }

  /** The candles from `i` on that carry the key of the first one. */
  method TakeGroup(cs: seq<Candle>, i: nat, r: Resolution) returns (group: Group, next: nat)
    requires i < |cs|
    ensures i < next <= |cs| && group == cs[i..next] && OneKey(group, r)
    ensures next < |cs| ==> GroupKey(cs[next].at, r) != GroupKey(group[0].at, r)
  {
    var key := GroupKey(cs[i].at, r);
    group, next := [cs[i]], i + 1;
    while next < |cs| && GroupKey(cs[next].at, r) == key
      invariant i < next <= |cs| && group == cs[i..next]
      invariant GroupKey(group[0].at, r) == key && OneKey(group, r)
    {
      group, next := group + [cs[next]], next + 1;
    }
  }

  /** One candle per run of equal keys, the runs found by comparing neighbours. */
  method AggregateCandles(cs: seq<Candle>, r: Resolution) returns (result: seq<Candle>)
    ensures exists gs: seq<Group> :: Groups(gs, cs, r) && Candles(result, gs)
    ensures Candles(result, GroupBy(cs, r))
  {
    result := [];
    ghost var gs: seq<Group> := [];
    var i := 0;
    while i < |cs|
      invariant 0 <= i <= |cs|
      invariant Groups(gs, cs[..i], r) && Candles(result, gs)
      invariant i < |cs| ==> !Joins(gs, cs[i], r)
    {
      var group, next := TakeGroup(cs, i, r);
      GroupSummary(group);
      GroupsSnoc(gs, cs[..i], group, r);
      assert cs[..i] + group == cs[..next];
      gs, i, result := gs + [group], next, result + [GroupCandle(group)];
    }
    assert cs[..|cs|] == cs;
    GroupingUnique(gs, cs, r);
  }

  /** A candle as a record of the bar store. */
  function AsBar(c: Candle): Bar {
    Bar(Some(c.at), Some(c.open), Some(c.high), Some(Fin(c.low)), Some(c.close), Some(c.volume))
  }

  function AsBars(cs: seq<Candle>): (bs: seq<Bar>)
    ensures |bs| == |cs|
    ensures forall i :: 0 <= i < |cs| ==> bs[i] == AsBar(cs[i])
  {
    if cs == [] then [] else AsBars(cs[..|cs| - 1]) + [AsBar(cs[|cs| - 1])]
  }

  lemma HourOf(at: int)
    ensures at % DAY % HOUR == at % HOUR
    ensures MinuteOfDay(at) == 60 * (at % DAY / HOUR) + at % HOUR / MINUTE
  {
    var t := at % DAY;
    assert at == (24 * (at / DAY) + t / HOUR) * HOUR + t % HOUR;
  }

  /** Cutting the minute of the hour cuts the minute of the day, buckets being parts of an hour. */
  lemma CutWithinHour(hour: int, minute: int, r: Resolution)
    ensures Cut(60 * hour + minute, r) == 60 * hour + Cut(minute, r)
  {
    var n := minute / r.Minutes();
    CutUnique(minute, r, n);
    CutUnique(60 * hour + minute, r, hour * Ratio(r, OneHour) + n);
  }

  lemma KeyIsBucket(at: int, r: Resolution)
    ensures GroupKey(at, r) == BucketOf(at, r)
  {
    var hour, minute := at % DAY / HOUR, at % HOUR / MINUTE;
    assert MinuteOfDay(at) == 60 * hour + minute && at % DAY == hour * HOUR + at % HOUR by {
      HourOf(at);
    }
    CutWithinHour(hour, minute, r);
  }

  /** Group by group, the store's bars are the merges of the groups. */
  predicate Merges(bs: seq<Bar>, gs: seq<Group>) {
    |bs| == |gs| && forall i :: 0 <= i < |gs| ==> IsMerge(bs[i], gs[i])
  }

  predicate IsMerge(b: Bar, g: Group) {
    b.at.Some? && b == Merge(b.at.value, AsBars(g))
  }

  lemma MergeGrows(b: Bar, g: Group, c: Candle)
    requires IsMerge(b, g)
    ensures IsMerge(Absorb(b, AsBar(c)), g + [c])
  {
    MergeAppend(b.at.value, AsBars(g), AsBar(c));
    assert AsBars(g + [c]) == AsBars(g) + [AsBar(c)];
  }

  lemma MergeBegins(start: int, c: Candle)
    ensures IsMerge(Begin(start, AsBar(c)), [c])
  {
    MergeOne(start, AsBar(c));
    assert AsBars([c]) == [AsBar(c)];
  }

  lemma MergesSnoc(bs: seq<Bar>, gs: seq<Group>, b: Bar, g: Group)
    requires Merges(bs, gs) && IsMerge(b, g)
    ensures Merges(bs + [b], gs + [g])
  {
  }

  /** The next candle goes into the same group on both sides. */
  lemma MergesStep(bs: seq<Bar>, gs: seq<Group>, c: Candle, start: int, joins: bool)
    requires Merges(bs, gs) && (joins <==> bs != [] && bs[|bs| - 1].at == Some(start))
    ensures Merges(AddTo(bs, start, AsBar(c)), Place(gs, c, joins))
  {
    if joins {
      var n := |bs| - 1;
      MergeGrows(bs[n], gs[n], c);
      MergesSnoc(bs[..n], gs[..n], Absorb(bs[n], AsBar(c)), gs[n] + [c]);
    } else {
      MergeBegins(start, c);
      MergesSnoc(bs, gs, Begin(start, AsBar(c)), [c]);
    }
  }

  /** Both sides end in the bucket that starts at `start`. */
  predicate EndIn(bs: seq<Bar>, gs: seq<Group>, start: int, r: Resolution) {
    bs != [] && gs != [] && bs[|bs| - 1].at == Some(start) && GroupKey(gs[|gs| - 1][0].at, r) == start
  }

  lemma EndStep(bs: seq<Bar>, gs: seq<Group>, c: Candle, r: Resolution)
    requires (bs == [] && gs == []) || exists start :: EndIn(bs, gs, start, r)
    ensures Joins(gs, c, r) <==> bs != [] && bs[|bs| - 1].at == Some(BucketOf(c.at, r))
    ensures EndIn(AddTo(bs, BucketOf(c.at, r), AsBar(c)), Place(gs, c, Joins(gs, c, r)), BucketOf(c.at, r), r)
  {
    KeyIsBucket(c.at, r);
  }

  lemma {:induction false} GroupsMerge(cs: seq<Candle>, r: Resolution)
    ensures Merges(Fold(AsBars(cs), r), GroupBy(cs, r))
    ensures cs != [] ==> EndIn(Fold(AsBars(cs), r), GroupBy(cs, r), BucketOf(cs[|cs| - 1].at, r), r)
  {
    if cs != [] {
      var init, c := cs[..|cs| - 1], cs[|cs| - 1];
      GroupsMerge(init, r);
      FoldAppend(AsBars(init), AsBar(c), r);
      var bs, gs := Fold(AsBars(init), r), GroupBy(init, r);
      EndStep(bs, gs, c, r);
      MergesStep(bs, gs, c, BucketOf(c.at, r), Joins(gs, c, r));
    }
  }

  /** Every field but the time stamp is the same. */
  predicate SameBar(b: Bar, c: Candle) {
    b.(at := Some(c.at)) == AsBar(c)
  }

  lemma {:induction false} SameExtremes(g: Group)
    ensures Highest(AsBars(g)) == TopHigh(g) && Total(AsBars(g)) == VolumeOf(g)
  {
    if |g| == 1 {
      assert Total(AsBars(g)[..0]) == 0 && VolumeOf(g[..0]) == 0;
    } else {
      SameExtremes(g[..|g| - 1]);
      assert AsBars(g)[..|g| - 1] == AsBars(g[..|g| - 1]);
    }
  }

  predicate HasZeroLow(g: Group) {
    exists c: Candle :: c in g && c.low == 0.0
  }

  /** The grouping takes a low of zero as a price, the store as missing. */
  lemma {:induction false} LowOfGroup(g: Group)
    requires forall c: Candle :: c in g ==> c.low >= 0.0
    ensures if HasZeroLow(g) then BottomLow(g) == 0.0 else Lowest(AsBars(g)) == Fin(BottomLow(g))
  {
    if |g| == 1 {
      assert g[0] in g;
    } else {
      var init: Group, c := g[..|g| - 1], g[|g| - 1];
      assert c in g;
      LowOfGroup(init);
      BottomNonNegative(init);
      assert HasZeroLow(g) <==> HasZeroLow(init) || c.low == 0.0 by {
        assert g == init + [c];
      }
      assert AsBars(g)[..|g| - 1] == AsBars(init);
    }
  }

  lemma {:induction false} BottomNonNegative(g: Group)
    requires forall c: Candle :: c in g ==> c.low >= 0.0
    ensures BottomLow(g) >= 0.0
  {
    assert g[|g| - 1] in g;
    if |g| > 1 {
      BottomNonNegative(g[..|g| - 1]);
    }
  }

  predicate Somewhere(gs: seq<Group>, c: Candle) {
    exists i :: 0 <= i < |gs| && c in gs[i]
  }

  lemma SomewherePlaced(gs: seq<Group>, last: Candle, joins: bool, c: Candle)
    requires joins ==> gs != []
    ensures Somewhere(Place(gs, last, joins), c) <==> Somewhere(gs, c) || c == last
  {
    var all := Place(gs, last, joins);
    assert last in all[|all| - 1];
    if i :| 0 <= i < |gs| && c in gs[i] {
      assert c in all[i];
    }
  }

  lemma {:induction false} GroupMembers(cs: seq<Candle>, r: Resolution, c: Candle)
    ensures c in cs <==> Somewhere(GroupBy(cs, r), c)
  {
    if cs != [] {
      var init, last := cs[..|cs| - 1], cs[|cs| - 1];
      GroupMembers(init, r, c);
      assert cs == init + [last];
      SomewherePlaced(GroupBy(init, r), last, Joins(GroupBy(init, r), last, r), c);
    }
  }

  lemma SameGroup(b: Bar, g: Group)
    requires (forall c: Candle :: c in g ==> c.low >= 0.0) && IsMerge(b, g)
    ensures SameBar(b, GroupCandle(g)) <==> !HasZeroLow(g)
  {
    SameExtremes(g);
    LowOfGroup(g);
    LowestMeaningful(AsBars(g));
  }

  /** All fields but the time stamps agree, bar by bar. */
  predicate SameBars(bs: seq<Bar>, gs: seq<Group>) {
    |bs| == |gs| && forall i :: 0 <= i < |gs| ==> SameBar(bs[i], GroupCandle(gs[i]))
  }

  /** On non-negative lows the store's aggregation and the backtest's grouping give the same open, high,
      low, close and volume, bar by bar, exactly if no low is zero. */
  lemma GroupingAgrees(cs: seq<Candle>, r: Resolution)
    requires forall c: Candle :: c in cs ==> c.low >= 0.0
    ensures SameBars(Fold(AsBars(cs), r), GroupBy(cs, r)) <==> forall c: Candle :: c in cs ==> c.low != 0.0
  {
    GroupsMerge(cs, r);
    var gs, bs := GroupBy(cs, r), Fold(AsBars(cs), r);
    forall i | 0 <= i < |gs|
      ensures SameBar(bs[i], GroupCandle(gs[i])) <==> !HasZeroLow(gs[i])
    {
      forall c: Candle | c in gs[i]
        ensures c in cs
      {
        GroupMembers(cs, r, c);
      }
      SameGroup(bs[i], gs[i]);
    }
    ZeroLows(cs, r);
  }

  lemma ZeroLows(cs: seq<Candle>, r: Resolution)
    ensures (exists i :: 0 <= i < |GroupBy(cs, r)| && HasZeroLow(GroupBy(cs, r)[i])) <==>
            (exists c: Candle :: c in cs && c.low == 0.0)
  {
    var gs := GroupBy(cs, r);
    if i :| 0 <= i < |gs| && HasZeroLow(gs[i]) {
      var c: Candle :| c in gs[i] && c.low == 0.0;
      GroupMembers(cs, r, c);
    }
    if c: Candle :| c in cs && c.low == 0.0 {
      GroupMembers(cs, r, c);
      var i :| 0 <= i < |gs| && c in gs[i];
      assert HasZeroLow(gs[i]);
    }
  }
}
