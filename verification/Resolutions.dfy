/** The candles of each resolution, told from the times of the patches. */
module Resolutions {
  import opened Options
  import opened Arithmetic
  import opened Candles

  /** The six resolutions of the charts and the seconds one of their candles spans. */
  predicate Spans(resolution: string, seconds: int) {
    || (resolution == "1m" && seconds == 60)
    || (resolution == "5m" && seconds == 5 * 60)
    || (resolution == "15m" && seconds == 15 * 60)
    || (resolution == "1h" && seconds == 60 * 60)
    || (resolution == "4h" && seconds == 4 * 60 * 60)
    || (resolution == "1d" && seconds == 24 * 60 * 60)
  }

  /** The candles after a run of patches at a resolution, starting from none. */
  function Drawn(ps: seq<Patch>, resolution: string): seq<Candle> {
    if ps == [] then [] else Patched(Drawn(ps[..|ps| - 1], resolution), ps[|ps| - 1], resolution).candles
  }

  /** The patches of the seconds from `t` up to, not including, `t + seconds`. */
  function Within(ps: seq<Patch>, t: int, seconds: int): seq<Patch> {
    if ps == [] then []
    else
      var rest, p := Within(ps[..|ps| - 1], t, seconds), ps[|ps| - 1];
      if t <= p.eventUnixTs < t + seconds then rest + [p] else rest
  }

  /** The patches before second `t`. */
  function Earlier(ps: seq<Patch>, t: int): seq<Patch> {
    if ps == [] then []
    else
      var rest, p := Earlier(ps[..|ps| - 1], t), ps[|ps| - 1];
      if p.eventUnixTs < t then rest + [p] else rest
  }

  /** A candle tells of the patches of its seconds: it opens at the last price before them, or at their
   * first one when there is none, closes at their last one, and covers their prices and volume. */
  predicate TellsOf(c: Candle, ps: seq<Patch>, seconds: int) {
    var own, before := Within(ps, c.time, seconds), Earlier(ps, c.time);
    && own != [] && !c.isGapfill
    && c.open == (if before != [] then before[|before| - 1].price else own[0].price)
    && c.high == Highest(c.open, own) && c.low == Lowest(c.open, own)
    && c.close == own[|own| - 1].price && c.volume == Volume(own)
  }

  /** The candles of a run of patches: ascending, aligned, each telling of its own seconds, and one for every
   * patch. */
  ghost predicate Draws(candles: seq<Candle>, ps: seq<Patch>, seconds: int)
    requires seconds > 0
  {
    && Ascending(candles)
    && (forall c | c in candles :: c.time % seconds == 0 && TellsOf(c, ps, seconds))
    && (forall p | p in ps :: exists c | c in candles :: c.time <= p.eventUnixTs < c.time + seconds)
  }

  // ----- The bucket of a second -----

  /** A second lies in its bucket. */
  lemma {:induction false} BucketContains(ts: int, size: int)
    requires size > 0
    ensures BucketTime(ts, size) <= ts < BucketTime(ts, size) + size
  {
    assert ts == size * (ts / size) + ts % size;
  }

  /** A multiple of the size is the bucket of exactly the seconds from it on up to the next one, and the
   * buckets before it are those of the seconds before it. */
  lemma {:induction false} BucketIsIff(ts: int, size: int, t: int)
    requires size > 0 && t % size == 0
    ensures BucketTime(ts, size) == t <==> t <= ts < t + size
    ensures BucketTime(ts, size) < t <==> ts < t
  {
    BucketContains(ts, size);
    var q, k := ts / size, t / size;
    assert t == size * k && BucketTime(ts, size) == size * q;
    if q < k {
      Scale(size, q, k);
    } else if k < q {
      Scale(size, k, q);
    }
  }

  lemma {:induction false} OwnAreWithin(ps: seq<Patch>, size: int, t: int)
    requires size > 0 && t % size == 0
    ensures InBucket(ps, Bucketing(size), t) == Within(ps, t, size)
    ensures BeforeBucket(ps, Bucketing(size), t) == Earlier(ps, t)
  {
    if ps == [] {
    } else {
      var p := ps[|ps| - 1];
      OwnAreWithin(ps[..|ps| - 1], size, t);
      BucketIsIff(p.eventUnixTs, size, t);
      assert Bucketing(size)(p) == BucketTime(p.eventUnixTs, size);
    }
  }

  lemma {:induction false} CandleTells(candles: seq<Candle>, ps: seq<Patch>, size: int, k: nat)
    requires size > 0 && IsBatch(candles, ps, Bucketing(size)) && k < |candles|
    ensures candles[k].time % size == 0 && TellsOf(candles[k], ps, size)
  {
    BatchIsAligned(candles, ps, size, k);
    OwnAreWithin(ps, size, candles[k].time);
    assert IsCandleOf(candles[k], ps, Bucketing(size));
  }

  lemma {:induction false} PatchIsDrawn(candles: seq<Candle>, ps: seq<Patch>, size: int, i: nat)
    requires size > 0 && IsBatch(candles, ps, Bucketing(size)) && i < |ps|
    ensures exists c | c in candles :: c.time <= ps[i].eventUnixTs < c.time + size
  {
    assert HasCandle(candles, Bucketing(size)(ps[i]));
    var k :| 0 <= k < |candles| && candles[k].time == Bucketing(size)(ps[i]);
    BucketContains(ps[i].eventUnixTs, size);
    assert candles[k] in candles;
  }

  lemma {:induction false} BatchDraws(candles: seq<Candle>, ps: seq<Patch>, size: int)
    requires size > 0 && IsBatch(candles, ps, Bucketing(size))
    ensures Draws(candles, ps, size)
  {
    forall k | 0 <= k < |candles| ensures candles[k].time % size == 0 && TellsOf(candles[k], ps, size) {
      CandleTells(candles, ps, size, k);
    }
    forall i | 0 <= i < |ps| ensures exists c | c in candles :: c.time <= ps[i].eventUnixTs < c.time + size {
      PatchIsDrawn(candles, ps, size, i);
    }
  }

  lemma {:induction false} DrawnIsFold(ps: seq<Patch>, resolution: string, seconds: int)
    requires seconds > 0 && ResolutionSeconds(resolution) == Some(seconds)
    ensures Drawn(ps, resolution) == Fold(ps, Bucketing(seconds))
  {
    if ps == [] {
    } else {
      DrawnIsFold(ps[..|ps| - 1], resolution, seconds);
    }
  }

  /** At each of the six resolutions, patches in the order of their times draw exactly the candles of their
   * seconds: a candle is that of the patches with `time <= ts < time + seconds`. */
  lemma {:induction false} ResolutionDraws(ps: seq<Patch>, resolution: string, seconds: int)
    requires Spans(resolution, seconds)
    requires forall i, j | 0 <= i < j < |ps| :: ps[i].eventUnixTs <= ps[j].eventUnixTs
    ensures Draws(Drawn(ps, resolution), ps, seconds)
  {
    TimeOrderIsBucketOrder(ps, seconds);
    DrawnIsFold(ps, resolution, seconds);
    FoldIsBatch(ps, Bucketing(seconds));
    BatchDraws(Fold(ps, Bucketing(seconds)), ps, seconds);
  }

  // ----- Patches that come late -----

  /** A patch is late when it lies before the first second of the candle of the last patch kept. */
  predicate Late(p: Patch, kept: seq<Patch>, seconds: int)
    requires seconds > 0
  {
    kept != [] &&
    var last := kept[|kept| - 1].eventUnixTs;
    p.eventUnixTs < last - last % seconds
  }

  /** The patches that are not late. */
  function OnTime(ps: seq<Patch>, seconds: int): seq<Patch>
    requires seconds > 0
  {
    if ps == [] then []
    else
      var kept, p := OnTime(ps[..|ps| - 1], seconds), ps[|ps| - 1];
      if Late(p, kept, seconds) then kept else kept + [p]
  }

  lemma {:induction false} LateIs(p: Patch, q: Patch, seconds: int)
    requires seconds > 0
    ensures Bucketing(seconds)(p) < Bucketing(seconds)(q) <==> Late(p, [q], seconds)
  {
    var ts := q.eventUnixTs;
    StartsAreMultiples(ts, seconds);
    assert BucketTime(ts, seconds) == ts - ts % seconds;
    BucketIsIff(p.eventUnixTs, seconds, BucketTime(ts, seconds));
  }

  lemma {:induction false} OnTimeIsTimely(ps: seq<Patch>, seconds: int)
    requires seconds > 0
    ensures OnTime(ps, seconds) == Timely(ps, Bucketing(seconds))
  {
    if ps == [] {
    } else {
      var init, p := ps[..|ps| - 1], ps[|ps| - 1];
      OnTimeIsTimely(init, seconds);
      var kept := OnTime(init, seconds);
      if kept != [] { LateIs(p, kept[|kept| - 1], seconds); }
    }
  }

  /** In any order of arrival the candles are those of the patches that were not late. */
  lemma {:induction false} AnyOrderDraws(ps: seq<Patch>, resolution: string, seconds: int)
    requires Spans(resolution, seconds)
    ensures Draws(Drawn(ps, resolution), OnTime(ps, seconds), seconds)
  {
    DrawnIsFold(ps, resolution, seconds);
    OnTimeIsTimely(ps, seconds);
    AnyOrder(ps, Bucketing(seconds));
    BatchDraws(Fold(ps, Bucketing(seconds)), OnTime(ps, seconds), seconds);
  }

  /** A resolution the charts do not have draws nothing and asks for a reload every time. */
  lemma {:induction false} OtherResolutionsDrawNothing(ps: seq<Patch>, resolution: string)
    requires !exists seconds :: Spans(resolution, seconds)
    ensures Drawn(ps, resolution) == []
    ensures forall candles, p :: Patched(candles, p, resolution) == Outcome(candles, true)
  {
    assert !Spans(resolution, 60) && !Spans(resolution, 5 * 60) && !Spans(resolution, 15 * 60);
    assert !Spans(resolution, 60 * 60) && !Spans(resolution, 4 * 60 * 60) && !Spans(resolution, 24 * 60 * 60);
    if ps == [] {
    } else {
      OtherResolutionsDrawNothing(ps[..|ps| - 1], resolution);
    }
  }
}
