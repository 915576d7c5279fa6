/** Candles kept up to date one trade at a time, against the candles of all trades at once. */
module Candles {
  import opened Options
  import opened Arithmetic

  datatype Candle = Candle(
    time: int, open: real, high: real, low: real, close: real, volume: real, isGapfill: bool)

  datatype Patch = Patch(eventUnixTs: int, price: real, volume: real)

  datatype Outcome = Outcome(candles: seq<Candle>, needsReload: bool)

  /** The bucket size of a resolution; an unknown one has none. */
  function ResolutionSeconds(resolution: string): Option<int> {
    if resolution == "1m" then Some(60)
    else if resolution == "5m" then Some(300)
    else if resolution == "15m" then Some(900)
    else if resolution == "1h" then Some(3600)
    else if resolution == "4h" then Some(14400)
    else if resolution == "1d" then Some(86400)
    else None
  }

  function BucketTime(ts: int, size: int): int
    requires size > 0
  {
    ts / size * size
  }

  function Max(a: real, b: real): real { if a >= b then a else b }

  function Min(a: real, b: real): real { if a <= b then a else b }

  /** One patch, of the bucket that starts at t, on a list of candles. */
  function Apply(candles: seq<Candle>, p: Patch, t: int): Outcome {
    if candles == [] then Outcome([Candle(t, p.price, p.price, p.price, p.price, p.volume, false)], false)
    else
      var n := |candles| - 1;
      var last := candles[n];
      if t < last.time then Outcome(candles, true)
      else if t == last.time then
        Outcome(candles[n := last.(high := Max(last.high, p.price), low := Min(last.low, p.price),
                                   close := p.price, volume := last.volume + p.volume, isGapfill := false)], false)
      else
        Outcome(candles + [Candle(t, last.close, Max(last.close, p.price), Min(last.close, p.price),
                                  p.price, p.volume, false)], false)
  }

  /** One patch on a list of candles of a resolution; an unknown resolution asks for a reload. */
  function Patched(candles: seq<Candle>, patch: Patch, resolution: string): Outcome {
    match ResolutionSeconds(resolution)
    case None => Outcome(candles, true)
    case Some(size) => Apply(candles, patch, BucketTime(patch.eventUnixTs, size))
  }

  method ApplyTradePatchToCandles(candles: seq<Candle>, patch: Patch, resolution: string) returns (r: Outcome)
    ensures r == Patched(candles, patch, resolution)
  {
    var size := ResolutionSeconds(resolution);
    if size.None? {
      return Outcome(candles, true);
    }
    var bucketTime := BucketTime(patch.eventUnixTs, size.value);
    if |candles| == 0 {
      var candle := Candle(bucketTime, patch.price, patch.price, patch.price, patch.price, patch.volume, false);
      return Outcome([candle], false);
    }
    var next := candles;
    var last := next[|next| - 1];
    if bucketTime < last.time {
      return Outcome(candles, true);
    }
    if bucketTime == last.time {
      next := next[|next| - 1 := last.(high := Max(last.high, patch.price), low := Min(last.low, patch.price),
                                       close := patch.price, volume := last.volume + patch.volume, isGapfill := false)];
      return Outcome(next, false);
    }
    var previousClose := last.close;
    next := next + [Candle(bucketTime, previousClose, Max(previousClose, patch.price), Min(previousClose, patch.price),
                           patch.price, patch.volume, false)];
    r := Outcome(next, false);
  }

  /** The candles after a run of patches, starting from none. */
  function Fold(ps: seq<Patch>, bucket: Patch -> int): seq<Candle>
  {
    if ps == [] then [] else Apply(Fold(ps[..|ps| - 1], bucket), ps[|ps| - 1], bucket(ps[|ps| - 1])).candles
  }

  // ----- The batch definition -----

  function InBucket(ps: seq<Patch>, bucket: Patch -> int, t: int): seq<Patch>
  {
    if ps == [] then []
    else
      var rest := InBucket(ps[..|ps| - 1], bucket, t);
      if bucket(ps[|ps| - 1]) == t then rest + [ps[|ps| - 1]] else rest
  }

  function BeforeBucket(ps: seq<Patch>, bucket: Patch -> int, t: int): seq<Patch>
  {
    if ps == [] then []
    else
      var rest := BeforeBucket(ps[..|ps| - 1], bucket, t);
      if bucket(ps[|ps| - 1]) < t then rest + [ps[|ps| - 1]] else rest
  }

  function Highest(open: real, ps: seq<Patch>): real {
    if ps == [] then open else Max(Highest(open, ps[..|ps| - 1]), ps[|ps| - 1].price)
  }

  function Lowest(open: real, ps: seq<Patch>): real {
    if ps == [] then open else Min(Lowest(open, ps[..|ps| - 1]), ps[|ps| - 1].price)
  }

  function Volume(ps: seq<Patch>): real {
    if ps == [] then 0.0 else Volume(ps[..|ps| - 1]) + ps[|ps| - 1].volume
  }

  function Build(t: int, open: real, own: seq<Patch>): Candle
    requires own != []
  {
    Candle(t, open, Highest(open, own), Lowest(open, own), own[|own| - 1].price, Volume(own), false)
  }

  /** A bucket opens at the last price before it, or at its own first price when there is none. */
  function OpenOf(before: seq<Patch>, own: seq<Patch>): real
    requires own != []
  {
    if before != [] then before[|before| - 1].price else own[0].price
  }

  /** The candle of a bucket; it closes at its last price. */
  function CandleOf(ps: seq<Patch>, bucket: Patch -> int, t: int): Candle
    requires InBucket(ps, bucket, t) != []
  {
    var own := InBucket(ps, bucket, t);
    Build(t, OpenOf(BeforeBucket(ps, bucket, t), own), own)
  }

  predicate BucketOrder(ps: seq<Patch>, bucket: Patch -> int)
  {
    forall i, j | 0 <= i < j < |ps| :: bucket(ps[i]) <= bucket(ps[j])
  }

  predicate Ascending(candles: seq<Candle>) {
    forall i, j | 0 <= i < j < |candles| :: candles[i].time < candles[j].time
  }

  ghost predicate EachOfItsBucket(candles: seq<Candle>, ps: seq<Patch>, bucket: Patch -> int) {
    forall i | 0 <= i < |candles| :: IsCandleOf(candles[i], ps, bucket)
  }

  predicate IsCandleOf(c: Candle, ps: seq<Patch>, bucket: Patch -> int) {
    InBucket(ps, bucket, c.time) != [] && c == CandleOf(ps, bucket, c.time)
  }

  ghost predicate EachBucketHasOne(candles: seq<Candle>, ps: seq<Patch>, bucket: Patch -> int) {
    forall i | 0 <= i < |ps| :: HasCandle(candles, bucket(ps[i]))
  }

  /** One candle per bucket that has a patch, in ascending order, each that of its bucket. */
  ghost predicate IsBatch(candles: seq<Candle>, ps: seq<Patch>, bucket: Patch -> int) {
    Ascending(candles) && EachOfItsBucket(candles, ps, bucket) && EachBucketHasOne(candles, ps, bucket)
  }

  ghost predicate HasCandle(candles: seq<Candle>, t: int) { exists k | 0 <= k < |candles| :: candles[k].time == t }

  // ----- The fold is the batch -----

  /** The last candle is that of the last patch, and closes at its price. */
  predicate EndsWith(candles: seq<Candle>, ps: seq<Patch>, bucket: Patch -> int)
  {
    if ps == [] then candles == []
    else
      && candles != []
      && candles[|candles| - 1].time == bucket(ps[|ps| - 1])
      && candles[|candles| - 1].close == ps[|ps| - 1].price
  }

  lemma {:induction false} BucketSnoc(ps: seq<Patch>, p: Patch, bucket: Patch -> int, t: int)
    ensures InBucket(ps + [p], bucket, t) ==
              if bucket(p) == t then InBucket(ps, bucket, t) + [p] else InBucket(ps, bucket, t)
    ensures BeforeBucket(ps + [p], bucket, t) ==
              if bucket(p) < t then BeforeBucket(ps, bucket, t) + [p] else BeforeBucket(ps, bucket, t)
  {
    assert (ps + [p])[..|ps|] == ps;
  }

  lemma {:induction false} FoldsSnoc(open: real, ps: seq<Patch>, p: Patch)
    ensures Highest(open, ps + [p]) == Max(Highest(open, ps), p.price)
    ensures Lowest(open, ps + [p]) == Min(Lowest(open, ps), p.price)
    ensures Volume(ps + [p]) == Volume(ps) + p.volume
  {
    assert (ps + [p])[..|ps|] == ps;
  }

  lemma {:induction false} NoneInBucket(ps: seq<Patch>, bucket: Patch -> int, t: int)
    requires forall i | 0 <= i < |ps| :: bucket(ps[i]) != t
    ensures InBucket(ps, bucket, t) == []
  {
    if ps == [] {
    } else {
      NoneInBucket(ps[..|ps| - 1], bucket, t);
    }
  }

  lemma {:induction false} AllBefore(ps: seq<Patch>, bucket: Patch -> int, t: int)
    requires forall i | 0 <= i < |ps| :: bucket(ps[i]) < t
    ensures BeforeBucket(ps, bucket, t) == ps
  {
    if ps == [] {
    } else {
      AllBefore(ps[..|ps| - 1], bucket, t);
    }
  }

  /** A candle that starts with a patch. */
  function Opened(t: int, open: real, p: Patch): Candle {
    Candle(t, open, Max(open, p.price), Min(open, p.price), p.price, p.volume, false)
  }

  /** A candle with one more patch in it. */
  function Extended(c: Candle, p: Patch): Candle {
    c.(high := Max(c.high, p.price), low := Min(c.low, p.price), close := p.price,
       volume := c.volume + p.volume, isGapfill := false)
  }

  lemma {:induction false} BuildOne(t: int, open: real, p: Patch)
    ensures Build(t, open, [p]) == Opened(t, open, p)
  {
    FoldsSnoc(open, [], p);
    assert [] + [p] == [p];
  }

  lemma {:induction false} BuildSnoc(t: int, open: real, own: seq<Patch>, p: Patch)
    requires own != []
    ensures Build(t, open, own + [p]) == Extended(Build(t, open, own), p)
  {
    FoldsSnoc(open, own, p);
  }

  lemma {:induction false} ApplyOpens(candles: seq<Candle>, p: Patch, t: int, open: real)
    requires if candles == [] then open == p.price
             else candles[|candles| - 1].time < t && open == candles[|candles| - 1].close
    ensures Apply(candles, p, t) == Outcome(candles + [Opened(t, open, p)], false)
  {
    if candles == [] {
      assert candles + [Opened(t, open, p)] == [Opened(t, open, p)];
    }
  }

  lemma {:induction false} ApplyExtends(candles: seq<Candle>, p: Patch, t: int)
    requires candles != [] && candles[|candles| - 1].time == t
    ensures Apply(candles, p, t) == Outcome(candles[|candles| - 1 := Extended(candles[|candles| - 1], p)], false)
  {
  }

  lemma {:induction false} CandleOpens(ps: seq<Patch>, p: Patch, bucket: Patch -> int, open: real)
    requires forall i | 0 <= i < |ps| :: bucket(ps[i]) < bucket(p)
    requires open == if ps != [] then ps[|ps| - 1].price else p.price
    ensures InBucket(ps + [p], bucket, bucket(p)) != []
    ensures CandleOf(ps + [p], bucket, bucket(p)) == Opened(bucket(p), open, p)
  {
    var t := bucket(p);
    BucketSnoc(ps, p, bucket, t);
    NoneInBucket(ps, bucket, t);
    AllBefore(ps, bucket, t);
    assert [] + [p] == [p];
    BuildOne(t, open, p);
  }

  lemma {:induction false} CandleExtends(c: Candle, ps: seq<Patch>, p: Patch, bucket: Patch -> int)
    requires c.time == bucket(p) && IsCandleOf(c, ps, bucket)
    ensures InBucket(ps + [p], bucket, bucket(p)) != []
    ensures CandleOf(ps + [p], bucket, bucket(p)) == Extended(c, p)
  {
    var t := bucket(p);
    var own := InBucket(ps, bucket, t);
    BucketSnoc(ps, p, bucket, t);
    BuildSnoc(t, OpenOf(BeforeBucket(ps, bucket, t), own), own, p);
  }

  /** A patch beyond the last bucket, or the first of all, makes the candle of its bucket. */
  lemma {:induction false} NewCandle(candles: seq<Candle>, ps: seq<Patch>, p: Patch, bucket: Patch -> int)
    requires EndsWith(candles, ps, bucket)
    requires forall i | 0 <= i < |ps| :: bucket(ps[i]) < bucket(p)
    ensures InBucket(ps + [p], bucket, bucket(p)) != []
    ensures Apply(candles, p, bucket(p)) == Outcome(candles + [CandleOf(ps + [p], bucket, bucket(p))], false)
  {
    var open := if ps != [] then ps[|ps| - 1].price else p.price;
    CandleOpens(ps, p, bucket, open);
    ApplyOpens(candles, p, bucket(p), open);
  }

  /** A patch in the last bucket extends its candle. */
  lemma {:induction false} SameCandle(candles: seq<Candle>, ps: seq<Patch>, p: Patch, bucket: Patch -> int)
    requires candles != [] && candles[|candles| - 1].time == bucket(p)
    requires IsCandleOf(candles[|candles| - 1], ps, bucket)
    ensures InBucket(ps + [p], bucket, bucket(p)) != []
    ensures Apply(candles, p, bucket(p)) ==
              Outcome(candles[|candles| - 1 := CandleOf(ps + [p], bucket, bucket(p))], false)
  {
    CandleExtends(candles[|candles| - 1], ps, p, bucket);
    ApplyExtends(candles, p, bucket(p));
  }

  /** A bucket before the patch keeps its candle. */
  lemma {:induction false} EarlierCandle(c: Candle, ps: seq<Patch>, p: Patch, bucket: Patch -> int)
    requires c.time < bucket(p) && IsCandleOf(c, ps, bucket)
    ensures IsCandleOf(c, ps + [p], bucket)
  {
    BucketSnoc(ps, p, bucket, c.time);
  }

  /** The new list is the old one up to n, followed by the candle of the patch's bucket; the old one had at
   * most a candle of the same bucket there. */
  predicate Replaces(candles: seq<Candle>, next: seq<Candle>, t: int, n: nat) {
    && n <= |candles| && |next| == n + 1 && next[..n] == candles[..n] && next[n].time == t
    && (n < |candles| ==> n == |candles| - 1 && candles[n].time == t)
    && forall i | 0 <= i < n :: candles[i].time < t
  }

  lemma {:induction false} EachStays(candles: seq<Candle>, next: seq<Candle>, ps: seq<Patch>, p: Patch,
                                     bucket: Patch -> int, n: nat)
    requires EachOfItsBucket(candles, ps, bucket) && Replaces(candles, next, bucket(p), n)
    requires IsCandleOf(next[n], ps + [p], bucket)
    ensures EachOfItsBucket(next, ps + [p], bucket)
  {
    forall i | 0 <= i < |next|
      ensures IsCandleOf(next[i], ps + [p], bucket)
    {
      if i < n {
        assert next[i] == next[..n][i] == candles[..n][i] == candles[i];
        EarlierCandle(candles[i], ps, p, bucket);
      }
    }
  }

  lemma {:induction false} EachStillHasOne(candles: seq<Candle>, next: seq<Candle>, ps: seq<Patch>, p: Patch,
                                           bucket: Patch -> int, n: nat)
    requires EachBucketHasOne(candles, ps, bucket) && Replaces(candles, next, bucket(p), n)
    ensures EachBucketHasOne(next, ps + [p], bucket)
  {
    forall i | 0 <= i < |ps + [p]|
      ensures HasCandle(next, bucket((ps + [p])[i]))
    {
      if i < |ps| {
        var k :| 0 <= k < |candles| && candles[k].time == bucket(ps[i]);
        assert k < n ==> next[..n][k] == candles[..n][k];
        assert next[k].time == candles[k].time;
      } else {
        assert next[n].time == bucket(p);
      }
    }
  }

  lemma {:induction false} StillAscending(candles: seq<Candle>, next: seq<Candle>, t: int, n: nat)
    requires Ascending(candles) && Replaces(candles, next, t, n)
    ensures Ascending(next)
  {
    assert forall i | 0 <= i < n :: next[i] == next[..n][i] == candles[..n][i] == candles[i];
  }

  lemma {:induction false} BatchGrows(candles: seq<Candle>, next: seq<Candle>, ps: seq<Patch>, p: Patch,
                                      bucket: Patch -> int, n: nat)
    requires IsBatch(candles, ps, bucket) && Replaces(candles, next, bucket(p), n)
    requires IsCandleOf(next[n], ps + [p], bucket)
    ensures IsBatch(next, ps + [p], bucket)
  {
    StillAscending(candles, next, bucket(p), n);
    EachStays(candles, next, ps, p, bucket, n);
    EachStillHasOne(candles, next, ps, p, bucket, n);
  }

  lemma {:induction false} OrderInit(ps: seq<Patch>, bucket: Patch -> int)
    requires ps != [] && BucketOrder(ps, bucket)
    ensures BucketOrder(ps[..|ps| - 1], bucket)
  {
  }

  lemma {:induction false} StepInSameBucket(candles: seq<Candle>, ps: seq<Patch>, p: Patch, bucket: Patch -> int)
    requires IsBatch(candles, ps, bucket) && EndsWith(candles, ps, bucket)
    requires ps != [] && bucket(ps[|ps| - 1]) == bucket(p)
    ensures IsBatch(Apply(candles, p, bucket(p)).candles, ps + [p], bucket)
  {
    SameCandle(candles, ps, p, bucket);
    BatchGrows(candles, Apply(candles, p, bucket(p)).candles, ps, p, bucket, |candles| - 1);
  }

  lemma {:induction false} StepInNewBucket(candles: seq<Candle>, ps: seq<Patch>, p: Patch, bucket: Patch -> int)
    requires IsBatch(candles, ps, bucket) && EndsWith(candles, ps, bucket)
    requires forall i | 0 <= i < |ps| :: bucket(ps[i]) < bucket(p)
    ensures IsBatch(Apply(candles, p, bucket(p)).candles, ps + [p], bucket)
  {
    NewCandle(candles, ps, p, bucket);
    CandlesBefore(candles, ps, p, bucket);
    BatchGrows(candles, Apply(candles, p, bucket(p)).candles, ps, p, bucket, |candles|);
  }

  lemma {:induction false} StepEnds(candles: seq<Candle>, ps: seq<Patch>, p: Patch, bucket: Patch -> int)
    requires EndsWith(candles, ps, bucket) && (ps != [] ==> bucket(ps[|ps| - 1]) <= bucket(p))
    ensures EndsWith(Apply(candles, p, bucket(p)).candles, ps + [p], bucket)
              && !Apply(candles, p, bucket(p)).needsReload
  {
  }

  lemma {:induction false} StepKeepsBatch(candles: seq<Candle>, ps: seq<Patch>, p: Patch, bucket: Patch -> int)
    requires IsBatch(candles, ps, bucket) && EndsWith(candles, ps, bucket) && BucketOrder(ps + [p], bucket)
    ensures
      var next := Apply(candles, p, bucket(p)).candles;
      IsBatch(next, ps + [p], bucket) && EndsWith(next, ps + [p], bucket) && !Apply(candles, p, bucket(p)).needsReload
  {
    assert (ps + [p])[|ps|] == p;
    assert forall i | 0 <= i < |ps| :: (ps + [p])[i] == ps[i];
    StepEnds(candles, ps, p, bucket);
    if ps != [] && bucket(ps[|ps| - 1]) == bucket(p) {
      StepInSameBucket(candles, ps, p, bucket);
    } else {
      LastDecides(ps, p, bucket);
      StepInNewBucket(candles, ps, p, bucket);
    }
  }

  lemma {:induction false} LastDecides(ps: seq<Patch>, p: Patch, bucket: Patch -> int)
    requires BucketOrder(ps + [p], bucket) && (ps != [] ==> bucket(ps[|ps| - 1]) != bucket(p))
    ensures forall i | 0 <= i < |ps| :: bucket(ps[i]) < bucket(p)
  {
    forall i | 0 <= i < |ps|
      ensures bucket(ps[i]) < bucket(p)
    {
      var all := ps + [p];
      assert all[i] == ps[i] && all[|ps| - 1] == ps[|ps| - 1] && all[|ps|] == p;
    }
  }

  lemma {:induction false} CandlesBefore(candles: seq<Candle>, ps: seq<Patch>, p: Patch, bucket: Patch -> int)
    requires Ascending(candles) && EndsWith(candles, ps, bucket)
    requires forall i | 0 <= i < |ps| :: bucket(ps[i]) < bucket(p)
    ensures forall i | 0 <= i < |candles| :: candles[i].time < bucket(p)
  {
  }

  /** Folding time-ordered patches gives exactly the batch candles. */
  lemma {:induction false} FoldIsBatch(ps: seq<Patch>, bucket: Patch -> int)
    requires BucketOrder(ps, bucket)
    ensures IsBatch(Fold(ps, bucket), ps, bucket) && EndsWith(Fold(ps, bucket), ps, bucket)
  {
    if ps == [] {
    } else {
      var init, p := ps[..|ps| - 1], ps[|ps| - 1];
      assert ps == init + [p];
      OrderInit(ps, bucket);
      FoldIsBatch(init, bucket);
      StepKeepsBatch(Fold(init, bucket), init, p, bucket);
    }
  }

  /** The bucket of each patch at a resolution. */
  function Bucketing(size: int): Patch -> int
    requires size > 0
  {
    (p: Patch) => BucketTime(p.eventUnixTs, size)
  }

  /** Candles start on multiples of the bucket size. */
  lemma {:induction false} BatchIsAligned(candles: seq<Candle>, ps: seq<Patch>, size: int, k: nat)
    requires size > 0 && IsBatch(candles, ps, Bucketing(size)) && k < |candles|
    ensures candles[k].time % size == 0
  {
    assert IsCandleOf(candles[k], ps, Bucketing(size));
    var p := InBucketHas(ps, Bucketing(size), candles[k].time);
    StartsAreMultiples(p.eventUnixTs, size);
  }

  lemma {:induction false} StartsAreMultiples(ts: int, size: int)
    requires size > 0
    ensures BucketTime(ts, size) % size == 0
  {
    ModUnique(BucketTime(ts, size), size, ts / size, 0);
  }

  lemma {:induction false} InBucketHas(ps: seq<Patch>, bucket: Patch -> int, t: int) returns (p: Patch)
    requires InBucket(ps, bucket, t) != []
    ensures bucket(p) == t
  {
    p := ps[|ps| - 1];
    if bucket(p) != t {
      p := InBucketHas(ps[..|ps| - 1], bucket, t);
    }
  }

  /** Patches in the order of their times are in the order of their buckets. */
  lemma {:induction false} TimeOrderIsBucketOrder(ps: seq<Patch>, size: int)
    requires size > 0 && forall i, j | 0 <= i < j < |ps| :: ps[i].eventUnixTs <= ps[j].eventUnixTs
    ensures BucketOrder(ps, Bucketing(size))
  {
    forall i, j | 0 <= i < j < |ps|
      ensures Bucketing(size)(ps[i]) <= Bucketing(size)(ps[j])
    {
      BucketTimeAscends(ps[i].eventUnixTs, ps[j].eventUnixTs, size);
    }
  }

  lemma {:induction false} BucketTimeAscends(x: int, y: int, size: int)
    requires size > 0 && x <= y
    ensures BucketTime(x, size) <= BucketTime(y, size)
  {
    var p, q := x / size, y / size;
    assert x == size * p + x % size && y == size * q + y % size;
    if q < p {
      Scale(size, q, p);
    } else if p < q {
      Scale(size, p, q);
    }
  }

  /** High and low are the extremes of the opening price and the bucket's prices. */
  lemma {:induction false} Extremes(open: real, ps: seq<Patch>)
    ensures open <= Highest(open, ps) && forall i | 0 <= i < |ps| :: ps[i].price <= Highest(open, ps)
    ensures Highest(open, ps) == open || exists i | 0 <= i < |ps| :: ps[i].price == Highest(open, ps)
    ensures Lowest(open, ps) <= open && forall i | 0 <= i < |ps| :: Lowest(open, ps) <= ps[i].price
    ensures Lowest(open, ps) == open || exists i | 0 <= i < |ps| :: ps[i].price == Lowest(open, ps)
  {
    if ps == [] {
    } else {
      var init, p := ps[..|ps| - 1], ps[|ps| - 1];
      Extremes(open, init);
      assert forall i | 0 <= i < |init| :: init[i] == ps[i];
      assert ps[|ps| - 1].price == p.price;
    }
  }

  /** Each candle opens where the one before it closed. */
  predicate Chained(candles: seq<Candle>) {
    forall k | 0 < k < |candles| :: candles[k].open == candles[k - 1].close
  }

  /** In whatever order the patches arrive, the first candle opens at the first price and every other one
   * where the one before it closed. */
  lemma {:induction false} OpensAtPreviousClose(ps: seq<Patch>, bucket: Patch -> int)
    ensures Chained(Fold(ps, bucket))
    ensures ps != [] ==> Fold(ps, bucket) != [] && Fold(ps, bucket)[0].open == ps[0].price
  {
    if ps == [] {
    } else {
      OpensAtPreviousClose(ps[..|ps| - 1], bucket);
    }
  }

  function TotalVolume(candles: seq<Candle>): real {
    if candles == [] then 0.0 else TotalVolume(candles[..|candles| - 1]) + candles[|candles| - 1].volume
  }

  /** No volume is lost or counted twice. */
  lemma {:induction false} VolumeIsKept(ps: seq<Patch>, bucket: Patch -> int)
    requires BucketOrder(ps, bucket)
    ensures TotalVolume(Fold(ps, bucket)) == Volume(ps)
  {
    if ps == [] {
    } else {
      var init, p := ps[..|ps| - 1], ps[|ps| - 1];
      assert ps == init + [p];
      OrderInit(ps, bucket);
      VolumeIsKept(init, bucket);
      FoldIsBatch(init, bucket);
      StepKeepsBatch(Fold(init, bucket), init, p, bucket);
      ApplyAddsVolume(Fold(init, bucket), p, bucket);
    }
  }

  lemma {:induction false} ApplyAddsVolume(candles: seq<Candle>, p: Patch, bucket: Patch -> int)
    requires !Apply(candles, p, bucket(p)).needsReload
    ensures TotalVolume(Apply(candles, p, bucket(p)).candles) == TotalVolume(candles) + p.volume
  {
    var next := Apply(candles, p, bucket(p)).candles;
    if candles == [] {
      assert next[..0] == [];
    } else if |next| == |candles| {
      assert next[..|next| - 1] == candles[..|candles| - 1];
    } else {
      assert next[..|candles|] == candles;
    }
  }

  // ----- Patches that come late -----

  /** The patches that are not older than a bucket already begun. */
  function Timely(ps: seq<Patch>, bucket: Patch -> int): seq<Patch>
  {
    if ps == [] then []
    else
      var kept, p := Timely(ps[..|ps| - 1], bucket), ps[|ps| - 1];
      if kept != [] && bucket(p) < bucket(kept[|kept| - 1]) then kept else kept + [p]
  }

  /** Whether one of the patches asked for a reload. */
  predicate AskedForReload(ps: seq<Patch>, bucket: Patch -> int)
  {
    ps != [] && (AskedForReload(ps[..|ps| - 1], bucket)
        || Apply(Fold(ps[..|ps| - 1], bucket), ps[|ps| - 1], bucket(ps[|ps| - 1])).needsReload)
  }

  lemma {:induction false} TimelyIsOrdered(ps: seq<Patch>, bucket: Patch -> int)
    ensures BucketOrder(Timely(ps, bucket), bucket) && |Timely(ps, bucket)| <= |ps|
  {
    if ps == [] {
    } else {
      TimelyIsOrdered(ps[..|ps| - 1], bucket);
    }
  }

  lemma {:induction false} ReloadIsForLate(candles: seq<Candle>, kept: seq<Patch>, p: Patch, bucket: Patch -> int)
    requires EndsWith(candles, kept, bucket)
    ensures Apply(candles, p, bucket(p)).needsReload <==> kept != [] && bucket(p) < bucket(kept[|kept| - 1])
    ensures Apply(candles, p, bucket(p)).needsReload ==> Apply(candles, p, bucket(p)).candles == candles
  {
  }

  /** In any order of arrival the candles are the batch candles of the patches that were not late; a late
   * patch changes nothing, and a reload was asked for exactly when some patch was late. */
  lemma {:induction false} AnyOrder(ps: seq<Patch>, bucket: Patch -> int)
    ensures Fold(ps, bucket) == Fold(Timely(ps, bucket), bucket)
    ensures IsBatch(Fold(ps, bucket), Timely(ps, bucket), bucket)
    ensures AskedForReload(ps, bucket) <==> |Timely(ps, bucket)| < |ps|
  {
    TimelyIsOrdered(ps, bucket);
    FoldIsBatch(Timely(ps, bucket), bucket);
    if ps != [] {
      var init, p := ps[..|ps| - 1], ps[|ps| - 1];
      var kept := Timely(init, bucket);
      AnyOrder(init, bucket);
      TimelyIsOrdered(init, bucket);
      FoldIsBatch(kept, bucket);
      ReloadIsForLate(Fold(kept, bucket), kept, p, bucket);
      assert (kept + [p])[..|kept|] == kept;
    }
  }
}
