/** The day-long window of one token: a ring of 1440 one-minute buckets, read minute by minute. */
module MinuteWindow {
  import opened Options
  import opened Ring

  const Minutes: nat := 1440

  function MinuteAt(ring: seq<Bucket>, k: int): Bucket
    requires |ring| == Minutes
  {
    IndexIsMod(k, Minutes);
    ring[Index(k, Minutes)]
  }

  /** The bucket of minute k is summed up when it carries that minute and a non-zero closing price. */
  predicate Shows(b: Bucket, k: int) {
    b.start == k * 60 && b.close != 0.0
  }

  predicate Included(ring: seq<Bucket>, k: int)
    requires |ring| == Minutes
  {
    Shows(MinuteAt(ring, k), k)
  }

  datatype Scan = Scan(totals: Totals, earliestTs: int, earliestOpen: real)

  /** One round of the summary loop, at the bucket of minute k. */
  function ScanOne(s: Scan, b: Bucket, k: int): Scan {
    if !Shows(b, k) then s
    else
      var s1 := s.(totals := Plus(s.totals, OfBucket(b)));
      if s.earliestTs == 0 || k * 60 < s.earliestTs then s1.(earliestTs := k * 60, earliestOpen := b.open) else s1
  }

  /** The summary loop over the `m` minutes up to the current one, newest first. */
  function ScanOf(at: int -> Bucket, current: int, m: nat): Scan {
    if m == 0 then Scan(Nothing, 0, 0.0)
    else
      var k := current - (m - 1);
      ScanOne(ScanOf(at, current, m - 1), at(k), k)
  }

  function ScanMinutes(ring: seq<Bucket>, current: int, m: nat): Scan
    requires |ring| == Minutes
  {
    ScanOf(k => MinuteAt(ring, k), current, m)
  }

  /** The closing price of the latest minute before the window that is still in the ring. */
  function PreviousClose(ring: seq<Bucket>, current: int, offset: nat): Option<real>
    requires |ring| == Minutes
    decreases Minutes - offset
  {
    if offset >= Minutes then None
    else
      var b := MinuteAt(ring, current - offset);
      if b.start == (current - offset) * 60 && b.close > 0.0 then Some(b.close)
      else PreviousClose(ring, current, offset + 1)
  }

  function Anchor(ring: seq<Bucket>, current: int, m: nat, firstPrice: real, lastPrice: real): real
    requires |ring| == Minutes
  {
    var s := ScanMinutes(ring, current, m);
    match PreviousClose(ring, current, m)
    case Some(close) => close
    case None =>
      if s.earliestTs != 0 then s.earliestOpen
      else if firstPrice > 0.0 then firstPrice
      else lastPrice
  }

  lemma {:induction false} MinuteOfStart(k: int)
    ensures TruncDiv(k * 60, 60) == k
  {
  }

  class LegacyWindow {
    var lastPrice: real
    var lastUnixTs: int
    var firstPrice: real
    const minuteBuckets: array<Bucket>

    ghost predicate Valid()
      reads this
    {
      minuteBuckets.Length == Minutes
    }

    constructor ()
      ensures Valid() && fresh(minuteBuckets) && minuteBuckets[..] == RingOf([], 60, Minutes)
      ensures lastPrice == 0.0 && lastUnixTs == 0 && firstPrice == 0.0
    {
      lastPrice, lastUnixTs, firstPrice := 0.0, 0, 0.0;
      minuteBuckets := new Bucket[Minutes](i => Zero);
      new;
      assert minuteBuckets[..] == EmptyRing(Minutes);
    }

    method AppendLegacyTrade(isBuy: bool, vol: real, price: real, ts: int)
      requires Valid()
      modifies this, minuteBuckets
      ensures Valid()
      ensures minuteBuckets[..] == Append(old(minuteBuckets[..]), 60, Trade(ts, isBuy, vol, price, 0))
      ensures lastPrice == price && lastUnixTs == ts
      ensures firstPrice == if old(firstPrice) == 0.0 then price else old(firstPrice)
    {
      lastPrice := price;
      lastUnixTs := ts;
      if firstPrice == 0.0 {
        firstPrice := price;
      }
      var bucketIdx := TruncRem(TruncDiv(ts, 60), Minutes);
      if bucketIdx < 0 {
        bucketIdx := bucketIdx + Minutes;
      }
      IndexIsMod(TruncDiv(ts, 60), Minutes);
      var bucketStartTs := TruncDiv(ts, 60) * 60;
      var mb := minuteBuckets[bucketIdx];
      if mb.start != bucketStartTs {
        mb := Fresh(bucketStartTs, price);
      } else if mb.open == 0.0 {
        mb := mb.(open := price);
      }
      mb := mb.(close := price);
      if isBuy {
        mb := mb.(buys := mb.buys + 1, buyVolume := mb.buyVolume + vol);
      } else {
        mb := mb.(sells := mb.sells + 1, sellVolume := mb.sellVolume + vol);
      }
      minuteBuckets[bucketIdx] := mb.(volume := mb.volume + vol);
    }

    method SummarizeLegacyMinuteBuckets(nowTs: int, minsBack: nat) returns (totals: Totals, anchorPrice: real)
      requires Valid()
      ensures totals == ScanMinutes(minuteBuckets[..], TruncDiv(nowTs, 60), minsBack).totals
      ensures anchorPrice == Anchor(minuteBuckets[..], TruncDiv(nowTs, 60), minsBack, firstPrice, lastPrice)
    {
      ghost var ring := minuteBuckets[..];
      anchorPrice := lastPrice;
      var current := TruncDiv(nowTs, 60);
      var currentBucketStart := current * 60;
      var earliestOpen, earliestOpenTs := 0.0, 0;
      totals := Nothing;
      var offset := 0;
      while offset < minsBack
        invariant offset <= minsBack
        invariant Scan(totals, earliestOpenTs, earliestOpen) == ScanMinutes(ring, current, offset)
      {
        var bucketStart := currentBucketStart - offset * 60;
        var bucket := BucketAt(bucketStart, current - offset);
        if !(bucket.start != bucketStart || bucket.close == 0.0) {
          totals := Plus(totals, OfBucket(bucket));
          if earliestOpenTs == 0 || bucketStart < earliestOpenTs {
            earliestOpenTs := bucketStart;
            earliestOpen := bucket.open;
          }
        }
        offset := offset + 1;
      }

      var previous := CloseBefore(currentBucketStart, current, minsBack);
      if previous.Some? {
        anchorPrice := previous.value;
        return;
      }

      if earliestOpenTs != 0 {
        anchorPrice := earliestOpen;
      } else if firstPrice > 0.0 {
        anchorPrice := firstPrice;
      }
    }

    /** The second loop: back from the window's start to the far end of the ring. */
    method CloseBefore(currentBucketStart: int, ghost current: int, minsBack: nat) returns (r: Option<real>)
      requires Valid() && currentBucketStart == current * 60
      ensures r == PreviousClose(minuteBuckets[..], current, minsBack)
    {
      var offset := minsBack;
      while offset < Minutes
        invariant minsBack <= offset
        invariant PreviousClose(minuteBuckets[..], current, minsBack) ==
                  PreviousClose(minuteBuckets[..], current, offset)
        decreases Minutes - offset
      {
        var bucketStart := currentBucketStart - offset * 60;
        var bucket := BucketAt(bucketStart, current - offset);
        if bucket.start == bucketStart && bucket.close > 0.0 {
          return Some(bucket.close);
        }
        offset := offset + 1;
      }
      r := None;
    }

    /** The bucket a minute start is looked up in. */
    method BucketAt(bucketStart: int, ghost minute: int) returns (bucket: Bucket)
      requires Valid() && bucketStart == minute * 60
      ensures bucket == MinuteAt(minuteBuckets[..], minute)
    {
      MinuteOfStart(minute);
      IndexIsMod(minute, Minutes);
      var idx := TruncRem(TruncDiv(bucketStart, 60), Minutes);
      if idx < 0 {
        idx := idx + Minutes;
      }
      bucket := minuteBuckets[idx];
    }
  }

  // ----- The ring against the history -----

  /** Looking a minute of the last day up in the ring finds exactly the trades of that minute. */
  lemma {:induction false} MinuteMatches(trades: seq<Trade>, k: int, current: int)
    requires Timely(trades, 60, Minutes) && NoneAfter(trades, 60, current)
    requires current - Minutes < k <= current
    ensures
      var ring := RingOf(trades, 60, Minutes);
      && (Included(ring, k) <==> Counts(trades, 60, k))
      && (Included(ring, k) ==> MinuteAt(ring, k) == Summary(InSlot(trades, 60, k), k * 60))
  {
    RecentSlot(trades, 60, Minutes, k, current);
  }

  /** What the summary loop adds for minute k. */
  function Share(b: Bucket, k: int): Totals {
    if Shows(b, k) then OfBucket(b) else Nothing
  }

  lemma {:induction false} ScanOneAdds(s: Scan, b: Bucket, k: int)
    ensures ScanOne(s, b, k).totals == Plus(s.totals, Share(b, k))
  {
    PlusNothing(s.totals);
  }

  lemma {:induction false} MinuteTotalsMatch(trades: seq<Trade>, k: int, current: int)
    requires Timely(trades, 60, Minutes) && NoneAfter(trades, 60, current)
    requires current - Minutes < k <= current
    ensures Share(MinuteAt(RingOf(trades, 60, Minutes), k), k) == SlotTotals(trades, 60, k)
  {
    MinuteMatches(trades, k, current);
  }

  /** The sum goes through the window minute by minute, whatever the buckets are. */
  lemma {:induction false} ScanIsSum(at: int -> Bucket, trades: seq<Trade>, current: int, m: nat, before: int)
    requires before == current - m
    requires forall k | before < k <= current :: Share(at(k), k) == SlotTotals(trades, 60, k)
    ensures ScanOf(at, current, m).totals == SumSlots(trades, 60, before, current)
  {
    if m == 0 {
    } else {
      var k := before + 1;
      ScanIsSum(at, trades, current, m - 1, k);
      ScanOneAdds(ScanOf(at, current, m - 1), at(k), k);
    }
  }

  lemma {:induction false} TotalsMatch(trades: seq<Trade>, current: int, m: nat, before: int)
    requires Timely(trades, 60, Minutes) && NoneAfter(trades, 60, current) && m <= Minutes && before == current - m
    ensures ScanMinutes(RingOf(trades, 60, Minutes), current, m).totals == SumSlots(trades, 60, before, current)
  {
    var ring := RingOf(trades, 60, Minutes);
    var at := k => MinuteAt(ring, k);
    forall k | before < k <= current
      ensures Share(at(k), k) == SlotTotals(trades, 60, k)
    {
      MinuteTotalsMatch(trades, k, current);
    }
    ScanIsSum(at, trades, current, m, before);
  }

  /** The earliest minute the scan remembers is the earliest of the window that counts. */
  lemma {:induction false} EarliestMatches(trades: seq<Trade>, current: int, m: nat)
    requires Timely(trades, 60, Minutes) && NoneAfter(trades, 60, current) && m <= Minutes <= current
    ensures
      var s := ScanMinutes(RingOf(trades, 60, Minutes), current, m);
      match EarliestSlot(trades, 60, current - m, current)
      case None => s.earliestTs == 0
      case Some(k) => s.earliestTs == k * 60 != 0 && s.earliestOpen == OpeningPrice(InSlot(trades, 60, k))
  {
    if m == 0 {
    } else {
      var k := current - (m - 1);
      EarliestMatches(trades, current, m - 1);
      EarliestIsLater(trades, current, m - 1);
      MinuteMatches(trades, k, current);
    }
  }

  lemma {:induction false} EarliestIsLater(trades: seq<Trade>, current: int, m: nat)
    ensures EarliestSlot(trades, 60, current - m, current).Some? ==>
              EarliestSlot(trades, 60, current - m, current).value > current - m
  {
    if m == 0 {
    } else {
      EarliestIsLater(trades, current, m - 1);
    }
  }

  /** The latest minute at or before k, but after `floor`, that has a positive closing price. */
  function LatestMinute(trades: seq<Trade>, floor: int, k: int): Option<int>
    decreases k - floor
  {
    if k <= floor then None
    else if ClosingPrice(InSlot(trades, 60, k)) > 0.0 then Some(k)
    else LatestMinute(trades, floor, k - 1)
  }

  lemma {:induction false} LatestMinuteIs(trades: seq<Trade>, floor: int, k: int)
    ensures
      match LatestMinute(trades, floor, k)
      case None => forall j | floor < j <= k :: ClosingPrice(InSlot(trades, 60, j)) <= 0.0
      case Some(l) =>
        && floor < l <= k && ClosingPrice(InSlot(trades, 60, l)) > 0.0
        && forall j | l < j <= k :: ClosingPrice(InSlot(trades, 60, j)) <= 0.0
    decreases k - floor
  {
    if floor >= k {
    } else {
      LatestMinuteIs(trades, floor, k - 1);
    }
  }

  lemma {:induction false} PreviousMatches(trades: seq<Trade>, current: int, offset: nat)
    requires Timely(trades, 60, Minutes) && NoneAfter(trades, 60, current)
    ensures PreviousClose(RingOf(trades, 60, Minutes), current, offset) ==
              match LatestMinute(trades, current - Minutes, current - offset)
              case None => None
              case Some(k) => Some(ClosingPrice(InSlot(trades, 60, k)))
    decreases Minutes - offset
  {
    if offset >= Minutes {
    } else {
      var k := current - offset;
      RecentSlot(trades, 60, Minutes, k, current);
      PreviousMatches(trades, current, offset + 1);
    }
  }

  /** The reference for the anchor of an m-minute window: the close of the latest traded minute before
   * it inside the last day, else the opening price of the earliest traded minute inside it, else the
   * first price ever, else the last. */
  function AnchorOf(trades: seq<Trade>, current: int, m: nat, firstPrice: real, lastPrice: real): real {
    match LatestMinute(trades, current - Minutes, current - m)
    case Some(k) => ClosingPrice(InSlot(trades, 60, k))
    case None =>
      match EarliestSlot(trades, 60, current - m, current)
      case Some(k) => OpeningPrice(InSlot(trades, 60, k))
      case None => if firstPrice > 0.0 then firstPrice else lastPrice
  }

  /** The minute ring agrees with the history, over all prices. */
  lemma {:induction false} WindowMatchesHistory(trades: seq<Trade>, current: int, m: nat, firstPrice: real,
                                                lastPrice: real)
    requires Timely(trades, 60, Minutes) && NoneAfter(trades, 60, current) && m <= Minutes <= current
    ensures ScanMinutes(RingOf(trades, 60, Minutes), current, m).totals == SumSlots(trades, 60, current - m, current)
    ensures Anchor(RingOf(trades, 60, Minutes), current, m, firstPrice, lastPrice)
              == AnchorOf(trades, current, m, firstPrice, lastPrice)
  {
    TotalsMatch(trades, current, m, current - m);
    EarliestMatches(trades, current, m);
    PreviousMatches(trades, current, m);
  }

  predicate InTimeOrder(trades: seq<Trade>) {
    forall i, j | 0 <= i < j < |trades| :: trades[i].ts <= trades[j].ts
  }

  lemma {:induction false} OrderIsTimely(trades: seq<Trade>)
    requires InTimeOrder(trades)
    ensures Timely(trades, 60, Minutes)
  {
  }

  /** With trades in time order and positive prices, the totals are the plain sum over the trades of the
   * last m minutes. */
  lemma {:induction false} WindowIsFilterAndSum(trades: seq<Trade>, nowTs: int, current: int, m: nat, before: int)
    requires InTimeOrder(trades) && Priced(trades) && current == TruncDiv(nowTs, 60) && before == current - m
    requires NoneAfter(trades, 60, current) && m <= Minutes <= current
    ensures ScanMinutes(RingOf(trades, 60, Minutes), current, m).totals == SumTrades(trades, 60, before, current)
  {
    OrderIsTimely(trades);
    TotalsMatch(trades, current, m, before);
    SlotsAreTrades(trades, 60, before, current);
  }

  /** And the anchor is the reference one. */
  lemma {:induction false} WindowAnchor(trades: seq<Trade>, nowTs: int, current: int, m: nat, firstPrice: real,
                                        lastPrice: real)
    requires InTimeOrder(trades) && current == TruncDiv(nowTs, 60)
    requires NoneAfter(trades, 60, current) && m <= Minutes <= current
    ensures Anchor(RingOf(trades, 60, Minutes), current, m, firstPrice, lastPrice)
              == AnchorOf(trades, current, m, firstPrice, lastPrice)
  {
    OrderIsTimely(trades);
    WindowMatchesHistory(trades, current, m, firstPrice, lastPrice);
  }
}
