/** The five-minute window of one token: a ring of 300 one-second buckets. */
module SecondWindow {
  import opened Options
  import opened Ring

  const Seconds: nat := 300

  datatype Snapshot = Snapshot(anchor: Option<real>, totals: Totals)

  /** A bucket is summed up when it lies in (cutoff, now] and the price of its last trade is not zero. */
  predicate Included(b: Bucket, cutoff: int, now: int) {
    cutoff < b.start <= now && b.close != 0.0
  }

  /** The summary loop over a prefix of the ring: the totals, the start of the earliest bucket so far
   * (zero for none) and its opening price. */
  datatype Scan = Scan(totals: Totals, earliest: int, anchor: Option<real>)

  function ScanBuckets(buckets: seq<Bucket>, cutoff: int, now: int): Scan {
    if buckets == [] then Scan(Nothing, 0, None)
    else
      var s := ScanBuckets(buckets[..|buckets| - 1], cutoff, now);
      var b := buckets[|buckets| - 1];
      if !Included(b, cutoff, now) then s
      else
        var s1 := s.(totals := Plus(s.totals, OfBucket(b)));
        if s.earliest == 0 || b.start < s.earliest then s1.(earliest := b.start, anchor := Some(b.open)) else s1
  }

  class TokenWindowState {
    var lastPrice: real
    var lastUnixTs: int
    var lastActiveTs: int
    var lastLogId: int
    const secondBuckets: array<Bucket>

    ghost predicate Valid()
      reads this
    {
      secondBuckets.Length == Seconds
    }

    constructor ()
      ensures Valid() && fresh(secondBuckets) && secondBuckets[..] == RingOf([], 1, Seconds)
      ensures lastPrice == 0.0 && lastUnixTs == 0 && lastActiveTs == 0 && lastLogId == 0
    {
      lastPrice, lastUnixTs, lastActiveTs, lastLogId := 0.0, 0, 0, 0;
      secondBuckets := new Bucket[Seconds](i => Zero);
      new;
      assert secondBuckets[..] == EmptyRing(Seconds);
    }

    method AppendSecondBucket(isBuy: bool, vol: real, price: real, ts: int, logId: int)
      requires Valid()
      modifies this, secondBuckets
      ensures Valid()
      ensures secondBuckets[..] == Append(old(secondBuckets[..]), 1, Trade(ts, isBuy, vol, price, logId))
      ensures lastPrice == price && lastUnixTs == ts && lastActiveTs == ts
      ensures lastLogId == if logId > old(lastLogId) then logId else old(lastLogId)
    {
      lastPrice := price;
      lastUnixTs := ts;
      lastActiveTs := ts;
      if logId > lastLogId {
        lastLogId := logId;
      }
      var idx := TruncRem(ts, Seconds);
      if idx < 0 {
        idx := idx + Seconds;
      }
      IndexIsMod(ts, Seconds);
      SecondSlot(Trade(ts, isBuy, vol, price, logId));
      var bucket := secondBuckets[idx];
      if bucket.start != ts {
        bucket := Fresh(ts, price);
      } else if bucket.open == 0.0 {
        bucket := bucket.(open := price);
      }
      bucket := bucket.(close := price);
      if isBuy {
        bucket := bucket.(buys := bucket.buys + 1, buyVolume := bucket.buyVolume + vol);
      } else {
        bucket := bucket.(sells := bucket.sells + 1, sellVolume := bucket.sellVolume + vol);
      }
      secondBuckets[idx] := bucket.(volume := bucket.volume + vol);
    }

    method SummarizeSecondBuckets(nowTs: int, secondsBack: int) returns (snapshot: Snapshot)
      requires Valid()
      ensures
        var s := ScanBuckets(secondBuckets[..], nowTs - secondsBack, nowTs);
        snapshot == Snapshot(s.anchor, s.totals)
    {
      var cutoff := nowTs - secondsBack;
      var totals, earliest, anchor := Nothing, 0, None;
      var i := 0;
      while i < secondBuckets.Length
        invariant i <= secondBuckets.Length
        invariant Scan(totals, earliest, anchor) == ScanBuckets(secondBuckets[..i], cutoff, nowTs)
      {
        var bucket := secondBuckets[i];
        assert secondBuckets[..i + 1][..i] == secondBuckets[..i];
        if !(bucket.start <= cutoff || bucket.start > nowTs || bucket.close == 0.0) {
          totals := Plus(totals, OfBucket(bucket));
          if earliest == 0 || bucket.start < earliest {
            earliest := bucket.start;
            anchor := Some(bucket.open);
          }
        }
        i := i + 1;
      }
      assert secondBuckets[..i] == secondBuckets[..];
      snapshot := Snapshot(anchor, totals);
    }
  }

  lemma {:induction false} SecondSlot(t: Trade)
    ensures Slot(t, 1) == t.ts
  {
  }

  // ----- What one bucket tells -----

  /** Every bucket that is summed up is the exact summary of a second that counts. */
  lemma {:induction false} IncludedIsSecond(trades: seq<Trade>, i: int, cutoff: int, now: int)
    requires Timely(trades, 1, Seconds) && 0 <= i < Seconds && cutoff >= 0
    requires Included(RingOf(trades, 1, Seconds)[i], cutoff, now)
    ensures
      var b := RingOf(trades, 1, Seconds)[i];
      Index(b.start, Seconds) == i && b == Summary(InSlot(trades, 1, b.start), b.start) && Counts(trades, 1, b.start)
  {
    BucketsAreSummaries(trades, 1, Seconds, i);
    LatestIndex(trades, 1, Seconds, i);
  }

  /** Every second of the window that counts has its bucket. */
  lemma {:induction false} SecondIsIncluded(trades: seq<Trade>, k: int, cutoff: int, now: int)
    requires Timely(trades, 1, Seconds) && NoneAfter(trades, 1, now)
    requires 0 <= cutoff < k <= now && now - cutoff <= Seconds
    ensures 0 <= Index(k, Seconds) < Seconds
    ensures
      var b := RingOf(trades, 1, Seconds)[Index(k, Seconds)];
      if Counts(trades, 1, k) then b == Summary(InSlot(trades, 1, k), k) && Included(b, cutoff, now)
      else b.start != k || !Included(b, cutoff, now)
  {
    RecentSlot(trades, 1, Seconds, k, now);
  }

  // ----- The totals -----

  /** What one bucket adds to the window above a cutoff. */
  function Share(b: Bucket, cutoff: int, now: int): Totals {
    if Included(b, cutoff, now) then OfBucket(b) else Nothing
  }

  function Shares(buckets: seq<Bucket>, cutoff: int, now: int): seq<Totals> {
    seq(|buckets|, i requires 0 <= i < |buckets| => Share(buckets[i], cutoff, now))
  }

  function SumBy<T>(ts: seq<T>, plus: (T, T) -> T, zero: T): T {
    if ts == [] then zero else plus(SumBy(ts[..|ts| - 1], plus, zero), ts[|ts| - 1])
  }

  ghost predicate IsAddition<T(!new)>(plus: (T, T) -> T, zero: T) {
    && (forall a :: plus(a, zero) == a && plus(zero, a) == a)
    && (forall a, b, c :: plus(plus(a, b), c) == plus(plus(a, c), b))
  }

  lemma {:induction false} PlusIsAddition()
    ensures IsAddition(Plus, Nothing)
  {
    forall a
      ensures Plus(a, Nothing) == a && Plus(Nothing, a) == a
    {
      PlusNothing(a);
    }
    forall a, b, c
      ensures Plus(Plus(a, b), c) == Plus(Plus(a, c), b)
    {
      PlusLaws(a, b, c);
    }
  }

  /** One summand can be taken out of a sum, whatever is summed. */
  lemma {:induction false} TakeOut<T(!new)>(ts: seq<T>, i: nat, plus: (T, T) -> T, zero: T)
    requires IsAddition(plus, zero) && i < |ts|
    ensures SumBy(ts, plus, zero) == plus(SumBy(ts[i := zero], plus, zero), ts[i])
  {
    var last := |ts| - 1;
    var init := ts[..last];
    if i == last {
      assert ts[i := zero][..last] == init;
    } else {
      TakeOut(init, i, plus, zero);
      assert ts[i := zero][..last] == init[i := zero];
    }
  }

  lemma {:induction false} NothingToAdd<T(!new)>(ts: seq<T>, plus: (T, T) -> T, zero: T)
    requires IsAddition(plus, zero) && forall i | 0 <= i < |ts| :: ts[i] == zero
    ensures SumBy(ts, plus, zero) == zero
  {
    if ts == [] {
    } else {
      NothingToAdd(ts[..|ts| - 1], plus, zero);
    }
  }

  function SumOfShares(buckets: seq<Bucket>, cutoff: int, now: int): Totals {
    SumBy(Shares(buckets, cutoff, now), Plus, Nothing)
  }

  lemma {:induction false} SumOfSharesSnoc(buckets: seq<Bucket>, b: Bucket, cutoff: int, now: int)
    ensures SumOfShares(buckets + [b], cutoff, now) == Plus(SumOfShares(buckets, cutoff, now), Share(b, cutoff, now))
  {
    assert Shares(buckets + [b], cutoff, now) == Shares(buckets, cutoff, now) + [Share(b, cutoff, now)];
    assert Shares(buckets + [b], cutoff, now)[..|buckets|] == Shares(buckets, cutoff, now);
  }

  lemma {:induction false} ScanAddsShares(buckets: seq<Bucket>, cutoff: int, now: int)
    ensures ScanBuckets(buckets, cutoff, now).totals == SumOfShares(buckets, cutoff, now)
  {
    if buckets == [] {
    } else {
      var init, b := buckets[..|buckets| - 1], buckets[|buckets| - 1];
      ScanAddsShares(init, cutoff, now);
      assert buckets == init + [b];
      SumOfSharesSnoc(init, b, cutoff, now);
      PlusNothing(SumOfShares(init, cutoff, now));
    }
  }

  lemma {:induction false} EmptyWindow(buckets: seq<Bucket>, now: int)
    ensures SumOfShares(buckets, now, now) == Nothing
  {
    PlusIsAddition();
    NothingToAdd(Shares(buckets, now, now), Plus, Nothing);
  }

  /** Moving the cutoff up by one second drops the share of the one bucket that second has, if any. */
  lemma {:induction false} RaiseCutoff(buckets: seq<Bucket>, k: int, cutoff: int, now: int, i: int)
    requires k == cutoff + 1 && cutoff < now && 0 <= i < |buckets|
    requires forall j | 0 <= j < |buckets| && j != i :: buckets[j].start != k
    ensures SumOfShares(buckets, cutoff, now) ==
              Plus(SumOfShares(buckets, k, now),
                   if buckets[i].start == k then Share(buckets[i], cutoff, now) else Nothing)
  {
    var before, after := Shares(buckets, cutoff, now), Shares(buckets, k, now);
    if buckets[i].start == k {
      assert before[i := Nothing] == after;
      PlusIsAddition();
      TakeOut(before, i, Plus, Nothing);
    } else {
      assert before == after;
      PlusNothing(SumBy(after, Plus, Nothing));
    }
  }

  /** A second has no bucket but its own. */
  lemma {:induction false} OneBucketOnly(trades: seq<Trade>, k: int)
    requires Timely(trades, 1, Seconds) && k > 0
    ensures
      forall j | 0 <= j < Seconds && j != Index(k, Seconds) :: RingOf(trades, 1, Seconds)[j].start != k
  {
    forall j | 0 <= j < Seconds && j != Index(k, Seconds)
      ensures RingOf(trades, 1, Seconds)[j].start != k
    {
      BucketsAreSummaries(trades, 1, Seconds, j);
      LatestIndex(trades, 1, Seconds, j);
    }
  }

  /** What the bucket of the first second above the cutoff adds is what that second adds. */
  lemma {:induction false} OwnShare(trades: seq<Trade>, k: int, cutoff: int, now: int)
    requires Timely(trades, 1, Seconds) && NoneAfter(trades, 1, now)
    requires 0 <= cutoff < now && now - cutoff <= Seconds && k == cutoff + 1
    ensures 0 <= Index(k, Seconds) < Seconds
    ensures
      var b := RingOf(trades, 1, Seconds)[Index(k, Seconds)];
      (if b.start == k then Share(b, cutoff, now) else Nothing) == SlotTotals(trades, 1, k)
  {
    SecondIsIncluded(trades, k, cutoff, now);
  }

  /** Moving the cutoff up by one second drops exactly that second. */
  lemma {:induction false} RaiseWindow(trades: seq<Trade>, k: int, cutoff: int, now: int)
    requires Timely(trades, 1, Seconds) && NoneAfter(trades, 1, now)
    requires 0 <= cutoff < now && now - cutoff <= Seconds && k == cutoff + 1
    ensures
      var ring := RingOf(trades, 1, Seconds);
      SumOfShares(ring, cutoff, now) == Plus(SumOfShares(ring, k, now), SlotTotals(trades, 1, k))
  {
    OwnShare(trades, k, cutoff, now);
    OneBucketOnly(trades, k);
    RaiseCutoff(RingOf(trades, 1, Seconds), k, cutoff, now, Index(k, Seconds));
  }

  /** Whatever loses exactly one second with each second the cutoff moves up is the sum of the seconds. */
  lemma {:induction false} SecondBySecond(above: int -> Totals, trades: seq<Trade>, cutoff: int, now: int)
    requires cutoff <= now && above(now) == Nothing
    requires forall c, k | cutoff <= c < now && k == c + 1 :: above(c) == Plus(above(k), SlotTotals(trades, 1, k))
    ensures above(cutoff) == SumSlots(trades, 1, cutoff, now)
    decreases now - cutoff
  {
    if cutoff == now {
    } else {
      SecondBySecond(above, trades, cutoff + 1, now);
    }
  }

  lemma {:induction false} SharesAreSeconds(trades: seq<Trade>, above: int -> Totals, cutoff: int, now: int)
    requires Timely(trades, 1, Seconds) && NoneAfter(trades, 1, now)
    requires 0 <= cutoff <= now && now - cutoff <= Seconds
    requires forall c :: above(c) == SumOfShares(RingOf(trades, 1, Seconds), c, now)
    ensures above(cutoff) == SumSlots(trades, 1, cutoff, now)
  {
    EmptyWindow(RingOf(trades, 1, Seconds), now);
    forall c, k | cutoff <= c < now && k == c + 1
      ensures above(c) == Plus(above(k), SlotTotals(trades, 1, k))
    {
      RaiseWindow(trades, k, c, now);
    }
    SecondBySecond(above, trades, cutoff, now);
  }

  lemma {:induction false} TotalsMatch(trades: seq<Trade>, cutoff: int, now: int)
    requires Timely(trades, 1, Seconds) && NoneAfter(trades, 1, now)
    requires 0 <= cutoff <= now && now - cutoff <= Seconds
    ensures ScanBuckets(RingOf(trades, 1, Seconds), cutoff, now).totals == SumSlots(trades, 1, cutoff, now)
  {
    ScanAddsShares(RingOf(trades, 1, Seconds), cutoff, now);
    SharesAreSeconds(trades, c => SumOfShares(RingOf(trades, 1, Seconds), c, now), cutoff, now);
  }

  // ----- The anchor -----

  /** The scan's earliest start is that of a bucket it summed up, and no such bucket starts before it. */
  predicate EarliestOf(buckets: seq<Bucket>, cutoff: int, now: int, s: Scan) {
    if s.earliest == 0 then
      s.anchor == None && forall j | 0 <= j < |buckets| :: !Included(buckets[j], cutoff, now)
    else
      && (exists i | 0 <= i < |buckets| ::
            Included(buckets[i], cutoff, now) && buckets[i].start == s.earliest && s.anchor == Some(buckets[i].open))
      && (forall j | 0 <= j < |buckets| && Included(buckets[j], cutoff, now) :: s.earliest <= buckets[j].start)
  }

  lemma {:induction false} ScanFindsEarliest(buckets: seq<Bucket>, cutoff: int, now: int)
    requires cutoff >= 0
    ensures EarliestOf(buckets, cutoff, now, ScanBuckets(buckets, cutoff, now))
  {
    if buckets == [] {
    } else {
      var last := |buckets| - 1;
      var init := buckets[..last];
      ScanFindsEarliest(init, cutoff, now);
      var s := ScanBuckets(init, cutoff, now);
      assert forall j | 0 <= j < last :: init[j] == buckets[j];
      if s.earliest != 0 {
        var i :| 0 <= i < |init| && Included(init[i], cutoff, now)
          && init[i].start == s.earliest && s.anchor == Some(init[i].open);
        assert Included(buckets[i], cutoff, now) && buckets[i].start == s.earliest;
      }
      if Included(buckets[last], cutoff, now) {
        assert ScanBuckets(buckets, cutoff, now).earliest != 0;
      }
    }
  }

  lemma {:induction false} EarliestSlotIs(trades: seq<Trade>, w: int, lo: int, hi: int)
    requires w > 0
    ensures
      match EarliestSlot(trades, w, lo, hi)
      case None => forall k | lo < k <= hi :: !Counts(trades, w, k)
      case Some(k) => lo < k <= hi && Counts(trades, w, k) && forall j | lo < j < k :: !Counts(trades, w, j)
    decreases hi - lo
  {
    if lo >= hi {
    } else {
      EarliestSlotIs(trades, w, lo + 1, hi);
    }
  }

  lemma {:induction false} AnchorMatches(trades: seq<Trade>, cutoff: int, now: int)
    requires Timely(trades, 1, Seconds) && NoneAfter(trades, 1, now)
    requires 0 <= cutoff <= now && now - cutoff <= Seconds
    ensures ScanBuckets(RingOf(trades, 1, Seconds), cutoff, now).anchor ==
              match EarliestSlot(trades, 1, cutoff, now)
              case None => None
              case Some(k) => Some(OpeningPrice(InSlot(trades, 1, k)))
  {
    var ring := RingOf(trades, 1, Seconds);
    var s := ScanBuckets(ring, cutoff, now);
    ScanFindsEarliest(ring, cutoff, now);
    EarliestSlotIs(trades, 1, cutoff, now);
    if s.earliest != 0 {
      var i :| 0 <= i < |ring| && Included(ring[i], cutoff, now)
        && ring[i].start == s.earliest && s.anchor == Some(ring[i].open);
      IncludedIsSecond(trades, i, cutoff, now);
      var k := EarliestSlot(trades, 1, cutoff, now).value;
      SecondIsIncluded(trades, k, cutoff, now);
      assert k == ring[i].start;
    } else {
      match EarliestSlot(trades, 1, cutoff, now)
      case None =>
      case Some(k) => SecondIsIncluded(trades, k, cutoff, now);
    }
  }

  // ----- The window against the history -----

  /** The ring agrees with the history: over all prices, the summary is the sum over the seconds of
   * (cutoff, now] whose last price is not zero, and the anchor is the first non-zero price of the
   * earliest of them. */
  lemma {:induction false} WindowMatchesHistory(trades: seq<Trade>, cutoff: int, now: int)
    requires Timely(trades, 1, Seconds) && NoneAfter(trades, 1, now)
    requires 0 <= cutoff < now <= cutoff + Seconds
    ensures ScanBuckets(RingOf(trades, 1, Seconds), cutoff, now).totals == SumSlots(trades, 1, cutoff, now)
    ensures ScanBuckets(RingOf(trades, 1, Seconds), cutoff, now).anchor ==
              match EarliestSlot(trades, 1, cutoff, now)
              case None => None
              case Some(k) => Some(OpeningPrice(InSlot(trades, 1, k)))
  {
    TotalsMatch(trades, cutoff, now);
    AnchorMatches(trades, cutoff, now);
  }

  /** The anchor of a window of positively priced trades: none when the window is empty, otherwise the
   * price of the first-arrived trade of its earliest second. */
  ghost predicate AnchorOf(trades: seq<Trade>, cutoff: int, now: int, anchor: Option<real>) {
    match anchor
    case None => forall k | cutoff < k <= now :: InSlot(trades, 1, k) == []
    case Some(price) =>
      exists k | cutoff < k <= now ::
        && InSlot(trades, 1, k) != [] && price == InSlot(trades, 1, k)[0].price
        && forall j | cutoff < j < k :: InSlot(trades, 1, j) == []
  }

  lemma {:induction false} PricedAnchor(trades: seq<Trade>, cutoff: int, now: int)
    requires Timely(trades, 1, Seconds) && NoneAfter(trades, 1, now) && Priced(trades)
    requires 0 <= cutoff < now <= cutoff + Seconds
    ensures AnchorOf(trades, cutoff, now, ScanBuckets(RingOf(trades, 1, Seconds), cutoff, now).anchor)
  {
    AnchorMatches(trades, cutoff, now);
    EarliestSlotIs(trades, 1, cutoff, now);
    forall k | cutoff < k <= now
      ensures Counts(trades, 1, k) <==> InSlot(trades, 1, k) != []
    {
      PricedSlot(trades, 1, k);
    }
    match EarliestSlot(trades, 1, cutoff, now)
    case None =>
    case Some(k) =>
      PricedSlot(trades, 1, k);
      assert OpeningPrice(InSlot(trades, 1, k)) == InSlot(trades, 1, k)[0].price;
  }

  /** With positive prices the summary of the last W seconds is the plain filter and sum over the trades
   * with now - W < ts <= now. */
  lemma {:induction false} WindowIsFilterAndSum(trades: seq<Trade>, now: int, secondsBack: int, cutoff: int)
    requires Timely(trades, 1, Seconds) && NoneAfter(trades, 1, now) && Priced(trades)
    requires 0 < secondsBack <= Seconds && cutoff == now - secondsBack && cutoff >= 0
    ensures ScanBuckets(RingOf(trades, 1, Seconds), cutoff, now).totals == SumTrades(trades, 1, cutoff, now)
    ensures AnchorOf(trades, cutoff, now, ScanBuckets(RingOf(trades, 1, Seconds), cutoff, now).anchor)
  {
    TotalsMatch(trades, cutoff, now);
    PricedAnchor(trades, cutoff, now);
    SlotsAreTrades(trades, 1, cutoff, now);
  }
}
