/** A ring of buckets over time against the trades it was fed.
 *
 * Both rolling windows of the statistics are such rings: 300 one-second buckets, and 1440 one-minute
 * buckets.  Time is cut into slots of `w` seconds; slot k lives in bucket k mod n and is recognised by
 * its start k*w.  The theory is about values: `RingOf` is the ring after a history of trades, and the
 * main result says what a bucket holds as long as no trade arrives n or more slots late.
 */
module Ring {
  import opened Options
  import opened Arithmetic

  /** Amounts and prices are exact numbers here; whether a trade is a buy is taken as given. */
  datatype Trade = Trade(ts: int, isBuy: bool, volume: real, price: real, logId: int)

  datatype Bucket = Bucket(
    start: int, buys: int, sells: int,
    volume: real, buyVolume: real, sellVolume: real,
    open: real, close: real)

  datatype Totals = Totals(buys: int, sells: int, buyVolume: real, sellVolume: real, volume: real)

  const Nothing := Totals(0, 0, 0.0, 0.0, 0.0)

  function Plus(a: Totals, b: Totals): Totals {
    Totals(a.buys + b.buys, a.sells + b.sells,
           a.buyVolume + b.buyVolume, a.sellVolume + b.sellVolume, a.volume + b.volume)
  }

  function OfTrade(t: Trade): Totals {
    if t.isBuy then Totals(1, 0, t.volume, 0.0, t.volume) else Totals(0, 1, 0.0, t.volume, t.volume)
  }

  function OfBucket(b: Bucket): Totals {
    Totals(b.buys, b.sells, b.buyVolume, b.sellVolume, b.volume)
  }

  /** Integer division and remainder as the program's language has them: towards zero. */
  function TruncDiv(a: int, b: int): int
    requires b > 0
  {
    if a >= 0 then a / b else -(-a / b)
  }

  function TruncRem(a: int, b: int): int
    requires b > 0
  {
    a - b * TruncDiv(a, b)
  }

  /** The bucket index of a slot: the remainder, moved up when it is negative. */
  function Index(slot: int, n: int): int
    requires n > 0
  {
    var r := TruncRem(slot, n);
    if r < 0 then r + n else r
  }

  lemma {:induction false} IndexIsMod(slot: int, n: int)
    requires n > 0
    ensures Index(slot, n) == slot % n
  {
    if slot < 0 {
      var q := -slot / n;
      assert -slot == n * q + (-slot) % n;
      if (-slot) % n == 0 {
        assert slot == n * (-q) + 0;
        ModUnique(slot, n, -q, 0);
      } else {
        assert slot == n * (-q - 1) + (n - (-slot) % n);
        ModUnique(slot, n, -q - 1, n - (-slot) % n);
      }
    }
  }

  /** Two slots share a bucket only if they are at least a whole ring apart. */
  lemma {:induction false} SameIndexFarApart(j: int, k: int, n: int)
    requires n > 0 && Index(j, n) == Index(k, n)
    ensures j == k || j <= k - n || k <= j - n
  {
    IndexIsMod(j, n);
    IndexIsMod(k, n);
    QuotientAndRemainder(j, n);
    QuotientAndRemainder(k, n);
    SameRemainder(j, k, j / n, k / n, n);
  }

  lemma {:induction false} QuotientAndRemainder(j: int, n: int)
    requires n > 0
    ensures j - n * (j / n) == j % n
  {
  }

  lemma {:induction false} SameRemainder(j: int, k: int, p: int, q: int, n: int)
    requires n > 0 && j - n * p == k - n * q
    ensures j == k || j <= k - n || k <= j - n
  {
    if p < q {
      Scale(n, p, q);
    } else if q < p {
      Scale(n, q, p);
    }
  }

  function Slot(t: Trade, w: int): int
    requires w > 0
  {
    TruncDiv(t.ts, w)
  }

  lemma {:induction false} StartsDiffer(j: int, k: int, w: int)
    requires w > 0
    ensures j * w == k * w <==> j == k
    ensures j * w < k * w <==> j < k
  {
  }

  function Fresh(start: int, price: real): Bucket {
    Bucket(start, 0, 0, 0.0, 0.0, 0.0, price, price)
  }

  /** Putting one trade into the bucket of its slot: a bucket left over from another slot is started
   * afresh; an opening price of zero counts as missing. */
  function Put(b: Bucket, start: int, t: Trade): Bucket {
    var b1 := if b.start != start then Fresh(start, t.price)
              else if b.open == 0.0 then b.(open := t.price)
              else b;
    var b2 := b1.(close := t.price, volume := b1.volume + t.volume);
    if t.isBuy then b2.(buys := b2.buys + 1, buyVolume := b2.buyVolume + t.volume)
    else b2.(sells := b2.sells + 1, sellVolume := b2.sellVolume + t.volume)
  }

  const Zero := Fresh(0, 0.0)

  function EmptyRing(n: nat): seq<Bucket> { seq(n, i => Zero) }

  function Append(ring: seq<Bucket>, w: int, t: Trade): (r: seq<Bucket>)
    requires w > 0 && |ring| > 0
    ensures |r| == |ring|
  {
    var slot := Slot(t, w);
    IndexIsMod(slot, |ring|);
    var i := Index(slot, |ring|);
    ring[i := Put(ring[i], slot * w, t)]
  }

  /** The ring after a history of trades, in order of arrival. */
  function RingOf(trades: seq<Trade>, w: int, n: nat): (r: seq<Bucket>)
    requires w > 0 && n > 0
    ensures |r| == n
  {
    if trades == [] then EmptyRing(n)
    else Append(RingOf(trades[..|trades| - 1], w, n), w, trades[|trades| - 1])
  }

  // ----- The reference: filter the history by slot -----

  function InSlot(trades: seq<Trade>, w: int, k: int): seq<Trade>
    requires w > 0
  {
    if trades == [] then []
    else
      var rest := InSlot(trades[..|trades| - 1], w, k);
      var t := trades[|trades| - 1];
      if Slot(t, w) == k then rest + [t] else rest
  }

  function SumOf(trades: seq<Trade>): Totals {
    if trades == [] then Nothing
    else Plus(SumOf(trades[..|trades| - 1]), OfTrade(trades[|trades| - 1]))
  }

  /** The first price that is not zero, if any. */
  function OpeningPrice(trades: seq<Trade>): real {
    if trades == [] then 0.0
    else if trades[0].price != 0.0 then trades[0].price
    else OpeningPrice(trades[1..])
  }

  function ClosingPrice(trades: seq<Trade>): real {
    if trades == [] then 0.0 else trades[|trades| - 1].price
  }

  /** The bucket a slot ought to have. */
  function Summary(trades: seq<Trade>, start: int): Bucket {
    var s := SumOf(trades);
    Bucket(start, s.buys, s.sells, s.volume, s.buyVolume, s.sellVolume, OpeningPrice(trades), ClosingPrice(trades))
  }

  lemma {:induction false} OpeningPriceSnoc(trades: seq<Trade>, t: Trade)
    ensures OpeningPrice(trades + [t]) == if OpeningPrice(trades) != 0.0 then OpeningPrice(trades) else t.price
  {
    if trades == [] {
      assert ([] + [t])[1..] == [];
    } else {
      assert (trades + [t])[1..] == trades[1..] + [t];
      OpeningPriceSnoc(trades[1..], t);
    }
  }

  /** Putting a trade into the right bucket, or into one that has to start afresh, is adding it. */
  lemma {:induction false} PutIsSummary(trades: seq<Trade>, start: int, b: Bucket, t: Trade)
    requires b == Summary(trades, start) || (trades == [] && b.start != start)
    ensures Put(b, start, t) == Summary(trades + [t], start)
  {
    assert (trades + [t])[..|trades|] == trades;
    OpeningPriceSnoc(trades, t);
  }

  lemma {:induction false} InSlotSnoc(trades: seq<Trade>, w: int, k: int, t: Trade)
    requires w > 0
    ensures InSlot(trades + [t], w, k) == if Slot(t, w) == k then InSlot(trades, w, k) + [t] else InSlot(trades, w, k)
  {
  }

  /** The slot of the latest arrival among those that share a bucket. */
  function LatestAt(trades: seq<Trade>, w: int, n: nat, i: int): Option<int>
    requires w > 0 && n > 0
  {
    if trades == [] then None
    else
      var slot := Slot(trades[|trades| - 1], w);
      if Index(slot, n) == i then Some(slot) else LatestAt(trades[..|trades| - 1], w, n, i)
  }

  /** No trade arrives n or more slots after a later one. */
  predicate Timely(trades: seq<Trade>, w: int, n: nat)
    requires w > 0
  {
    forall i, j | 0 <= i < j < |trades| :: Slot(trades[j], w) > Slot(trades[i], w) - n
  }

  lemma {:induction false} InSlotAt(trades: seq<Trade>, w: int, k: int) returns (at: nat)
    requires w > 0 && InSlot(trades, w, k) != []
    ensures at < |trades| && Slot(trades[at], w) == k
  {
    var last := |trades| - 1;
    if Slot(trades[last], w) == k {
      at := last;
    } else {
      at := InSlotAt(trades[..last], w, k);
    }
  }

  /** In a timely history, a bucket whose latest arrival is of slot j holds nothing of any other slot
   * that could still come. */
  lemma {:induction false} OthersAreGone(trades: seq<Trade>, w: int, n: nat, k: int, j: int)
    requires w > 0 && n > 0 && Timely(trades, w, n)
    requires LatestAt(trades, w, n, Index(k, n)) == Some(j) && j != k && j < k + n
    ensures InSlot(trades, w, k) == []
  {
    var last := |trades| - 1;
    var slot := Slot(trades[last], w);
    var init := trades[..last];
    if Index(slot, n) == Index(k, n) {
      SameIndexFarApart(j, k, n);
      if InSlot(init, w, k) != [] {
        var at := InSlotAt(init, w, k);
        assert false;
      }
    } else {
      assert forall i, j | 0 <= i < j < |init| :: Slot(init[j], w) > Slot(init[i], w) - n by {
        assert forall i | 0 <= i < |init| :: init[i] == trades[i];
      }
      OthersAreGone(init, w, n, k, j);
    }
  }

  lemma {:induction false} NoneLatest(trades: seq<Trade>, w: int, n: nat, k: int)
    requires w > 0 && n > 0 && LatestAt(trades, w, n, Index(k, n)) == None
    ensures InSlot(trades, w, k) == []
  {
    if trades == [] {
    } else {
      NoneLatest(trades[..|trades| - 1], w, n, k);
    }
  }

  lemma {:induction false} TimelyInit(trades: seq<Trade>, w: int, n: nat)
    requires w > 0 && trades != [] && Timely(trades, w, n)
    ensures Timely(trades[..|trades| - 1], w, n)
  {
  }

  /** The refinement: each bucket is the exact summary of the slot it was last used for. */
  lemma {:induction false} BucketsAreSummaries(trades: seq<Trade>, w: int, n: nat, i: int)
    requires w > 0 && n > 0 && 0 <= i < n && Timely(trades, w, n)
    ensures RingOf(trades, w, n)[i] ==
              match LatestAt(trades, w, n, i)
              case None => Zero
              case Some(k) => Summary(InSlot(trades, w, k), k * w)
  {
    if trades == [] {
    } else {
      var init, t := trades[..|trades| - 1], trades[|trades| - 1];
      var slot := Slot(t, w);
      assert trades == init + [t];
      TimelyInit(trades, w, n);
      BucketsAreSummaries(init, w, n, i);
      if Index(slot, n) == i {
        InSlotSnoc(init, w, slot, t);
        RightBucket(init, w, n, t);
        PutIsSummary(InSlot(init, w, slot), slot * w, RingOf(init, w, n)[i], t);
      } else {
        match LatestAt(init, w, n, i)
        case None =>
        case Some(k) =>
          LatestIndex(init, w, n, i);
          InSlotSnoc(init, w, k, t);
      }
    }
  }

  lemma {:induction false} LatestIndex(trades: seq<Trade>, w: int, n: nat, i: int)
    requires w > 0 && n > 0
    ensures LatestAt(trades, w, n, i).Some? ==> Index(LatestAt(trades, w, n, i).value, n) == i
  {
    if trades == [] {
    } else {
      LatestIndex(trades[..|trades| - 1], w, n, i);
    }
  }

  /** The bucket a timely trade finds is its own slot's, or one that starts afresh. */
  lemma {:induction false} RightBucket(trades: seq<Trade>, w: int, n: nat, t: Trade)
    requires w > 0 && n > 0 && Timely(trades + [t], w, n)
    requires
      var i := Index(Slot(t, w), n);
      0 <= i < n && RingOf(trades, w, n)[i] ==
        match LatestAt(trades, w, n, i)
        case None => Zero
        case Some(k) => Summary(InSlot(trades, w, k), k * w)
    ensures
      var slot := Slot(t, w);
      var b := RingOf(trades, w, n)[Index(slot, n)];
      b == Summary(InSlot(trades, w, slot), slot * w) || (InSlot(trades, w, slot) == [] && b.start != slot * w)
  {
    var slot := Slot(t, w);
    match LatestAt(trades, w, n, Index(slot, n))
    case None =>
      NoneLatest(trades, w, n, slot);
    case Some(k) =>
      if k != slot {
        StartsDiffer(k, slot, w);
        LatestArrived(trades, w, n, Index(slot, n), t);
        assert (trades + [t])[..|trades|] == trades;
        TimelyInit(trades + [t], w, n);
        OthersAreGone(trades, w, n, slot, k);
      }
  }

  lemma {:induction false} LatestOccurs(trades: seq<Trade>, w: int, n: nat, i: int) returns (at: nat)
    requires w > 0 && n > 0 && LatestAt(trades, w, n, i).Some?
    ensures at < |trades| && Slot(trades[at], w) == LatestAt(trades, w, n, i).value
  {
    var last := |trades| - 1;
    if Index(Slot(trades[last], w), n) == i {
      at := last;
    } else {
      at := LatestOccurs(trades[..last], w, n, i);
    }
  }

  lemma {:induction false} LatestArrived(trades: seq<Trade>, w: int, n: nat, i: int, t: Trade)
    requires w > 0 && n > 0 && Timely(trades + [t], w, n) && LatestAt(trades, w, n, i).Some?
    ensures LatestAt(trades, w, n, i).value < Slot(t, w) + n
  {
    var at := LatestOccurs(trades, w, n, i);
    assert (trades + [t])[at] == trades[at] && (trades + [t])[|trades|] == t;
  }

  predicate NoneAfter(trades: seq<Trade>, w: int, current: int)
    requires w > 0
  {
    forall i | 0 <= i < |trades| :: Slot(trades[i], w) <= current
  }

  /** Looking a recent slot up in the ring finds exactly its trades: the bucket carries the slot's start
   * and its summary, or the slot has no trades and the bucket does not pass for it. */
  lemma {:induction false} RecentSlot(trades: seq<Trade>, w: int, n: nat, k: int, current: int)
    requires w > 0 && n > 0 && Timely(trades, w, n) && NoneAfter(trades, w, current)
    requires current - n < k <= current
    ensures 0 <= Index(k, n) < n
    ensures
      var b := RingOf(trades, w, n)[Index(k, n)];
      if InSlot(trades, w, k) == [] then b.start != k * w || b == Zero
      else b == Summary(InSlot(trades, w, k), k * w)
  {
    IndexIsMod(k, n);
    var i := Index(k, n);
    BucketsAreSummaries(trades, w, n, i);
    match LatestAt(trades, w, n, i)
    case None =>
      NoneLatest(trades, w, n, k);
    case Some(j) =>
      LatestIndex(trades, w, n, i);
      if j != k {
        StartsDiffer(j, k, w);
        var at := LatestOccurs(trades, w, n, i);
        OthersAreGone(trades, w, n, k, j);
      } else {
        var at := LatestOccurs(trades, w, n, i);
        OccursInSlot(trades, w, at);
      }
  }

  lemma {:induction false} OccursInSlot(trades: seq<Trade>, w: int, at: nat)
    requires w > 0 && at < |trades|
    ensures InSlot(trades, w, Slot(trades[at], w)) != []
  {
    if at < |trades| - 1 {
      assert trades[..|trades| - 1][at] == trades[at];
      OccursInSlot(trades[..|trades| - 1], w, at);
    }
  }

  // ----- Windows of slots -----

  /** A slot counts when the price of its last trade is not zero. */
  predicate Counts(trades: seq<Trade>, w: int, k: int)
    requires w > 0
  {
    ClosingPrice(InSlot(trades, w, k)) != 0.0
  }

  function SlotTotals(trades: seq<Trade>, w: int, k: int): Totals
    requires w > 0
  {
    if Counts(trades, w, k) then SumOf(InSlot(trades, w, k)) else Nothing
  }

  /** The totals of the slots in (lo, hi]. */
  function SumSlots(trades: seq<Trade>, w: int, lo: int, hi: int): Totals
    requires w > 0
    decreases hi - lo
  {
    if lo >= hi then Nothing
    else Plus(SumSlots(trades, w, lo + 1, hi), SlotTotals(trades, w, lo + 1))
  }

  /** The earliest slot of (lo, hi] that counts. */
  function EarliestSlot(trades: seq<Trade>, w: int, lo: int, hi: int): Option<int>
    requires w > 0
    decreases hi - lo
  {
    if lo >= hi then None
    else if Counts(trades, w, lo + 1) then Some(lo + 1)
    else EarliestSlot(trades, w, lo + 1, hi)
  }

  /** The plain definition: sum over the trades whose slot is in (lo, hi]. */
  function SumTrades(trades: seq<Trade>, w: int, lo: int, hi: int): Totals
    requires w > 0
  {
    if trades == [] then Nothing
    else
      var t := trades[|trades| - 1];
      var rest := SumTrades(trades[..|trades| - 1], w, lo, hi);
      if lo < Slot(t, w) <= hi then Plus(rest, OfTrade(t)) else rest
  }

  predicate Priced(trades: seq<Trade>) {
    forall i | 0 <= i < |trades| :: trades[i].price > 0.0
  }

  lemma {:induction false} PricedSlot(trades: seq<Trade>, w: int, k: int)
    requires w > 0 && Priced(trades)
    ensures Priced(InSlot(trades, w, k))
    ensures Counts(trades, w, k) <==> InSlot(trades, w, k) != []
  {
    if trades == [] {
    } else {
      PricedSlot(trades[..|trades| - 1], w, k);
    }
  }

  lemma {:induction false} PlusLaws(a: Totals, b: Totals, c: Totals)
    ensures Plus(a, Plus(b, c)) == Plus(Plus(a, b), c)
    ensures Plus(Plus(a, b), c) == Plus(Plus(a, c), b)
  {
  }

  lemma {:induction false} PlusNothing(a: Totals)
    ensures Plus(Nothing, a) == a == Plus(a, Nothing)
  {
  }

  lemma {:induction false} SumOfSnoc(trades: seq<Trade>, t: Trade)
    ensures SumOf(trades + [t]) == Plus(SumOf(trades), OfTrade(t))
  {
  }

  lemma {:induction false} SlotTotalsSnoc(trades: seq<Trade>, t: Trade, w: int, k: int)
    requires w > 0 && Priced(trades) && t.price > 0.0
    ensures SlotTotals(trades + [t], w, k) ==
              if Slot(t, w) == k then Plus(SlotTotals(trades, w, k), OfTrade(t)) else SlotTotals(trades, w, k)
  {
    var xs := InSlot(trades, w, k);
    InSlotSnoc(trades, w, k, t);
    PricedSlot(trades, w, k);
    assert SlotTotals(trades, w, k) == SumOf(xs);
    if Slot(t, w) == k {
      SumOfSnoc(xs, t);
      assert ClosingPrice(xs + [t]) == t.price;
    }
  }

  lemma {:induction false} SumSlotsSnoc(trades: seq<Trade>, t: Trade, w: int, lo: int, hi: int)
    requires w > 0 && Priced(trades) && t.price > 0.0
    ensures SumSlots(trades + [t], w, lo, hi) ==
              if lo < Slot(t, w) <= hi then Plus(SumSlots(trades, w, lo, hi), OfTrade(t))
              else SumSlots(trades, w, lo, hi)
    decreases hi - lo
  {
    if lo >= hi {
    } else {
      SumSlotsSnoc(trades, t, w, lo + 1, hi);
      SlotTotalsSnoc(trades, t, w, lo + 1);
      PlusLaws(SumSlots(trades, w, lo + 1, hi), SlotTotals(trades, w, lo + 1), OfTrade(t));
    }
  }

  /** When every price is positive, summing slot by slot is summing over the trades. */
  lemma {:induction false} SlotsAreTrades(trades: seq<Trade>, w: int, lo: int, hi: int)
    requires w > 0 && Priced(trades)
    ensures SumSlots(trades, w, lo, hi) == SumTrades(trades, w, lo, hi)
  {
    if trades == [] {
      NoSlots(w, lo, hi);
    } else {
      var init, t := trades[..|trades| - 1], trades[|trades| - 1];
      assert trades == init + [t];
      SlotsAreTrades(init, w, lo, hi);
      SumSlotsSnoc(init, t, w, lo, hi);
    }
  }

  lemma {:induction false} NoSlots(w: int, lo: int, hi: int)
    requires w > 0
    ensures SumSlots([], w, lo, hi) == Nothing
    decreases hi - lo
  {
    if lo >= hi {
    } else {
      NoSlots(w, lo + 1, hi);
    }
  }
}
