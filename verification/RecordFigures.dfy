/** The figures of a record, told from the trades themselves: five counts of trades. */
module RecordFigures {
  import opened Options
  import opened Ring
  import opened SecondWindow
  import opened LongWindow
  import MinuteWindow

  /** The buys, or the sells, among some trades. */
  function Only(trades: seq<Trade>, buys: bool): seq<Trade> {
    if trades == [] then []
    else
      var rest, t := Only(trades[..|trades| - 1], buys), trades[|trades| - 1];
      if t.isBuy == buys then rest + [t] else rest
  }

  function VolumeOf(trades: seq<Trade>): real {
    if trades == [] then 0.0 else VolumeOf(trades[..|trades| - 1]) + trades[|trades| - 1].volume
  }

  predicate TotalsAreOf(t: Totals, trades: seq<Trade>) {
    && t.buys == |Only(trades, true)| && t.sells == |Only(trades, false)|
    && t.buyVolume == VolumeOf(Only(trades, true)) && t.sellVolume == VolumeOf(Only(trades, false))
    && t.volume == VolumeOf(trades)
  }

  /** The figures count the trades, and their buys and sells, and sum their volumes. */
  predicate Tells(f: Figures, trades: seq<Trade>) { f.txns == |trades| && TotalsAreOf(f.totals, trades) }

  lemma {:induction false} OnlySnoc(trades: seq<Trade>, t: Trade, buys: bool)
    ensures Only(trades + [t], buys) == if t.isBuy == buys then Only(trades, buys) + [t] else Only(trades, buys)
    ensures VolumeOf(trades + [t]) == VolumeOf(trades) + t.volume
  {
    assert (trades + [t])[..|trades|] == trades;
  }

  lemma {:induction false} OneMore(totals: Totals, trades: seq<Trade>, t: Trade)
    requires TotalsAreOf(totals, trades)
    ensures TotalsAreOf(Plus(totals, OfTrade(t)), trades + [t])
  {
    OnlySnoc(trades, t, true);
    OnlySnoc(trades, t, false);
    OnlySnoc(Only(trades, t.isBuy), t, true);
  }

  lemma {:induction false} SumIsOfFilter(trades: seq<Trade>, p: Part)
    ensures TotalsAreOf(SumWhere(trades, p), Filter(trades, p))
  {
    if trades == [] {
    } else {
      var init, t := trades[..|trades| - 1], trades[|trades| - 1];
      SumIsOfFilter(init, p);
      if In(p, t.ts) { OneMore(SumWhere(init, p), Filter(init, p), t); }
    }
  }

  lemma {:induction false} PlusIsOfBoth(a: Totals, xs: seq<Trade>, b: Totals, ys: seq<Trade>)
    requires TotalsAreOf(a, xs) && TotalsAreOf(b, ys)
    ensures TotalsAreOf(Plus(a, b), xs + ys)
    decreases |ys|
  {
    OnlyConcat(xs, ys, true);
    OnlyConcat(xs, ys, false);
    VolumeConcat(xs, ys);
    VolumeConcat(Only(xs, true), Only(ys, true));
    VolumeConcat(Only(xs, false), Only(ys, false));
  }

  lemma {:induction false} OnlyConcat(xs: seq<Trade>, ys: seq<Trade>, buys: bool)
    ensures Only(xs + ys, buys) == Only(xs, buys) + Only(ys, buys)
    decreases |ys|
  {
    if ys == [] {
      assert xs + ys == xs;
    } else {
      assert (xs + ys)[..|xs + ys| - 1] == xs + ys[..|ys| - 1];
      OnlyConcat(xs, ys[..|ys| - 1], buys);
    }
  }

  lemma {:induction false} VolumeConcat(xs: seq<Trade>, ys: seq<Trade>)
    ensures VolumeOf(xs + ys) == VolumeOf(xs) + VolumeOf(ys)
    decreases |ys|
  {
    if ys == [] {
      assert xs + ys == xs;
    } else {
      assert (xs + ys)[..|xs + ys| - 1] == xs + ys[..|ys| - 1];
      VolumeConcat(xs, ys[..|ys| - 1]);
    }
  }

  lemma {:induction false} CountIsBoth(trades: seq<Trade>)
    ensures |Only(trades, true)| + |Only(trades, false)| == |trades|
  {
    if trades == [] {
    } else {
      CountIsBoth(trades[..|trades| - 1]);
    }
  }

  lemma {:induction false} FiguresTell(s: Snapshot, trades: seq<Trade>)
    requires TotalsAreOf(s.totals, trades)
    ensures Tells(FiguresOf(s), trades) && FiguresOf(s).anchor == s.anchor
  {
    CountIsBoth(trades);
  }

  // ----- The five figures -----

  /** A figure of the last seconds, as built from a ring that heard some trades. */
  predicate IsShort(f: Figures, heard: seq<Trade>, now: int, back: int) {
    f == FiguresOf(Recent(RingOf(heard, 1, 300), now - back, now))
  }

  /** A figure of a longer window, as built from the ring and a table that stored some trades. */
  predicate IsLong(f: Figures, heard: seq<Trade>, stored: seq<Trade>, now: int, back: int) {
    var tail := Recent(RingOf(heard, 1, 300), now - 300, now);
    f == FiguresOf(MergeWindowSnapshots(LongSnapshot(stored, now, back), tail))
  }

  predicate IsRecord(r: CurrentRecord, heard: seq<Trade>, stored: seq<Trade>, now: int) {
    && IsShort(r.minute, heard, now, 60) && IsShort(r.fiveMinutes, heard, now, 5 * 60)
    && IsLong(r.hour, heard, stored, now, 60 * 60) && IsLong(r.fourHours, heard, stored, now, 4 * 60 * 60)
    && IsLong(r.day, heard, stored, now, 24 * 60 * 60)
  }

  /** The trades a short figure shows: those heard in the seconds whose last price is not zero. */
  function ShownWithin(heard: seq<Trade>, now: int, back: int): seq<Trade> {
    Filter(heard, Shown(heard, now - back, now))
  }

  /** The trades a long figure shows: the stored ones of the long part, then those of the last five minutes. */
  function ShownOver(heard: seq<Trade>, stored: seq<Trade>, now: int, back: int): seq<Trade> {
    Filter(stored, Long(now, back)) + ShownWithin(heard, now, 300)
  }

  lemma {:induction false} ShortTells(f: Figures, heard: seq<Trade>, now: int, back: int)
    requires Timely(heard, 1, 300) && NoneAfter(heard, 1, now) && 0 < back <= 300 && now >= back
    requires IsShort(f, heard, now, back)
    ensures Tells(f, ShownWithin(heard, now, back))
  {
    TailTotals(heard, now, now - back);
    SumIsOfFilter(heard, Shown(heard, now - back, now));
    FiguresTell(Recent(RingOf(heard, 1, 300), now - back, now), ShownWithin(heard, now, back));
  }

  lemma {:induction false} LongTells(f: Figures, heard: seq<Trade>, stored: seq<Trade>, now: int, back: int)
    requires Timely(heard, 1, 300) && NoneAfter(heard, 1, now) && now >= 300
    requires IsLong(f, heard, stored, now, back)
    ensures Tells(f, ShownOver(heard, stored, now, back))
  {
    var tail := Recent(RingOf(heard, 1, 300), now - 300, now);
    MergedParts(stored, heard, now, back, now - 300, tail);
    SumIsOfFilter(stored, Long(now, back));
    SumIsOfFilter(heard, Shown(heard, now - 300, now));
    PlusIsOfBoth(SumWhere(stored, Long(now, back)), Filter(stored, Long(now, back)),
                 SumWhere(heard, Shown(heard, now - 300, now)), ShownWithin(heard, now, 300));
    FiguresTell(MergeWindowSnapshots(LongSnapshot(stored, now, back), tail), ShownOver(heard, stored, now, back));
  }

  /** The five figures of a record count trades, for any prices: of the last minute and the last five those
   * heard in seconds whose last price is not zero, and of the last hour, four hours and day those and the
   * stored ones up to five minutes ago. */
  lemma {:induction false} RecordTells(r: CurrentRecord, heard: seq<Trade>, stored: seq<Trade>, now: int)
    requires Timely(heard, 1, 300) && NoneAfter(heard, 1, now) && now >= 300
    requires IsRecord(r, heard, stored, now)
    ensures Tells(r.minute, ShownWithin(heard, now, 60)) && Tells(r.fiveMinutes, ShownWithin(heard, now, 300))
    ensures Tells(r.hour, ShownOver(heard, stored, now, 3600))
    ensures Tells(r.fourHours, ShownOver(heard, stored, now, 14400))
    ensures Tells(r.day, ShownOver(heard, stored, now, 86400))
  {
    ShortTells(r.minute, heard, now, 60);
    ShortTells(r.fiveMinutes, heard, now, 300);
    LongTells(r.hour, heard, stored, now, 3600);
    LongTells(r.fourHours, heard, stored, now, 14400);
    LongTells(r.day, heard, stored, now, 86400);
  }

  /** Where a price change starts from: the first price of the long part, or else the first that is not zero
   * among the trades of the last five minutes shown. */
  function LongStart(trades: seq<Trade>, now: int, back: int): Option<real> {
    if PriceOfFirst(trades, Long(now, back)).Some? then PriceOfFirst(trades, Long(now, back))
    else OpeningOf(trades, Shown(trades, now - 300, now))
  }

  lemma {:induction false} ShortAnchor(f: Figures, trades: seq<Trade>, now: int, back: int)
    requires MinuteWindow.InTimeOrder(trades) && NoneAfter(trades, 1, now) && 0 < back <= 300 && now >= back
    requires IsShort(f, trades, now, back)
    ensures f.anchor == OpeningOf(trades, Shown(trades, now - back, now))
  {
    TailAnchor(trades, now, now - back);
  }

  lemma {:induction false} LongAnchorIs(f: Figures, trades: seq<Trade>, now: int, back: int)
    requires MinuteWindow.InTimeOrder(trades) && NoneAfter(trades, 1, now) && now >= 300 && back > 300
    requires IsLong(f, trades, trades, now, back)
    ensures f.anchor == LongStart(trades, now, back)
  {
    MergedAnchor(trades, now, back, now - 300, Recent(RingOf(trades, 1, 300), now - 300, now));
  }

  /** When trades come in the order of time, the price changes of a record start from these prices. */
  lemma {:induction false} RecordAnchors(r: CurrentRecord, trades: seq<Trade>, now: int)
    requires MinuteWindow.InTimeOrder(trades) && NoneAfter(trades, 1, now) && now >= 300
    requires IsRecord(r, trades, trades, now)
    ensures r.minute.anchor == OpeningOf(trades, Shown(trades, now - 60, now))
    ensures r.fiveMinutes.anchor == OpeningOf(trades, Shown(trades, now - 300, now))
    ensures r.hour.anchor == LongStart(trades, now, 3600)
    ensures r.fourHours.anchor == LongStart(trades, now, 14400)
    ensures r.day.anchor == LongStart(trades, now, 86400)
  {
    ShortAnchor(r.minute, trades, now, 60);
    ShortAnchor(r.fiveMinutes, trades, now, 300);
    LongAnchorIs(r.hour, trades, now, 3600);
    LongAnchorIs(r.fourHours, trades, now, 14400);
    LongAnchorIs(r.day, trades, now, 86400);
  }
}
