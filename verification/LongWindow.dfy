/** The one-hour, four-hour and one-day figures: a long part read from the one-minute aggregate of the
 * trade table, plus the last five minutes from the second ring. */
module LongWindow {
  import opened Options
  import opened Ring
  import opened SecondWindow
  import MinuteWindow

  function MinuteStart(ts: int): int { ts / 60 * 60 }

  /** The sets of trades the accounting talks about, by the second of the trade. */
  datatype Part =
    | Second(second: int)
    | Minute(minute: int)
    | Minutes(lo: int, hi: int)
    | Long(now: int, back: int)
    | Tail(now: int)
    | Counted(now: int, back: int)
    | Wanted(now: int, back: int)
    | Missed(now: int, back: int)
    | Extra(now: int, back: int)
    | Shown(heard: seq<Trade>, lo: int, hi: int)
    | Hidden(heard: seq<Trade>, lo: int, hi: int)

  predicate In(p: Part, ts: int) {
    match p
    case Second(k) => ts == k
    case Minute(k) => ts / 60 == k
    case Minutes(lo, hi) => lo <= ts / 60 < hi
    case Long(now, back) => now - back <= MinuteStart(ts) < now - Seconds
    case Tail(now) => now - Seconds < ts <= now
    case Counted(now, back) => now - back <= MinuteStart(ts) < now - Seconds || now - Seconds < ts <= now
    case Wanted(now, back) => now - back < ts <= now
    case Missed(now, back) =>
      if now % 60 == 0 then ts == now - Seconds else now - back < ts && ts / 60 == (now - back) / 60
    case Extra(now, back) =>
      if now % 60 == 0 then ts == now - back else now - Seconds < ts && ts / 60 == (now - Seconds) / 60
    case Shown(heard, lo, hi) => lo < ts <= hi && Counts(heard, 1, ts)
    case Hidden(heard, lo, hi) => lo < ts <= hi && !Counts(heard, 1, ts)
  }

  function Filter(trades: seq<Trade>, p: Part): seq<Trade> {
    if trades == [] then []
    else
      var rest := Filter(trades[..|trades| - 1], p);
      var t := trades[|trades| - 1];
      if In(p, t.ts) then rest + [t] else rest
  }

  function More(a: Totals, t: Trade, p: Part): Totals { if In(p, t.ts) then Plus(a, OfTrade(t)) else a }

  function SumWhere(trades: seq<Trade>, p: Part): Totals {
    if trades == [] then Nothing
    else More(SumWhere(trades[..|trades| - 1], p), trades[|trades| - 1], p)
  }

  // ----- The long part -----

  /** The sum of the aggregate's rows for the minutes in [lo, hi). */
  function SumMinutes(trades: seq<Trade>, lo: int, hi: int): Totals
    decreases hi - lo
  {
    if lo >= hi then Nothing
    else Plus(SumMinutes(trades, lo + 1, hi), SumWhere(trades, Minute(lo)))
  }

  /** The earliest minute of [lo, hi) that has a row. */
  function EarliestMinute(trades: seq<Trade>, lo: int, hi: int): Option<int>
    decreases hi - lo
  {
    if lo >= hi then None
    else if Filter(trades, Minute(lo)) != [] then Some(lo)
    else EarliestMinute(trades, lo + 1, hi)
  }

  /** The first minute that starts at or after a second. */
  function MinuteFrom(ts: int): int { (ts + 59) / 60 }

  /** The query over the rows whose start lies in [now - back, now - 300): a row opens with the price of
   * its first trade in order of insertion, and the anchor is the opening price of the earliest row. */
  function LongSnapshot(trades: seq<Trade>, now: int, back: int): Snapshot {
    var lo, hi := MinuteFrom(now - back), MinuteFrom(now - Seconds);
    var anchor := match EarliestMinute(trades, lo, hi)
                  case None => None
                  case Some(k) =>
                    var row := Filter(trades, Minute(k));
                    if row != [] then Some(row[0].price) else None;
    Snapshot(anchor, SumMinutes(trades, lo, hi))
  }

  function MergeWindowSnapshots(long: Snapshot, tail: Snapshot): Snapshot {
    Snapshot(if long.anchor.None? then tail.anchor else long.anchor, Plus(long.totals, tail.totals))
  }

  // ----- The record -----

  datatype Figures = Figures(anchor: Option<real>, txns: int, totals: Totals)

  datatype CurrentRecord = CurrentRecord(
    mint: string, latestPrice: real, latestEventUnix: int,
    minute: Figures, fiveMinutes: Figures, hour: Figures, fourHours: Figures, day: Figures,
    sourceLogId: int)

  datatype LongMetrics = LongMetrics(hour: Snapshot, fourHours: Snapshot, day: Snapshot)

  function FiguresOf(s: Snapshot): Figures {
    Figures(s.anchor, s.totals.buys + s.totals.sells, s.totals)
  }

  /** The summary of the second ring over (cutoff, now]. */
  function Recent(ring: seq<Bucket>, cutoff: int, now: int): Snapshot {
    var s := ScanBuckets(ring, cutoff, now);
    Snapshot(s.anchor, s.totals)
  }

  method BuildCurrentRecord(mint: string, window: TokenWindowState, long: LongMetrics, nowTs: int)
    returns (r: Option<CurrentRecord>)
    requires window.Valid()
    ensures r.None? <==> window.lastPrice <= 0.0 || window.lastUnixTs <= 0
    ensures r.Some? ==>
              var tail := Recent(window.secondBuckets[..], nowTs - Seconds, nowTs);
              && r.value.mint == mint && r.value.latestPrice == window.lastPrice
              && r.value.latestEventUnix == window.lastUnixTs && r.value.sourceLogId == window.lastLogId
              && r.value.minute == FiguresOf(Recent(window.secondBuckets[..], nowTs - 60, nowTs))
              && r.value.fiveMinutes == FiguresOf(tail)
              && r.value.hour == FiguresOf(MergeWindowSnapshots(long.hour, tail))
              && r.value.fourHours == FiguresOf(MergeWindowSnapshots(long.fourHours, tail))
              && r.value.day == FiguresOf(MergeWindowSnapshots(long.day, tail))
  {
    if window.lastPrice <= 0.0 || window.lastUnixTs <= 0 {
      return None;
    }
    var short1m := window.SummarizeSecondBuckets(nowTs, 60);
    var short5m := window.SummarizeSecondBuckets(nowTs, Seconds);
    r := Some(CurrentRecord(
      mint, window.lastPrice, window.lastUnixTs,
      FiguresOf(short1m), FiguresOf(short5m),
      FiguresOf(MergeWindowSnapshots(long.hour, short5m)),
      FiguresOf(MergeWindowSnapshots(long.fourHours, short5m)),
      FiguresOf(MergeWindowSnapshots(long.day, short5m)),
      window.lastLogId));
  }

  // ----- Summing minute by minute is summing over the trades -----

  lemma {:induction false} SumWhereSnoc(trades: seq<Trade>, t: Trade, p: Part)
    ensures SumWhere(trades + [t], p) == More(SumWhere(trades, p), t, p)
  {
  }

  lemma {:induction false} JoinMinute(rest: Totals, row: Totals, t: Trade, lo: int, hi: int)
    requires lo < hi
    ensures Plus(More(rest, t, Minutes(lo + 1, hi)), More(row, t, Minute(lo))) ==
              More(Plus(rest, row), t, Minutes(lo, hi))
  {
  }

  lemma {:induction false} SumMinutesSnoc(trades: seq<Trade>, t: Trade, lo: int, hi: int)
    ensures SumMinutes(trades + [t], lo, hi) == More(SumMinutes(trades, lo, hi), t, Minutes(lo, hi))
    decreases hi - lo
  {
    if lo >= hi {
    } else {
      SumMinutesSnoc(trades, t, lo + 1, hi);
      SumWhereSnoc(trades, t, Minute(lo));
      JoinMinute(SumMinutes(trades, lo + 1, hi), SumWhere(trades, Minute(lo)), t, lo, hi);
    }
  }

  lemma {:induction false} NoMinutes(trades: seq<Trade>, lo: int, hi: int)
    requires trades == []
    ensures SumMinutes(trades, lo, hi) == Nothing
    decreases hi - lo
  {
    if lo >= hi {
    } else {
      NoMinutes(trades, lo + 1, hi);
    }
  }

  lemma {:induction false} MinutesAreTrades(trades: seq<Trade>, lo: int, hi: int)
    ensures SumMinutes(trades, lo, hi) == SumWhere(trades, Minutes(lo, hi))
  {
    if trades == [] {
      NoMinutes(trades, lo, hi);
    } else {
      var init, t := trades[..|trades| - 1], trades[|trades| - 1];
      assert trades == init + [t];
      MinutesAreTrades(init, lo, hi);
      SumMinutesSnoc(init, t, lo, hi);
      SumWhereSnoc(init, t, Minutes(lo, hi));
    }
  }

  /** The minutes the query picks are those whose start it asks for. */
  lemma {:induction false} MinutesAsked(ts: int, now: int, back: int)
    ensures In(Minutes(MinuteFrom(now - back), MinuteFrom(now - Seconds)), ts) <==> In(Long(now, back), ts)
  {
  }

  lemma {:induction false} SameTrades(trades: seq<Trade>, p: Part, q: Part)
    requires forall i | 0 <= i < |trades| :: In(p, trades[i].ts) <==> In(q, trades[i].ts)
    ensures Filter(trades, p) == Filter(trades, q) && SumWhere(trades, p) == SumWhere(trades, q)
  {
    if trades == [] {
    } else {
      SameTrades(trades[..|trades| - 1], p, q);
    }
  }

  lemma {:induction false} LongTotals(trades: seq<Trade>, now: int, back: int)
    ensures LongSnapshot(trades, now, back).totals == SumWhere(trades, Long(now, back))
  {
    var lo, hi := MinuteFrom(now - back), MinuteFrom(now - Seconds);
    MinutesAreTrades(trades, lo, hi);
    forall i | 0 <= i < |trades|
      ensures In(Minutes(lo, hi), trades[i].ts) <==> In(Long(now, back), trades[i].ts)
    {
      MinutesAsked(trades[i].ts, now, back);
    }
    SameTrades(trades, Minutes(lo, hi), Long(now, back));
  }

  // ----- The tail, second by second -----

  /** The sum over the seconds of (lo, hi] that count in the heard history. */
  function SumSeconds(heard: seq<Trade>, trades: seq<Trade>, lo: int, hi: int): Totals
    decreases hi - lo
  {
    if lo >= hi then Nothing
    else Plus(SumSeconds(heard, trades, lo + 1, hi), SumWhere(trades, Shown(heard, lo, lo + 1)))
  }

  lemma {:induction false} SecondIsShown(heard: seq<Trade>, trades: seq<Trade>, lo: int, k: int)
    requires k == lo + 1
    ensures SumWhere(trades, Shown(heard, lo, k)) ==
              if Counts(heard, 1, k) then SumOf(InSlot(trades, 1, k)) else Nothing
  {
    if trades == [] {
    } else {
      var init, t := trades[..|trades| - 1], trades[|trades| - 1];
      SecondIsShown(heard, init, lo, k);
      if Slot(t, 1) == k { SumOfSnoc(InSlot(init, 1, k), t); }
    }
  }

  lemma {:induction false} SlotsAreSeconds(heard: seq<Trade>, lo: int, hi: int)
    ensures SumSlots(heard, 1, lo, hi) == SumSeconds(heard, heard, lo, hi)
    decreases hi - lo
  {
    if lo >= hi {
    } else {
      SlotsAreSeconds(heard, lo + 1, hi);
      SecondIsShown(heard, heard, lo, lo + 1);
    }
  }

  lemma {:induction false} JoinSecond(heard: seq<Trade>, rest: Totals, second: Totals, t: Trade, lo: int, k: int,
                                      hi: int)
    requires k == lo + 1 && lo < hi
    ensures Plus(More(rest, t, Shown(heard, k, hi)), More(second, t, Shown(heard, lo, k)))
         == More(Plus(rest, second), t, Shown(heard, lo, hi))
  {
    PlusLaws(rest, second, OfTrade(t));
  }

  lemma {:induction false} SumSecondsSnoc(heard: seq<Trade>, trades: seq<Trade>, t: Trade, lo: int, hi: int)
    ensures SumSeconds(heard, trades + [t], lo, hi) == More(SumSeconds(heard, trades, lo, hi), t, Shown(heard, lo, hi))
    decreases hi - lo
  {
    if lo >= hi {
    } else {
      SumSecondsSnoc(heard, trades, t, lo + 1, hi);
      SumWhereSnoc(trades, t, Shown(heard, lo, lo + 1));
      JoinSecond(heard, SumSeconds(heard, trades, lo + 1, hi), SumWhere(trades, Shown(heard, lo, lo + 1)),
                 t, lo, lo + 1, hi);
    }
  }

  lemma {:induction false} NoSeconds(heard: seq<Trade>, trades: seq<Trade>, lo: int, hi: int)
    requires trades == []
    ensures SumSeconds(heard, trades, lo, hi) == Nothing
    decreases hi - lo
  {
    if lo >= hi {
    } else {
      NoSeconds(heard, trades, lo + 1, hi);
    }
  }

  lemma {:induction false} SecondsAreTrades(heard: seq<Trade>, trades: seq<Trade>, lo: int, hi: int)
    ensures SumSeconds(heard, trades, lo, hi) == SumWhere(trades, Shown(heard, lo, hi))
  {
    if trades == [] {
      NoSeconds(heard, trades, lo, hi);
    } else {
      var init, t := trades[..|trades| - 1], trades[|trades| - 1];
      assert trades == init + [t];
      SecondsAreTrades(heard, init, lo, hi);
      SumSecondsSnoc(heard, init, t, lo, hi);
      SumWhereSnoc(init, t, Shown(heard, lo, hi));
    }
  }

  /** The tail shows the trades of the seconds whose last price is not zero. */
  lemma {:induction false} TailTotals(heard: seq<Trade>, now: int, cutoff: int)
    requires Timely(heard, 1, Seconds) && NoneAfter(heard, 1, now) && 0 <= cutoff < now <= cutoff + Seconds
    ensures Recent(RingOf(heard, 1, Seconds), cutoff, now).totals == SumWhere(heard, Shown(heard, cutoff, now))
  {
    WindowMatchesHistory(heard, cutoff, now);
    SlotsAreSeconds(heard, cutoff, now);
    SecondsAreTrades(heard, heard, cutoff, now);
  }

  /** With positive prices nothing is hidden. */
  lemma {:induction false} PricedHidesNothing(heard: seq<Trade>, now: int, cutoff: int)
    requires Priced(heard) && cutoff == now - Seconds
    ensures forall i | 0 <= i < |heard| :: !In(Hidden(heard, cutoff, now), heard[i].ts)
    ensures SumWhere(heard, Hidden(heard, cutoff, now)) == Nothing
    ensures SumWhere(heard, Shown(heard, cutoff, now)) == SumWhere(heard, Tail(now))
    ensures Filter(heard, Shown(heard, cutoff, now)) == Filter(heard, Tail(now))
  {
    forall i | 0 <= i < |heard|
      ensures !In(Hidden(heard, cutoff, now), heard[i].ts)
      ensures In(Shown(heard, cutoff, now), heard[i].ts) <==> In(Tail(now), heard[i].ts)
    {
      OccursInSlot(heard, 1, i);
      PricedSlot(heard, 1, heard[i].ts);
    }
    SumOfNone(heard, Hidden(heard, cutoff, now));
    SameTrades(heard, Shown(heard, cutoff, now), Tail(now));
  }

  // ----- How often each trade is counted -----

  function Once(p: Part, ts: int): int { if In(p, ts) then 1 else 0 }

  /** How the two parts overlap and where they leave a hole, second by second. */
  lemma {:induction false} CountOfSecond(ts: int, now: int, back: int)
    requires back > Seconds && back % 60 == 0
    ensures Once(Long(now, back), ts) + Once(Tail(now), ts) + Once(Missed(now, back), ts)
         == Once(Wanted(now, back), ts) + Once(Extra(now, back), ts)
  {
  }

  /** A trade counts as often as it should exactly when it is in neither failing set; and both failing
   * sets lie in the two minutes that contain the window's start and its seam. */
  lemma {:induction false} CountedAsWantedIff(ts: int, now: int, back: int)
    requires back > Seconds && back % 60 == 0
    ensures Once(Long(now, back), ts) + Once(Tail(now), ts) == Once(Wanted(now, back), ts)
       <==> !In(Missed(now, back), ts) && !In(Extra(now, back), ts)
    ensures In(Missed(now, back), ts) || In(Extra(now, back), ts)
        ==> ts / 60 == (now - back) / 60 || ts / 60 == (now - Seconds) / 60
  {
  }

  lemma {:induction false} OneMore(t: Trade, a: Part, b: Part, c: Part, d: Part, e: Part, sa: Totals, sb: Totals,
                                   sc: Totals, sd: Totals, se: Totals)
    requires Once(a, t.ts) + Once(b, t.ts) + Once(c, t.ts) == Once(d, t.ts) + Once(e, t.ts)
    requires Plus(Plus(sa, sb), sc) == Plus(sd, se)
    ensures Plus(Plus(More(sa, t, a), More(sb, t, b)), More(sc, t, c)) == Plus(More(sd, t, d), More(se, t, e))
  {
  }

  /** Sums follow the counts. */
  lemma {:induction false} SumsFollowCounts(trades: seq<Trade>, now: int, back: int)
    requires back > Seconds && back % 60 == 0
    ensures Plus(Plus(SumWhere(trades, Long(now, back)), SumWhere(trades, Tail(now))),
              SumWhere(trades, Missed(now, back)))
         == Plus(SumWhere(trades, Wanted(now, back)), SumWhere(trades, Extra(now, back)))
  {
    if trades == [] {
      PlusNothing(SumWhere(trades, Tail(now)));
      PlusNothing(SumWhere(trades, Missed(now, back)));
      PlusNothing(SumWhere(trades, Extra(now, back)));
    } else {
      var init, t := trades[..|trades| - 1], trades[|trades| - 1];
      SumsFollowCounts(init, now, back);
      CountOfSecond(t.ts, now, back);
      OneMore(t, Long(now, back), Tail(now), Missed(now, back), Wanted(now, back), Extra(now, back),
              SumWhere(init, Long(now, back)), SumWhere(init, Tail(now)), SumWhere(init, Missed(now, back)),
              SumWhere(init, Wanted(now, back)), SumWhere(init, Extra(now, back)));
    }
  }

  lemma {:induction false} SplitOne(heard: seq<Trade>, t: Trade, shown: Totals, hidden: Totals, now: int, cutoff: int)
    requires cutoff == now - Seconds
    ensures Plus(More(shown, t, Shown(heard, cutoff, now)), More(hidden, t, Hidden(heard, cutoff, now)))
         == More(Plus(shown, hidden), t, Tail(now))
  {
    PlusLaws(shown, hidden, OfTrade(t));
  }

  lemma {:induction false} TailIsShownAndHidden(heard: seq<Trade>, trades: seq<Trade>, now: int, cutoff: int)
    requires cutoff == now - Seconds
    ensures Plus(SumWhere(trades, Shown(heard, cutoff, now)), SumWhere(trades, Hidden(heard, cutoff, now)))
         == SumWhere(trades, Tail(now))
  {
    if trades == [] {
      PlusNothing(SumWhere(trades, Hidden(heard, cutoff, now)));
    } else {
      var init, t := trades[..|trades| - 1], trades[|trades| - 1];
      TailIsShownAndHidden(heard, init, now, cutoff);
      SplitOne(heard, t, SumWhere(init, Shown(heard, cutoff, now)), SumWhere(init, Hidden(heard, cutoff, now)),
               now, cutoff);
    }
  }

  /** Both failing sets are inhabited: a second of the hour is counted in no part, another in both. */
  lemma {:induction false} MissedAndCountedTwice()
    ensures
      var now := 1_700_000_030;
      && Once(Wanted(now, 3600), now - 3595) == 1
      && Once(Long(now, 3600), now - 3595) + Once(Tail(now), now - 3595) == 0
      && Once(Wanted(now, 3600), now - 295) == 1
      && Once(Long(now, 3600), now - 295) + Once(Tail(now), now - 295) == 2
  {
  }

  lemma {:induction false} NoneThere(trades: seq<Trade>, p: Part)
    ensures Filter(trades, p) == [] <==> forall i | 0 <= i < |trades| :: !In(p, trades[i].ts)
  {
    if trades == [] {
    } else {
      var init := trades[..|trades| - 1];
      NoneThere(init, p);
      assert forall i | 0 <= i < |init| :: init[i] == trades[i];
    }
  }

  lemma {:induction false} SumOfNone(trades: seq<Trade>, p: Part)
    requires forall i | 0 <= i < |trades| :: !In(p, trades[i].ts)
    ensures SumWhere(trades, p) == Nothing
  {
    if trades == [] {
    } else {
      SumOfNone(trades[..|trades| - 1], p);
    }
  }

  /** What the merged figure sums: the stored trades of the long part, and those heard in the seconds of
   * the tail whose last price is not zero. */
  lemma {:induction false} MergedParts(stored: seq<Trade>, heard: seq<Trade>, now: int, back: int, cutoff: int,
                                       tail: Snapshot)
    requires Timely(heard, 1, Seconds) && NoneAfter(heard, 1, now)
    requires cutoff == now - Seconds >= 0 && tail == Recent(RingOf(heard, 1, Seconds), cutoff, now)
    ensures MergeWindowSnapshots(LongSnapshot(stored, now, back), tail).totals
              == Plus(SumWhere(stored, Long(now, back)), SumWhere(heard, Shown(heard, cutoff, now)))
    ensures Priced(heard) ==> SumWhere(heard, Shown(heard, cutoff, now)) == SumWhere(heard, Tail(now))
  {
    LongTotals(stored, now, back);
    TailTotals(heard, now, cutoff);
    if Priced(heard) { PricedHidesNothing(heard, now, cutoff); }
  }

  lemma {:induction false} Balance(long: Totals, shown: Totals, hidden: Totals, tail: Totals, missed: Totals,
                                   wanted: Totals, extra: Totals)
    requires tail == Plus(shown, hidden) && Plus(Plus(long, tail), missed) == Plus(wanted, extra)
    ensures Plus(Plus(long, shown), Plus(hidden, missed)) == Plus(wanted, extra)
    ensures Plus(long, shown) == wanted <==> Plus(hidden, missed) == extra
  {
  }

  /** The account of the merged figure when the table and the ring have the same trades: what it shows,
   * plus what its tail hides, plus what it missed, is what was wanted plus what it counted too much.  So
   * it is right exactly when the hidden and missed trades sum to the same as the extra ones. */
  lemma {:induction false} MergedAccount(trades: seq<Trade>, now: int, back: int, cutoff: int, tail: Snapshot)
    requires Timely(trades, 1, Seconds) && NoneAfter(trades, 1, now)
    requires cutoff == now - Seconds >= 0 && tail == Recent(RingOf(trades, 1, Seconds), cutoff, now)
    requires back > Seconds && back % 60 == 0
    ensures
      var merged := MergeWindowSnapshots(LongSnapshot(trades, now, back), tail).totals;
      var hidden := SumWhere(trades, Hidden(trades, cutoff, now));
      var wanted, missed, extra :=
        SumWhere(trades, Wanted(now, back)), SumWhere(trades, Missed(now, back)), SumWhere(trades, Extra(now, back));
      && Plus(merged, Plus(hidden, missed)) == Plus(wanted, extra)
      && (merged == wanted <==> Plus(hidden, missed) == extra)
      && (Priced(trades) ==> hidden == Nothing && Plus(hidden, missed) == missed)
  {
    MergedParts(trades, trades, now, back, cutoff, tail);
    SumsFollowCounts(trades, now, back);
    TailIsShownAndHidden(trades, trades, now, cutoff);
    Balance(SumWhere(trades, Long(now, back)),
            SumWhere(trades, Shown(trades, cutoff, now)), SumWhere(trades, Hidden(trades, cutoff, now)),
            SumWhere(trades, Tail(now)), SumWhere(trades, Missed(now, back)),
            SumWhere(trades, Wanted(now, back)), SumWhere(trades, Extra(now, back)));
    if Priced(trades) {
      PricedHidesNothing(trades, now, cutoff);
      PlusNothing(SumWhere(trades, Missed(now, back)));
    }
  }

  /** With no trade in the two boundary minutes and none hidden the merged figure is exactly the window's. */
  lemma {:induction false} ExactAwayFromTheEdges(trades: seq<Trade>, now: int, back: int, cutoff: int, tail: Snapshot)
    requires Timely(trades, 1, Seconds) && NoneAfter(trades, 1, now)
    requires cutoff == now - Seconds >= 0 && tail == Recent(RingOf(trades, 1, Seconds), cutoff, now)
    requires back > Seconds && back % 60 == 0
    requires forall i | 0 <= i < |trades| :: !In(Minute((now - back) / 60), trades[i].ts)
    requires forall i | 0 <= i < |trades| :: !In(Minute((now - Seconds) / 60), trades[i].ts)
    ensures
      var merged := MergeWindowSnapshots(LongSnapshot(trades, now, back), tail).totals;
      var hidden, wanted := SumWhere(trades, Hidden(trades, cutoff, now)), SumWhere(trades, Wanted(now, back));
      && (merged == wanted <==> hidden == Nothing)
      && (Priced(trades) ==> merged == wanted)
  {
    forall i | 0 <= i < |trades|
      ensures !In(Missed(now, back), trades[i].ts) && !In(Extra(now, back), trades[i].ts)
    {
      CountedAsWantedIff(trades[i].ts, now, back);
    }
    SumOfNone(trades, Missed(now, back));
    SumOfNone(trades, Extra(now, back));
    MergedAccount(trades, now, back, cutoff, tail);
    PlusNothing(SumWhere(trades, Hidden(trades, cutoff, now)));
    if Priced(trades) { PricedHidesNothing(trades, now, cutoff); }
  }

  // ----- The anchor -----

  predicate FirstAt(trades: seq<Trade>, p: Part, i: int) {
    && 0 <= i < |trades| && In(p, trades[i].ts)
    && forall j | 0 <= j < i :: !In(p, trades[j].ts)
  }

  /** The head of a filtered history is the first trade the filter lets through. */
  lemma {:induction false} HeadIs(trades: seq<Trade>, p: Part, i: int)
    requires FirstAt(trades, p, i)
    ensures Filter(trades, p) != [] && Filter(trades, p)[0] == trades[i]
  {
    var init := trades[..|trades| - 1];
    assert forall j | 0 <= j < |init| :: init[j] == trades[j];
    if i < |init| {
      HeadIs(init, p, i);
    } else {
      NoneThere(init, p);
    }
  }

  lemma {:induction false} HeadFrom(trades: seq<Trade>, p: Part)
    requires Filter(trades, p) != []
    ensures exists i :: FirstAt(trades, p, i)
  {
    var init := trades[..|trades| - 1];
    assert forall j | 0 <= j < |init| :: init[j] == trades[j];
    if Filter(init, p) != [] {
      HeadFrom(init, p);
      var i :| FirstAt(init, p, i);
      assert FirstAt(trades, p, i);
    } else {
      NoneThere(init, p);
      assert FirstAt(trades, p, |init|);
    }
  }

  lemma {:induction false} EarliestMinuteIs(trades: seq<Trade>, lo: int, hi: int)
    ensures
      match EarliestMinute(trades, lo, hi)
      case None => forall k | lo <= k < hi :: Filter(trades, Minute(k)) == []
      case Some(k) =>
        && lo <= k < hi && Filter(trades, Minute(k)) != []
        && forall j | lo <= j < k :: Filter(trades, Minute(j)) == []
    decreases hi - lo
  {
    if lo >= hi {
    } else {
      EarliestMinuteIs(trades, lo + 1, hi);
    }
  }

  lemma {:induction false} SecondIsSlot(trades: seq<Trade>, k: int)
    ensures InSlot(trades, 1, k) == Filter(trades, Second(k))
  {
    if trades == [] {
    } else {
      SecondIsSlot(trades[..|trades| - 1], k);
    }
  }

  /** Whatever group of seconds comes first, its first trade is the first of all the counted ones. */
  lemma {:induction false} GroupHead(trades: seq<Trade>, group: Part, all: Part, i: int, from: int)
    requires MinuteWindow.InTimeOrder(trades) && FirstAt(trades, group, i) && In(all, trades[i].ts)
    requires forall ts | In(all, ts) :: from <= ts
    requires forall j | 0 <= j < |trades| && from <= trades[j].ts <= trades[i].ts :: In(group, trades[j].ts)
    ensures FirstAt(trades, all, i)
  {
  }

  function PriceOfFirst(trades: seq<Trade>, p: Part): Option<real> {
    var xs := Filter(trades, p);
    if xs == [] then None else Some(xs[0].price)
  }

  /** With trades in time order, the anchor of the long part is the price of its first trade. */
  lemma {:induction false} LongAnchor(trades: seq<Trade>, now: int, back: int)
    requires MinuteWindow.InTimeOrder(trades)
    ensures LongSnapshot(trades, now, back).anchor == PriceOfFirst(trades, Long(now, back))
  {
    var lo, hi := MinuteFrom(now - back), MinuteFrom(now - Seconds);
    EarliestMinuteIs(trades, lo, hi);
    match EarliestMinute(trades, lo, hi) {
      case None =>
        forall i | 0 <= i < |trades|
          ensures !In(Long(now, back), trades[i].ts)
        {
          MinutesAsked(trades[i].ts, now, back);
          NoneThere(trades, Minute(trades[i].ts / 60));
        }
        NoneThere(trades, Long(now, back));
      case Some(k) =>
        HeadFrom(trades, Minute(k));
        var i :| FirstAt(trades, Minute(k), i);
        HeadIs(trades, Minute(k), i);
        MinutesAsked(trades[i].ts, now, back);
        forall j | 0 <= j < |trades| && 60 * lo <= trades[j].ts <= trades[i].ts
          ensures In(Minute(k), trades[j].ts)
        {
          NoneThere(trades, Minute(trades[j].ts / 60));
        }
        forall ts | In(Long(now, back), ts)
          ensures 60 * lo <= ts
        {
          MinutesAsked(ts, now, back);
        }
        GroupHead(trades, Minute(k), Long(now, back), i, 60 * lo);
        HeadIs(trades, Long(now, back), i);
    }
  }

  /** The trades of the earliest second a part lets through come first among those it lets through. */
  lemma {:induction false} EarliestSecondFirst(trades: seq<Trade>, p: Part, k: int)
    requires MinuteWindow.InTimeOrder(trades) && In(p, k) && forall ts | In(p, ts) :: k <= ts
    ensures
      var second, all := InSlot(trades, 1, k), Filter(trades, p);
      |second| <= |all| && all[..|second|] == second
  {
    if trades == [] {
    } else {
      var init, t := trades[..|trades| - 1], trades[|trades| - 1];
      EarliestSecondFirst(init, p, k);
      if t.ts == k {
        forall i | 0 <= i < |init|
          ensures In(p, init[i].ts) <==> In(Second(k), init[i].ts)
        {
          assert init[i] == trades[i] && trades[i].ts <= t.ts;
        }
        SameTrades(init, p, Second(k));
        SecondIsSlot(init, k);
      }
    }
  }

  lemma {:induction false} OpeningOfPrefix(a: seq<Trade>, b: seq<Trade>)
    requires OpeningPrice(a) != 0.0
    ensures OpeningPrice(a + b) == OpeningPrice(a)
  {
    assert a != [] && (a + b)[1..] == a[1..] + b;
    if a[0].price == 0.0 {
      OpeningOfPrefix(a[1..], b);
    }
  }

  lemma {:induction false} ClosedHasOpened(trades: seq<Trade>)
    requires ClosingPrice(trades) != 0.0
    ensures OpeningPrice(trades) != 0.0
  {
    if |trades| > 1 && trades[0].price == 0.0 {
      ClosedHasOpened(trades[1..]);
    }
  }

  /** The first price that is not zero among the trades of a part. */
  function OpeningOf(trades: seq<Trade>, p: Part): Option<real> {
    var xs := Filter(trades, p);
    if xs == [] then None else Some(OpeningPrice(xs))
  }

  /** With trades in time order, the anchor of the tail is the first price that is not zero among the
   * trades it shows. */
  lemma {:induction false} TailAnchor(trades: seq<Trade>, now: int, cutoff: int)
    requires MinuteWindow.InTimeOrder(trades) && NoneAfter(trades, 1, now)
    requires 0 <= cutoff < now <= cutoff + Seconds
    ensures Recent(RingOf(trades, 1, Seconds), cutoff, now).anchor == OpeningOf(trades, Shown(trades, cutoff, now))
  {
    var shown := Shown(trades, cutoff, now);
    OrderIsTimely(trades);
    WindowMatchesHistory(trades, cutoff, now);
    EarliestSlotIs(trades, 1, cutoff, now);
    match EarliestSlot(trades, 1, cutoff, now)
    case None =>
      NoneThere(trades, shown);
    case Some(k) =>
      EarliestSecondFirst(trades, shown, k);
      var second, all := InSlot(trades, 1, k), Filter(trades, shown);
      ClosedHasOpened(second);
      assert all == second + all[|second|..];
      OpeningOfPrefix(second, all[|second|..]);
  }

  lemma {:induction false} OrderIsTimely(trades: seq<Trade>)
    requires MinuteWindow.InTimeOrder(trades)
    ensures Timely(trades, 1, Seconds)
  {
  }

  /** With trades in time order the merged anchor is the price of the first trade of the long part, and
   * without one the first price that is not zero among the trades the tail shows; with positive prices,
   * the price of the first trade the figure counts. */
  lemma {:induction false} MergedAnchor(trades: seq<Trade>, now: int, back: int, cutoff: int, tail: Snapshot)
    requires MinuteWindow.InTimeOrder(trades) && NoneAfter(trades, 1, now)
    requires cutoff == now - Seconds >= 0 && tail == Recent(RingOf(trades, 1, Seconds), cutoff, now)
    requires back > Seconds
    ensures
      var merged := MergeWindowSnapshots(LongSnapshot(trades, now, back), tail).anchor;
      && merged == (if PriceOfFirst(trades, Long(now, back)).Some? then PriceOfFirst(trades, Long(now, back))
                    else OpeningOf(trades, Shown(trades, cutoff, now)))
      && (Priced(trades) ==> merged == PriceOfFirst(trades, Counted(now, back)))
  {
    LongAnchor(trades, now, back);
    TailAnchor(trades, now, cutoff);
    if Priced(trades) {
      PricedHidesNothing(trades, now, cutoff);
      PricedOpening(trades, Tail(now));
      LongBeforeTail(trades, now, back);
    }
  }

  lemma {:induction false} PricedOpening(trades: seq<Trade>, p: Part)
    requires Priced(trades)
    ensures OpeningOf(trades, p) == PriceOfFirst(trades, p)
  {
    PricedFilter(trades, p);
  }

  lemma {:induction false} PricedFilter(trades: seq<Trade>, p: Part)
    requires Priced(trades)
    ensures Priced(Filter(trades, p))
  {
    if trades == [] {
    } else {
      PricedFilter(trades[..|trades| - 1], p);
    }
  }

  lemma {:induction false} LongBeforeTail(trades: seq<Trade>, now: int, back: int)
    requires MinuteWindow.InTimeOrder(trades)
    ensures PriceOfFirst(trades, Counted(now, back)) ==
              if PriceOfFirst(trades, Long(now, back)).Some? then PriceOfFirst(trades, Long(now, back))
              else PriceOfFirst(trades, Tail(now))
  {
    if Filter(trades, Long(now, back)) == [] {
      NoneThere(trades, Long(now, back));
      SameTrades(trades, Counted(now, back), Tail(now));
    } else {
      HeadFrom(trades, Long(now, back));
      var i :| FirstAt(trades, Long(now, back), i);
      HeadIs(trades, Long(now, back), i);
      FirstLongIsFirst(trades, now, back, i);
      HeadIs(trades, Counted(now, back), i);
    }
  }

  lemma {:induction false} FirstLongIsFirst(trades: seq<Trade>, now: int, back: int, i: int)
    requires MinuteWindow.InTimeOrder(trades) && FirstAt(trades, Long(now, back), i)
    ensures FirstAt(trades, Counted(now, back), i)
  {
    forall j | 0 <= j < i
      ensures !In(Counted(now, back), trades[j].ts)
    {
      assert trades[j].ts <= trades[i].ts;
    }
  }
}
