/** The two tables of rows inserted once, trades and activities, against the whole log: one row of its own
 * for each event, the two tables telling the same, and neither depending on how a pool orders its mints.
 */
module TradeTables {
  import opened Options
  import opened Upserts
  import opened ReadModel
  import opened Runner
  import RunnerProtocol
  import Projector

  // ----- The rows of the log -----

  /** The event log gives each event id to one entry. */
  predicate DistinctEvents(entries: seq<Entry>) {
    forall i, j | 0 <= i < j < |entries| :: entries[i].event.eventId != entries[j].event.eventId
  }

  function TradesOf(e: Entry): seq<TradeRow>
    requires Projectable(e)
  {
    TradeRows(OpsOfEntry(e).value)
  }

  function ActivitiesOf(e: Entry): seq<ActivityRow>
    requires Projectable(e)
  {
    ActivityRows(OpsOfEntry(e).value)
  }

  lemma {:induction false} RowsConcat(a: seq<Op>, b: seq<Op>)
    ensures TradeRows(a + b) == TradeRows(a) + TradeRows(b)
    ensures ActivityRows(a + b) == ActivityRows(a) + ActivityRows(b)
    decreases |b|
  {
    if b == [] {
      assert a + b == a;
    } else {
      assert (a + b)[..|a + b| - 1] == a + b[..|b| - 1];
      RowsConcat(a, b[..|b| - 1]);
    }
  }

  /** The rows offered by a part of the log are those of its entries, one entry after the other. */
  lemma {:induction false} RowsSnoc(entries: seq<Entry>, e: Entry)
    requires AllProjectable(entries) && Projectable(e)
    ensures AllProjectable(entries + [e])
    ensures TradeRows(OpsOf(entries + [e])) == TradeRows(OpsOf(entries)) + TradesOf(e)
    ensures ActivityRows(OpsOf(entries + [e])) == ActivityRows(OpsOf(entries)) + ActivitiesOf(e)
  {
    OpsOfSnoc(entries, e);
    RowsConcat(OpsOf(entries), OpsOfEntry(e).value);
  }

  predicate KeyOf<R>(r: Keyed<R>, e: Entry) {
    r.eventTime == UnixToTimestampSeconds(e.event.eventUnixTs) && r.eventId == e.event.eventId
  }

  /** The two rows tell the same trade. */
  predicate Agree(t: TradeRow, a: ActivityRow) {
    && a.eventTime == t.eventTime && a.eventId == t.eventId
    && a.columns.activityType == "trade"
    && a.columns.mint == t.columns.mint && a.columns.protocol == t.columns.protocol
    && Projector.StringValue(a.columns.marketId) == t.columns.marketId
    && Projector.StringValue(a.columns.userAddress) == t.columns.userAddress
    && Projector.StringValue(a.columns.side) == t.columns.side
    && Projector.StringValue(a.columns.quoteMint) == t.columns.quoteMint
    && Projector.StringValue(a.columns.tokenAmountRaw) == t.columns.tokenAmountRaw
    && Projector.StringValue(a.columns.quoteAmountRaw) == t.columns.quoteAmountRaw
    && a.columns.txSignature == t.columns.txSignature && a.columns.slot == t.columns.slot
  }

  /** A deposit or withdrawal goes by its own name. */
  predicate NamedRight(e: Entry) {
    match e.payload
    case Some(PumpAmmLiquidity(p)) => p.action != "trade"
    case _ => true
  }

  lemma {:induction false} RowsOfOne(op: Op)
    ensures TradeRows([op]) == (match op case InsertTrade(r) => [TradeRowOf(r)] case _ => [])
    ensures ActivityRows([op]) == (match op case InsertActivity(r) => [ActivityRowOf(r)] case _ => [])
  {
    assert [op][..0] == [];
  }

  lemma {:induction false} NoRows(ops: seq<Op>)
    requires forall i | 0 <= i < |ops| :: !ops[i].InsertTrade? && !ops[i].InsertActivity?
    ensures TradeRows(ops) == [] && ActivityRows(ops) == []
  {
    if ops == [] {
    } else {
      NoRows(ops[..|ops| - 1]);
    }
  }

  /** Statements that end with an activity, and insert no other row but perhaps a trade just before. */
  lemma {:induction false} RowsOfStatements(ops: seq<Op>)
    requires ops != [] && forall i | 0 <= i < |ops| :: ops[i].InsertActivity? <==> i == |ops| - 1
    requires forall i | 0 <= i < |ops| && ops[i].InsertTrade? :: i == 0 && |ops| == 2
    ensures ActivityRows(ops) == [ActivityRowOf(ops[|ops| - 1].activity)]
    ensures TradeRows(ops) == if ops[0].InsertTrade? then [TradeRowOf(ops[0].trade)] else []
  {
    var n := |ops| - 1;
    assert ops == ops[..n] + [ops[n]];
    RowsConcat(ops[..n], [ops[n]]);
    RowsOfOne(ops[n]);
    if ops[0].InsertTrade? {
      assert ops[..n] == [ops[0]];
      RowsOfOne(ops[0]);
    } else {
      NoRows(ops[..n]);
    }
  }

  /** Of the statements of one event only the last one or two insert rows. */
  lemma {:induction false} RowsOfEntry(e: Entry)
    requires Projectable(e)
    ensures
      var ops := OpsOfEntry(e).value;
      if ops == [] then TradesOf(e) == [] && ActivitiesOf(e) == []
      else
        && ops[|ops| - 1].InsertActivity?
        && ActivitiesOf(e) == [ActivityRowOf(ops[|ops| - 1].activity)]
        && TradesOf(e) == if ops[0].InsertTrade? then [TradeRowOf(ops[0].trade)] else []
  {
    Projector.OneActivityPerEvent(e.event, e.payload.value);
    TradesComeFirst(e.event, e.payload.value);
    if OpsOfEntry(e).value != [] { RowsOfStatements(OpsOfEntry(e).value); }
  }

  lemma {:induction false} TradesComeFirst(event: Projector.Envelope, payload: Projector.Payload)
    requires Projector.Projection(event, payload).Ok?
    ensures
      var ops := Projector.Projection(event, payload).value;
      forall i | 0 <= i < |ops| && ops[i].InsertTrade? :: i == 0 && |ops| == 2
  {
    var ops := Projector.Projection(event, payload).value;
    forall i | 0 <= i < |ops| && ops[i].InsertTrade?
      ensures i == 0 && |ops| == 2
    {
      Projector.TradeAndActivityAgree(event, payload, i);
    }
  }

  lemma {:induction false} EntryRowsAgree(e: Entry)
    requires Projectable(e)
    ensures |TradesOf(e)| <= 1 && |ActivitiesOf(e)| <= 1
    ensures forall t | t in TradesOf(e) :: KeyOf(t, e)
    ensures forall a | a in ActivitiesOf(e) :: KeyOf(a, e)
    ensures TradesOf(e) != [] ==> ActivitiesOf(e) != [] && Agree(TradesOf(e)[0], ActivitiesOf(e)[0])
    ensures NamedRight(e) && ActivitiesOf(e) != [] && ActivitiesOf(e)[0].columns.activityType == "trade" ==>
              TradesOf(e) != []
  {
    var ops := OpsOfEntry(e).value;
    RowsOfEntry(e);
    Projector.OneActivityPerEvent(e.event, e.payload.value);
    if ops != [] && ops[0].InsertTrade? {
      Projector.TradeAndActivityAgree(e.event, e.payload.value, 0);
    }
  }

  // ----- One row for each event -----

  ghost predicate OfLog<R(!new)>(rows: seq<Keyed<R>>, entries: seq<Entry>) {
    forall r | r in rows :: exists i | 0 <= i < |entries| :: KeyOf(r, entries[i])
  }

  /** Rows of one more event have a key of their own. */
  lemma {:induction false} OneMoreEvent<R(!new)>(
    rows: seq<Keyed<R>>, entries: seq<Entry>, e: Entry, more: seq<Keyed<R>>)
    requires DistinctEvents(entries + [e]) && OfLog(rows, entries) && DistinctKeys(rows)
    requires |more| <= 1 && forall r | r in more :: KeyOf(r, e)
    ensures OfLog(rows + more, entries + [e]) && DistinctKeys(rows + more)
  {
    var log := entries + [e];
    forall r | r in rows + more
      ensures exists i | 0 <= i < |log| :: KeyOf(r, log[i])
    {
      if r in rows {
        var i :| 0 <= i < |entries| && KeyOf(r, entries[i]);
        assert KeyOf(r, log[i]);
      } else {
        assert KeyOf(r, log[|entries|]);
      }
    }
    if more != [] {
      assert more == [more[0]];
      forall i | 0 <= i < |rows|
        ensures !SameKey(rows[i], more[0])
      {
        assert rows[i] in rows && more[0] in more;
        var k :| 0 <= k < |entries| && KeyOf(rows[i], entries[k]);
        assert log[k] == entries[k];
        assert log[k].event.eventId != log[|entries|].event.eventId;
      }
    }
  }

  lemma {:induction false} DistinctInit(entries: seq<Entry>, e: Entry)
    requires DistinctEvents(entries + [e])
    ensures DistinctEvents(entries)
  {
    assert forall i | 0 <= i < |entries| :: (entries + [e])[i] == entries[i];
  }

  lemma {:induction false} OfferedOnce(entries: seq<Entry>)
    requires AllProjectable(entries) && DistinctEvents(entries)
    ensures OfLog(TradeRows(OpsOf(entries)), entries) && DistinctKeys(TradeRows(OpsOf(entries)))
    ensures OfLog(ActivityRows(OpsOf(entries)), entries) && DistinctKeys(ActivityRows(OpsOf(entries)))
  {
    if entries == [] {
    } else {
      var init, e := entries[..|entries| - 1], entries[|entries| - 1];
      assert entries == init + [e];
      DistinctInit(init, e);
      OfferedOnce(init);
      RowsSnoc(init, e);
      EntryRowsAgree(e);
      OneMoreEvent(TradeRows(OpsOf(init)), init, e, TradesOf(e));
      OneMoreEvent(ActivityRows(OpsOf(init)), init, e, ActivitiesOf(e));
    }
  }

  lemma {:induction false} DistinctRowsAreKept<R(!new)>(rows: seq<Keyed<R>>)
    requires DistinctKeys(rows)
    ensures InsertAll([], rows) == rows
  {
    if rows == [] {
    } else {
      DistinctRowsAreKept(rows[..|rows| - 1]);
    }
  }

  /** With distinct event ids the two tables are exactly the rows the log offers, in the order of the log. */
  lemma {:induction false} TablesAreOfferedRows(entries: seq<Entry>)
    requires AllProjectable(entries) && DistinctEvents(entries)
    ensures Projected(entries).trades == TradeRows(OpsOf(entries))
    ensures Projected(entries).activities == ActivityRows(OpsOf(entries))
    ensures DistinctKeys(Projected(entries).trades) && DistinctKeys(Projected(entries).activities)
  {
    OfferedOnce(entries);
    InsertsAreInserts(EmptyDb, OpsOf(entries));
    DistinctRowsAreKept(TradeRows(OpsOf(entries)));
    DistinctRowsAreKept(ActivityRows(OpsOf(entries)));
  }

  // ----- The two tables tell the same -----

  /** Each of certain rows has a partner. */
  ghost predicate EachHas<A(!new), B(!new)>(xs: seq<A>, ys: seq<B>, asks: A -> bool, rel: (A, B) -> bool) {
    forall x | x in xs && asks(x) :: exists y | y in ys :: rel(x, y)
  }

  ghost predicate EachTradeHasActivity(trades: seq<TradeRow>, activities: seq<ActivityRow>) {
    EachHas(trades, activities, (t: TradeRow) => true, (t, a) => Agree(t, a))
  }

  ghost predicate EachTradeActivityHasTrade(trades: seq<TradeRow>, activities: seq<ActivityRow>) {
    EachHas(activities, trades, (a: ActivityRow) => a.columns.activityType == "trade", (a, t) => Agree(t, a))
  }

  lemma {:induction false} MoreHas<A(!new), B(!new)>(
    xs: seq<A>, ys: seq<B>, x': seq<A>, y': seq<B>, asks: A -> bool, rel: (A, B) -> bool)
    requires EachHas(xs, ys, asks, rel)
    requires |x'| <= 1 && (x' != [] && asks(x'[0]) ==> y' != [] && rel(x'[0], y'[0]))
    ensures EachHas(xs + x', ys + y', asks, rel)
  {
    forall x | x in xs + x' && asks(x)
      ensures exists y | y in ys + y' :: rel(x, y)
    {
      if x in xs {
        var y :| y in ys && rel(x, y);
        assert y in ys + y';
      } else {
        assert rel(x, y'[0]) && y'[0] in ys + y';
      }
    }
  }

  lemma {:induction false} OfferedRowsAgree(entries: seq<Entry>)
    requires AllProjectable(entries)
    ensures EachTradeHasActivity(TradeRows(OpsOf(entries)), ActivityRows(OpsOf(entries)))
    ensures (forall i | 0 <= i < |entries| :: NamedRight(entries[i]))
        ==> EachTradeActivityHasTrade(TradeRows(OpsOf(entries)), ActivityRows(OpsOf(entries)))
  {
    if entries == [] {
    } else {
      var init, e := entries[..|entries| - 1], entries[|entries| - 1];
      assert entries == init + [e];
      assert forall i | 0 <= i < |init| :: init[i] == entries[i];
      OfferedRowsAgree(init);
      RowsSnoc(init, e);
      EntryRowsAgree(e);
      var trades, activities := TradeRows(OpsOf(init)), ActivityRows(OpsOf(init));
      MoreHas(trades, activities, TradesOf(e), ActivitiesOf(e), (t: TradeRow) => true, (t, a) => Agree(t, a));
      if forall i | 0 <= i < |entries| :: NamedRight(entries[i]) {
        MoreHas(activities, trades, ActivitiesOf(e), TradesOf(e),
                (a: ActivityRow) => a.columns.activityType == "trade", (a, t) => Agree(t, a));
      }
    }
  }

  /** In every committed state of every run, each row of the trade table has exactly one activity with its
   * key, and that tells the same mint, market, user, side and amounts; and each activity of the type
   * "trade" is that of exactly one row of the trade table. */
  lemma {:induction false} TradesHaveActivities(steps: seq<RunnerProtocol.Step>)
    requires RunnerProtocol.Legal(RunnerProtocol.Init, steps)
    requires DistinctEvents(RunnerProtocol.Run(RunnerProtocol.Init, steps).log)
    ensures
      var db := RunnerProtocol.Run(RunnerProtocol.Init, steps).db;
      && DistinctKeys(db.trades) && DistinctKeys(db.activities)
      && EachTradeHasActivity(db.trades, db.activities)
    ensures
      var s := RunnerProtocol.Run(RunnerProtocol.Init, steps);
      (forall i | 0 <= i < |s.log| :: NamedRight(s.log[i])) ==> EachTradeActivityHasTrade(s.db.trades, s.db.activities)
  {
    RunnerProtocol.CommittedIsProjection(steps);
    var s := RunnerProtocol.Run(RunnerProtocol.Init, steps);
    var done := UpTo(s.log, s.checkpoint);
    assert forall i | 0 <= i < |done| :: done[i] == s.log[i];
    TablesAreOfferedRows(done);
    OfferedRowsAgree(done);
  }

  // ----- Every event has its rows -----

  lemma {:induction false} RowsOfEntryAreOffered(entries: seq<Entry>, i: nat)
    requires AllProjectable(entries) && i < |entries|
    ensures forall t | t in TradesOf(entries[i]) :: t in TradeRows(OpsOf(entries))
    ensures forall a | a in ActivitiesOf(entries[i]) :: a in ActivityRows(OpsOf(entries))
  {
    var init, e := entries[..|entries| - 1], entries[|entries| - 1];
    assert entries == init + [e];
    RowsSnoc(init, e);
    if i < |init| {
      assert init[i] == entries[i];
      RowsOfEntryAreOffered(init, i);
    }
  }

  /** What a trade row says of the flow through the pool. */
  predicate FollowsFlow(t: TradeRow, token: string, flow: Projector.Flow) {
    if t.columns.side == Projector.SideBuy then
      flow.mintOut == token && t.columns.quoteMint == flow.mintIn
      && Some(t.columns.tokenAmountRaw) == flow.amountOut && Some(t.columns.quoteAmountRaw) == flow.amountIn
    else
      t.columns.side == Projector.SideSell && flow.mintIn == token && t.columns.quoteMint == flow.mintOut
      && Some(t.columns.tokenAmountRaw) == flow.amountIn && Some(t.columns.quoteAmountRaw) == flow.amountOut
  }

  predicate IsPoolSwap(e: Entry) {
    match e.payload
    case Some(PumpAmmSwap(p)) => p.baseMint != p.quoteMint
    case _ => false
  }

  /** The table has a row of the swap's own that follows its flow. */
  ghost predicate Recorded(trades: seq<TradeRow>, e: Entry)
    requires IsPoolSwap(e)
  {
    var p := e.payload.value.swap;
    && Projector.FlowOf(p).Some?
    && exists t | t in trades ::
         KeyOf(t, e) && FollowsFlow(t, Projector.TokenSide(e.event, p), Projector.FlowOf(p).value)
  }

  lemma {:induction false} SwapFollowsFlow(e: Entry)
    requires Projectable(e) && IsPoolSwap(e)
    ensures Recorded(TradesOf(e), e)
  {
    RowsOfEntry(e);
    EntryRowsAgree(e);
    Projector.TradeFollowsTheFlow(e.event, e.payload.value.swap);
    assert TradesOf(e)[0] in TradesOf(e);
  }

  /** In every committed state, each swap the checkpoint has passed has exactly one row in the trade table,
   * and whichever side of the pool the token is on, that row is a buy exactly when the token flowed out to
   * the user, with the amounts that flowed. */
  lemma {:induction false} SwapsAreRecorded(steps: seq<RunnerProtocol.Step>, i: nat)
    requires RunnerProtocol.Legal(RunnerProtocol.Init, steps)
    requires
      var s := RunnerProtocol.Run(RunnerProtocol.Init, steps);
      DistinctEvents(s.log) && i < |s.log| && s.log[i].logId <= s.checkpoint && IsPoolSwap(s.log[i])
    ensures
      var s := RunnerProtocol.Run(RunnerProtocol.Init, steps);
      Recorded(s.db.trades, s.log[i]) && DistinctKeys(s.db.trades)
  {
    PassedIsRecorded(steps, i);
    SwapFollowsFlow(RunnerProtocol.Run(RunnerProtocol.Init, steps).log[i]);
  }

  /** A trade on the curve as the same trade in a pool of the token against SOL. */
  function AsSwap(p: Projector.CurveTrade, pool: string): Projector.Swap {
    if p.side == Projector.SideBuy
    then Projector.Swap("buy", p.ixName, pool, p.user, p.mint, SolMint,
                        None, Some(p.tokenAmount), Some(p.solAmount), None)
    else Projector.Swap("sell", p.ixName, pool, p.user, p.mint, SolMint,
                        Some(p.tokenAmount), None, None, Some(p.solAmount))
  }

  predicate IsCurveTrade(e: Entry) {
    match e.payload
    case Some(PumpfunTrade(p)) =>
      && p.mint != "" && p.mint != SolMint && p.tokenAmount != "" && p.solAmount != ""
      && (e.event.refMint.Some? && e.event.refMint.value != "" ==> e.event.refMint.value == p.mint)
      && (p.side == Projector.SideBuy || p.side == Projector.SideSell)
    case _ => false
  }

  /** The row of a curve trade but for its market. */
  function OnMarketOf(c: TradeColumns, market: TradeColumns): TradeColumns {
    c.(marketId := market.marketId, marketType := market.marketType, protocol := market.protocol)
  }

  /** In every committed state, each trade on the curve the checkpoint has passed has a row, and but for the
   * market that row is the one the same trade in a pool would have. */
  lemma {:induction false} CurveTradesAreRecorded(steps: seq<RunnerProtocol.Step>, i: nat, pool: string)
    requires RunnerProtocol.Legal(RunnerProtocol.Init, steps)
    requires
      var s := RunnerProtocol.Run(RunnerProtocol.Init, steps);
      DistinctEvents(s.log) && i < |s.log| && s.log[i].logId <= s.checkpoint && IsCurveTrade(s.log[i])
    ensures
      var s := RunnerProtocol.Run(RunnerProtocol.Init, steps);
      var e := s.log[i];
      var swap := Projector.BuildPumpAmmTrade(e.event, AsSwap(e.payload.value.trade, pool));
      && swap.Ok?
      && exists t | t in s.db.trades ::
           KeyOf(t, e) && OnMarketOf(t.columns, swap.value.columns) == swap.value.columns
  {
    var s := RunnerProtocol.Run(RunnerProtocol.Init, steps);
    var e := s.log[i];
    PassedIsRecorded(steps, i);
    Projector.CurveTradeIsAPoolTrade(e.event, e.payload.value.trade, pool);
    RowsOfEntry(e);
    EntryRowsAgree(e);
    assert TradesOf(e)[0] in TradesOf(e);
  }

  /** What the checkpoint has passed is in the tables. */
  lemma {:induction false} PassedIsRecorded(steps: seq<RunnerProtocol.Step>, i: nat)
    requires RunnerProtocol.Legal(RunnerProtocol.Init, steps)
    requires
      var s := RunnerProtocol.Run(RunnerProtocol.Init, steps);
      DistinctEvents(s.log) && i < |s.log| && s.log[i].logId <= s.checkpoint
    ensures
      var s := RunnerProtocol.Run(RunnerProtocol.Init, steps);
      && Projectable(s.log[i]) && DistinctKeys(s.db.trades) && DistinctKeys(s.db.activities)
      && (forall t | t in TradesOf(s.log[i]) :: t in s.db.trades)
      && (forall a | a in ActivitiesOf(s.log[i]) :: a in s.db.activities)
  {
    RunnerProtocol.CommittedIsProjection(steps);
    var s := RunnerProtocol.Run(RunnerProtocol.Init, steps);
    var done := UpTo(s.log, s.checkpoint);
    assert Ids(s.log)[i] == s.log[i].logId;
    assert forall k | 0 <= k < |done| :: done[k] == s.log[k];
    assert i < |done| && Projectable(done[i]);
    TablesAreOfferedRows(done);
    RowsOfEntryAreOffered(done, i);
  }

  // ----- Exchanging base and quote of pools -----

  /** The entry with base and quote of its pool exchanged. */
  function MirroredEntry(e: Entry): Entry {
    match e.payload
    case Some(PumpAmmSwap(p)) => e.(payload := Some(Projector.PumpAmmSwap(Projector.Mirrored(p))))
    case Some(PumpAmmCreatePool(p)) => e.(payload := Some(Projector.PumpAmmCreatePool(Projector.MirroredPool(p))))
    case Some(PumpAmmLiquidity(p)) => e.(payload := Some(Projector.PumpAmmLiquidity(Projector.MirroredLiquidity(p))))
    case _ => e
  }

  /** The pool has two mints, and the event's own idea of the token is one of them. */
  predicate TwoSided(e: Entry) {
    match e.payload
    case Some(PumpAmmSwap(p)) => Projector.OneOfTwo(e.event, p.baseMint, p.quoteMint)
    case Some(PumpAmmCreatePool(p)) => Projector.OneOfTwo(e.event, p.baseMint, p.quoteMint)
    case Some(PumpAmmLiquidity(p)) => Projector.OneOfTwo(e.event, p.baseMint, p.quoteMint)
    case _ => true
  }

  /** Statements that differ at most in the columns of a market. */
  predicate Alike(a: Op, b: Op) { a == b || (a.UpsertMarket? && b.UpsertMarket?) }

  ghost predicate AllAlike(a: seq<Op>, b: seq<Op>) {
    |a| == |b| && forall i | 0 <= i < |a| :: Alike(a[i], b[i])
  }

  ghost predicate SameButMarkets(a: Db, b: Db) {
    a.tokens == b.tokens && a.metadata == b.metadata && a.trades == b.trades && a.activities == b.activities
  }

  lemma {:induction false} AlikeOne(a: Db, b: Db, x: Op, y: Op)
    requires SameButMarkets(a, b) && Alike(x, y)
    ensures SameButMarkets(Apply(a, x), Apply(b, y))
  {
  }

  lemma {:induction false} AlikeRuns(a: Db, b: Db, x: seq<Op>, y: seq<Op>)
    requires SameButMarkets(a, b) && AllAlike(x, y)
    ensures SameButMarkets(Run(a, x), Run(b, y))
  {
    if x == [] {
    } else {
      AlikeRuns(a, b, x[..|x| - 1], y[..|y| - 1]);
      AlikeOne(Run(a, x[..|x| - 1]), Run(b, y[..|y| - 1]), x[|x| - 1], y[|y| - 1]);
    }
  }

  lemma {:induction false} MirroredIsAlike(e: Entry)
    requires TwoSided(e)
    ensures Projectable(MirroredEntry(e)) <==> Projectable(e)
    ensures Projectable(e) ==> AllAlike(OpsOfEntry(e).value, OpsOfEntry(MirroredEntry(e)).value)
  {
    match e.payload
    case Some(PumpAmmSwap(p)) => Projector.SwapIsSymmetric(e.event, p);
    case Some(PumpAmmCreatePool(p)) => Projector.CreatePoolIsSymmetric(e.event, p);
    case Some(PumpAmmLiquidity(p)) => Projector.LiquidityIsSymmetric(e.event, p);
    case _ =>
  }

  /** Whichever pools of the log have base and quote exchanged, tokens, metadata, trades and activities of
   * the read model stay the same; and the log is projectable or not as before. */
  lemma {:induction false} MirroringKeepsTables(a: seq<Entry>, b: seq<Entry>)
    requires |a| == |b|
    requires forall i | 0 <= i < |a| :: b[i] == a[i] || (TwoSided(a[i]) && b[i] == MirroredEntry(a[i]))
    ensures AllProjectable(a) <==> AllProjectable(b)
    ensures AllProjectable(a) ==> SameButMarkets(Projected(a), Projected(b))
  {
    if a == [] {
    } else {
      var n := |a| - 1;
      assert a == a[..n] + [a[n]] && b == b[..n] + [b[n]];
      MirroringKeepsTables(a[..n], b[..n]);
      if b[n] != a[n] { MirroredIsAlike(a[n]); }
      ProjectableConcat(a[..n], [a[n]]);
      ProjectableConcat(b[..n], [b[n]]);
      assert AllProjectable([a[n]]) <==> Projectable(a[n]);
      assert AllProjectable([b[n]]) <==> Projectable(b[n]);
      if AllProjectable(a) {
        OpsOfSnoc(a[..n], a[n]);
        OpsOfSnoc(b[..n], b[n]);
        RunConcat(EmptyDb, OpsOf(a[..n]), OpsOfEntry(a[n]).value);
        RunConcat(EmptyDb, OpsOf(b[..n]), OpsOfEntry(b[n]).value);
        AlikeRuns(Projected(a[..n]), Projected(b[..n]), OpsOfEntry(a[n]).value, OpsOfEntry(b[n]).value);
      }
    }
  }
}
