/** What the trade and activity tables say of each event, told from the event. */
module EventRows {
  import opened Options
  import opened Upserts
  import opened ReadModel
  import opened Runner
  import opened Projector
  import opened TradeTables
  import RunnerProtocol
  import Ingest
  import TopicFeed

  const Sol := "So11111111111111111111111111111111111111112"

  // ----- What an event moves -----

  /** How much of each of its two mints an event moves: what a pool is given when it is created or added to,
   * what is taken out of it, what flows in and out in a swap, what a curve trade exchanges, and what a
   * migration hands over.  An amount that is not given counts as the empty text. */
  function Moved(payload: Payload): map<string, string> {
    match payload
    case PumpfunTrade(p) => map[p.mint := p.tokenAmount, Sol := p.solAmount]
    case PumpfunMigrate(p) => map[p.mint := p.mintAmount, Sol := p.solAmount]
    case PumpAmmCreatePool(p) => map[p.baseMint := p.baseAmountIn, p.quoteMint := p.quoteAmountIn]
    case PumpAmmSwap(p) =>
      if p.side == "sell"
      then map[p.baseMint := StringValue(p.baseAmountIn), p.quoteMint := StringValue(p.quoteAmountOut)]
      else map[p.baseMint := StringValue(p.baseAmountOut), p.quoteMint := StringValue(p.quoteAmountIn)]
    case PumpAmmLiquidity(p) =>
      if p.action == "deposit"
      then map[p.baseMint := StringValue(p.baseAmountIn), p.quoteMint := StringValue(p.quoteAmountIn)]
      else if p.action == "withdraw"
      then map[p.baseMint := StringValue(p.baseAmountOut), p.quoteMint := StringValue(p.quoteAmountOut)]
      else map[p.baseMint := "", p.quoteMint := ""]
    case _ => map[]
  }

  /** The event is between two mints, and names none or one of them as its token. */
  predicate BetweenTwo(event: Envelope, payload: Payload) {
    if Ingest.PairOf(payload).Some? then
      OneOfTwo(event, Ingest.PairOf(payload).value.0, Ingest.PairOf(payload).value.1)
    else (payload.PumpfunTrade? || payload.PumpfunMigrate?) && TopicFeed.CurveMint(payload) != Some(Sol)
  }

  /** The token among the mints of an event: a curve event's own mint; of a pool the mint the event names, or
   * else the one that is not SOL, of a pool of SOL and one other mint. */
  predicate IsToken(event: Envelope, payload: Payload, mint: string) {
    if TopicFeed.CurveMint(payload).Some? then TopicFeed.CurveMint(payload) == Some(mint)
    else if TopicFeed.NamesItsMint(event) then event.refMint == Some(mint)
    else Sol in Moved(payload) && mint in Moved(payload) && (BetweenTwo(event, payload) ==> mint != Sol)
  }

  /** The token amount is that of the token, and the quote amount that of the other mint. */
  predicate AmountsAreOf(payload: Payload, mint: string, quoteMint: string, tokenAmount: string, quoteAmount: string) {
    && mint != quoteMint && mint in Moved(payload) && quoteMint in Moved(payload)
    && tokenAmount == Moved(payload)[mint] && quoteAmount == Moved(payload)[quoteMint]
  }

  /** The token flows to the user. */
  predicate IsBought(payload: Payload, mint: string) {
    match payload
    case PumpfunTrade(p) => p.side == "buy"
    case PumpAmmSwap(p) => if p.side == "sell" then mint == p.quoteMint else mint == p.baseMint
    case _ => false
  }

  // ----- What a row says -----

  predicate OnMarket(c: ActivityColumns, id: string, marketType: string) {
    StringValue(c.marketId) == id && c.marketType == Some(marketType)
  }

  /** What kind of activity it is, on which market, and whose. */
  predicate Names(c: ActivityColumns, payload: Payload) {
    match payload
    case PumpfunCreate(p) =>
      && c.protocol == "pumpfun" && c.activityType == "create" && OnMarket(c, p.bondingCurve, "pumpfun_curve")
      && StringValue(c.userAddress) == p.user
    case PumpfunTrade(p) =>
      && c.protocol == "pumpfun" && c.activityType == "trade" && OnMarket(c, p.bondingCurve, "pumpfun_curve")
      && StringValue(c.userAddress) == p.user
    case PumpfunMigrate(p) =>
      && c.protocol == "pumpfun" && c.activityType == "migrate" && OnMarket(c, p.pool, "pumpamm_pool")
      && StringValue(c.userAddress) == p.user
    case PumpAmmCreatePool(p) =>
      && c.protocol == "pumpamm" && c.activityType == "create_pool" && OnMarket(c, p.pool, "pumpamm_pool")
      && StringValue(c.userAddress) == p.creator
    case PumpAmmSwap(p) =>
      && c.protocol == "pumpamm" && c.activityType == "trade" && OnMarket(c, p.pool, "pumpamm_pool")
      && StringValue(c.userAddress) == p.user
    case PumpAmmLiquidity(p) =>
      && c.protocol == "pumpamm" && c.activityType == p.action && OnMarket(c, p.pool, "pumpamm_pool")
      && StringValue(c.userAddress) == p.user
    case OtherPayload => false
  }

  /** Texts that are not known are absent, not empty. */
  predicate NoEmptyText(c: ActivityColumns) {
    && c.marketId != Some("") && c.userAddress != Some("") && c.side != Some("") && c.quoteMint != Some("")
    && c.tokenAmountRaw != Some("") && c.quoteAmountRaw != Some("")
  }

  /** The row of an event in the activity table. */
  predicate ActivityTells(c: ActivityColumns, event: Envelope, payload: Payload) {
    && Names(c, payload) && NoEmptyText(c) && IsToken(event, payload, c.mint)
    && c.eventType == event.eventType && c.txSignature == event.txSignature && c.slot == event.slot
    && c.rawEventSource == event.eventSource
    && c.details == (if event.details == "" then "{}" else event.details)
    && (BetweenTwo(event, payload) ==>
          AmountsAreOf(payload, c.mint, StringValue(c.quoteMint),
                       StringValue(c.tokenAmountRaw), StringValue(c.quoteAmountRaw)))
    && (payload.PumpfunCreate? ==> c.quoteMint == c.tokenAmountRaw == c.quoteAmountRaw == None)
    && (!IsTrade(payload) ==> c.side == None)
  }

  predicate IsTrade(payload: Payload) { payload.PumpfunTrade? || payload.PumpAmmSwap? }

  /** The row of a trade in the trade table: a buy exactly when the token flows to the user. */
  predicate TradeTells(c: TradeColumns, event: Envelope, payload: Payload) {
    && IsToken(event, payload, c.mint)
    && c.txSignature == event.txSignature && c.slot == event.slot && c.rawEventSource == event.eventSource
    && (BetweenTwo(event, payload) ==>
          && AmountsAreOf(payload, c.mint, c.quoteMint, c.tokenAmountRaw, c.quoteAmountRaw)
          && (c.side == "buy" <==> IsBought(payload, c.mint)))
    && match payload
       case PumpfunTrade(p) =>
         && c.protocol == "pumpfun" && c.marketId == p.bondingCurve && c.marketType == "pumpfun_curve"
         && c.userAddress == p.user && c.ixName == p.ixName && c.side == p.side
       case PumpAmmSwap(p) =>
         && c.protocol == "pumpamm" && c.marketId == p.pool && c.marketType == "pumpamm_pool"
         && c.userAddress == p.user && c.ixName == p.ixName && c.side in ["buy", "sell"]
       case _ => false
  }

  // ----- Each event's rows -----

  lemma {:induction false} TrackedIsToken(event: Envelope, payload: Payload, mint: string)
    requires Ingest.PairOf(payload).Some?
    requires mint != "" && mint == TrackedMint(event, Ingest.PairOf(payload).value.0, Ingest.PairOf(payload).value.1)
    ensures IsToken(event, payload, mint)
  {
  }

  lemma {:induction false} LiquidityAmounts(event: Envelope, p: Liquidity, mint: string)
    requires mint != "" && mint == TrackedMint(event, p.baseMint, p.quoteMint)
    requires OneOfTwo(event, p.baseMint, p.quoteMint)
    ensures
      var c := LiquidityActivity(event, mint, p).columns;
      AmountsAreOf(PumpAmmLiquidity(p), mint, StringValue(c.quoteMint),
                   StringValue(c.tokenAmountRaw), StringValue(c.quoteAmountRaw))
  {
    if mint == p.baseMint {
      assert StringValue(LiquidityActivity(event, mint, p).columns.quoteMint) == p.quoteMint;
    } else {
      assert StringValue(LiquidityActivity(event, mint, p).columns.quoteMint) == p.baseMint;
    }
  }

  lemma {:induction false} LiquidityTells(event: Envelope, p: Liquidity, mint: string)
    requires mint != "" && mint == TrackedMint(event, p.baseMint, p.quoteMint)
    ensures ActivityTells(ActivityRowOf(LiquidityActivity(event, mint, p)).columns, event, PumpAmmLiquidity(p))
  {
    TrackedIsToken(event, PumpAmmLiquidity(p), mint);
    if OneOfTwo(event, p.baseMint, p.quoteMint) { LiquidityAmounts(event, p, mint); }
  }

  lemma {:induction false} PoolAmounts(event: Envelope, p: CreatePool, mint: string)
    requires mint != "" && mint == TrackedMint(event, p.baseMint, p.quoteMint)
    requires OneOfTwo(event, p.baseMint, p.quoteMint)
    ensures
      var c := CreatePoolActivity(event, mint, p).columns;
      AmountsAreOf(PumpAmmCreatePool(p), mint, StringValue(c.quoteMint),
                   StringValue(c.tokenAmountRaw), StringValue(c.quoteAmountRaw))
  {
  }

  lemma {:induction false} PoolTells(event: Envelope, p: CreatePool, mint: string)
    requires mint != "" && mint == TrackedMint(event, p.baseMint, p.quoteMint)
    ensures ActivityTells(ActivityRowOf(CreatePoolActivity(event, mint, p)).columns, event, PumpAmmCreatePool(p))
  {
    TrackedIsToken(event, PumpAmmCreatePool(p), mint);
    if OneOfTwo(event, p.baseMint, p.quoteMint) { PoolAmounts(event, p, mint); }
  }

  lemma {:induction false} SwapAmounts(event: Envelope, p: Swap)
    requires BuildPumpAmmTrade(event, p).Ok? && OneOfTwo(event, p.baseMint, p.quoteMint)
    ensures
      var c := BuildPumpAmmTrade(event, p).value.columns;
      && AmountsAreOf(PumpAmmSwap(p), c.mint, c.quoteMint, c.tokenAmountRaw, c.quoteAmountRaw)
      && (c.side == "buy" <==> IsBought(PumpAmmSwap(p), c.mint))
  {
    TradeFollowsTheFlow(event, p);
  }

  lemma {:induction false} SwapRowTells(event: Envelope, p: Swap)
    requires BuildPumpAmmTrade(event, p).Ok?
    ensures TradeTells(BuildPumpAmmTrade(event, p).value.columns, event, PumpAmmSwap(p))
  {
    TrackedIsToken(event, PumpAmmSwap(p), TrackedMint(event, p.baseMint, p.quoteMint));
    if OneOfTwo(event, p.baseMint, p.quoteMint) { SwapAmounts(event, p); }
    SwapSides(event, p);
  }

  lemma {:induction false} SwapSides(event: Envelope, p: Swap)
    requires BuildPumpAmmTrade(event, p).Ok?
    ensures BuildPumpAmmTrade(event, p).value.columns.side in ["buy", "sell"]
  {
  }

  lemma {:induction false} SwapTells(event: Envelope, p: Swap)
    requires BuildPumpAmmTrade(event, p).Ok?
    ensures
      var c := BuildPumpAmmTrade(event, p).value.columns;
      ActivityTells(ActivityRowOf(SwapActivity(event, c)).columns, event, PumpAmmSwap(p))
  {
    SwapRowTells(event, p);
  }

  lemma {:induction false} CurveTells(event: Envelope, payload: Payload)
    requires TopicFeed.CurveMint(payload).Some?
    ensures Projection(event, payload).Ok?
    ensures
      var ops := Projection(event, payload).value;
      && ops != [] && ops[|ops| - 1].InsertActivity?
      && ActivityTells(ActivityRowOf(ops[|ops| - 1].activity).columns, event, payload)
      && (payload.PumpfunTrade? ==>
            ops[0].InsertTrade? && TradeTells(TradeRowOf(ops[0].trade).columns, event, payload))
  {
  }

  /** The statements of an event end with the activity that tells of it, and begin with the trade row that
   * does exactly when it is a trade. */
  lemma {:induction false} StatementsTell(event: Envelope, payload: Payload)
    requires Projection(event, payload).Ok? && !payload.OtherPayload?
    ensures
      var ops := Projection(event, payload).value;
      && ops != [] && ops[|ops| - 1].InsertActivity?
      && ActivityTells(ActivityRowOf(ops[|ops| - 1].activity).columns, event, payload)
      && (ops[0].InsertTrade? <==> IsTrade(payload))
      && (ops[0].InsertTrade? ==> TradeTells(TradeRowOf(ops[0].trade).columns, event, payload))
  {
    match payload
    case PumpAmmLiquidity(p) => LiquidityTells(event, p, TrackedMint(event, p.baseMint, p.quoteMint));
    case PumpAmmCreatePool(p) => PoolTells(event, p, TrackedMint(event, p.baseMint, p.quoteMint));
    case PumpAmmSwap(p) =>
      SwapTells(event, p);
      SwapRowTells(event, p);
    case _ => CurveTells(event, payload);
  }

  // ----- The tables of a committed state -----

  /** The rows of a table with an event's key are those the event offers. */
  lemma {:induction false} TradesWithItsKey(entries: seq<Entry>, i: nat, t: TradeRow)
    requires AllProjectable(entries) && DistinctEvents(entries) && i < |entries|
    requires t in TradeRows(OpsOf(entries)) && KeyOf(t, entries[i])
    ensures t in TradesOf(entries[i])
  {
    var init, e := entries[..|entries| - 1], entries[|entries| - 1];
    assert entries == init + [e];
    DistinctInit(init, e);
    RowsSnoc(init, e);
    if t in TradesOf(e) {
      EntryRowsAgree(e);
      assert KeyOf(t, e) && entries[|init|] == e;
    } else {
      OfferedOnce(init);
      var k :| 0 <= k < |init| && KeyOf(t, init[k]);
      assert entries[k] == init[k] && entries[i].event.eventId == entries[k].event.eventId;
      assert i == k;
      TradesWithItsKey(init, i, t);
    }
  }

  /** What the tables hold of one entry. */
  ghost predicate Holds(db: Db, e: Entry, payload: Payload) {
    && (exists a | a in db.activities :: KeyOf(a, e) && ActivityTells(a.columns, e.event, payload))
    && (IsTrade(payload) ==> exists t | t in db.trades :: KeyOf(t, e) && TradeTells(t.columns, e.event, payload))
    && (!IsTrade(payload) ==> forall t | t in db.trades :: !KeyOf(t, e))
  }

  lemma {:induction false} EntryTells(e: Entry)
    requires Projectable(e) && !e.payload.value.OtherPayload?
    ensures |ActivitiesOf(e)| == 1 && KeyOf(ActivitiesOf(e)[0], e)
    ensures ActivityTells(ActivitiesOf(e)[0].columns, e.event, e.payload.value)
    ensures TradesOf(e) != [] <==> IsTrade(e.payload.value)
    ensures TradesOf(e) != [] ==>
              KeyOf(TradesOf(e)[0], e) && TradeTells(TradesOf(e)[0].columns, e.event, e.payload.value)
  {
    StatementsTell(e.event, e.payload.value);
    RowsOfEntry(e);
    EntryRowsAgree(e);
    assert ActivitiesOf(e)[0] in ActivitiesOf(e);
    if TradesOf(e) != [] { assert TradesOf(e)[0] in TradesOf(e); }
  }

  /** In every committed state of every run, each event of a known kind that the checkpoint has passed has
   * exactly one activity, and that tells of it: its kind, market and user; the token it is about; and for
   * an event between two mints the amount of that very mint and of the other one, on whichever side of the
   * pool the token is.  A trade has exactly one row in the trade table that does, a buy exactly when the
   * token flows to the user; any other event has none. */
  lemma {:induction false} EventsAreRecorded(steps: seq<RunnerProtocol.Step>, i: nat)
    requires RunnerProtocol.Legal(RunnerProtocol.Init, steps)
    requires
      var s := RunnerProtocol.Run(RunnerProtocol.Init, steps);
      DistinctEvents(s.log) && i < |s.log| && s.log[i].logId <= s.checkpoint
    ensures
      var s := RunnerProtocol.Run(RunnerProtocol.Init, steps);
      && s.log[i].payload.Some? && DistinctKeys(s.db.trades) && DistinctKeys(s.db.activities)
      && (!s.log[i].payload.value.OtherPayload? ==> Holds(s.db, s.log[i], s.log[i].payload.value))
  {
    var s := RunnerProtocol.Run(RunnerProtocol.Init, steps);
    var e := s.log[i];
    PassedIsRecorded(steps, i);
    if !e.payload.value.OtherPayload? {
      EntryTells(e);
      assert ActivitiesOf(e)[0] in s.db.activities;
      if IsTrade(e.payload.value) {
        assert TradesOf(e)[0] in s.db.trades;
      } else {
        NoTradeOf(steps, i);
      }
    }
  }

  lemma {:induction false} NoTradeOf(steps: seq<RunnerProtocol.Step>, i: nat)
    requires RunnerProtocol.Legal(RunnerProtocol.Init, steps)
    requires
      var s := RunnerProtocol.Run(RunnerProtocol.Init, steps);
      && DistinctEvents(s.log) && i < |s.log| && s.log[i].logId <= s.checkpoint
      && Projectable(s.log[i]) && TradesOf(s.log[i]) == []
    ensures
      var s := RunnerProtocol.Run(RunnerProtocol.Init, steps);
      forall t | t in s.db.trades :: !KeyOf(t, s.log[i])
  {
    RunnerProtocol.CommittedIsProjection(steps);
    var s := RunnerProtocol.Run(RunnerProtocol.Init, steps);
    var done := UpTo(s.log, s.checkpoint);
    assert Ids(s.log)[i] == s.log[i].logId;
    assert forall k | 0 <= k < |done| :: done[k] == s.log[k];
    assert i < |done| && done[i] == s.log[i];
    TablesAreOfferedRows(done);
    forall t | t in s.db.trades ensures !KeyOf(t, s.log[i]) {
      if KeyOf(t, s.log[i]) { TradesWithItsKey(done, i, t); }
    }
  }

  // ----- What is refused -----

  /** The two amounts that flow in a swap, by the names of their fields: the pool's base and its quote. */
  function FlowingFields(p: Swap): (string, string) {
    if p.side == "sell" then ("base_amount_in", "quote_amount_out") else ("base_amount_out", "quote_amount_in")
  }

  function AmountNamed(p: Swap, field: string): Text {
    if field == "base_amount_in" then p.baseAmountIn
    else if field == "base_amount_out" then p.baseAmountOut
    else if field == "quote_amount_in" then p.quoteAmountIn
    else p.quoteAmountOut
  }

  /** The amount of the token is asked for first, then that of the other mint. */
  function AskedFields(p: Swap, mint: string): (string, string) {
    var fields := FlowingFields(p);
    if mint == p.quoteMint then (fields.1, fields.0) else fields
  }

  /** Why an event is refused: its token is not known, or for a swap its side is not, or an amount that flows
   * is missing. */
  function Refusal(event: Envelope, payload: Payload): Option<Error> {
    match payload
    case PumpAmmSwap(p) =>
      var mint := TrackedMint(event, p.baseMint, p.quoteMint);
      var asked := AskedFields(p, mint);
      if mint == "" then Some(TrackedMintMissing(event.eventId))
      else if p.side !in ["sell", "buy", "buy_exact_quote_in"] then Some(UnsupportedSide(p.side, event.eventId))
      else if !Given(AmountNamed(p, asked.0)) then Some(MissingAmount(asked.0, event.eventId))
      else if !Given(AmountNamed(p, asked.1)) then Some(MissingAmount(asked.1, event.eventId))
      else None
    case PumpAmmCreatePool(p) =>
      if TrackedMint(event, p.baseMint, p.quoteMint) == "" then Some(TrackedMintMissing(event.eventId)) else None
    case PumpAmmLiquidity(p) =>
      if TrackedMint(event, p.baseMint, p.quoteMint) == "" then Some(TrackedMintMissing(event.eventId)) else None
    case _ => None
  }

  /** A pool's token is not known exactly when the event names none and neither side is SOL with the other one
   * named. */
  lemma {:induction false} TokenUnknownIff(event: Envelope, baseMint: string, quoteMint: string)
    ensures TrackedMint(event, baseMint, quoteMint) == "" <==>
            !TopicFeed.NamesItsMint(event) &&
            !((baseMint == Sol && quoteMint != "") || (quoteMint == Sol && baseMint != ""))
  {
  }

  lemma {:induction false} SwapRefusedIff(event: Envelope, p: Swap)
    ensures
      match Projection(event, PumpAmmSwap(p))
      case Ok(_) => Refusal(event, PumpAmmSwap(p)) == None
      case Err(error) => Refusal(event, PumpAmmSwap(p)) == Some(error)
  {
  }

  /** An event is refused exactly for these reasons, and for the first of them that holds; an event on the
   * curve never is. */
  lemma {:induction false} RefusedIff(event: Envelope, payload: Payload)
    ensures
      match Projection(event, payload)
      case Ok(_) => Refusal(event, payload) == None
      case Err(error) => Refusal(event, payload) == Some(error)
  {
    if payload.PumpAmmSwap? { SwapRefusedIff(event, payload.swap); }
  }

  // ----- An event that names a mint its pool does not trade -----

  /** A deposit or withdrawal has no quote mint exactly when the event names a mint its pool does not trade;
   * then the row, although of that mint, has the amounts of the pool's base and quote. */
  lemma {:induction false} ForeignMintIff(event: Envelope, p: Liquidity, mint: string)
    requires mint != "" && mint == TrackedMint(event, p.baseMint, p.quoteMint)
    requires p.baseMint != "" && p.quoteMint != "" && p.baseMint != p.quoteMint
    ensures
      var c := LiquidityActivity(event, mint, p).columns;
      && (c.quoteMint == None <==> mint !in Moved(PumpAmmLiquidity(p)))
      && (c.quoteMint == None <==> !OneOfTwo(event, p.baseMint, p.quoteMint))
      && (c.quoteMint == None ==>
            && StringValue(c.tokenAmountRaw) == Moved(PumpAmmLiquidity(p))[p.baseMint]
            && StringValue(c.quoteAmountRaw) == Moved(PumpAmmLiquidity(p))[p.quoteMint])
  {
  }
}
