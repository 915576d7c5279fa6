/** From one decoded event to the statements that bring it into the read model. */
module Projector {
  import opened Options
  import opened Upserts
  import opened ReadModel
  import opened WriteBatch

  const MarketTypePumpfunCurve := "pumpfun_curve"
  const MarketTypePumpAmmPool := "pumpamm_pool"
  const ProtocolPumpfun := "pumpfun"
  const ProtocolPumpAmm := "pumpamm"
  const StageBondingCurve := "bonding_curve"
  const StagePool := "pool"
  const SideBuy := "buy"
  const SideSell := "sell"

  /** `details` is the payload as stored in the log; the reference to the mint and to the creator are the
   * two the projector looks at. */
  datatype Envelope = Envelope(
    eventId: string, eventType: string, txSignature: string, slot: nat,
    eventUnixTs: int, eventSource: string, refMint: Text, refCreator: Text, details: string)

  datatype Create = Create(
    mint: string, bondingCurve: string, user: string, creator: string,
    name: string, symbol: string, uri: string, tokenProgram: string, tokenTotalSupply: string,
    isMayhemMode: bool, isCashbackEnabled: bool, mintDecimals: Option<int>)

  datatype CurveTrade = CurveTrade(
    side: string, ixName: string, mint: string, user: string, bondingCurve: string,
    solAmount: string, tokenAmount: string)

  datatype Migrate = Migrate(
    mint: string, user: string, bondingCurve: string, pool: string,
    mintAmount: string, solAmount: string, tokenProgram: string, lpMint: string)

  datatype CreatePool = CreatePool(
    pool: string, creator: string, baseMint: string, quoteMint: string, lpMint: string,
    baseAmountIn: string, quoteAmountIn: string, coinCreator: string,
    baseMintDecimals: int, quoteMintDecimals: int)

  datatype Swap = Swap(
    side: string, ixName: string, pool: string, user: string, baseMint: string, quoteMint: string,
    baseAmountIn: Text, baseAmountOut: Text, quoteAmountIn: Text, quoteAmountOut: Text)

  datatype Liquidity = Liquidity(
    action: string, pool: string, user: string, baseMint: string, quoteMint: string,
    baseAmountIn: Text, quoteAmountIn: Text, baseAmountOut: Text, quoteAmountOut: Text)

  datatype Payload =
    | PumpfunCreate(create: Create)
    | PumpfunTrade(trade: CurveTrade)
    | PumpfunMigrate(migrate: Migrate)
    | PumpAmmCreatePool(createPool: CreatePool)
    | PumpAmmSwap(swap: Swap)
    | PumpAmmLiquidity(liquidity: Liquidity)
    | OtherPayload

  datatype Error =
    | TrackedMintMissing(eventId: string)
    | MissingAmount(field: string, eventId: string)
    | UnsupportedSide(side: string, eventId: string)
    | UndecodablePayload(eventId: string)

  // ----- Small values -----

  function PtrIfNotEmpty(s: string): Text { if s == "" then None else Some(s) }

  function StringValue(s: Text): string { if s.Some? then s.value else "" }

  function FirstNonNil(a: Text, b: Text): Text {
    if a.Some? && a.value != "" then a
    else if b.Some? && b.value != "" then b
    else None
  }

  /** A 32-bit unsigned number read as a signed one. */
  function ToInt32(u: int): int { if u >= 0x8000_0000 then u - 0x1_0000_0000 else u }

  function OptionalInt32(u: Option<int>): Option<int> { if u.Some? then Some(ToInt32(u.value)) else None }

  /** The side of a pool that is the token and not SOL, unless the event says so itself. */
  function TrackedMint(event: Envelope, baseMint: string, quoteMint: string): string {
    if event.refMint.Some? && event.refMint.value != "" then event.refMint.value
    else if baseMint == SolMint && quoteMint != "" then quoteMint
    else if quoteMint == SolMint && baseMint != "" then baseMint
    else ""
  }

  function TrackedPairAmounts(mint: string, quoteMint: string, baseAmount: string,
                              quoteAmount: string): (string, string) {
    if mint == quoteMint then (quoteAmount, baseAmount) else (baseAmount, quoteAmount)
  }

  function LiquidityTrackedAmounts(mint: string, p: Liquidity): (string, string) {
    if p.action == "deposit" then
      TrackedPairAmounts(mint, p.quoteMint, StringValue(p.baseAmountIn), StringValue(p.quoteAmountIn))
    else if p.action == "withdraw" then
      TrackedPairAmounts(mint, p.quoteMint, StringValue(p.baseAmountOut), StringValue(p.quoteAmountOut))
    else ("", "")
  }

  function OtherMint(mint: string, baseMint: string, quoteMint: string): string {
    if mint == baseMint then quoteMint else if mint == quoteMint then baseMint else ""
  }

  function RequiredAmount(value: Text, field: string, eventId: string): Result<string, Error> {
    if value == None || value.value == "" then Err(MissingAmount(field, eventId)) else Ok(value.value)
  }

  // ----- The six projections -----

  function ActivityOf(event: Envelope, mint: string, protocol: string, activityType: string,
                      marketId: Text, marketType: Text, user: Text, side: Text, quoteMint: Text,
                      tokenAmount: Text, quoteAmount: Text): ActivityEventRecord {
    ActivityEventRecord(event.eventId, event.eventUnixTs, ActivityColumns(
      mint, protocol, event.eventType, activityType, marketId, marketType, user, side, quoteMint,
      tokenAmount, quoteAmount, event.txSignature, event.slot, event.eventSource, event.details))
  }

  function CreatedToken(event: Envelope, p: Create): TokenRecord {
    var curve := PtrIfNotEmpty(p.bondingCurve);
    TokenRecord(p.mint, PtrIfNotEmpty(p.creator), curve, PtrIfNotEmpty(p.tokenProgram), Some(event.eventId),
                event.eventUnixTs, StageBondingCurve, curve, Some(MarketTypePumpfunCurve), None)
  }

  function CreatedMetadata(event: Envelope, p: Create): TokenMetadataRecord {
    TokenMetadataRecord(p.mint, MetadataRow(
      PtrIfNotEmpty(p.name), PtrIfNotEmpty(p.symbol), PtrIfNotEmpty(p.uri),
      OptionalInt32(p.mintDecimals), PtrIfNotEmpty(p.tokenTotalSupply), Some(SolMint), Some(SolDecimals),
      PtrIfNotEmpty(p.creator), PtrIfNotEmpty(p.bondingCurve), PtrIfNotEmpty(p.tokenProgram),
      Some(p.isMayhemMode), Some(p.isCashbackEnabled), Some(event.eventId)))
  }

  function CreatedMarket(event: Envelope, p: Create): TokenMarketRecord {
    TokenMarketRecord(
      p.bondingCurve, p.mint, ProtocolPumpfun, MarketTypePumpfunCurve, PtrIfNotEmpty(p.bondingCurve), None,
      PtrIfNotEmpty(p.mint), Some(SolMint), OptionalInt32(p.mintDecimals), Some(SolDecimals), None,
      event.eventUnixTs, None, event.eventId)
  }

  function CreateActivity(event: Envelope, p: Create): ActivityEventRecord {
    ActivityOf(event, p.mint, ProtocolPumpfun, "create", PtrIfNotEmpty(p.bondingCurve), Some(MarketTypePumpfunCurve),
               PtrIfNotEmpty(p.user), None, None, None, None)
  }

  function ProjectPumpfunCreate(event: Envelope, p: Create): seq<Op> {
    [ UpsertToken(CreatedToken(event, p)), UpsertMetadata(CreatedMetadata(event, p)),
      UpsertMarket(CreatedMarket(event, p)), InsertActivity(CreateActivity(event, p)) ]
  }

  function CurveTradeRecord(event: Envelope, p: CurveTrade): TradeEventRecord {
    TradeEventRecord(event.eventId, event.eventUnixTs, TradeColumns(
      p.mint, p.bondingCurve, MarketTypePumpfunCurve, ProtocolPumpfun, p.side, p.ixName, p.user, SolMint,
      p.tokenAmount, p.solAmount, event.txSignature, event.slot, event.eventSource))
  }

  function CurveTradeActivity(event: Envelope, p: CurveTrade): ActivityEventRecord {
    ActivityOf(event, p.mint, ProtocolPumpfun, "trade", PtrIfNotEmpty(p.bondingCurve), Some(MarketTypePumpfunCurve),
               PtrIfNotEmpty(p.user), PtrIfNotEmpty(p.side), Some(SolMint),
               PtrIfNotEmpty(p.tokenAmount), PtrIfNotEmpty(p.solAmount))
  }

  function ProjectPumpfunTrade(event: Envelope, p: CurveTrade): seq<Op> {
    [ InsertTrade(CurveTradeRecord(event, p)), InsertActivity(CurveTradeActivity(event, p)) ]
  }

  function MigratedToken(event: Envelope, p: Migrate): TokenRecord {
    TokenRecord(p.mint, PtrIfNotEmpty(StringValue(event.refCreator)), PtrIfNotEmpty(p.bondingCurve),
                PtrIfNotEmpty(p.tokenProgram), None, event.eventUnixTs, StagePool,
                PtrIfNotEmpty(p.pool), Some(MarketTypePumpAmmPool), Some(event.eventUnixTs))
  }

  function MigratedMarket(event: Envelope, p: Migrate): TokenMarketRecord {
    TokenMarketRecord(
      p.pool, p.mint, ProtocolPumpAmm, MarketTypePumpAmmPool, None, PtrIfNotEmpty(p.pool),
      PtrIfNotEmpty(p.mint), Some(SolMint), None, None, PtrIfNotEmpty(p.lpMint),
      event.eventUnixTs, None, event.eventId)
  }

  function MigrateActivity(event: Envelope, p: Migrate): ActivityEventRecord {
    ActivityOf(event, p.mint, ProtocolPumpfun, "migrate", PtrIfNotEmpty(p.pool), Some(MarketTypePumpAmmPool),
               PtrIfNotEmpty(p.user), None, Some(SolMint), PtrIfNotEmpty(p.mintAmount), PtrIfNotEmpty(p.solAmount))
  }

  function ProjectPumpfunMigrate(event: Envelope, p: Migrate): seq<Op> {
    (if p.bondingCurve != "" then [CloseMarket(p.bondingCurve, event.eventUnixTs)] else [])
    + [ UpsertToken(MigratedToken(event, p)), UpsertMarket(MigratedMarket(event, p)),
        InsertActivity(MigrateActivity(event, p)) ]
  }

  function TokenMetadataFromCreatePool(eventId: string, mint: string, p: CreatePool): TokenMetadataRecord {
    var inverted := mint == p.quoteMint;
    TokenMetadataRecord(mint, MetadataRow(
      None, None, None,
      Some(ToInt32(if inverted then p.quoteMintDecimals else p.baseMintDecimals)), None,
      PtrIfNotEmpty(if inverted then p.baseMint else p.quoteMint),
      Some(ToInt32(if inverted then p.baseMintDecimals else p.quoteMintDecimals)),
      FirstNonNil(PtrIfNotEmpty(p.coinCreator), PtrIfNotEmpty(p.creator)), None, None, None, None,
      PtrIfNotEmpty(eventId)))
  }

  function PooledToken(event: Envelope, mint: string, p: CreatePool): TokenRecord {
    TokenRecord(mint, FirstNonNil(PtrIfNotEmpty(p.coinCreator), PtrIfNotEmpty(p.creator)), None, None, None,
                event.eventUnixTs, StagePool, PtrIfNotEmpty(p.pool), Some(MarketTypePumpAmmPool), None)
  }

  function PooledMarket(event: Envelope, mint: string, p: CreatePool): TokenMarketRecord {
    TokenMarketRecord(
      p.pool, mint, ProtocolPumpAmm, MarketTypePumpAmmPool, None, PtrIfNotEmpty(p.pool),
      PtrIfNotEmpty(p.baseMint), PtrIfNotEmpty(p.quoteMint),
      Some(ToInt32(p.baseMintDecimals)), Some(ToInt32(p.quoteMintDecimals)), PtrIfNotEmpty(p.lpMint),
      event.eventUnixTs, None, event.eventId)
  }

  function CreatePoolActivity(event: Envelope, mint: string, p: CreatePool): ActivityEventRecord {
    var amounts := TrackedPairAmounts(mint, p.quoteMint, p.baseAmountIn, p.quoteAmountIn);
    ActivityOf(event, mint, ProtocolPumpAmm, "create_pool", PtrIfNotEmpty(p.pool), Some(MarketTypePumpAmmPool),
               PtrIfNotEmpty(p.creator), None, TokenMetadataFromCreatePool(event.eventId, mint, p).row.quoteMint,
               PtrIfNotEmpty(amounts.0), PtrIfNotEmpty(amounts.1))
  }

  function ProjectPumpAmmCreatePool(event: Envelope, p: CreatePool): Result<seq<Op>, Error> {
    var mint := TrackedMint(event, p.baseMint, p.quoteMint);
    if mint == "" then Err(TrackedMintMissing(event.eventId))
    else
      Ok([ UpsertToken(PooledToken(event, mint, p)),
           UpsertMetadata(TokenMetadataFromCreatePool(event.eventId, mint, p)),
           UpsertMarket(PooledMarket(event, mint, p)),
           InsertActivity(CreatePoolActivity(event, mint, p)) ])
  }

  /** Side, quote mint, token amount and quote amount of a swap, seen from the tracked mint. */
  datatype Leg = Leg(side: string, quoteMint: string, tokenAmount: string, quoteAmount: string)

  function LegOf(side: string, quoteMint: string, token: Result<string, Error>,
                 quote: Result<string, Error>): Result<Leg, Error> {
    match token
    case Err(e) => Err(e)
    case Ok(tokenAmount) =>
      match quote
      case Err(e) => Err(e)
      case Ok(quoteAmount) => Ok(Leg(side, quoteMint, tokenAmount, quoteAmount))
  }

  function SwapLeg(mint: string, p: Swap, eventId: string): Result<Leg, Error> {
    if mint == p.quoteMint then
      if p.side == "sell" then
        LegOf(SideBuy, p.baseMint,
              RequiredAmount(p.quoteAmountOut, "quote_amount_out", eventId),
              RequiredAmount(p.baseAmountIn, "base_amount_in", eventId))
      else if p.side == "buy" || p.side == "buy_exact_quote_in" then
        LegOf(SideSell, p.baseMint,
              RequiredAmount(p.quoteAmountIn, "quote_amount_in", eventId),
              RequiredAmount(p.baseAmountOut, "base_amount_out", eventId))
      else Err(UnsupportedSide(p.side, eventId))
    else
      if p.side == "sell" then
        LegOf(SideSell, p.quoteMint,
              RequiredAmount(p.baseAmountIn, "base_amount_in", eventId),
              RequiredAmount(p.quoteAmountOut, "quote_amount_out", eventId))
      else if p.side == "buy" || p.side == "buy_exact_quote_in" then
        LegOf(SideBuy, p.quoteMint,
              RequiredAmount(p.baseAmountOut, "base_amount_out", eventId),
              RequiredAmount(p.quoteAmountIn, "quote_amount_in", eventId))
      else Err(UnsupportedSide(p.side, eventId))
  }

  function BuildPumpAmmTrade(event: Envelope, p: Swap): Result<TradeEventRecord, Error> {
    var mint := TrackedMint(event, p.baseMint, p.quoteMint);
    if mint == "" then Err(TrackedMintMissing(event.eventId))
    else
      match SwapLeg(mint, p, event.eventId)
      case Err(e) => Err(e)
      case Ok(leg) =>
        Ok(TradeEventRecord(event.eventId, event.eventUnixTs, TradeColumns(
          mint, p.pool, MarketTypePumpAmmPool, ProtocolPumpAmm, leg.side, p.ixName, p.user, leg.quoteMint,
          leg.tokenAmount, leg.quoteAmount, event.txSignature, event.slot, event.eventSource)))
  }

  function SwapActivity(event: Envelope, c: TradeColumns): ActivityEventRecord {
    ActivityOf(event, c.mint, c.protocol, "trade", PtrIfNotEmpty(c.marketId), PtrIfNotEmpty(c.marketType),
               PtrIfNotEmpty(c.userAddress), PtrIfNotEmpty(c.side), PtrIfNotEmpty(c.quoteMint),
               PtrIfNotEmpty(c.tokenAmountRaw), PtrIfNotEmpty(c.quoteAmountRaw))
  }

  function ProjectPumpAmmSwap(event: Envelope, p: Swap): Result<seq<Op>, Error> {
    match BuildPumpAmmTrade(event, p)
    case Err(e) => Err(e)
    case Ok(trade) => Ok([ InsertTrade(trade), InsertActivity(SwapActivity(event, trade.columns)) ])
  }

  function LiquidityActivity(event: Envelope, mint: string, p: Liquidity): ActivityEventRecord {
    var amounts := LiquidityTrackedAmounts(mint, p);
    ActivityOf(event, mint, ProtocolPumpAmm, p.action, PtrIfNotEmpty(p.pool), Some(MarketTypePumpAmmPool),
               PtrIfNotEmpty(p.user), None, PtrIfNotEmpty(OtherMint(mint, p.baseMint, p.quoteMint)),
               PtrIfNotEmpty(amounts.0), PtrIfNotEmpty(amounts.1))
  }

  function ProjectPumpAmmLiquidity(event: Envelope, p: Liquidity): Result<seq<Op>, Error> {
    var mint := TrackedMint(event, p.baseMint, p.quoteMint);
    if mint == "" then Err(TrackedMintMissing(event.eventId))
    else Ok([InsertActivity(LiquidityActivity(event, mint, p))])
  }

  /** What one event comes to; an event of no known kind comes to nothing. */
  function Projection(event: Envelope, payload: Payload): Result<seq<Op>, Error> {
    match payload
    case PumpfunCreate(p) => Ok(ProjectPumpfunCreate(event, p))
    case PumpfunTrade(p) => Ok(ProjectPumpfunTrade(event, p))
    case PumpfunMigrate(p) => Ok(ProjectPumpfunMigrate(event, p))
    case PumpAmmCreatePool(p) => ProjectPumpAmmCreatePool(event, p)
    case PumpAmmSwap(p) => ProjectPumpAmmSwap(event, p)
    case PumpAmmLiquidity(p) => ProjectPumpAmmLiquidity(event, p)
    case OtherPayload => Ok([])
  }

  // ----- The projector at work: checks first, then one statement after the other -----

  /** Projecting writes the statements one by one; an event that cannot be projected writes none. */
  method Project(writer: Batch, event: Envelope, payload: Payload) returns (error: Option<Error>)
    requires writer.Valid()
    modifies writer
    ensures writer.Valid()
    ensures match Projection(event, payload)
            case Err(e) => error == Some(e) && writer.written == old(writer.written)
            case Ok(ops) => error == None && writer.written == old(writer.written) + ops
  {
    error := None;
    match payload {
      case PumpfunCreate(p) => WritePumpfunCreate(writer, event, p);
      case PumpfunTrade(p) => WritePumpfunTrade(writer, event, p);
      case PumpfunMigrate(p) => WritePumpfunMigrate(writer, event, p);
      case PumpAmmCreatePool(p) => error := WritePumpAmmCreatePool(writer, event, p);
      case PumpAmmSwap(p) => error := WritePumpAmmSwap(writer, event, p);
      case PumpAmmLiquidity(p) => error := WritePumpAmmLiquidity(writer, event, p);
      case OtherPayload =>
    }
  }

  method WritePumpfunCreate(writer: Batch, event: Envelope, p: Create)
    requires writer.Valid()
    modifies writer
    ensures writer.Valid() && writer.written == old(writer.written) + ProjectPumpfunCreate(event, p)
  {
    writer.WriteState(UpsertToken(CreatedToken(event, p)));
    writer.WriteState(UpsertMetadata(CreatedMetadata(event, p)));
    writer.WriteState(UpsertMarket(CreatedMarket(event, p)));
    writer.WriteActivity(CreateActivity(event, p));
  }

  method WritePumpfunTrade(writer: Batch, event: Envelope, p: CurveTrade)
    requires writer.Valid()
    modifies writer
    ensures writer.Valid() && writer.written == old(writer.written) + ProjectPumpfunTrade(event, p)
  {
    writer.WriteTrade(CurveTradeRecord(event, p));
    writer.WriteActivity(CurveTradeActivity(event, p));
  }

  method WritePumpfunMigrate(writer: Batch, event: Envelope, p: Migrate)
    requires writer.Valid()
    modifies writer
    ensures writer.Valid() && writer.written == old(writer.written) + ProjectPumpfunMigrate(event, p)
  {
    ghost var before := writer.written;
    ghost var close := if p.bondingCurve != "" then [CloseMarket(p.bondingCurve, event.eventUnixTs)] else [];
    if p.bondingCurve != "" {
      writer.WriteState(CloseMarket(p.bondingCurve, event.eventUnixTs));
    }
    assert writer.written == before + close;
    writer.WriteState(UpsertToken(MigratedToken(event, p)));
    writer.WriteState(UpsertMarket(MigratedMarket(event, p)));
    writer.WriteActivity(MigrateActivity(event, p));
  }

  method WritePumpAmmCreatePool(writer: Batch, event: Envelope, p: CreatePool) returns (error: Option<Error>)
    requires writer.Valid()
    modifies writer
    ensures writer.Valid()
    ensures match ProjectPumpAmmCreatePool(event, p)
            case Err(e) => error == Some(e) && writer.written == old(writer.written)
            case Ok(ops) => error == None && writer.written == old(writer.written) + ops
  {
    var mint := TrackedMint(event, p.baseMint, p.quoteMint);
    if mint == "" {
      return Some(TrackedMintMissing(event.eventId));
    }
    writer.WriteState(UpsertToken(PooledToken(event, mint, p)));
    writer.WriteState(UpsertMetadata(TokenMetadataFromCreatePool(event.eventId, mint, p)));
    writer.WriteState(UpsertMarket(PooledMarket(event, mint, p)));
    writer.WriteActivity(CreatePoolActivity(event, mint, p));
    error := None;
  }

  method WritePumpAmmSwap(writer: Batch, event: Envelope, p: Swap) returns (error: Option<Error>)
    requires writer.Valid()
    modifies writer
    ensures writer.Valid()
    ensures match ProjectPumpAmmSwap(event, p)
            case Err(e) => error == Some(e) && writer.written == old(writer.written)
            case Ok(ops) => error == None && writer.written == old(writer.written) + ops
  {
    var trade := BuildPumpAmmTrade(event, p);
    if trade.Err? {
      return Some(trade.error);
    }
    writer.WriteTrade(trade.value);
    writer.WriteActivity(SwapActivity(event, trade.value.columns));
    error := None;
  }

  method WritePumpAmmLiquidity(writer: Batch, event: Envelope, p: Liquidity) returns (error: Option<Error>)
    requires writer.Valid()
    modifies writer
    ensures writer.Valid()
    ensures match ProjectPumpAmmLiquidity(event, p)
            case Err(e) => error == Some(e) && writer.written == old(writer.written)
            case Ok(ops) => error == None && writer.written == old(writer.written) + ops
  {
    var mint := TrackedMint(event, p.baseMint, p.quoteMint);
    if mint == "" {
      return Some(TrackedMintMissing(event.eventId));
    }
    writer.WriteActivity(LiquidityActivity(event, mint, p));
    error := None;
  }

  // ----- A swap, read as what flows in and out of the pool -----

  datatype Flow = Flow(mintIn: string, amountIn: Text, mintOut: string, amountOut: Text)

  /** What the user pays into the pool and gets out of it. */
  function FlowOf(p: Swap): Option<Flow> {
    if p.side == "sell" then Some(Flow(p.baseMint, p.baseAmountIn, p.quoteMint, p.quoteAmountOut))
    else if p.side == "buy" || p.side == "buy_exact_quote_in"
      then Some(Flow(p.quoteMint, p.quoteAmountIn, p.baseMint, p.baseAmountOut))
    else None
  }

  predicate Given(amount: Text) { amount.Some? && amount.value != "" }

  /** The side of the pool the projector takes for the token. */
  function TokenSide(event: Envelope, p: Swap): string {
    if TrackedMint(event, p.baseMint, p.quoteMint) == p.quoteMint then p.quoteMint else p.baseMint
  }

  /** Whichever side of the pool the token is on, a trade is a buy exactly when the token flows out to the
   * user, and its amounts are those of the token and of the other mint; the swap is refused exactly when
   * the token is unknown, the side is, or an amount of the flow is missing. */
  lemma {:induction false} TradeFollowsTheFlow(event: Envelope, p: Swap)
    requires p.baseMint != p.quoteMint
    ensures
      var token := TokenSide(event, p);
      var flow := FlowOf(p);
      var r := BuildPumpAmmTrade(event, p);
      && (r.Ok? <==>
            && TrackedMint(event, p.baseMint, p.quoteMint) != ""
            && flow.Some? && Given(flow.value.amountIn) && Given(flow.value.amountOut))
      && (r.Ok? ==>
            var c := r.value.columns;
            && c.mint == TrackedMint(event, p.baseMint, p.quoteMint)
            && (c.side == SideBuy || c.side == SideSell)
            && (c.side == SideBuy <==> flow.value.mintOut == token)
            && (c.side == SideSell <==> flow.value.mintIn == token)
            && (c.side == SideBuy ==>
                  && c.quoteMint == flow.value.mintIn
                  && Some(c.tokenAmountRaw) == flow.value.amountOut && Some(c.quoteAmountRaw) == flow.value.amountIn)
            && (c.side == SideSell ==>
                  && c.quoteMint == flow.value.mintOut
                  && Some(c.tokenAmountRaw) == flow.value.amountIn && Some(c.quoteAmountRaw) == flow.value.amountOut))
  {
  }

  /** The same pool with base and quote exchanged: the opposite side, and every amount on the other leg. */
  function Mirrored(p: Swap): Swap {
    p.(side := if p.side == "sell" then "buy"
               else if p.side == "buy" || p.side == "buy_exact_quote_in" then "sell"
               else p.side,
       baseMint := p.quoteMint, quoteMint := p.baseMint,
       baseAmountIn := p.quoteAmountIn, quoteAmountIn := p.baseAmountIn,
       baseAmountOut := p.quoteAmountOut, quoteAmountOut := p.baseAmountOut)
  }

  function MirroredPool(p: CreatePool): CreatePool {
    p.(baseMint := p.quoteMint, quoteMint := p.baseMint,
       baseAmountIn := p.quoteAmountIn, quoteAmountIn := p.baseAmountIn,
       baseMintDecimals := p.quoteMintDecimals, quoteMintDecimals := p.baseMintDecimals)
  }

  function MirroredLiquidity(p: Liquidity): Liquidity {
    p.(baseMint := p.quoteMint, quoteMint := p.baseMint,
       baseAmountIn := p.quoteAmountIn, quoteAmountIn := p.baseAmountIn,
       baseAmountOut := p.quoteAmountOut, quoteAmountOut := p.baseAmountOut)
  }

  /** The event's own idea of the token, if it has one, is one of the pool's two mints. */
  predicate OneOfTwo(event: Envelope, baseMint: string, quoteMint: string) {
    && baseMint != quoteMint
    && (event.refMint.Some? && event.refMint.value != "" ==>
        event.refMint.value == baseMint || event.refMint.value == quoteMint)
  }

  /** Exchanging base and quote of the pool does not change the trade that is recorded. */
  lemma {:induction false} SwapIsSymmetric(event: Envelope, p: Swap)
    requires OneOfTwo(event, p.baseMint, p.quoteMint)
    ensures
      var r, m := BuildPumpAmmTrade(event, p), BuildPumpAmmTrade(event, Mirrored(p));
      (r.Ok? <==> m.Ok?) && (r.Ok? ==> r == m)
  {
  }

  /** The same for the event that creates a pool: token, metadata and activity do not depend on which side
   * of the pool the token is. */
  lemma {:induction false} CreatePoolIsSymmetric(event: Envelope, p: CreatePool)
    requires OneOfTwo(event, p.baseMint, p.quoteMint)
    ensures
      var r, m := ProjectPumpAmmCreatePool(event, p), ProjectPumpAmmCreatePool(event, MirroredPool(p));
      && (r.Ok? <==> m.Ok?)
      && (r.Ok? ==> r.value[0] == m.value[0] && r.value[1] == m.value[1] && r.value[3] == m.value[3])
  {
  }

  lemma {:induction false} LiquidityIsSymmetric(event: Envelope, p: Liquidity)
    requires OneOfTwo(event, p.baseMint, p.quoteMint)
    ensures
      var r, m := ProjectPumpAmmLiquidity(event, p), ProjectPumpAmmLiquidity(event, MirroredLiquidity(p));
      (r.Ok? <==> m.Ok?) && (r.Ok? ==> r == m)
  {
  }

  /** A trade on the curve records what the same trade would record in a pool of the token against SOL. */
  lemma {:induction false} CurveTradeIsAPoolTrade(event: Envelope, p: CurveTrade, pool: string)
    requires p.mint != "" && p.mint != SolMint && p.tokenAmount != "" && p.solAmount != ""
    requires event.refMint.Some? && event.refMint.value != "" ==> event.refMint.value == p.mint
    requires p.side == SideBuy || p.side == SideSell
    ensures
      var swap := if p.side == SideBuy
                  then Swap("buy", p.ixName, pool, p.user, p.mint, SolMint,
                            None, Some(p.tokenAmount), Some(p.solAmount), None)
                  else Swap("sell", p.ixName, pool, p.user, p.mint, SolMint,
                            Some(p.tokenAmount), None, None, Some(p.solAmount));
      var r := BuildPumpAmmTrade(event, swap);
      var own := ProjectPumpfunTrade(event, p)[0];
      r.Ok? && own == InsertTrade(r.value.(columns := r.value.columns.(
        marketId := p.bondingCurve, marketType := MarketTypePumpfunCurve, protocol := ProtocolPumpfun)))
  {
  }

  /** Where a trade is recorded, so is one activity, and the two rows tell the same. */
  lemma {:induction false} TradeAndActivityAgree(event: Envelope, payload: Payload, i: nat)
    requires Projection(event, payload).Ok? && i < |Projection(event, payload).value|
    requires Projection(event, payload).value[i].InsertTrade?
    ensures
      var ops := Projection(event, payload).value;
      && i == 0 && |ops| == 2 && ops[1].InsertActivity?
      && var t, a := ops[0].trade, ops[1].activity;
      && a.eventId == t.eventId == event.eventId && a.eventUnixTs == t.eventUnixTs == event.eventUnixTs
      && a.columns.mint == t.columns.mint && a.columns.protocol == t.columns.protocol
      && a.columns.activityType == "trade" && StringValue(a.columns.marketId) == t.columns.marketId
      && StringValue(a.columns.marketType) == t.columns.marketType
      && StringValue(a.columns.userAddress) == t.columns.userAddress
      && StringValue(a.columns.side) == t.columns.side && StringValue(a.columns.quoteMint) == t.columns.quoteMint
      && StringValue(a.columns.tokenAmountRaw) == t.columns.tokenAmountRaw
      && StringValue(a.columns.quoteAmountRaw) == t.columns.quoteAmountRaw
      && a.columns.txSignature == t.columns.txSignature && a.columns.slot == t.columns.slot
  {
  }

  /** An event of a known kind that can be projected records exactly one activity, under its own id and
   * time, last; any other event records nothing. */
  lemma {:induction false} OneActivityPerEvent(event: Envelope, payload: Payload)
    requires Projection(event, payload).Ok?
    ensures
      var ops := Projection(event, payload).value;
      if payload.OtherPayload? then ops == []
      else
        && ops != []
        && (forall i | 0 <= i < |ops| :: ops[i].InsertActivity? <==> i == |ops| - 1)
        && ops[|ops| - 1].activity.eventId == event.eventId && ops[|ops| - 1].activity.eventUnixTs == event.eventUnixTs
  {
  }

  /** A migration ends the curve's market, if it has a row, at the moment the pool's market starts, and hands
   * the token over to the pool. */
  lemma {:induction false} MigrationHandsOver(db: Db, event: Envelope, p: Migrate)
    requires p.bondingCurve != "" && p.pool != "" && p.pool != p.bondingCurve && p.pool !in db.markets
    ensures
      var after := Run(db, ProjectPumpfunMigrate(event, p));
      var now := UnixToTimestampSeconds(event.eventUnixTs);
      && p.mint in after.tokens && after.tokens[p.mint].activeMarketId == Some(p.pool)
      && after.tokens[p.mint].currentStage == StagePool && after.tokens[p.mint].migratedAt == Some(now)
      && p.pool in after.markets && after.markets[p.pool].mint == p.mint
      && after.markets[p.pool].startedAt == now && after.markets[p.pool].endedAt == None
      && (p.bondingCurve in after.markets <==> p.bondingCurve in db.markets)
      && (p.bondingCurve in db.markets ==>
            after.markets[p.bondingCurve] == db.markets[p.bondingCurve].(endedAt := Some(now)))
  {
    var ops := ProjectPumpfunMigrate(event, p);
    assert ops == [ops[0]] + [ops[1]] + [ops[2]] + [ops[3]];
    RunFour(db, ops[0], ops[1], ops[2], ops[3]);
  }

  /** The three rows of a created token tell the same. */
  predicate RowsAgree(token: TokenRow, metadata: MetadataRow, market: MarketRow) {
    && token.activeMarketId == token.bondingCurve == metadata.bondingCurve == market.bondingCurve
    && Some(market.marketType) == token.activeMarketType
    && market.startedAt == token.firstSeenAt && market.endedAt == None
    && token.creator == metadata.creator && token.tokenProgram == metadata.tokenProgram
    && metadata.decimals == market.baseMintDecimals && metadata.quoteMint == market.quoteMint
    && metadata.quoteDecimals == market.quoteMintDecimals
    && token.createEventId == metadata.sourceEventId == Some(market.createEventId)
  }

  /** Over any database, a creation gives the token its row, its metadata and the market it names as active,
   * and they agree on what a creation always tells: curve, active market, quote mint and its decimals.  The
   * creator, the token program and the decimals agree where the event gives them, and otherwise keep what
   * each row had.  Where there were rows, the first event and the earliest time stay, and so does the market's
   * ending; where there were none, the three rows agree on everything. */
  lemma {:induction false} CreationIsConsistent(db: Db, event: Envelope, p: Create)
    requires p.bondingCurve != ""
    ensures
      var after := Run(db, ProjectPumpfunCreate(event, p));
      var now := UnixToTimestampSeconds(event.eventUnixTs);
      && p.mint in after.tokens && p.mint in after.metadata && p.bondingCurve in after.markets
      && var token, metadata, market := after.tokens[p.mint], after.metadata[p.mint], after.markets[p.bondingCurve];
      && token.activeMarketId == token.bondingCurve == Some(p.bondingCurve)
      && metadata.bondingCurve == market.bondingCurve == Some(p.bondingCurve)
      && market.mint == p.mint && Some(market.marketType) == token.activeMarketType
      && token.currentStage == StageBondingCurve
      && metadata.quoteMint == market.quoteMint == Some(SolMint)
      && metadata.quoteDecimals == market.quoteMintDecimals == Some(SolDecimals)
      && metadata.sourceEventId == Some(event.eventId)
      && (p.creator != "" ==> token.creator == metadata.creator == Some(p.creator))
      && (p.tokenProgram != "" ==> token.tokenProgram == metadata.tokenProgram == Some(p.tokenProgram))
      && (p.mintDecimals.Some? ==> metadata.decimals == market.baseMintDecimals == OptionalInt32(p.mintDecimals))
      && (p.mint in db.tokens ==>
            var row := db.tokens[p.mint];
            && token.createEventId == Coalesce(row.createEventId, Some(event.eventId))
            && token.firstSeenAt == Least(row.firstSeenAt, now) && token.migratedAt == row.migratedAt
            && (p.creator == "" ==> token.creator == row.creator)
            && (p.tokenProgram == "" ==> token.tokenProgram == row.tokenProgram))
      && (p.mint in db.metadata ==>
            var row := db.metadata[p.mint];
            && (p.creator == "" ==> metadata.creator == row.creator)
            && (p.tokenProgram == "" ==> metadata.tokenProgram == row.tokenProgram)
            && (p.mintDecimals.None? ==> metadata.decimals == row.decimals))
      && (p.bondingCurve in db.markets ==>
            var row := db.markets[p.bondingCurve];
            && market.createEventId == row.createEventId && market.endedAt == row.endedAt
            && market.startedAt == Least(row.startedAt, now)
            && (p.mintDecimals.None? ==> market.baseMintDecimals == row.baseMintDecimals))
      && (p.mint !in db.tokens && p.mint !in db.metadata && p.bondingCurve !in db.markets ==>
            RowsAgree(token, metadata, market))
  {
    CreatedRows(db, event, p);
  }

  /** The three rows are what the upserts leave. */
  lemma {:induction false} CreatedRows(db: Db, event: Envelope, p: Create)
    ensures
      var after := Run(db, ProjectPumpfunCreate(event, p));
      && p.mint in after.tokens && p.mint in after.metadata && p.bondingCurve in after.markets
      && after.tokens[p.mint] == Upserted(Get(db.tokens, p.mint), TokenRowOf(CreatedToken(event, p)), MergeToken)
      && after.metadata[p.mint] == Upserted(Get(db.metadata, p.mint), CreatedMetadata(event, p).row, MergeMetadata)
      && after.markets[p.bondingCurve]
         == Upserted(Get(db.markets, p.bondingCurve), MarketRowOf(CreatedMarket(event, p)), MergeMarket)
  {
    var ops := ProjectPumpfunCreate(event, p);
    assert ops == [ops[0]] + [ops[1]] + [ops[2]] + [ops[3]];
    RunFour(db, ops[0], ops[1], ops[2], ops[3]);
  }

  lemma {:induction false} RunFour(db: Db, a: Op, b: Op, c: Op, d: Op)
    ensures Run(db, [a] + [b] + [c] + [d]) == Apply(Apply(Apply(Apply(db, a), b), c), d)
  {
    assert [a] == [] + [a];
    RunSnoc(db, [], a);
    RunSnoc(db, [a], b);
    RunSnoc(db, [a] + [b], c);
    RunSnoc(db, [a] + [b] + [c], d);
  }

  // ----- The active market -----

  /** Every token that names an active market names one that has a row. */
  ghost predicate ActiveMarketsExist(db: Db) {
    forall mint | mint in db.tokens && db.tokens[mint].activeMarketId.Some? ::
      db.tokens[mint].activeMarketId.value in db.markets
  }

  /** All but one named market has a row. */
  ghost predicate ActiveMarketsExistBut(db: Db, id: Text) {
    forall mint | mint in db.tokens && db.tokens[mint].activeMarketId.Some? ::
      db.tokens[mint].activeMarketId.value in db.markets || db.tokens[mint].activeMarketId == id
  }

  lemma {:induction false} AfterToken(db: Db, r: TokenRecord)
    requires ActiveMarketsExist(db)
    ensures ActiveMarketsExistBut(Apply(db, UpsertToken(r)), r.activeMarketId)
  {
  }

  lemma {:induction false} AfterMarket(db: Db, r: TokenMarketRecord, id: Text)
    requires ActiveMarketsExistBut(db, id) && (id.Some? ==> id.value == r.marketId)
    ensures ActiveMarketsExist(Apply(db, UpsertMarket(r)))
  {
  }

  /** Statements that name no active market and keep every market row. */
  predicate Neutral(op: Op) { op.UpsertMetadata? || op.CloseMarket? || op.InsertTrade? || op.InsertActivity? }

  lemma {:induction false} AfterNeutral(db: Db, op: Op, id: Text)
    requires Neutral(op)
    ensures ActiveMarketsExist(db) ==> ActiveMarketsExist(Apply(db, op))
    ensures ActiveMarketsExistBut(db, id) ==> ActiveMarketsExistBut(Apply(db, op), id)
  {
  }

  lemma {:induction false} AfterAllNeutral(db: Db, ops: seq<Op>, id: Text)
    requires forall i | 0 <= i < |ops| :: Neutral(ops[i])
    ensures ActiveMarketsExist(db) ==> ActiveMarketsExist(Run(db, ops))
    ensures ActiveMarketsExistBut(db, id) ==> ActiveMarketsExistBut(Run(db, ops), id)
  {
    if ops == [] {
    } else {
      AfterAllNeutral(db, ops[..|ops| - 1], id);
      AfterNeutral(Run(db, ops[..|ops| - 1]), ops[|ops| - 1], id);
    }
  }

  /** Neutral statements, the token, neutral statements, the market it names, neutral statements. */
  lemma {:induction false} TokenThenMarket(db: Db, a: seq<Op>, token: TokenRecord, b: seq<Op>,
                                           market: TokenMarketRecord, c: seq<Op>)
    requires ActiveMarketsExist(db)
    requires forall i | 0 <= i < |a| :: Neutral(a[i])
    requires forall i | 0 <= i < |b| :: Neutral(b[i])
    requires forall i | 0 <= i < |c| :: Neutral(c[i])
    requires token.activeMarketId.Some? ==> token.activeMarketId.value == market.marketId
    ensures ActiveMarketsExist(Run(db, a + [UpsertToken(token)] + b + [UpsertMarket(market)] + c))
  {
    var id := token.activeMarketId;
    AfterAllNeutral(db, a, id);
    RunSnoc(db, a, UpsertToken(token));
    AfterToken(Run(db, a), token);
    var s1 := a + [UpsertToken(token)];
    RunConcat(db, s1, b);
    AfterAllNeutral(Run(db, s1), b, id);
    RunSnoc(db, s1 + b, UpsertMarket(market));
    AfterMarket(Run(db, s1 + b), market, id);
    var s2 := s1 + b + [UpsertMarket(market)];
    RunConcat(db, s2, c);
    AfterAllNeutral(Run(db, s2), c, id);
  }

  /** Projecting an event keeps every active market in existence, whatever the event. */
  lemma {:induction false} ProjectionKeepsActiveMarkets(db: Db, event: Envelope, payload: Payload)
    requires ActiveMarketsExist(db) && Projection(event, payload).Ok?
    ensures ActiveMarketsExist(Run(db, Projection(event, payload).value))
  {
    var ops := Projection(event, payload).value;
    if payload.PumpfunCreate? || payload.PumpAmmCreatePool? {
      assert ops == [] + [ops[0]] + [ops[1]] + [ops[2]] + [ops[3]];
      TokenThenMarket(db, [], ops[0].token, [ops[1]], ops[2].market, [ops[3]]);
    } else if payload.PumpfunMigrate? {
      var n := |ops| - 3;
      assert ops == ops[..n] + [ops[n]] + [] + [ops[n + 1]] + [ops[n + 2]];
      TokenThenMarket(db, ops[..n], ops[n].token, [], ops[n + 1].market, [ops[n + 2]]);
    } else {
      AfterAllNeutral(db, ops, None);
    }
  }

  /** Within the events that move a token to a new market there is a moment when it does not hold: the
   * token is written before the market. */
  lemma {:induction false} ActiveMarketDanglesWithin(event: Envelope, p: Create)
    requires p.bondingCurve != ""
    ensures !ActiveMarketsExist(Run(EmptyDb, ProjectPumpfunCreate(event, p)[..1]))
  {
  }
}
