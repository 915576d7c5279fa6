/** What the rows of tokens, metadata and markets are after an event, over whatever they were before. */
module MarketRows {
  import opened Options
  import opened Upserts
  import opened ReadModel
  import opened Projector

  const Sol := "So11111111111111111111111111111111111111112"

  /** The column takes the event's text, unless that is empty: then it keeps what it had, if anything. */
  predicate Takes(column: Text, text: string, before: Text) {
    column == if text != "" then Some(text) else before
  }

  /** The column takes the number as a signed 32-bit one. */
  predicate TakesInt32(column: Option<int>, u: int) {
    && column.Some? && -0x8000_0000 <= column.value < 0x8000_0000
    && (column.value == u || column.value == u - 0x1_0000_0000)
  }

  /** A column of an earlier row, or nothing. */
  function Before<R, C>(row: Option<R>, column: R -> Option<C>): Option<C> {
    match row
    case None => None
    case Some(r) => column(r)
  }

  /** The time of the event, or the row's own if that is earlier. */
  predicate StartsAt(column: real, ts: int, before: Option<real>) {
    var now := UnixToTimestampSeconds(ts);
    column == if before.Some? && before.value <= now then before.value else now
  }

  ghost predicate HasRows(db: Db, mint: string, market: string) {
    mint in db.tokens && mint in db.metadata && market in db.markets
  }

  // ----- A created token -----

  /** The token stands on its curve; its first event, its earliest time and its migration stay. */
  predicate CreatedTokenTells(row: TokenRow, before: Option<TokenRow>, event: Envelope, p: Create) {
    && row.currentStage == "bonding_curve" && row.activeMarketType == Some("pumpfun_curve")
    && Takes(row.activeMarketId, p.bondingCurve, Before(before, (r: TokenRow) => r.activeMarketId))
    && Takes(row.bondingCurve, p.bondingCurve, Before(before, (r: TokenRow) => r.bondingCurve))
    && Takes(row.tokenProgram, p.tokenProgram, Before(before, (r: TokenRow) => r.tokenProgram))
    && Takes(row.creator, p.creator, Before(before, (r: TokenRow) => r.creator))
    && row.createEventId == Coalesce(Before(before, (r: TokenRow) => r.createEventId), Some(event.eventId))
    && StartsAt(row.firstSeenAt, event.eventUnixTs, Before(before, (r: TokenRow) => Some(r.firstSeenAt)))
    && row.migratedAt == Before(before, (r: TokenRow) => r.migratedAt)
  }

  /** The metadata of a created token: each column the event's where it gives one, and what the row had
   * otherwise; the quote is SOL. */
  predicate CreatedMetadataTells(row: MetadataRow, before: Option<MetadataRow>, event: Envelope, p: Create) {
    && Takes(row.name, p.name, Before(before, (r: MetadataRow) => r.name))
    && Takes(row.symbol, p.symbol, Before(before, (r: MetadataRow) => r.symbol))
    && Takes(row.uri, p.uri, Before(before, (r: MetadataRow) => r.uri))
    && Takes(row.totalSupplyRaw, p.tokenTotalSupply, Before(before, (r: MetadataRow) => r.totalSupplyRaw))
    && Takes(row.creator, p.creator, Before(before, (r: MetadataRow) => r.creator))
    && Takes(row.bondingCurve, p.bondingCurve, Before(before, (r: MetadataRow) => r.bondingCurve))
    && Takes(row.tokenProgram, p.tokenProgram, Before(before, (r: MetadataRow) => r.tokenProgram))
    && row.quoteMint == Some(Sol) && row.quoteDecimals == Some(9)
    && row.isMayhemMode == Some(p.isMayhemMode) && row.isCashbackEnabled == Some(p.isCashbackEnabled)
    && row.sourceEventId == Some(event.eventId)
    && (p.mintDecimals.Some? ==> TakesInt32(row.decimals, p.mintDecimals.value))
    && (p.mintDecimals.None? ==> row.decimals == Before(before, (r: MetadataRow) => r.decimals))
  }

  /** The curve's market: the token against SOL, and no pool of its own. */
  predicate CurveMarketTells(row: MarketRow, before: Option<MarketRow>, event: Envelope, p: Create) {
    && row.mint == p.mint && row.protocol == "pumpfun" && row.marketType == "pumpfun_curve"
    && Takes(row.bondingCurve, p.bondingCurve, Before(before, (r: MarketRow) => r.bondingCurve))
    && row.pool == Before(before, (r: MarketRow) => r.pool)
    && Takes(row.baseMint, p.mint, Before(before, (r: MarketRow) => r.baseMint))
    && row.quoteMint == Some(Sol) && row.quoteMintDecimals == Some(9)
    && (p.mintDecimals.Some? ==> TakesInt32(row.baseMintDecimals, p.mintDecimals.value))
    && (p.mintDecimals.None? ==> row.baseMintDecimals == Before(before, (r: MarketRow) => r.baseMintDecimals))
    && row.lpMint == Before(before, (r: MarketRow) => r.lpMint)
    && StartsAt(row.startedAt, event.eventUnixTs, Before(before, (r: MarketRow) => Some(r.startedAt)))
    && row.endedAt == Before(before, (r: MarketRow) => r.endedAt)
    && row.createEventId == (if before.Some? then before.value.createEventId else event.eventId)
  }

  lemma {:induction false} CreatedTokenIs(row: TokenRow, before: Option<TokenRow>, event: Envelope, p: Create)
    requires row == Upserted(before, TokenRowOf(CreatedToken(event, p)), MergeToken)
    ensures CreatedTokenTells(row, before, event, p)
  {
  }

  lemma {:induction false} CreatedMetadataIs(row: MetadataRow, before: Option<MetadataRow>, event: Envelope, p: Create)
    requires p.mintDecimals.Some? ==> 0 <= p.mintDecimals.value < 0x1_0000_0000
    requires row == Upserted(before, CreatedMetadata(event, p).row, MergeMetadata)
    ensures CreatedMetadataTells(row, before, event, p)
  {
  }

  lemma {:induction false} CurveMarketIs(row: MarketRow, before: Option<MarketRow>, event: Envelope, p: Create)
    requires p.mintDecimals.Some? ==> 0 <= p.mintDecimals.value < 0x1_0000_0000
    requires row == Upserted(before, MarketRowOf(CreatedMarket(event, p)), MergeMarket)
    ensures CurveMarketTells(row, before, event, p)
  {
  }

  /** Over any database a creation leaves token, metadata and the curve's market as told. */
  lemma {:induction false} CreationTells(db: Db, event: Envelope, p: Create)
    requires p.mintDecimals.Some? ==> 0 <= p.mintDecimals.value < 0x1_0000_0000
    ensures
      var after := Run(db, ProjectPumpfunCreate(event, p));
      && HasRows(after, p.mint, p.bondingCurve)
      && CreatedTokenTells(after.tokens[p.mint], Get(db.tokens, p.mint), event, p)
      && CreatedMetadataTells(after.metadata[p.mint], Get(db.metadata, p.mint), event, p)
      && CurveMarketTells(after.markets[p.bondingCurve], Get(db.markets, p.bondingCurve), event, p)
  {
    CreatedRows(db, event, p);
    var after := Run(db, ProjectPumpfunCreate(event, p));
    CreatedTokenIs(after.tokens[p.mint], Get(db.tokens, p.mint), event, p);
    CreatedMetadataIs(after.metadata[p.mint], Get(db.metadata, p.mint), event, p);
    CurveMarketIs(after.markets[p.bondingCurve], Get(db.markets, p.bondingCurve), event, p);
  }

  // ----- A migrated token -----

  /** The token stands on the pool, and keeps its first event and earliest time. */
  predicate MigratedTokenTells(row: TokenRow, before: Option<TokenRow>, event: Envelope, p: Migrate) {
    && row.currentStage == "pool" && row.activeMarketType == Some("pumpamm_pool")
    && Takes(row.activeMarketId, p.pool, Before(before, (r: TokenRow) => r.activeMarketId))
    && Takes(row.bondingCurve, p.bondingCurve, Before(before, (r: TokenRow) => r.bondingCurve))
    && Takes(row.tokenProgram, p.tokenProgram, Before(before, (r: TokenRow) => r.tokenProgram))
    && Takes(row.creator, StringValue(event.refCreator), Before(before, (r: TokenRow) => r.creator))
    && row.createEventId == Before(before, (r: TokenRow) => r.createEventId)
    && StartsAt(row.firstSeenAt, event.eventUnixTs, Before(before, (r: TokenRow) => Some(r.firstSeenAt)))
    && row.migratedAt == Some(UnixToTimestampSeconds(event.eventUnixTs))
  }

  /** The pool's market: the token against SOL; decimals are not known from a migration. */
  predicate MigratedMarketTells(row: MarketRow, before: Option<MarketRow>, event: Envelope, p: Migrate) {
    && row.mint == p.mint && row.protocol == "pumpamm" && row.marketType == "pumpamm_pool"
    && Takes(row.pool, p.pool, Before(before, (r: MarketRow) => r.pool))
    && Takes(row.baseMint, p.mint, Before(before, (r: MarketRow) => r.baseMint))
    && row.quoteMint == Some(Sol)
    && Takes(row.lpMint, p.lpMint, Before(before, (r: MarketRow) => r.lpMint))
    && row.bondingCurve == Before(before, (r: MarketRow) => r.bondingCurve)
    && row.baseMintDecimals == Before(before, (r: MarketRow) => r.baseMintDecimals)
    && row.quoteMintDecimals == Before(before, (r: MarketRow) => r.quoteMintDecimals)
    && row.endedAt == Before(before, (r: MarketRow) => r.endedAt)
    && StartsAt(row.startedAt, event.eventUnixTs, Before(before, (r: MarketRow) => Some(r.startedAt)))
    && row.createEventId == (if before.Some? then before.value.createEventId else event.eventId)
  }

  lemma {:induction false} CloseThenThree(db: Db, event: Envelope, p: Migrate)
    ensures
      var closed := if p.bondingCurve != "" then Apply(db, CloseMarket(p.bondingCurve, event.eventUnixTs)) else db;
      Run(db, ProjectPumpfunMigrate(event, p))
      == Apply(Apply(Apply(closed, UpsertToken(MigratedToken(event, p))), UpsertMarket(MigratedMarket(event, p))),
               InsertActivity(MigrateActivity(event, p)))
  {
    var ops := ProjectPumpfunMigrate(event, p);
    var a, b, c :=
      UpsertToken(MigratedToken(event, p)), UpsertMarket(MigratedMarket(event, p)),
      InsertActivity(MigrateActivity(event, p));
    if p.bondingCurve != "" {
      var close := CloseMarket(p.bondingCurve, event.eventUnixTs);
      assert ops == [close] + [a] + [b] + [c];
      RunFour(db, close, a, b, c);
    } else {
      assert ops == [] + [a] + [b] + [c];
      RunSnoc(db, [], a);
      RunSnoc(db, [] + [a], b);
      RunSnoc(db, [] + [a] + [b], c);
    }
  }

  lemma {:induction false} MigratedRows(db: Db, event: Envelope, p: Migrate)
    requires p.pool != p.bondingCurve
    ensures
      var after := Run(db, ProjectPumpfunMigrate(event, p));
      && p.mint in after.tokens && p.pool in after.markets && after.metadata == db.metadata
      && after.tokens[p.mint] == Upserted(Get(db.tokens, p.mint), TokenRowOf(MigratedToken(event, p)), MergeToken)
      && after.markets[p.pool]
         == Upserted(Get(db.markets, p.pool), MarketRowOf(MigratedMarket(event, p)), MergeMarket)
  {
    CloseThenThree(db, event, p);
  }

  lemma {:induction false} MigratedTokenIs(row: TokenRow, before: Option<TokenRow>, event: Envelope, p: Migrate)
    requires row == Upserted(before, TokenRowOf(MigratedToken(event, p)), MergeToken)
    ensures MigratedTokenTells(row, before, event, p)
  {
  }

  lemma {:induction false} MigratedMarketIs(row: MarketRow, before: Option<MarketRow>, event: Envelope, p: Migrate)
    requires row == Upserted(before, MarketRowOf(MigratedMarket(event, p)), MergeMarket)
    ensures MigratedMarketTells(row, before, event, p)
  {
  }

  /** Over any database a migration leaves the token and the pool's market as told; and it writes nothing
   * about the token's metadata. */
  lemma {:induction false} MigrationTells(db: Db, event: Envelope, p: Migrate)
    requires p.pool != p.bondingCurve
    ensures
      var after := Run(db, ProjectPumpfunMigrate(event, p));
      && p.mint in after.tokens && p.pool in after.markets
      && MigratedTokenTells(after.tokens[p.mint], Get(db.tokens, p.mint), event, p)
      && MigratedMarketTells(after.markets[p.pool], Get(db.markets, p.pool), event, p)
      && after.metadata == db.metadata
  {
    MigratedRows(db, event, p);
    var after := Run(db, ProjectPumpfunMigrate(event, p));
    MigratedTokenIs(after.tokens[p.mint], Get(db.tokens, p.mint), event, p);
    MigratedMarketIs(after.markets[p.pool], Get(db.markets, p.pool), event, p);
  }

  // ----- A created pool -----

  /** The decimals the event gives for each of the two mints of its pool. */
  function DecimalsOf(p: CreatePool): map<string, int> {
    map[p.baseMint := p.baseMintDecimals, p.quoteMint := p.quoteMintDecimals]
  }

  /** The creator of the coin, if known, or else that of the pool. */
  function CreatorOf(p: CreatePool): string { if p.coinCreator != "" then p.coinCreator else p.creator }

  predicate PooledTokenTells(row: TokenRow, before: Option<TokenRow>, event: Envelope, p: CreatePool) {
    && row.currentStage == "pool" && row.activeMarketType == Some("pumpamm_pool")
    && Takes(row.activeMarketId, p.pool, Before(before, (r: TokenRow) => r.activeMarketId))
    && Takes(row.creator, CreatorOf(p), Before(before, (r: TokenRow) => r.creator))
    && row.bondingCurve == Before(before, (r: TokenRow) => r.bondingCurve)
    && row.tokenProgram == Before(before, (r: TokenRow) => r.tokenProgram)
    && row.createEventId == Before(before, (r: TokenRow) => r.createEventId)
    && StartsAt(row.firstSeenAt, event.eventUnixTs, Before(before, (r: TokenRow) => Some(r.firstSeenAt)))
    && row.migratedAt == Before(before, (r: TokenRow) => r.migratedAt)
  }

  /** The token's metadata: its own decimals, and the pool's other mint with the decimals of that one. */
  predicate PooledMetadataTells(row: MetadataRow, before: Option<MetadataRow>, event: Envelope, mint: string,
                                p: CreatePool) {
    && mint in DecimalsOf(p) && TakesInt32(row.decimals, DecimalsOf(p)[mint])
    && (exists other | other in DecimalsOf(p) ::
          other != mint && TakesInt32(row.quoteDecimals, DecimalsOf(p)[other]) &&
          Takes(row.quoteMint, other, Before(before, (r: MetadataRow) => r.quoteMint)))
    && Takes(row.creator, CreatorOf(p), Before(before, (r: MetadataRow) => r.creator))
    && Takes(row.sourceEventId, event.eventId, Before(before, (r: MetadataRow) => r.sourceEventId))
    && row.name == Before(before, (r: MetadataRow) => r.name)
    && row.symbol == Before(before, (r: MetadataRow) => r.symbol)
    && row.uri == Before(before, (r: MetadataRow) => r.uri)
    && row.totalSupplyRaw == Before(before, (r: MetadataRow) => r.totalSupplyRaw)
    && row.bondingCurve == Before(before, (r: MetadataRow) => r.bondingCurve)
    && row.tokenProgram == Before(before, (r: MetadataRow) => r.tokenProgram)
    && row.isMayhemMode == Before(before, (r: MetadataRow) => r.isMayhemMode)
    && row.isCashbackEnabled == Before(before, (r: MetadataRow) => r.isCashbackEnabled)
  }

  /** The pool's market keeps base and quote as the pool has them, whichever of them is the token. */
  predicate PooledMarketTells(row: MarketRow, before: Option<MarketRow>, event: Envelope, mint: string,
                              p: CreatePool) {
    && row.mint == mint && row.protocol == "pumpamm" && row.marketType == "pumpamm_pool"
    && Takes(row.pool, p.pool, Before(before, (r: MarketRow) => r.pool))
    && Takes(row.baseMint, p.baseMint, Before(before, (r: MarketRow) => r.baseMint))
    && Takes(row.quoteMint, p.quoteMint, Before(before, (r: MarketRow) => r.quoteMint))
    && TakesInt32(row.baseMintDecimals, p.baseMintDecimals) && TakesInt32(row.quoteMintDecimals, p.quoteMintDecimals)
    && Takes(row.lpMint, p.lpMint, Before(before, (r: MarketRow) => r.lpMint))
    && row.bondingCurve == Before(before, (r: MarketRow) => r.bondingCurve)
    && StartsAt(row.startedAt, event.eventUnixTs, Before(before, (r: MarketRow) => Some(r.startedAt)))
    && row.endedAt == Before(before, (r: MarketRow) => r.endedAt)
    && row.createEventId == (if before.Some? then before.value.createEventId else event.eventId)
  }

  lemma {:induction false} PooledRows(db: Db, event: Envelope, p: CreatePool, mint: string)
    requires mint != "" && mint == TrackedMint(event, p.baseMint, p.quoteMint)
    ensures ProjectPumpAmmCreatePool(event, p).Ok?
    ensures
      var after := Run(db, ProjectPumpAmmCreatePool(event, p).value);
      && HasRows(after, mint, p.pool)
      && after.tokens[mint] == Upserted(Get(db.tokens, mint), TokenRowOf(PooledToken(event, mint, p)), MergeToken)
      && after.metadata[mint]
         == Upserted(Get(db.metadata, mint), TokenMetadataFromCreatePool(event.eventId, mint, p).row, MergeMetadata)
      && after.markets[p.pool]
         == Upserted(Get(db.markets, p.pool), MarketRowOf(PooledMarket(event, mint, p)), MergeMarket)
  {
    var ops := ProjectPumpAmmCreatePool(event, p).value;
    assert ops == [ops[0]] + [ops[1]] + [ops[2]] + [ops[3]];
    RunFour(db, ops[0], ops[1], ops[2], ops[3]);
  }

  lemma {:induction false} PooledTokenIs(row: TokenRow, before: Option<TokenRow>, event: Envelope, p: CreatePool,
                                          mint: string)
    requires row == Upserted(before, TokenRowOf(PooledToken(event, mint, p)), MergeToken)
    ensures PooledTokenTells(row, before, event, p)
  {
  }

  lemma {:induction false} PooledMetadataIs(row: MetadataRow, before: Option<MetadataRow>, event: Envelope,
                                            p: CreatePool, mint: string)
    requires (mint == p.baseMint || mint == p.quoteMint) && p.baseMint != p.quoteMint
    requires 0 <= p.baseMintDecimals < 0x1_0000_0000 && 0 <= p.quoteMintDecimals < 0x1_0000_0000
    requires row == Upserted(before, TokenMetadataFromCreatePool(event.eventId, mint, p).row, MergeMetadata)
    ensures PooledMetadataTells(row, before, event, mint, p)
  {
    var other := if mint == p.baseMint then p.quoteMint else p.baseMint;
    assert other in DecimalsOf(p) && other != mint;
  }

  lemma {:induction false} PooledMarketIs(row: MarketRow, before: Option<MarketRow>, event: Envelope,
                                          p: CreatePool, mint: string)
    requires 0 <= p.baseMintDecimals < 0x1_0000_0000 && 0 <= p.quoteMintDecimals < 0x1_0000_0000
    requires row == Upserted(before, MarketRowOf(PooledMarket(event, mint, p)), MergeMarket)
    ensures PooledMarketTells(row, before, event, mint, p)
  {
  }

  /** Over any database a new pool of two mints leaves token, metadata and market as told, with the decimals
   * of the very mint that is the token and of the other one, whichever side of the pool it is on. */
  lemma {:induction false} PoolCreationTells(db: Db, event: Envelope, p: CreatePool, mint: string)
    requires mint != "" && mint == TrackedMint(event, p.baseMint, p.quoteMint)
    requires OneOfTwo(event, p.baseMint, p.quoteMint)
    requires 0 <= p.baseMintDecimals < 0x1_0000_0000 && 0 <= p.quoteMintDecimals < 0x1_0000_0000
    ensures ProjectPumpAmmCreatePool(event, p).Ok?
    ensures
      var after := Run(db, ProjectPumpAmmCreatePool(event, p).value);
      && HasRows(after, mint, p.pool)
      && PooledTokenTells(after.tokens[mint], Get(db.tokens, mint), event, p)
      && PooledMetadataTells(after.metadata[mint], Get(db.metadata, mint), event, mint, p)
      && PooledMarketTells(after.markets[p.pool], Get(db.markets, p.pool), event, mint, p)
  {
    PooledRows(db, event, p, mint);
    var after := Run(db, ProjectPumpAmmCreatePool(event, p).value);
    PooledTokenIs(after.tokens[mint], Get(db.tokens, mint), event, p, mint);
    PooledMetadataIs(after.metadata[mint], Get(db.metadata, mint), event, p, mint);
    PooledMarketIs(after.markets[p.pool], Get(db.markets, p.pool), event, p, mint);
  }
}
