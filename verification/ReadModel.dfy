/** The tables of the read model and the statements the projector runs against them. */
module ReadModel {
  import opened Options
  import opened Upserts

  const SolMint := "So11111111111111111111111111111111111111112"
  const SolDecimals: int := 9

  type Text = Option<string>

  // ----- What the projector writes -----

  datatype TokenRecord = TokenRecord(
    mint: string, creator: Text, bondingCurve: Text, tokenProgram: Text, createEventId: Text,
    firstSeenAt: int, currentStage: string,
    activeMarketId: Text, activeMarketType: Text, migratedAt: Option<int>)

  datatype TokenMetadataRecord = TokenMetadataRecord(mint: string, row: MetadataRow)

  datatype TokenMarketRecord = TokenMarketRecord(
    marketId: string, mint: string, protocol: string, marketType: string,
    bondingCurve: Text, pool: Text, baseMint: Text, quoteMint: Text,
    baseMintDecimals: Option<int>, quoteMintDecimals: Option<int>, lpMint: Text,
    startedAt: int, endedAt: Option<int>, createEventId: string)

  datatype TradeColumns = TradeColumns(
    mint: string, marketId: string, marketType: string, protocol: string, side: string, ixName: string,
    userAddress: string, quoteMint: string, tokenAmountRaw: string, quoteAmountRaw: string,
    txSignature: string, slot: nat, rawEventSource: string)

  datatype TradeEventRecord = TradeEventRecord(eventId: string, eventUnixTs: int, columns: TradeColumns)

  datatype ActivityColumns = ActivityColumns(
    mint: string, protocol: string, eventType: string, activityType: string,
    marketId: Text, marketType: Text, userAddress: Text, side: Text, quoteMint: Text,
    tokenAmountRaw: Text, quoteAmountRaw: Text,
    txSignature: string, slot: nat, rawEventSource: string, details: string)

  datatype ActivityEventRecord = ActivityEventRecord(eventId: string, eventUnixTs: int, columns: ActivityColumns)

  // ----- The rows -----

  datatype TokenRow = TokenRow(
    creator: Text, bondingCurve: Text, tokenProgram: Text, createEventId: Text,
    firstSeenAt: real, currentStage: string,
    activeMarketId: Text, activeMarketType: Text, migratedAt: Option<real>)

  datatype MetadataRow = MetadataRow(
    name: Text, symbol: Text, uri: Text, decimals: Option<int>, totalSupplyRaw: Text,
    quoteMint: Text, quoteDecimals: Option<int>, creator: Text, bondingCurve: Text, tokenProgram: Text,
    isMayhemMode: Option<bool>, isCashbackEnabled: Option<bool>, sourceEventId: Text)

  datatype MarketRow = MarketRow(
    mint: string, protocol: string, marketType: string,
    bondingCurve: Text, pool: Text, baseMint: Text, quoteMint: Text,
    baseMintDecimals: Option<int>, quoteMintDecimals: Option<int>, lpMint: Text,
    startedAt: real, endedAt: Option<real>, createEventId: string)

  type TradeRow = Keyed<TradeColumns>
  type ActivityRow = Keyed<ActivityColumns>

  datatype Db = Db(
    tokens: map<string, TokenRow>,
    metadata: map<string, MetadataRow>,
    markets: map<string, MarketRow>,
    trades: seq<TradeRow>,
    activities: seq<ActivityRow>)

  const EmptyDb := Db(map[], map[], map[], [], [])

  // ----- Times -----

  const MinInt64: int := -0x8000_0000_0000_0000

  /** The magnitude as 64-bit arithmetic computes it: the least number has none. */
  function Abs64(ts: int): int {
    if ts == MinInt64 then ts else if ts < 0 then -ts else ts
  }

  /** Times come in seconds, milli-, micro- or nanoseconds, told apart by their magnitude. */
  function UnixToTimestampSeconds(ts: int): real {
    var abs := Abs64(ts);
    if abs >= 1_000_000_000_000_000_000 then ts as real / 1_000_000_000.0
    else if abs >= 1_000_000_000_000_000 then ts as real / 1_000_000.0
    else if abs >= 1_000_000_000_000 then ts as real / 1_000.0
    else ts as real
  }

  /** From September 2001 on, one instant given in seconds, milli-, micro- or nanoseconds, before or after
   * the epoch, is told apart and means the same; an earlier one in milliseconds is taken for seconds. */
  lemma {:induction false} UnitsAreToldApart(t: int)
    requires 0 < t < 1_000_000_000_000
    ensures UnixToTimestampSeconds(t) == t as real && UnixToTimestampSeconds(-t) == (-t) as real
    ensures UnixToTimestampSeconds(t * 1_000) == t as real <==> t >= 1_000_000_000
    ensures UnixToTimestampSeconds(t * 1_000_000) == t as real <==> t >= 1_000_000_000
    ensures UnixToTimestampSeconds(t * 1_000_000_000) == t as real <==> t >= 1_000_000_000
    ensures t >= 1_000_000_000 ==> UnixToTimestampSeconds(-t * 1_000) == (-t) as real
  {
  }

  function OptionalTime(ts: Option<int>): Option<real> {
    match ts
    case None => None
    case Some(t) => Some(UnixToTimestampSeconds(t))
  }

  // ----- The rows a statement offers -----

  function TokenRowOf(r: TokenRecord): TokenRow {
    TokenRow(r.creator, r.bondingCurve, r.tokenProgram, r.createEventId,
             UnixToTimestampSeconds(r.firstSeenAt), r.currentStage,
             r.activeMarketId, r.activeMarketType, OptionalTime(r.migratedAt))
  }

  function MarketRowOf(r: TokenMarketRecord): MarketRow {
    MarketRow(r.mint, r.protocol, r.marketType, r.bondingCurve, r.pool, r.baseMint, r.quoteMint,
              r.baseMintDecimals, r.quoteMintDecimals, r.lpMint,
              UnixToTimestampSeconds(r.startedAt), OptionalTime(r.endedAt), r.createEventId)
  }

  function TradeRowOf(r: TradeEventRecord): TradeRow {
    Keyed(UnixToTimestampSeconds(r.eventUnixTs), r.eventId, r.columns)
  }

  function ActivityRowOf(r: ActivityEventRecord): ActivityRow {
    Keyed(UnixToTimestampSeconds(r.eventUnixTs), r.eventId,
          if r.columns.details == "" then r.columns.(details := "{}") else r.columns)
  }

  // ----- The conflict rules -----

  function MergeToken(row: TokenRow, excluded: TokenRow): TokenRow {
    TokenRow(
      Coalesce(excluded.creator, row.creator),
      Coalesce(excluded.bondingCurve, row.bondingCurve),
      Coalesce(excluded.tokenProgram, row.tokenProgram),
      Coalesce(row.createEventId, excluded.createEventId),
      Least(row.firstSeenAt, excluded.firstSeenAt),
      excluded.currentStage,
      Coalesce(excluded.activeMarketId, row.activeMarketId),
      Coalesce(excluded.activeMarketType, row.activeMarketType),
      Coalesce(excluded.migratedAt, row.migratedAt))
  }

  function MergeMetadata(row: MetadataRow, excluded: MetadataRow): MetadataRow {
    MetadataRow(
      Coalesce(excluded.name, row.name),
      Coalesce(excluded.symbol, row.symbol),
      Coalesce(excluded.uri, row.uri),
      Coalesce(excluded.decimals, row.decimals),
      Coalesce(excluded.totalSupplyRaw, row.totalSupplyRaw),
      Coalesce(excluded.quoteMint, row.quoteMint),
      Coalesce(excluded.quoteDecimals, row.quoteDecimals),
      Coalesce(excluded.creator, row.creator),
      Coalesce(excluded.bondingCurve, row.bondingCurve),
      Coalesce(excluded.tokenProgram, row.tokenProgram),
      Coalesce(excluded.isMayhemMode, row.isMayhemMode),
      Coalesce(excluded.isCashbackEnabled, row.isCashbackEnabled),
      Coalesce(excluded.sourceEventId, row.sourceEventId))
  }

  function MergeMarket(row: MarketRow, excluded: MarketRow): MarketRow {
    MarketRow(
      excluded.mint, excluded.protocol, excluded.marketType,
      Coalesce(excluded.bondingCurve, row.bondingCurve),
      Coalesce(excluded.pool, row.pool),
      Coalesce(excluded.baseMint, row.baseMint),
      Coalesce(excluded.quoteMint, row.quoteMint),
      Coalesce(excluded.baseMintDecimals, row.baseMintDecimals),
      Coalesce(excluded.quoteMintDecimals, row.quoteMintDecimals),
      Coalesce(excluded.lpMint, row.lpMint),
      Least(row.startedAt, excluded.startedAt),
      Coalesce(excluded.endedAt, row.endedAt),
      row.createEventId)
  }

  // ----- Statements -----

  datatype Op =
    | UpsertToken(token: TokenRecord)
    | UpsertMetadata(metadata: TokenMetadataRecord)
    | UpsertMarket(market: TokenMarketRecord)
    | CloseMarket(marketId: string, endedAt: int)
    | InsertTrade(trade: TradeEventRecord)
    | InsertActivity(activity: ActivityEventRecord)

  function Upsert<K, R>(table: map<K, R>, k: K, r: R, merge: (R, R) -> R): map<K, R> {
    table[k := Upserted(Get(table, k), r, merge)]
  }

  function Apply(db: Db, op: Op): Db {
    match op
    case UpsertToken(r) => db.(tokens := Upsert(db.tokens, r.mint, TokenRowOf(r), MergeToken))
    case UpsertMetadata(r) => db.(metadata := Upsert(db.metadata, r.mint, r.row, MergeMetadata))
    case UpsertMarket(r) => db.(markets := Upsert(db.markets, r.marketId, MarketRowOf(r), MergeMarket))
    case CloseMarket(id, endedAt) =>
      if id !in db.markets then db
      else db.(markets := db.markets[id := db.markets[id].(endedAt := Some(UnixToTimestampSeconds(endedAt)))])
    case InsertTrade(r) => db.(trades := Insert(db.trades, TradeRowOf(r)))
    case InsertActivity(r) => db.(activities := Insert(db.activities, ActivityRowOf(r)))
  }

  function Run(db: Db, ops: seq<Op>): Db {
    if ops == [] then db else Apply(Run(db, ops[..|ops| - 1]), ops[|ops| - 1])
  }

  lemma {:induction false} RunConcat(db: Db, a: seq<Op>, b: seq<Op>)
    ensures Run(db, a + b) == Run(Run(db, a), b)
    decreases |b|
  {
    if b == [] {
      assert a + b == a;
    } else {
      var init := b[..|b| - 1];
      assert (a + b)[..|a + b| - 1] == a + init;
      RunConcat(db, a, init);
    }
  }

  lemma {:induction false} RunSnoc(db: Db, ops: seq<Op>, op: Op)
    ensures Run(db, ops + [op]) == Apply(Run(db, ops), op)
  {
  }

  /** The store behind the statements.  A statement either takes effect or fails and leaves the tables
   * alone; `statementsLeft` says which one fails, if any. */
  class ReadModelStore {
    var tokens: map<string, TokenRow>
    var metadata: map<string, MetadataRow>
    var markets: map<string, MarketRow>
    var trades: seq<TradeRow>
    var activities: seq<ActivityRow>
    var statementsLeft: Option<nat>

    function Contents(): Db
      reads this
    {
      Db(tokens, metadata, markets, trades, activities)
    }

    constructor ()
      ensures Contents() == EmptyDb && statementsLeft == None
    {
      tokens, metadata, markets, trades, activities := map[], map[], map[], [], [];
      statementsLeft := None;
    }

    method Exec() returns (ok: bool)
      modifies this`statementsLeft
      ensures ok <==> old(statementsLeft) != Some(0)
      ensures old(statementsLeft) == None ==> statementsLeft == None
    {
      if statementsLeft == Some(0) {
        return false;
      }
      ok := true;
      if statementsLeft.Some? {
        statementsLeft := Some(statementsLeft.value - 1);
      }
    }

    method Restore(db: Db)
      modifies this
      ensures Contents() == db && statementsLeft == old(statementsLeft)
    {
      tokens, metadata, markets, trades, activities := db.tokens, db.metadata, db.markets, db.trades, db.activities;
    }

    method WriteToken(record: TokenRecord) returns (ok: bool)
      modifies this
      ensures ok <==> old(statementsLeft) != Some(0)
      ensures old(statementsLeft) == None ==> statementsLeft == None
      ensures Contents() == if ok then Apply(old(Contents()), UpsertToken(record)) else old(Contents())
    {
      ok := Exec();
      if ok {
        tokens := Upsert(tokens, record.mint, TokenRowOf(record), MergeToken);
      }
    }

    method WriteMetadata(record: TokenMetadataRecord) returns (ok: bool)
      modifies this
      ensures ok <==> old(statementsLeft) != Some(0)
      ensures old(statementsLeft) == None ==> statementsLeft == None
      ensures Contents() == if ok then Apply(old(Contents()), UpsertMetadata(record)) else old(Contents())
    {
      ok := Exec();
      if ok {
        metadata := Upsert(metadata, record.mint, record.row, MergeMetadata);
      }
    }

    method WriteMarket(record: TokenMarketRecord) returns (ok: bool)
      modifies this
      ensures ok <==> old(statementsLeft) != Some(0)
      ensures old(statementsLeft) == None ==> statementsLeft == None
      ensures Contents() == if ok then Apply(old(Contents()), UpsertMarket(record)) else old(Contents())
    {
      ok := Exec();
      if ok {
        markets := Upsert(markets, record.marketId, MarketRowOf(record), MergeMarket);
      }
    }

    method CloseTokenMarket(marketId: string, endedAt: int) returns (ok: bool)
      modifies this
      ensures ok <==> old(statementsLeft) != Some(0)
      ensures old(statementsLeft) == None ==> statementsLeft == None
      ensures Contents() == if ok then Apply(old(Contents()), CloseMarket(marketId, endedAt)) else old(Contents())
    {
      ok := Exec();
      if ok && marketId in markets {
        markets := markets[marketId := markets[marketId].(endedAt := Some(UnixToTimestampSeconds(endedAt)))];
      }
    }

    method WriteTrade(record: TradeEventRecord) returns (ok: bool)
      modifies this
      ensures ok <==> old(statementsLeft) != Some(0)
      ensures old(statementsLeft) == None ==> statementsLeft == None
      ensures Contents() == if ok then Apply(old(Contents()), InsertTrade(record)) else old(Contents())
    {
      ok := Exec();
      if ok {
        trades := Insert(trades, TradeRowOf(record));
      }
    }

    method WriteActivity(record: ActivityEventRecord) returns (ok: bool)
      modifies this
      ensures ok <==> old(statementsLeft) != Some(0)
      ensures old(statementsLeft) == None ==> statementsLeft == None
      ensures Contents() == if ok then Apply(old(Contents()), InsertActivity(record)) else old(Contents())
    {
      ok := Exec();
      if ok {
        activities := Insert(activities, ActivityRowOf(record));
      }
    }
  }

  // ----- What the rows offered to one key make of it -----

  function TokenRows(ops: seq<Op>, mint: string): seq<TokenRow> {
    if ops == [] then []
    else
      var rest := TokenRows(ops[..|ops| - 1], mint);
      match ops[|ops| - 1]
      case UpsertToken(r) => if r.mint == mint then rest + [TokenRowOf(r)] else rest
      case _ => rest
  }

  function MetadataRows(ops: seq<Op>, mint: string): seq<MetadataRow> {
    if ops == [] then []
    else
      var rest := MetadataRows(ops[..|ops| - 1], mint);
      match ops[|ops| - 1]
      case UpsertMetadata(r) => if r.mint == mint then rest + [r.row] else rest
      case _ => rest
  }

  /** The rows offered to a market, their ending left out. */
  function MarketRows(ops: seq<Op>, id: string): seq<MarketRow> {
    if ops == [] then []
    else
      var rest := MarketRows(ops[..|ops| - 1], id);
      match ops[|ops| - 1]
      case UpsertMarket(r) => if r.marketId == id then rest + [Unended(MarketRowOf(r))] else rest
      case _ => rest
  }

  function Unended(row: MarketRow): MarketRow { row.(endedAt := None) }

  function UnendedOf(o: Option<MarketRow>): Option<MarketRow> {
    match o
    case None => None
    case Some(row) => Some(Unended(row))
  }

  function TradeRows(ops: seq<Op>): seq<TradeRow> {
    if ops == [] then []
    else
      var rest := TradeRows(ops[..|ops| - 1]);
      match ops[|ops| - 1]
      case InsertTrade(r) => rest + [TradeRowOf(r)]
      case _ => rest
  }

  function ActivityRows(ops: seq<Op>): seq<ActivityRow> {
    if ops == [] then []
    else
      var rest := ActivityRows(ops[..|ops| - 1]);
      match ops[|ops| - 1]
      case InsertActivity(r) => rest + [ActivityRowOf(r)]
      case _ => rest
  }

  lemma {:induction false} FoldSnoc<R>(o: Option<R>, rows: seq<R>, r: R, merge: (R, R) -> R)
    ensures Fold(o, rows + [r], merge) == Some(Upserted(Fold(o, rows, merge), r, merge))
  {
  }

  lemma {:induction false} InsertSnoc<R(!new)>(rows: seq<Keyed<R>>, xs: seq<Keyed<R>>, x: Keyed<R>)
    ensures InsertAll(rows, xs + [x]) == Insert(InsertAll(rows, xs), x)
  {
  }

  lemma {:induction false} TokenStep(db: Db, op: Op, mint: string)
    ensures Get(Apply(db, op).tokens, mint) ==
              if op.UpsertToken? && op.token.mint == mint
              then Some(Upserted(Get(db.tokens, mint), TokenRowOf(op.token), MergeToken)) else Get(db.tokens, mint)
  {
  }

  lemma {:induction false} TokensAreFolds(db: Db, ops: seq<Op>, mint: string)
    ensures Get(Run(db, ops).tokens, mint) == Fold(Get(db.tokens, mint), TokenRows(ops, mint), MergeToken)
  {
    if ops == [] {
    } else {
      var init, op := ops[..|ops| - 1], ops[|ops| - 1];
      TokensAreFolds(db, init, mint);
      TokenStep(Run(db, init), op, mint);
      if op.UpsertToken? {
        FoldSnoc(Get(db.tokens, mint), TokenRows(init, mint), TokenRowOf(op.token), MergeToken);
      }
    }
  }

  lemma {:induction false} MetadataStep(db: Db, op: Op, mint: string)
    ensures Get(Apply(db, op).metadata, mint) ==
              if op.UpsertMetadata? && op.metadata.mint == mint
              then Some(Upserted(Get(db.metadata, mint), op.metadata.row, MergeMetadata)) else Get(db.metadata, mint)
  {
  }

  lemma {:induction false} MetadataAreFolds(db: Db, ops: seq<Op>, mint: string)
    ensures Get(Run(db, ops).metadata, mint) == Fold(Get(db.metadata, mint), MetadataRows(ops, mint), MergeMetadata)
  {
    if ops == [] {
    } else {
      var init, op := ops[..|ops| - 1], ops[|ops| - 1];
      MetadataAreFolds(db, init, mint);
      MetadataStep(Run(db, init), op, mint);
      if op.UpsertMetadata? {
        FoldSnoc(Get(db.metadata, mint), MetadataRows(init, mint), op.metadata.row, MergeMetadata);
      }
    }
  }

  lemma {:induction false} MarketStep(db: Db, op: Op, id: string)
    ensures
      var before, after := UnendedOf(Get(db.markets, id)), UnendedOf(Get(Apply(db, op).markets, id));
      after == if op.UpsertMarket? && op.market.marketId == id
               then Some(Upserted(before, Unended(MarketRowOf(op.market)), MergeMarket)) else before
  {
  }

  lemma {:induction false} MarketsAreFolds(db: Db, ops: seq<Op>, id: string)
    ensures UnendedOf(Get(Run(db, ops).markets, id)) ==
              Fold(UnendedOf(Get(db.markets, id)), MarketRows(ops, id), MergeMarket)
  {
    if ops == [] {
    } else {
      var init, op := ops[..|ops| - 1], ops[|ops| - 1];
      MarketsAreFolds(db, init, id);
      MarketStep(Run(db, init), op, id);
      if op.UpsertMarket? {
        FoldSnoc(UnendedOf(Get(db.markets, id)), MarketRows(init, id), Unended(MarketRowOf(op.market)), MergeMarket);
      }
    }
  }

  lemma {:induction false} InsertsAreInserts(db: Db, ops: seq<Op>)
    ensures Run(db, ops).trades == InsertAll(db.trades, TradeRows(ops))
    ensures Run(db, ops).activities == InsertAll(db.activities, ActivityRows(ops))
  {
    if ops == [] {
    } else {
      var init, op := ops[..|ops| - 1], ops[|ops| - 1];
      InsertsAreInserts(db, init);
      match op
      case InsertTrade(r) => InsertSnoc(db.trades, TradeRows(init), TradeRowOf(r));
      case InsertActivity(r) => InsertSnoc(db.activities, ActivityRows(init), ActivityRowOf(r));
      case _ =>
    }
  }

  // ----- Columns -----

  lemma {:induction false} TokenBand()
    ensures Band(MergeToken)
  {
  }

  lemma {:induction false} MetadataBand()
    ensures Band(MergeMetadata)
  {
  }

  lemma {:induction false} MarketBand()
    ensures Band(MergeMarket)
  {
  }

  /** Each column of a token row, from the rows offered to it. */
  lemma {:induction false} TokenColumns(ops: seq<Op>, mint: string)
    requires TokenRows(ops, mint) != []
    ensures
      var rows := TokenRows(ops, mint);
      && mint in Run(EmptyDb, ops).tokens
      && var row := Run(EmptyDb, ops).tokens[mint];
      && IsLastSome(Column(rows, (r: TokenRow) => r.creator), row.creator)
      && IsLastSome(Column(rows, (r: TokenRow) => r.bondingCurve), row.bondingCurve)
      && IsLastSome(Column(rows, (r: TokenRow) => r.tokenProgram), row.tokenProgram)
      && IsFirstSome(Column(rows, (r: TokenRow) => r.createEventId), row.createEventId)
      && IsMin(Column(rows, (r: TokenRow) => r.firstSeenAt), row.firstSeenAt)
      && row.currentStage == rows[|rows| - 1].currentStage
      && IsLastSome(Column(rows, (r: TokenRow) => r.activeMarketId), row.activeMarketId)
      && IsLastSome(Column(rows, (r: TokenRow) => r.activeMarketType), row.activeMarketType)
      && IsLastSome(Column(rows, (r: TokenRow) => r.migratedAt), row.migratedAt)
  {
    var rows := TokenRows(ops, mint);
    TokensAreFolds(EmptyDb, ops, mint);
    LastColumn(rows, MergeToken, (r: TokenRow) => r.creator);
    LastColumn(rows, MergeToken, (r: TokenRow) => r.bondingCurve);
    LastColumn(rows, MergeToken, (r: TokenRow) => r.tokenProgram);
    FirstColumn(rows, MergeToken, (r: TokenRow) => r.createEventId);
    LeastColumn(rows, MergeToken, (r: TokenRow) => r.firstSeenAt);
    OverwrittenColumn(rows, MergeToken, (r: TokenRow) => r.currentStage);
    LastColumn(rows, MergeToken, (r: TokenRow) => r.activeMarketId);
    LastColumn(rows, MergeToken, (r: TokenRow) => r.activeMarketType);
    LastColumn(rows, MergeToken, (r: TokenRow) => r.migratedAt);
  }

  /** Each column of a metadata row. */
  lemma {:induction false} MetadataColumns(ops: seq<Op>, mint: string)
    requires MetadataRows(ops, mint) != []
    ensures
      var rows := MetadataRows(ops, mint);
      && mint in Run(EmptyDb, ops).metadata
      && var row := Run(EmptyDb, ops).metadata[mint];
      && IsLastSome(Column(rows, (r: MetadataRow) => r.name), row.name)
      && IsLastSome(Column(rows, (r: MetadataRow) => r.symbol), row.symbol)
      && IsLastSome(Column(rows, (r: MetadataRow) => r.uri), row.uri)
      && IsLastSome(Column(rows, (r: MetadataRow) => r.decimals), row.decimals)
      && IsLastSome(Column(rows, (r: MetadataRow) => r.totalSupplyRaw), row.totalSupplyRaw)
      && IsLastSome(Column(rows, (r: MetadataRow) => r.quoteMint), row.quoteMint)
      && IsLastSome(Column(rows, (r: MetadataRow) => r.quoteDecimals), row.quoteDecimals)
      && IsLastSome(Column(rows, (r: MetadataRow) => r.creator), row.creator)
      && IsLastSome(Column(rows, (r: MetadataRow) => r.bondingCurve), row.bondingCurve)
      && IsLastSome(Column(rows, (r: MetadataRow) => r.tokenProgram), row.tokenProgram)
      && IsLastSome(Column(rows, (r: MetadataRow) => r.isMayhemMode), row.isMayhemMode)
      && IsLastSome(Column(rows, (r: MetadataRow) => r.isCashbackEnabled), row.isCashbackEnabled)
      && IsLastSome(Column(rows, (r: MetadataRow) => r.sourceEventId), row.sourceEventId)
  {
    var rows := MetadataRows(ops, mint);
    MetadataAreFolds(EmptyDb, ops, mint);
    LastColumn(rows, MergeMetadata, (r: MetadataRow) => r.name);
    LastColumn(rows, MergeMetadata, (r: MetadataRow) => r.symbol);
    LastColumn(rows, MergeMetadata, (r: MetadataRow) => r.uri);
    LastColumn(rows, MergeMetadata, (r: MetadataRow) => r.decimals);
    LastColumn(rows, MergeMetadata, (r: MetadataRow) => r.totalSupplyRaw);
    LastColumn(rows, MergeMetadata, (r: MetadataRow) => r.quoteMint);
    LastColumn(rows, MergeMetadata, (r: MetadataRow) => r.quoteDecimals);
    LastColumn(rows, MergeMetadata, (r: MetadataRow) => r.creator);
    LastColumn(rows, MergeMetadata, (r: MetadataRow) => r.bondingCurve);
    LastColumn(rows, MergeMetadata, (r: MetadataRow) => r.tokenProgram);
    LastColumn(rows, MergeMetadata, (r: MetadataRow) => r.isMayhemMode);
    LastColumn(rows, MergeMetadata, (r: MetadataRow) => r.isCashbackEnabled);
    LastColumn(rows, MergeMetadata, (r: MetadataRow) => r.sourceEventId);
  }

  /** Each column of a market row but its ending. */
  lemma {:induction false} MarketColumns(ops: seq<Op>, id: string)
    requires MarketRows(ops, id) != []
    ensures
      var rows := MarketRows(ops, id);
      && id in Run(EmptyDb, ops).markets
      && var row := Run(EmptyDb, ops).markets[id];
      && row.mint == rows[|rows| - 1].mint
      && row.protocol == rows[|rows| - 1].protocol
      && row.marketType == rows[|rows| - 1].marketType
      && IsLastSome(Column(rows, (r: MarketRow) => r.bondingCurve), row.bondingCurve)
      && IsLastSome(Column(rows, (r: MarketRow) => r.pool), row.pool)
      && IsLastSome(Column(rows, (r: MarketRow) => r.baseMint), row.baseMint)
      && IsLastSome(Column(rows, (r: MarketRow) => r.quoteMint), row.quoteMint)
      && IsLastSome(Column(rows, (r: MarketRow) => r.baseMintDecimals), row.baseMintDecimals)
      && IsLastSome(Column(rows, (r: MarketRow) => r.quoteMintDecimals), row.quoteMintDecimals)
      && IsLastSome(Column(rows, (r: MarketRow) => r.lpMint), row.lpMint)
      && IsMin(Column(rows, (r: MarketRow) => r.startedAt), row.startedAt)
      && row.createEventId == rows[0].createEventId
  {
    var rows := MarketRows(ops, id);
    MarketsAreFolds(EmptyDb, ops, id);
    OverwrittenColumn(rows, MergeMarket, (r: MarketRow) => r.mint);
    OverwrittenColumn(rows, MergeMarket, (r: MarketRow) => r.protocol);
    OverwrittenColumn(rows, MergeMarket, (r: MarketRow) => r.marketType);
    LastColumn(rows, MergeMarket, (r: MarketRow) => r.bondingCurve);
    LastColumn(rows, MergeMarket, (r: MarketRow) => r.pool);
    LastColumn(rows, MergeMarket, (r: MarketRow) => r.baseMint);
    LastColumn(rows, MergeMarket, (r: MarketRow) => r.quoteMint);
    LastColumn(rows, MergeMarket, (r: MarketRow) => r.baseMintDecimals);
    LastColumn(rows, MergeMarket, (r: MarketRow) => r.quoteMintDecimals);
    LastColumn(rows, MergeMarket, (r: MarketRow) => r.lpMint);
    LeastColumn(rows, MergeMarket, (r: MarketRow) => r.startedAt);
    UntouchedColumn(rows, MergeMarket, (r: MarketRow) => r.createEventId);
  }
}
