/** The program events by the names of their fields, and the layouts they are decoded by. */
module EventRecords {
  import opened Options
  import opened FieldCodec
  import opened EventBytes

  datatype Record =
    | TradeRecord(mint: Bytes, solAmount: int, tokenAmount: int, isBuy: bool, user: Bytes, timestamp: int,
                  virtualSolReserves: int, virtualTokenReserves: int, realSolReserves: int, realTokenReserves: int,
                  feeRecipient: Bytes, feeBasisPoints: int, fee: int, creator: Bytes, creatorFeeBasisPoints: int,
                  creatorFee: int, trackVolume: bool, totalUnclaimedTokens: int, totalClaimedTokens: int,
                  currentSolVolume: int, lastUpdateTimestamp: int, ixName: Bytes, mayhemMode: bool,
                  cashbackFeeBasisPoints: int, cashback: int)
    | CreateRecord(name: Bytes, symbol: Bytes, uri: Bytes, mint: Bytes, bondingCurve: Bytes, user: Bytes,
                   creator: Bytes, timestamp: int, virtualTokenReserves: int, virtualSolReserves: int,
                   realTokenReserves: int, tokenTotalSupply: int, tokenProgram: Bytes, isMayhemMode: bool,
                   isCashbackEnabled: bool)
    | MigrateRecord(user: Bytes, mint: Bytes, mintAmount: int, solAmount: int, poolMigrationFee: int,
                    bondingCurve: Bytes, timestamp: int, pool: Bytes)
    | BuyRecord(timestamp: int, baseAmountOut: int, maxQuoteAmountIn: int, userBaseTokenReserves: int,
                userQuoteTokenReserves: int, poolBaseTokenReserves: int, poolQuoteTokenReserves: int,
                quoteAmountIn: int, lpFeeBasisPoints: int, lpFee: int, protocolFeeBasisPoints: int, protocolFee: int,
                quoteAmountInWithLpFee: int, userQuoteAmountIn: int, pool: Bytes, user: Bytes,
                userBaseTokenAccount: Bytes, userQuoteTokenAccount: Bytes, protocolFeeRecipient: Bytes,
                protocolFeeRecipientTokenAccount: Bytes, coinCreator: Bytes, coinCreatorFeeBasisPoints: int,
                coinCreatorFee: int, trackVolume: bool, totalUnclaimedTokens: int, totalClaimedTokens: int,
                currentSolVolume: int, lastUpdateTimestamp: int, minBaseAmountOut: int, ixName: Bytes,
                cashbackFeeBasisPoints: int, cashback: int)
    | SellRecord(timestamp: int, baseAmountIn: int, minQuoteAmountOut: int, userBaseTokenReserves: int,
                 userQuoteTokenReserves: int, poolBaseTokenReserves: int, poolQuoteTokenReserves: int,
                 quoteAmountOut: int, lpFeeBasisPoints: int, lpFee: int, protocolFeeBasisPoints: int,
                 protocolFee: int, quoteAmountOutWithoutLpFee: int, userQuoteAmountOut: int, pool: Bytes, user: Bytes,
                 userBaseTokenAccount: Bytes, userQuoteTokenAccount: Bytes, protocolFeeRecipient: Bytes,
                 protocolFeeRecipientTokenAccount: Bytes, coinCreator: Bytes, coinCreatorFeeBasisPoints: int,
                 coinCreatorFee: int, cashbackFeeBasisPoints: int, cashback: int)
    | CreatePoolRecord(timestamp: int, index: int, creator: Bytes, baseMint: Bytes, quoteMint: Bytes,
                       baseMintDecimals: int, quoteMintDecimals: int, baseAmountIn: int, quoteAmountIn: int,
                       poolBaseAmount: int, poolQuoteAmount: int, minimumLiquidity: int, initialLiquidity: int,
                       lpTokenAmountOut: int, poolBump: int, pool: Bytes, lpMint: Bytes, userBaseTokenAccount: Bytes,
                       userQuoteTokenAccount: Bytes, coinCreator: Bytes, isMayhemMode: bool)
    | DepositRecord(timestamp: int, lpTokenAmountOut: int, maxBaseAmountIn: int, maxQuoteAmountIn: int,
                    userBaseTokenReserves: int, userQuoteTokenReserves: int, poolBaseTokenReserves: int,
                    poolQuoteTokenReserves: int, baseAmountIn: int, quoteAmountIn: int, lpMintSupply: int,
                    pool: Bytes, user: Bytes, userBaseTokenAccount: Bytes, userQuoteTokenAccount: Bytes,
                    userPoolTokenAccount: Bytes)
    | WithdrawRecord(timestamp: int, lpTokenAmountIn: int, minBaseAmountOut: int, minQuoteAmountOut: int,
                     userBaseTokenReserves: int, userQuoteTokenReserves: int, poolBaseTokenReserves: int,
                     poolQuoteTokenReserves: int, baseAmountOut: int, quoteAmountOut: int, lpMintSupply: int,
                     pool: Bytes, user: Bytes, userBaseTokenAccount: Bytes, userQuoteTokenAccount: Bytes,
                     userPoolTokenAccount: Bytes)

  function KindOf(r: Record): Kind {
    if r.TradeRecord? then Trade
    else if r.CreateRecord? then Create
    else if r.MigrateRecord? then Migrate
    else if r.BuyRecord? then Buy
    else if r.SellRecord? then Sell
    else if r.CreatePoolRecord? then CreatePool
    else if r.DepositRecord? then Deposit
    else Withdraw
  }

  /** A value and how it is written. */
  type Column = (Field, Value)

  function OfU8(n: int): Column { (U8, Num(n)) }

  function OfU16(n: int): Column { (U16, Num(n)) }

  function OfU64(n: int): Column { (U64, Num(n)) }

  function OfI64(n: int): Column { (I64, Num(n)) }

  function OfBool(b: bool): Column { (Bool, Flag(b)) }

  function OfPubkey(key: Bytes): Column { (Pubkey, Key(key)) }

  function OfStr(text: Bytes): Column { (Str, Text(text)) }

  // ----- The fields in the order of their bytes, each with its width -----

  function TradeColumns(r: Record): seq<Column>
    requires r.TradeRecord?
  {
    [OfPubkey(r.mint), OfU64(r.solAmount), OfU64(r.tokenAmount), OfBool(r.isBuy), OfPubkey(r.user),
     OfI64(r.timestamp), OfU64(r.virtualSolReserves), OfU64(r.virtualTokenReserves), OfU64(r.realSolReserves),
     OfU64(r.realTokenReserves), OfPubkey(r.feeRecipient), OfU64(r.feeBasisPoints), OfU64(r.fee),
     OfPubkey(r.creator), OfU64(r.creatorFeeBasisPoints), OfU64(r.creatorFee), OfBool(r.trackVolume),
     OfU64(r.totalUnclaimedTokens), OfU64(r.totalClaimedTokens), OfU64(r.currentSolVolume),
     OfI64(r.lastUpdateTimestamp), OfStr(r.ixName), OfBool(r.mayhemMode), OfU64(r.cashbackFeeBasisPoints),
     OfU64(r.cashback)]
  }

  function CreateColumns(r: Record): seq<Column>
    requires r.CreateRecord?
  {
    [OfStr(r.name), OfStr(r.symbol), OfStr(r.uri), OfPubkey(r.mint), OfPubkey(r.bondingCurve), OfPubkey(r.user),
     OfPubkey(r.creator), OfI64(r.timestamp), OfU64(r.virtualTokenReserves), OfU64(r.virtualSolReserves),
     OfU64(r.realTokenReserves), OfU64(r.tokenTotalSupply), OfPubkey(r.tokenProgram), OfBool(r.isMayhemMode),
     OfBool(r.isCashbackEnabled)]
  }

  function MigrateColumns(r: Record): seq<Column>
    requires r.MigrateRecord?
  {
    [OfPubkey(r.user), OfPubkey(r.mint), OfU64(r.mintAmount), OfU64(r.solAmount), OfU64(r.poolMigrationFee),
     OfPubkey(r.bondingCurve), OfI64(r.timestamp), OfPubkey(r.pool)]
  }

  function BuyColumns(r: Record): seq<Column>
    requires r.BuyRecord?
  {
    [OfI64(r.timestamp), OfU64(r.baseAmountOut), OfU64(r.maxQuoteAmountIn), OfU64(r.userBaseTokenReserves),
     OfU64(r.userQuoteTokenReserves), OfU64(r.poolBaseTokenReserves), OfU64(r.poolQuoteTokenReserves),
     OfU64(r.quoteAmountIn), OfU64(r.lpFeeBasisPoints), OfU64(r.lpFee), OfU64(r.protocolFeeBasisPoints),
     OfU64(r.protocolFee), OfU64(r.quoteAmountInWithLpFee), OfU64(r.userQuoteAmountIn), OfPubkey(r.pool),
     OfPubkey(r.user), OfPubkey(r.userBaseTokenAccount), OfPubkey(r.userQuoteTokenAccount),
     OfPubkey(r.protocolFeeRecipient), OfPubkey(r.protocolFeeRecipientTokenAccount), OfPubkey(r.coinCreator),
     OfU64(r.coinCreatorFeeBasisPoints), OfU64(r.coinCreatorFee), OfBool(r.trackVolume),
     OfU64(r.totalUnclaimedTokens), OfU64(r.totalClaimedTokens), OfU64(r.currentSolVolume),
     OfI64(r.lastUpdateTimestamp), OfU64(r.minBaseAmountOut), OfStr(r.ixName), OfU64(r.cashbackFeeBasisPoints),
     OfU64(r.cashback)]
  }

  function SellColumns(r: Record): seq<Column>
    requires r.SellRecord?
  {
    [OfI64(r.timestamp), OfU64(r.baseAmountIn), OfU64(r.minQuoteAmountOut), OfU64(r.userBaseTokenReserves),
     OfU64(r.userQuoteTokenReserves), OfU64(r.poolBaseTokenReserves), OfU64(r.poolQuoteTokenReserves),
     OfU64(r.quoteAmountOut), OfU64(r.lpFeeBasisPoints), OfU64(r.lpFee), OfU64(r.protocolFeeBasisPoints),
     OfU64(r.protocolFee), OfU64(r.quoteAmountOutWithoutLpFee), OfU64(r.userQuoteAmountOut), OfPubkey(r.pool),
     OfPubkey(r.user), OfPubkey(r.userBaseTokenAccount), OfPubkey(r.userQuoteTokenAccount),
     OfPubkey(r.protocolFeeRecipient), OfPubkey(r.protocolFeeRecipientTokenAccount), OfPubkey(r.coinCreator),
     OfU64(r.coinCreatorFeeBasisPoints), OfU64(r.coinCreatorFee), OfU64(r.cashbackFeeBasisPoints),
     OfU64(r.cashback)]
  }

  function CreatePoolColumns(r: Record): seq<Column>
    requires r.CreatePoolRecord?
  {
    [OfI64(r.timestamp), OfU16(r.index), OfPubkey(r.creator), OfPubkey(r.baseMint), OfPubkey(r.quoteMint),
     OfU8(r.baseMintDecimals), OfU8(r.quoteMintDecimals), OfU64(r.baseAmountIn), OfU64(r.quoteAmountIn),
     OfU64(r.poolBaseAmount), OfU64(r.poolQuoteAmount), OfU64(r.minimumLiquidity), OfU64(r.initialLiquidity),
     OfU64(r.lpTokenAmountOut), OfU8(r.poolBump), OfPubkey(r.pool), OfPubkey(r.lpMint),
     OfPubkey(r.userBaseTokenAccount), OfPubkey(r.userQuoteTokenAccount), OfPubkey(r.coinCreator),
     OfBool(r.isMayhemMode)]
  }

  function DepositColumns(r: Record): seq<Column>
    requires r.DepositRecord?
  {
    [OfI64(r.timestamp), OfU64(r.lpTokenAmountOut), OfU64(r.maxBaseAmountIn), OfU64(r.maxQuoteAmountIn),
     OfU64(r.userBaseTokenReserves), OfU64(r.userQuoteTokenReserves), OfU64(r.poolBaseTokenReserves),
     OfU64(r.poolQuoteTokenReserves), OfU64(r.baseAmountIn), OfU64(r.quoteAmountIn), OfU64(r.lpMintSupply),
     OfPubkey(r.pool), OfPubkey(r.user), OfPubkey(r.userBaseTokenAccount), OfPubkey(r.userQuoteTokenAccount),
     OfPubkey(r.userPoolTokenAccount)]
  }

  function WithdrawColumns(r: Record): seq<Column>
    requires r.WithdrawRecord?
  {
    [OfI64(r.timestamp), OfU64(r.lpTokenAmountIn), OfU64(r.minBaseAmountOut), OfU64(r.minQuoteAmountOut),
     OfU64(r.userBaseTokenReserves), OfU64(r.userQuoteTokenReserves), OfU64(r.poolBaseTokenReserves),
     OfU64(r.poolQuoteTokenReserves), OfU64(r.baseAmountOut), OfU64(r.quoteAmountOut), OfU64(r.lpMintSupply),
     OfPubkey(r.pool), OfPubkey(r.user), OfPubkey(r.userBaseTokenAccount), OfPubkey(r.userQuoteTokenAccount),
     OfPubkey(r.userPoolTokenAccount)]
  }

  function Columns(r: Record): seq<Column> {
    if r.TradeRecord? then TradeColumns(r)
    else if r.CreateRecord? then CreateColumns(r)
    else if r.MigrateRecord? then MigrateColumns(r)
    else if r.BuyRecord? then BuyColumns(r)
    else if r.SellRecord? then SellColumns(r)
    else if r.CreatePoolRecord? then CreatePoolColumns(r)
    else if r.DepositRecord? then DepositColumns(r)
    else WithdrawColumns(r)
  }

  function ValuesOf(columns: seq<Column>): (values: seq<Value>)
    ensures |values| == |columns| && forall i | 0 <= i < |columns| :: values[i] == columns[i].1
  {
    seq(|columns|, i requires 0 <= i < |columns| => columns[i].1)
  }

  function WidthsOf(columns: seq<Column>): (widths: seq<Field>)
    ensures |widths| == |columns| && forall i | 0 <= i < |columns| :: widths[i] == columns[i].0
  {
    seq(|columns|, i requires 0 <= i < |columns| => columns[i].0)
  }

  function EventOf(r: Record): Event { Event(KindOf(r), ValuesOf(Columns(r))) }

  /** Every field is in the range of its width: keys have 32 bytes, and texts are UTF-8. */
  predicate RecordFits(r: Record) { forall i | 0 <= i < |Columns(r)| :: Fits(Columns(r)[i].0, Columns(r)[i].1) }

  // ----- The decoders' layouts -----

  lemma {:induction false} TradeLayout(r: Record)
    requires r.TradeRecord?
    ensures WidthsOf(TradeColumns(r)) == TradeSchema.layout
  {
  }

  lemma {:induction false} CreateLayout(r: Record)
    requires r.CreateRecord?
    ensures WidthsOf(CreateColumns(r)) == CreateSchema.layout
  {
  }

  lemma {:induction false} MigrateLayout(r: Record)
    requires r.MigrateRecord?
    ensures WidthsOf(MigrateColumns(r)) == MigrateSchema.layout
  {
  }

  lemma {:induction false} BuyLayout(r: Record)
    requires r.BuyRecord?
    ensures WidthsOf(BuyColumns(r)) == BuySchema.layout
  {
  }

  lemma {:induction false} SellLayout(r: Record)
    requires r.SellRecord?
    ensures WidthsOf(SellColumns(r)) == SellSchema.layout
  {
  }

  lemma {:induction false} CreatePoolLayout(r: Record)
    requires r.CreatePoolRecord?
    ensures WidthsOf(CreatePoolColumns(r)) == CreatePoolSchema.layout
  {
  }

  lemma {:induction false} DepositLayout(r: Record)
    requires r.DepositRecord?
    ensures WidthsOf(DepositColumns(r)) == DepositSchema.layout
  {
  }

  lemma {:induction false} WithdrawLayout(r: Record)
    requires r.WithdrawRecord?
    ensures WidthsOf(WithdrawColumns(r)) == WithdrawSchema.layout
  {
  }

  /** The place of a kind's decoder. */
  function DecoderAt(kind: Kind): nat {
    match kind
    case Trade => 0
    case Create => 1
    case Migrate => 2
    case Buy => 3
    case Sell => 4
    case CreatePool => 5
    case Deposit => 6
    case Withdraw => 7
  }

  /** The decoder of a record's kind reads the record's fields, in their order and with their widths. */
  lemma {:induction false} LayoutIsDecoders(r: Record)
    ensures DecoderAt(KindOf(r)) < |Schemas| && Schemas[DecoderAt(KindOf(r))].kind == KindOf(r)
    ensures WidthsOf(Columns(r)) == Schemas[DecoderAt(KindOf(r))].layout
  {
    if r.TradeRecord? { TradeLayout(r); }
    else if r.CreateRecord? { CreateLayout(r); }
    else if r.MigrateRecord? { MigrateLayout(r); }
    else if r.BuyRecord? { BuyLayout(r); }
    else if r.SellRecord? { SellLayout(r); }
    else if r.CreatePoolRecord? { CreatePoolLayout(r); }
    else if r.DepositRecord? { DepositLayout(r); }
    else { WithdrawLayout(r); }
  }

  // ----- The names of the kinds -----

  function Append(n: int, byte: int): int { 256 * n + byte }

  /** Eight bytes read as one number, the first byte first. */
  function Word(b: Bytes): int
    requires |b| == 8
  {
    Append(Append(Append(Append(Append(Append(Append(b[0], b[1]), b[2]), b[3]), b[4]), b[5]), b[6]), b[7])
  }

  /** The numbers that name a kind; a creation has two. */
  function NamesOf(kind: Kind): seq<int> {
    match kind
    case Trade => [0xbddb7fd34ee661ee]
    case Create => [0x1b72a94ddeeb6376, 0x5a858a2db94b072a]
    case Migrate => [0xbde95db95c94ea94]
    case Buy => [0x67f4521f2cf57777]
    case Sell => [0x3e2f370aa503dc2a]
    case CreatePool => [0xb1310cd2a076a774]
    case Deposit => [0x78f83d531f8e6b90]
    case Withdraw => [0x1609851aa02c47c0]
  }

  /** The kinds of the pool program; their decoders insist that nothing follows. */
  predicate OfPools(kind: Kind) {
    kind.Buy? || kind.Sell? || kind.CreatePool? || kind.Deposit? || kind.Withdraw?
  }

  /** Each decoder goes by its kind's names, and those of the pool program alone are strict. */
  lemma {:induction false} DecodersAreNamed(kind: Kind, i: nat)
    requires i < |NamesOf(kind)|
    ensures DecoderAt(kind) < |Schemas| && |Schemas[DecoderAt(kind)].discs| == |NamesOf(kind)|
    ensures |Schemas[DecoderAt(kind)].discs[i]| == 8 && Word(Schemas[DecoderAt(kind)].discs[i]) == NamesOf(kind)[i]
    ensures Schemas[DecoderAt(kind)].strict <==> OfPools(kind)
  {
  }
}
