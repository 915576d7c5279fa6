/** An instruction and the event it emits, by the names of the event's fields: a transaction with one of each
 * yields an entry exactly when they belong together. */
module OneEvent {
  import opened Options
  import opened FieldCodec
  import opened EventBytes
  import opened EventRecords
  import opened EventQueues
  import opened ParseView
  import opened ParseOrder

  function Ascii(s: string): Bytes { seq(|s|, i requires 0 <= i < |s| => s[i] as int % 256) }

  /** The account is missing, or it is the event's. */
  predicate MissingOr(account: Bytes, field: Bytes) { account == [] || account == field }

  predicate OpenOr(given: Option<bool>, field: bool) { given == None || given == Some(field) }

  /** The event is the one the instruction emits: its fields repeat the instruction's accounts and
   * arguments. */
  predicate Belongs(ix: Instruction, r: Record) {
    match ix
    case TradeIx(form, mint, user) =>
      && r.TradeRecord? && r.mint == mint && r.user == user
      && (match form
          case Buys => r.isBuy && r.ixName == Ascii("buy")
          case Sells => !r.isBuy && r.ixName == Ascii("sell")
          case BuysExactSolIn => r.isBuy && r.ixName == Ascii("buy_exact_sol_in"))
    case CreateIx(mint, curve, user, creator, name, symbol, uri) =>
      && r.CreateRecord? && r.mint == mint && r.bondingCurve == curve && r.user == user && r.creator == creator
      && r.name == name && r.symbol == symbol && r.uri == uri
    case CreateV2Ix(mint, curve, user, creator, name, symbol, uri, mayhem, cashback) =>
      && r.CreateRecord? && r.mint == mint && MissingOr(curve, r.bondingCurve) && MissingOr(user, r.user)
      && r.creator == creator && r.name == name && r.symbol == symbol && r.uri == uri
      && r.isMayhemMode == mayhem && OpenOr(cashback, r.isCashbackEnabled)
    case MigrateIx(mint, user, curve, pool) =>
      r.MigrateRecord? && r.mint == mint && r.user == user && r.bondingCurve == curve && r.pool == pool
    case BuyIx(pool, user, baseOut, maxQuoteIn, track) =>
      && r.BuyRecord? && r.ixName == Ascii("buy") && r.pool == pool && r.user == user
      && r.baseAmountOut == baseOut && r.maxQuoteAmountIn == maxQuoteIn && OpenOr(track, r.trackVolume)
    case BuyExactQuoteInIx(pool, user, spendableQuoteIn, minBaseOut, track) =>
      && r.BuyRecord? && r.ixName == Ascii("buy_exact_quote_in") && r.pool == pool && r.user == user
      && r.maxQuoteAmountIn == spendableQuoteIn && r.minBaseAmountOut == minBaseOut && OpenOr(track, r.trackVolume)
    case SellIx(pool, user, baseIn, minQuoteOut) =>
      && r.SellRecord? && r.pool == pool && r.user == user
      && r.baseAmountIn == baseIn && r.minQuoteAmountOut == minQuoteOut
    case CreatePoolIx(pool, creator, baseMint, quoteMint, baseIn, quoteIn, coinCreator, mayhem) =>
      && r.CreatePoolRecord? && r.pool == pool && r.creator == creator && r.baseMint == baseMint
      && r.quoteMint == quoteMint && r.baseAmountIn == baseIn && r.quoteAmountIn == quoteIn
      && r.coinCreator == coinCreator && r.isMayhemMode == mayhem
    case DepositIx(pool, user, lpOut, maxBaseIn, maxQuoteIn) =>
      && r.DepositRecord? && r.pool == pool && r.user == user && r.lpTokenAmountOut == lpOut
      && r.maxBaseAmountIn == maxBaseIn && r.maxQuoteAmountIn == maxQuoteIn
    case WithdrawIx(pool, user, lpIn, minBaseOut, minQuoteOut) =>
      && r.WithdrawRecord? && r.pool == pool && r.user == user && r.lpTokenAmountIn == lpIn
      && r.minBaseAmountOut == minBaseOut && r.minQuoteAmountOut == minQuoteOut
  }

  // ----- The fields that are matched -----

  lemma {:induction false} Names()
    ensures BuyName == Ascii("buy") && SellName == Ascii("sell")
    ensures BuyExactSolInName == Ascii("buy_exact_sol_in") && BuyExactQuoteInName == Ascii("buy_exact_quote_in")
  {
  }

  /** The event a record is can be taken by an instruction. */
  predicate Fitting(ix: Instruction, r: Record) {
    FamilyOf(KindOf(r)) == FamilyOfIx(ix) && Matches(ix, EventOf(r))
  }

  /** The fields that are matched, at their places. */
  predicate Shows(e: Event, r: Record) {
    e.kind == KindOf(r) &&
    if r.TradeRecord? then
      && FieldAt(e, 0) == Some(Key(r.mint)) && FieldAt(e, 3) == Some(Flag(r.isBuy))
      && FieldAt(e, 4) == Some(Key(r.user)) && FieldAt(e, 21) == Some(Text(r.ixName))
    else if r.CreateRecord? then
      && FieldAt(e, 0) == Some(Text(r.name)) && FieldAt(e, 1) == Some(Text(r.symbol))
      && FieldAt(e, 2) == Some(Text(r.uri)) && FieldAt(e, 3) == Some(Key(r.mint))
      && FieldAt(e, 4) == Some(Key(r.bondingCurve)) && FieldAt(e, 5) == Some(Key(r.user))
      && FieldAt(e, 6) == Some(Key(r.creator)) && FieldAt(e, 13) == Some(Flag(r.isMayhemMode))
      && FieldAt(e, 14) == Some(Flag(r.isCashbackEnabled))
    else if r.MigrateRecord? then
      && FieldAt(e, 0) == Some(Key(r.user)) && FieldAt(e, 1) == Some(Key(r.mint))
      && FieldAt(e, 5) == Some(Key(r.bondingCurve)) && FieldAt(e, 7) == Some(Key(r.pool))
    else if r.BuyRecord? then
      && FieldAt(e, 1) == Some(Num(r.baseAmountOut)) && FieldAt(e, 2) == Some(Num(r.maxQuoteAmountIn))
      && FieldAt(e, 14) == Some(Key(r.pool)) && FieldAt(e, 15) == Some(Key(r.user))
      && FieldAt(e, 23) == Some(Flag(r.trackVolume)) && FieldAt(e, 28) == Some(Num(r.minBaseAmountOut))
      && FieldAt(e, 29) == Some(Text(r.ixName))
    else if r.SellRecord? then
      && FieldAt(e, 1) == Some(Num(r.baseAmountIn)) && FieldAt(e, 2) == Some(Num(r.minQuoteAmountOut))
      && FieldAt(e, 14) == Some(Key(r.pool)) && FieldAt(e, 15) == Some(Key(r.user))
    else if r.CreatePoolRecord? then
      && FieldAt(e, 2) == Some(Key(r.creator)) && FieldAt(e, 3) == Some(Key(r.baseMint))
      && FieldAt(e, 4) == Some(Key(r.quoteMint)) && FieldAt(e, 7) == Some(Num(r.baseAmountIn))
      && FieldAt(e, 8) == Some(Num(r.quoteAmountIn)) && FieldAt(e, 15) == Some(Key(r.pool))
      && FieldAt(e, 19) == Some(Key(r.coinCreator)) && FieldAt(e, 20) == Some(Flag(r.isMayhemMode))
    else if r.DepositRecord? then
      && FieldAt(e, 1) == Some(Num(r.lpTokenAmountOut)) && FieldAt(e, 2) == Some(Num(r.maxBaseAmountIn))
      && FieldAt(e, 3) == Some(Num(r.maxQuoteAmountIn)) && FieldAt(e, 11) == Some(Key(r.pool))
      && FieldAt(e, 12) == Some(Key(r.user))
    else
      && FieldAt(e, 1) == Some(Num(r.lpTokenAmountIn)) && FieldAt(e, 2) == Some(Num(r.minBaseAmountOut))
      && FieldAt(e, 3) == Some(Num(r.minQuoteAmountOut)) && FieldAt(e, 11) == Some(Key(r.pool))
      && FieldAt(e, 12) == Some(Key(r.user))
  }

  lemma {:induction false} ColumnShows(columns: seq<Column>, e: Event, i: nat)
    requires i < |columns| && e.fields == ValuesOf(columns)
    ensures FieldAt(e, i) == Some(columns[i].1)
  {
  }

  lemma {:induction false} TradeShows(r: Record, e: Event)
    requires r.TradeRecord? && e.kind == Trade && e.fields == ValuesOf(TradeColumns(r))
    ensures Shows(e, r)
  {
  }

  lemma {:induction false} CreateShows(r: Record, e: Event)
    requires r.CreateRecord? && e.kind == Create && e.fields == ValuesOf(CreateColumns(r))
    ensures Shows(e, r)
  {
    var c := CreateColumns(r);
    ColumnShows(c, e, 0); ColumnShows(c, e, 1); ColumnShows(c, e, 2); ColumnShows(c, e, 3);
    ColumnShows(c, e, 4); ColumnShows(c, e, 5); ColumnShows(c, e, 6); ColumnShows(c, e, 13);
    ColumnShows(c, e, 14);
  }

  lemma {:induction false} MigrateShows(r: Record, e: Event)
    requires r.MigrateRecord? && e.kind == Migrate && e.fields == ValuesOf(MigrateColumns(r))
    ensures Shows(e, r)
  {
  }

  lemma {:induction false} BuyShows(r: Record, e: Event)
    requires r.BuyRecord? && e.kind == Buy && e.fields == ValuesOf(BuyColumns(r))
    ensures Shows(e, r)
  {
    var c := BuyColumns(r);
    ColumnShows(c, e, 1); ColumnShows(c, e, 2); ColumnShows(c, e, 14); ColumnShows(c, e, 15);
    ColumnShows(c, e, 23); ColumnShows(c, e, 28); ColumnShows(c, e, 29);
  }

  lemma {:induction false} SellShows(r: Record, e: Event)
    requires r.SellRecord? && e.kind == Sell && e.fields == ValuesOf(SellColumns(r))
    ensures Shows(e, r)
  {
  }

  lemma {:induction false} CreatePoolShows(r: Record, e: Event)
    requires r.CreatePoolRecord? && e.kind == CreatePool && e.fields == ValuesOf(CreatePoolColumns(r))
    ensures Shows(e, r)
  {
    var c := CreatePoolColumns(r);
    ColumnShows(c, e, 2); ColumnShows(c, e, 3); ColumnShows(c, e, 4); ColumnShows(c, e, 7);
    ColumnShows(c, e, 8); ColumnShows(c, e, 15); ColumnShows(c, e, 19); ColumnShows(c, e, 20);
  }

  lemma {:induction false} DepositShows(r: Record, e: Event)
    requires r.DepositRecord? && e.kind == Deposit && e.fields == ValuesOf(DepositColumns(r))
    ensures Shows(e, r)
  {
  }

  lemma {:induction false} WithdrawShows(r: Record, e: Event)
    requires r.WithdrawRecord? && e.kind == Withdraw && e.fields == ValuesOf(WithdrawColumns(r))
    ensures Shows(e, r)
  {
  }

  lemma {:induction false} EventShows(r: Record, e: Event)
    requires e == EventOf(r)
    ensures Shows(e, r)
  {
    if r.TradeRecord? { TradeShows(r, e); }
    else if r.CreateRecord? { CreateShows(r, e); }
    else if r.MigrateRecord? { MigrateShows(r, e); }
    else if r.BuyRecord? { BuyShows(r, e); }
    else if r.SellRecord? { SellShows(r, e); }
    else if r.CreatePoolRecord? { CreatePoolShows(r, e); }
    else if r.DepositRecord? { DepositShows(r, e); }
    else { WithdrawShows(r, e); }
  }

  lemma {:induction false} CurveMatches(ix: Instruction, e: Event, r: Record)
    requires ix.TradeIx? || ix.CreateIx? || ix.CreateV2Ix? || ix.MigrateIx?
    requires Shows(e, r) && FamilyOf(e.kind) == FamilyOfIx(ix)
    ensures Matches(ix, e) <==> Belongs(ix, r)
  {
    Names();
  }

  lemma {:induction false} PoolMatches(ix: Instruction, e: Event, r: Record)
    requires !ix.TradeIx? && !ix.CreateIx? && !ix.CreateV2Ix? && !ix.MigrateIx?
    requires Shows(e, r) && FamilyOf(e.kind) == FamilyOfIx(ix)
    ensures Matches(ix, e) <==> Belongs(ix, r)
  {
    Names();
  }

  lemma {:induction false} BelongsToFamily(ix: Instruction, r: Record)
    requires Belongs(ix, r)
    ensures FamilyOf(KindOf(r)) == FamilyOfIx(ix)
  {
  }

  /** An instruction can take the events that belong to it, and no other. */
  lemma {:induction false} TakesWhatBelongs(ix: Instruction, r: Record)
    ensures Fitting(ix, r) <==> Belongs(ix, r)
  {
    var e := EventOf(r);
    EventShows(r, e);
    MatchesIff(ix, e, r);
  }

  lemma {:induction false} MatchesIff(ix: Instruction, e: Event, r: Record)
    requires Shows(e, r)
    ensures FamilyOf(e.kind) == FamilyOfIx(ix) && Matches(ix, e) <==> Belongs(ix, r)
  {
    if FamilyOf(e.kind) != FamilyOfIx(ix) {
      if Belongs(ix, r) { BelongsToFamily(ix, r); }
    } else if ix.TradeIx? || ix.CreateIx? || ix.CreateV2Ix? || ix.MigrateIx? {
      CurveMatches(ix, e, r);
    } else {
      PoolMatches(ix, e, r);
    }
  }

  // ----- One event and one instruction -----

  lemma {:induction false} OneAndOne(origin: Origin, e: Event, invocation: Invocation)
    ensures Exec(Init, [Collect(origin, e), Process(invocation)]).parsed
         == if FamilyOf(e.kind) == invocation.family && invocation.matches(e) then [Parsed(invocation, origin, e)]
            else []
  {
    var collected := Step(Init, Collect(origin, e));
    ExecTwo(Init, Collect(origin, e), Process(invocation));
    assert QueueOf(collected.pending, FamilyOf(e.kind)) == Push(NoEvents, origin, e);
    assert Push(NoEvents, origin, e) == Queue([e], [Pending(origin, e)]);
  }

  /** The entry of an instruction at a place whose event is the record. */
  function EntryOf(source: Source, ix: Instruction, origin: Origin, record: Record): Parsed {
    Parsed(Invoking(source, ix), origin, EventOf(record))
  }

  lemma {:induction false} OneRecord(origin: Origin, record: Record, source: Source, ix: Instruction)
    ensures Exec(Init, [Collect(origin, EventOf(record)), Process(Invoking(source, ix))]).parsed
         == if Belongs(ix, record) then [EntryOf(source, ix, origin, record)] else []
  {
    OneAndOne(origin, EventOf(record), Invoking(source, ix));
    TakesWhatBelongs(ix, record);
  }

  lemma {:induction false} RecordIsCollected(record: Record, disc: Bytes)
    requires RecordFits(record) && disc in Schemas[DecoderAt(KindOf(record))].discs
    ensures |Schemas[DecoderAt(KindOf(record))].layout| == |Columns(record)|
    ensures CollectEvent(Encoded(record, disc)) == Some(EventOf(record))
  {
    LayoutIsDecoders(record);
    CollectsWhatWasEncoded(DecoderAt(KindOf(record)), disc, ValuesOf(Columns(record)));
  }

  /** The bytes of a record under one of the names of its kind. */
  function Encoded(record: Record, disc: Bytes): Bytes {
    LayoutIsDecoders(record);
    EncodeEvent(Schemas[DecoderAt(KindOf(record))], disc, ValuesOf(Columns(record)))
  }

  /** What the parser makes of a transaction. */
  function Yield(r: Reader, raw: RawView): seq<Parsed> { Exec(Init, Schedule(ViewOf(r, raw))).parsed }

  lemma {:induction false} ScheduleOfOneOuter(logs: seq<Option<Event>>, ix: Instruction)
    ensures Schedule(View(logs, [Some(ix)], [])) == LogActions(logs) + [Process(Invoking(Outer(0), ix))]
  {
    var turn := TurnsOf([Some(ix)], map[]);
    assert turn(0) == [Process(Invoking(Outer(0), ix))];
    assert Repeat(turn, 0) == [];
    assert Repeat(turn, 1) == turn(0);
  }

  lemma {:induction false} LogsOfOne(e: Event)
    ensures LogActions([Some(e)]) == [Collect(Logs, e)]
  {
    var logs := [Some(e)];
    assert logs[..0] == [] && LogEvents(logs) == [e];
    CollectsSnoc(Logs, [], e);
    assert [] + [e] == [e];
  }

  /** A log line carries the record. */
  predicate Logged(r: Reader, line: string, record: Record, disc: Bytes) {
    && RecordFits(record) && disc in Schemas[DecoderAt(KindOf(record))].discs
    && r.decode(line) == Some(Encoded(record, disc))
  }

  lemma {:induction false} LineDecodes(r: Reader, line: string, bytes: Bytes, e: Event)
    requires r.decode(line) == Some(bytes) && CollectEvent(bytes) == Some(e)
    ensures EventOfLine(r, DataPrefix + line) == Some(e)
  {
    assert (DataPrefix + line)[|DataPrefix|..] == line;
  }

  lemma {:induction false} LoggedIsFound(r: Reader, line: string, record: Record, disc: Bytes)
    requires Logged(r, line, record, disc)
    ensures EventOfLine(r, DataPrefix + line) == Some(EventOf(record))
  {
    RecordIsCollected(record, disc);
    LineDecodes(r, line, Encoded(record, disc), EventOf(record));
  }

  lemma {:induction false} LoggedView(r: Reader, line: string, x: RawIx, ix: Instruction, e: Event)
    requires EventOfLine(r, DataPrefix + line) == Some(e) && OuterOf(r, x) == Some(ix)
    ensures ViewOf(r, RawView([DataPrefix + line], [x], [])) == View([Some(e)], [Some(ix)], [])
  {
    assert Outers(r, [x]) == [Some(ix)] && Lines(r, [DataPrefix + line]) == [Some(e)];
  }

  lemma {:induction false} LoggedSchedule(e: Event, ix: Instruction)
    ensures Schedule(View([Some(e)], [Some(ix)], [])) == [Collect(Logs, e), Process(Invoking(Outer(0), ix))]
  {
    ScheduleOfOneOuter([Some(e)], ix);
    LogsOfOne(e);
    assert [Collect(Logs, e)] + [Process(Invoking(Outer(0), ix))]
        == [Collect(Logs, e), Process(Invoking(Outer(0), ix))];
  }

  /** For every form of instruction, with whatever arguments, and every record of any kind: a transaction
   * that logs the record and has the instruction yields exactly the entry of the two when they belong
   * together, and nothing otherwise. */
  lemma {:induction false} LoggedEventIsTakenIff(r: Reader, line: string, x: RawIx, ix: Instruction, record: Record,
                                                 disc: Bytes)
    requires Logged(r, line, record, disc) && OuterOf(r, x) == Some(ix)
    ensures Yield(r, RawView(["Program data: " + line], [x], []))
         == if Belongs(ix, record) then [EntryOf(Outer(0), ix, Logs, record)] else []
  {
    LoggedIsFound(r, line, record, disc);
    LoggedView(r, line, x, ix, EventOf(record));
    LoggedSchedule(EventOf(record), ix);
    OneRecord(Logs, record, Outer(0), ix);
  }

  // ----- An event among the inner instructions -----

  /** An inner instruction of ours that carries the record after eight bytes, and is nothing else. */
  predicate CarriesInside(r: Reader, raw: RawIx, tag: Bytes, record: Record, disc: Bytes) {
    && RecordFits(record) && disc in Schemas[DecoderAt(KindOf(record))].discs && |tag| == 8
    && !raw.program.OtherProgram? && r.decode(raw.data) == Some(tag + Encoded(record, disc))
    && CollectEvent(tag + Encoded(record, disc)) == None && InnerOf(r, raw).instruction == None
  }

  lemma {:induction false} CarriedInside(r: Reader, raw: RawIx, tag: Bytes, record: Record, disc: Bytes)
    requires CarriesInside(r, raw, tag, record, disc)
    ensures InnerOf(r, raw) == InnerIx([EventOf(record)], None)
  {
    RecordIsCollected(record, disc);
    CarriedEventsAreFound(r, "", raw, Encoded(record, disc), EventOf(record), tag);
  }

  /** An instruction that is an encoded record by itself yields it first; an instruction of any other program
   * yields no event and is none of the ten forms, whatever its data. */
  lemma {:induction false} WholeEventIsFound(r: Reader, raw: RawIx, record: Record, disc: Bytes)
    requires RecordFits(record) && disc in Schemas[DecoderAt(KindOf(record))].discs
    requires r.decode(raw.data) == Some(Encoded(record, disc))
    ensures !raw.program.OtherProgram? ==>
              InnerOf(r, raw).events != [] && InnerOf(r, raw).events[0] == EventOf(record)
    ensures raw.program.OtherProgram? ==> InnerOf(r, raw) == InnerIx([], None) && OuterOf(r, raw) == None
  {
    RecordIsCollected(record, disc);
  }

  lemma {:induction false} OneGroup(k: nat, group: seq<InnerIx>)
    ensures GroupsByOuter([Group(k, group)]) == map[k := group]
    ensures BoundOf([Group(k, group)], 0) == k + 1 && BoundOf([Group(0, group)], 1) == 1
  {
    var groups := [Group(k, group)];
    assert groups[..0] == [] && [Group(0, group)][..0] == [];
    assert GroupsByOuter(groups[..0]) == map[];
  }

  lemma {:induction false} OneInner(inner: InnerIx, k: nat)
    ensures ScanCollects([inner]) == Collects(InnerCpi, inner.events)
    ensures Processes(ScanInvocations([inner], k)) ==
              if inner.instruction.None? then [] else [Process(Invoking(Inner(k, 0), inner.instruction.value))]
  {
    var group := [inner];
    assert group[..0] == [] && ScanCollects(group) == [] + Collects(InnerCpi, inner.events);
    if inner.instruction.Some? {
      var invocation := Invoking(Inner(k, 0), inner.instruction.value);
      assert ScanInvocations(group, k) == [] + [invocation] == [invocation] && [invocation][..0] == [];
    }
  }

  lemma {:induction false} ScheduleWithGroup(e: Event, ix: Instruction, group: seq<InnerIx>)
    requires group == [InnerIx([e], None)]
    ensures Schedule(View([], [Some(ix)], [Group(0, group)]))
         == [Collect(InnerCpi, e), Process(Invoking(Outer(0), ix))]
  {
    OneGroup(0, group);
    OneInner(group[0], 0);
    CollectsSnoc(InnerCpi, [], e);
    assert [] + [e] == [e];
    var turn := TurnsOf([Some(ix)], map[0 := group]);
    assert turn(0) == [Collect(InnerCpi, e), Process(Invoking(Outer(0), ix))];
    assert Repeat(turn, 0) == [] && Repeat(turn, 1) == turn(0);
  }

  lemma {:induction false} ViewWithGroup(r: Reader, x: RawIx, y: RawIx, ix: Instruction, inner: InnerIx)
    requires OuterOf(r, x) == Some(ix) && InnerOf(r, y) == inner
    ensures ViewOf(r, RawView([], [x], [RawGroup(0, [y])])) == View([], [Some(ix)], [Group(0, [inner])])
  {
    assert Outers(r, [x]) == [Some(ix)] && Inners(r, [y]) == [inner];
    assert Groups(r, [RawGroup(0, [y])]) == [Group(0, [inner])];
  }

  /** The same when the record is carried by an inner instruction of the outer one: the group is searched
   * before the outer instruction looks for its event. */
  lemma {:induction false} InnerEventIsTakenIff(r: Reader, x: RawIx, y: RawIx, ix: Instruction, tag: Bytes,
                                                record: Record, disc: Bytes)
    requires CarriesInside(r, y, tag, record, disc) && OuterOf(r, x) == Some(ix)
    ensures Yield(r, RawView([], [x], [RawGroup(0, [y])]))
         == if Belongs(ix, record) then [EntryOf(Outer(0), ix, InnerCpi, record)] else []
  {
    CarriedInside(r, y, tag, record, disc);
    ViewWithGroup(r, x, y, ix, InnerIx([EventOf(record)], None));
    ScheduleWithGroup(EventOf(record), ix, [InnerIx([EventOf(record)], None)]);
    OneRecord(InnerCpi, record, Outer(0), ix);
  }

  // ----- An instruction of a group that no outer instruction claims -----

  lemma {:induction false} SilentTurns(turn: nat -> seq<Action>, n: nat)
    requires forall i | 0 <= i < n :: turn(i) == []
    ensures Repeat(turn, n) == []
  {
    if n == 0 {
    } else {
      SilentTurns(turn, n - 1);
    }
  }

  lemma {:induction false} TurnsOfUnclaimed(k: nat, group: seq<InnerIx>, ix: Instruction)
    requires group == [InnerIx([], Some(ix))]
    ensures Turns([], map[k := group], k + 1) == [Process(Invoking(Inner(k, 0), ix))]
  {
    OneInner(group[0], k);
    var turn := TurnsOf([], map[k := group]);
    assert turn(k) == [Process(Invoking(Inner(k, 0), ix))];
    SilentTurns(turn, k);
    assert Repeat(turn, k + 1) == [] + turn(k);
  }

  lemma {:induction false} ScheduleOfUnclaimed(e: Event, k: nat, group: seq<InnerIx>, ix: Instruction)
    requires group == [InnerIx([], Some(ix))]
    ensures Schedule(View([Some(e)], [], [Group(k, group)])) == [Collect(Logs, e), Process(Invoking(Inner(k, 0), ix))]
  {
    OneGroup(k, group);
    TurnsOfUnclaimed(k, group, ix);
    LogsOfOne(e);
    assert [Collect(Logs, e)] + [Process(Invoking(Inner(k, 0), ix))]
        == [Collect(Logs, e), Process(Invoking(Inner(k, 0), ix))];
  }

  lemma {:induction false} UnclaimedView(r: Reader, line: string, k: nat, x: RawIx, inner: InnerIx, e: Event)
    requires EventOfLine(r, DataPrefix + line) == Some(e) && InnerOf(r, x) == inner
    ensures ViewOf(r, RawView([DataPrefix + line], [], [RawGroup(k, [x])])) == View([Some(e)], [], [Group(k, [inner])])
  {
    assert Lines(r, [DataPrefix + line]) == [Some(e)] && Inners(r, [x]) == [inner];
    assert Groups(r, [RawGroup(k, [x])]) == [Group(k, [inner])];
  }

  /** And when the instruction is an inner one whose group no outer instruction claims, whatever its index. */
  lemma {:induction false} UnclaimedInstructionTakesIff(r: Reader, line: string, k: nat, x: RawIx, ix: Instruction,
                                                        record: Record, disc: Bytes)
    requires Logged(r, line, record, disc) && InnerOf(r, x) == InnerIx([], Some(ix))
    ensures Yield(r, RawView(["Program data: " + line], [], [RawGroup(k, [x])]))
         == if Belongs(ix, record) then [EntryOf(Inner(k, 0), ix, Logs, record)] else []
  {
    LoggedIsFound(r, line, record, disc);
    UnclaimedView(r, line, k, x, InnerIx([], Some(ix)), EventOf(record));
    ScheduleOfUnclaimed(EventOf(record), k, [InnerIx([], Some(ix))], ix);
    OneRecord(Logs, record, Inner(k, 0), ix);
  }
}
