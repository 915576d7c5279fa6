/** The parser's walk over one transaction: events are collected from the logs and from inner instructions,
 * instructions are visited in the order of execution, and each takes the event that belongs to it. */
module ParseView {
  import opened Options
  import opened FieldCodec
  import opened EventBytes
  import opened EventQueues

  // ----- Instructions and what they match -----

  datatype TradeForm = Buys | Sells | BuysExactSolIn

  /** The arguments and accounts that matching looks at; the rest of an instruction is not modelled. */
  datatype Instruction =
    | TradeIx(form: TradeForm, mint: Bytes, user: Bytes)
    | CreateIx(mint: Bytes, curve: Bytes, user: Bytes, creator: Bytes, name: Bytes, symbol: Bytes, uri: Bytes)
    | CreateV2Ix(mint: Bytes, maybeCurve: Bytes, maybeUser: Bytes, creator: Bytes,
                 name: Bytes, symbol: Bytes, uri: Bytes, mayhem: bool, cashback: Option<bool>)
    | MigrateIx(mint: Bytes, user: Bytes, curve: Bytes, pool: Bytes)
    | BuyIx(pool: Bytes, user: Bytes, baseOut: int, maxQuoteIn: int, track: Option<bool>)
    | BuyExactQuoteInIx(pool: Bytes, user: Bytes, spendableQuoteIn: int, minBaseOut: int, track: Option<bool>)
    | SellIx(pool: Bytes, user: Bytes, baseIn: int, minQuoteOut: int)
    | CreatePoolIx(pool: Bytes, creator: Bytes, baseMint: Bytes, quoteMint: Bytes, baseIn: int, quoteIn: int,
                   coinCreator: Bytes, mayhem: bool)
    | DepositIx(pool: Bytes, user: Bytes, lpOut: int, maxBaseIn: int, maxQuoteIn: int)
    | WithdrawIx(pool: Bytes, user: Bytes, lpIn: int, minBaseOut: int, minQuoteOut: int)

  datatype Family = Trades | Creates | Migrations | Swaps | Pools | Liquidities

  function FamilyOf(kind: Kind): Family {
    match kind
    case Trade => Trades
    case Create => Creates
    case Migrate => Migrations
    case Buy => Swaps
    case Sell => Swaps
    case CreatePool => Pools
    case Deposit => Liquidities
    case Withdraw => Liquidities
  }

  function FamilyOfIx(ix: Instruction): Family {
    if ix.TradeIx? then Trades
    else if ix.CreateIx? || ix.CreateV2Ix? then Creates
    else if ix.MigrateIx? then Migrations
    else if ix.BuyIx? || ix.BuyExactQuoteInIx? || ix.SellIx? then Swaps
    else if ix.CreatePoolIx? then Pools
    else Liquidities
  }

  /** The field at a position of the layout of the event's kind. */
  function FieldAt(e: Event, i: nat): Option<Value> {
    if i < |e.fields| then Some(e.fields[i]) else None
  }

  predicate Has(e: Event, i: nat, v: Value) { FieldAt(e, i) == Some(v) }

  /** "buy", "sell" and the two exact-input forms, as UTF-8. */
  const BuyName: Bytes := [98, 117, 121]
  const SellName: Bytes := [115, 101, 108, 108]
  const BuyExactSolInName: Bytes := [98, 117, 121, 95, 101, 120, 97, 99, 116, 95, 115, 111, 108, 95, 105, 110]
  const BuyExactQuoteInName: Bytes :=
    [98, 117, 121, 95, 101, 120, 97, 99, 116, 95, 113, 117, 111, 116, 101, 95, 105, 110]

  function NameOf(form: TradeForm): Bytes {
    match form
    case Buys => BuyName
    case Sells => SellName
    case BuysExactSolIn => BuyExactSolInName
  }

  predicate FitsIfPresent(actual: Bytes, e: Event, i: nat) { actual == [] || Has(e, i, Key(actual)) }

  predicate FlagIfGiven(given: Option<bool>, e: Event, i: nat) { given.Some? ==> Has(e, i, Flag(given.value)) }

  /** Positions are those of the layouts: of a trade mint, side (3), user (4) and instruction name (21); of a
   * creation name, symbol, URI, mint, curve, user and creator come first and the two flags last; of a
   * migration user, mint, curve (5) and pool (7); of a buy the base amount out, the most quote in, pool (14),
   * user (15), the volume flag (23), the least base out (28) and the instruction name (29); of a sale the base
   * amount in, the least quote out, pool and user likewise; of a new pool creator, base and quote mint (2 to
   * 4), the amounts in (7, 8), pool (15), coin creator (19) and its flag; of a deposit or withdrawal three
   * amounts, pool (11) and user (12). */
  predicate Matches(ix: Instruction, e: Event) {
    match ix
    case TradeIx(form, mint, user) =>
      && Has(e, 21, Text(NameOf(form))) && Has(e, 3, Flag(!form.Sells?)) && Has(e, 0, Key(mint)) && Has(e, 4, Key(user))
    case CreateIx(mint, curve, user, creator, name, symbol, uri) =>
      && Has(e, 3, Key(mint)) && Has(e, 4, Key(curve)) && Has(e, 5, Key(user)) && Has(e, 6, Key(creator))
      && Has(e, 0, Text(name)) && Has(e, 1, Text(symbol)) && Has(e, 2, Text(uri))
    case CreateV2Ix(mint, curve, user, creator, name, symbol, uri, mayhem, cashback) =>
      && Has(e, 3, Key(mint)) && FitsIfPresent(curve, e, 4) && FitsIfPresent(user, e, 5) && Has(e, 6, Key(creator))
      && Has(e, 0, Text(name)) && Has(e, 1, Text(symbol)) && Has(e, 2, Text(uri))
      && Has(e, 13, Flag(mayhem)) && FlagIfGiven(cashback, e, 14)
    case MigrateIx(mint, user, curve, pool) =>
      Has(e, 1, Key(mint)) && Has(e, 0, Key(user)) && Has(e, 5, Key(curve)) && Has(e, 7, Key(pool))
    case BuyIx(pool, user, baseOut, maxQuoteIn, track) =>
      && e.kind.Buy? && Has(e, 29, Text(BuyName)) && Has(e, 14, Key(pool)) && Has(e, 15, Key(user))
      && Has(e, 1, Num(baseOut)) && Has(e, 2, Num(maxQuoteIn)) && FlagIfGiven(track, e, 23)
    case BuyExactQuoteInIx(pool, user, spendableQuoteIn, minBaseOut, track) =>
      && e.kind.Buy? && Has(e, 29, Text(BuyExactQuoteInName)) && Has(e, 14, Key(pool)) && Has(e, 15, Key(user))
      && Has(e, 2, Num(spendableQuoteIn)) && Has(e, 28, Num(minBaseOut)) && FlagIfGiven(track, e, 23)
    case SellIx(pool, user, baseIn, minQuoteOut) =>
      && e.kind.Sell? && Has(e, 14, Key(pool)) && Has(e, 15, Key(user))
      && Has(e, 1, Num(baseIn)) && Has(e, 2, Num(minQuoteOut))
    case CreatePoolIx(pool, creator, baseMint, quoteMint, baseIn, quoteIn, coinCreator, mayhem) =>
      && Has(e, 15, Key(pool)) && Has(e, 2, Key(creator)) && Has(e, 3, Key(baseMint)) && Has(e, 4, Key(quoteMint))
      && Has(e, 7, Num(baseIn)) && Has(e, 8, Num(quoteIn)) && Has(e, 19, Key(coinCreator)) && Has(e, 20, Flag(mayhem))
    case DepositIx(pool, user, lpOut, maxBaseIn, maxQuoteIn) =>
      && e.kind.Deposit? && Has(e, 11, Key(pool)) && Has(e, 12, Key(user))
      && Has(e, 1, Num(lpOut)) && Has(e, 2, Num(maxBaseIn)) && Has(e, 3, Num(maxQuoteIn))
    case WithdrawIx(pool, user, lpIn, minBaseOut, minQuoteOut) =>
      && e.kind.Withdraw? && Has(e, 11, Key(pool)) && Has(e, 12, Key(user))
      && Has(e, 1, Num(lpIn)) && Has(e, 2, Num(minBaseOut)) && Has(e, 3, Num(minQuoteOut))
  }

  // ----- The transaction -----

  datatype Program = Pumpfun | PumpAmm | OtherProgram

  /** An instruction as it comes: its program, its accounts, and its data in base64. */
  datatype RawIx = RawIx(program: Program, accounts: seq<string>, data: string)

  datatype RawGroup = RawGroup(outerIndex: nat, instructions: seq<RawIx>)

  datatype RawView = RawView(logs: seq<string>, outers: seq<RawIx>, groups: seq<RawGroup>)

  /** What the walk leaves to others: decoding base64, and parsing the instructions of the two programs. */
  datatype Reader = Reader(decode: string -> Option<Bytes>, parse: (Program, seq<string>, Bytes) -> Option<Instruction>)

  /** What the parser makes of an inner instruction: the events it holds and the instruction it is. */
  datatype InnerIx = InnerIx(events: seq<Event>, instruction: Option<Instruction>)

  const DataPrefix := "Program data: "

  function EventOfLine(r: Reader, line: string): Option<Event> {
    if !(DataPrefix <= line) then None
    else
      match r.decode(line[|DataPrefix|..])
      case None => None
      case Some(bytes) => CollectEvent(bytes)
  }

  function OneOrNone(e: Option<Event>): seq<Event> { if e.None? then [] else [e.value] }

  function ParseIx(r: Reader, raw: RawIx, bytes: Bytes): Option<Instruction> {
    if raw.program.OtherProgram? then None else r.parse(raw.program, raw.accounts, bytes)
  }

  function OuterOf(r: Reader, raw: RawIx): Option<Instruction> {
    match r.decode(raw.data)
    case None => None
    case Some(bytes) => ParseIx(r, raw, bytes)
  }

  /** An instruction of ours may be an event itself, or carry one after eight bytes, or both. */
  function EventsIn(program: Program, bytes: Bytes): seq<Event> {
    if program.OtherProgram? then []
    else OneOrNone(CollectEvent(bytes)) + (if |bytes| > 8 then OneOrNone(CollectEvent(bytes[8..])) else [])
  }

  function InnerOf(r: Reader, raw: RawIx): InnerIx {
    match r.decode(raw.data)
    case None => InnerIx([], None)
    case Some(bytes) => InnerIx(EventsIn(raw.program, bytes), ParseIx(r, raw, bytes))
  }

  /** A log line that carries an event yields that event.  So does an instruction of ours that carries it
   * after eight bytes; it yields nothing else exactly when the whole is no event as well. */
  lemma {:induction false} CarriedEventsAreFound(r: Reader, text: string, raw: RawIx, bytes: Bytes, event: Event,
                                                 tag: Bytes)
    requires CollectEvent(bytes) == Some(event) && |tag| == 8 && !raw.program.OtherProgram?
    ensures r.decode(text) == Some(bytes) ==> EventOfLine(r, DataPrefix + text) == Some(event)
    ensures r.decode(raw.data) == Some(tag + bytes) ==>
              var found := InnerOf(r, raw).events;
              && found != [] && found[|found| - 1] == event
              && (found == [event] <==> CollectEvent(tag + bytes) == None)
  {
    assert (DataPrefix + text)[|DataPrefix|..] == text;
    assert |bytes| >= 8;
    assert (tag + bytes)[8..] == bytes;
  }

  datatype Group = Group(outerIndex: nat, instructions: seq<InnerIx>)

  datatype View = View(logs: seq<Option<Event>>, outers: seq<Option<Instruction>>, groups: seq<Group>)

  function Map<A, B>(f: A -> B, xs: seq<A>): (ys: seq<B>)
    ensures |ys| == |xs| && forall i | 0 <= i < |xs| :: ys[i] == f(xs[i])
  {
    seq(|xs|, i requires 0 <= i < |xs| => f(xs[i]))
  }

  function Lines(r: Reader, logs: seq<string>): seq<Option<Event>> { Map(line => EventOfLine(r, line), logs) }

  function Outers(r: Reader, outers: seq<RawIx>): seq<Option<Instruction>> { Map(raw => OuterOf(r, raw), outers) }

  function Inners(r: Reader, group: seq<RawIx>): seq<InnerIx> { Map(raw => InnerOf(r, raw), group) }

  function Groups(r: Reader, groups: seq<RawGroup>): seq<Group> {
    Map((g: RawGroup) => Group(g.outerIndex, Inners(r, g.instructions)), groups)
  }

  /** The view with everything in it decoded. */
  function ViewOf(r: Reader, raw: RawView): View {
    View(Lines(r, raw.logs), Outers(r, raw.outers), Groups(r, raw.groups))
  }

  datatype Source = Outer(outer: nat) | Inner(outer: nat, inner: nat)

  /** An instruction where it was found, with the queue it looks into and the events it takes. */
  datatype Invocation = Invocation(source: Source, instruction: Instruction, family: Family, matches: Event -> bool)

  function Invoking(source: Source, ix: Instruction): Invocation {
    Invocation(source, ix, FamilyOfIx(ix), e => Matches(ix, e))
  }

  datatype Parsed = Parsed(invocation: Invocation, origin: Origin, event: Event)

  // ----- What the walk does, as a sequence of actions -----

  datatype Action = Collect(origin: Origin, event: Event) | Process(invocation: Invocation)

  datatype PendingEvents = PendingEvents(
    trades: Queue<Event>, creates: Queue<Event>, migrations: Queue<Event>,
    swaps: Queue<Event>, pools: Queue<Event>, liquidities: Queue<Event>)

  datatype State = State(pending: PendingEvents, parsed: seq<Parsed>)

  const NoEvents: Queue<Event> := Queue([], [])
  const Init: State := State(PendingEvents(NoEvents, NoEvents, NoEvents, NoEvents, NoEvents, NoEvents), [])

  function QueueOf(p: PendingEvents, f: Family): Queue<Event> {
    match f
    case Trades => p.trades
    case Creates => p.creates
    case Migrations => p.migrations
    case Swaps => p.swaps
    case Pools => p.pools
    case Liquidities => p.liquidities
  }

  function WithQueue(p: PendingEvents, f: Family, q: Queue<Event>): (r: PendingEvents)
    ensures forall g :: QueueOf(r, g) == if g == f then q else QueueOf(p, g)
  {
    match f
    case Trades => p.(trades := q)
    case Creates => p.(creates := q)
    case Migrations => p.(migrations := q)
    case Swaps => p.(swaps := q)
    case Pools => p.(pools := q)
    case Liquidities => p.(liquidities := q)
  }

  function Step(s: State, a: Action): State {
    match a
    case Collect(origin, event) =>
      var f := FamilyOf(event.kind);
      s.(pending := WithQueue(s.pending, f, Push(QueueOf(s.pending, f), origin, event)))
    case Process(invocation) =>
      var r := Take(QueueOf(s.pending, invocation.family), invocation.matches);
      State(WithQueue(s.pending, invocation.family, r.0),
            if r.1.None? then s.parsed else s.parsed + [Parsed(invocation, r.1.value.origin, r.1.value.event)])
  }

  function Exec(s: State, acts: seq<Action>): State {
    if acts == [] then s else Step(Exec(s, acts[..|acts| - 1]), acts[|acts| - 1])
  }

  lemma {:induction false} ExecConcat(s: State, a: seq<Action>, b: seq<Action>)
    ensures Exec(s, a + b) == Exec(Exec(s, a), b)
    decreases |b|
  {
    if b == [] {
      assert a + b == a;
    } else {
      var init := b[..|b| - 1];
      assert (a + b)[..|a + b| - 1] == a + init;
      ExecConcat(s, a, init);
    }
  }

  lemma {:induction false} ExecSnoc(s: State, acts: seq<Action>, a: Action)
    ensures Exec(s, acts + [a]) == Step(Exec(s, acts), a)
  {
  }

  lemma {:induction false} CollectsSnoc(origin: Origin, events: seq<Event>, event: Event)
    ensures Collects(origin, events + [event]) == Collects(origin, events) + [Collect(origin, event)]
  {
  }

  function Collects(origin: Origin, events: seq<Event>): seq<Action> {
    if events == [] then []
    else Collects(origin, events[..|events| - 1]) + [Collect(origin, events[|events| - 1])]
  }

  function LogEvents(logs: seq<Option<Event>>): seq<Event> {
    if logs == [] then []
    else
      var line := logs[|logs| - 1];
      if line.None? then LogEvents(logs[..|logs| - 1]) else LogEvents(logs[..|logs| - 1]) + [line.value]
  }

  function LogActions(logs: seq<Option<Event>>): seq<Action> { Collects(Logs, LogEvents(logs)) }

  function ScanCollects(group: seq<InnerIx>): seq<Action> {
    if group == [] then []
    else ScanCollects(group[..|group| - 1]) + Collects(InnerCpi, group[|group| - 1].events)
  }

  function ScanInvocations(group: seq<InnerIx>, outer: nat): seq<Invocation> {
    if group == [] then []
    else
      var last := |group| - 1;
      var rest := ScanInvocations(group[..last], outer);
      if group[last].instruction.Some?
      then rest + [Invoking(Inner(outer, last), group[last].instruction.value)] else rest
  }

  function Processes(invocations: seq<Invocation>): seq<Action> {
    if invocations == [] then []
    else Processes(invocations[..|invocations| - 1]) + [Process(invocations[|invocations| - 1])]
  }

  /** The inner groups by outer index; of two groups with one index the later stays. */
  function GroupsByOuter(groups: seq<Group>): map<nat, seq<InnerIx>> {
    if groups == [] then map[]
    else
      var g := groups[|groups| - 1];
      GroupsByOuter(groups[..|groups| - 1])[g.outerIndex := g.instructions]
  }

  /** What belongs to one outer index: its group is scanned for events, then the outer instruction is
   * processed, then the inner ones. */
  function Turn(outers: seq<Option<Instruction>>, groups: map<nat, seq<InnerIx>>, i: nat): seq<Action> {
    (if i in groups then ScanCollects(groups[i]) else [])
    + (if i < |outers| && outers[i].Some? then [Process(Invoking(Outer(i), outers[i].value))] else [])
    + (if i in groups then Processes(ScanInvocations(groups[i], i)) else [])
  }

  function Turns(outers: seq<Option<Instruction>>, groups: map<nat, seq<InnerIx>>, hi: nat): seq<Action> {
    Repeat(TurnsOf(outers, groups), hi)
  }

  function TurnsOf(outers: seq<Option<Instruction>>, groups: map<nat, seq<InnerIx>>): nat -> seq<Action> {
    (i: nat) => Turn(outers, groups, i)
  }

  function Repeat(turn: nat -> seq<Action>, n: nat): seq<Action> {
    if n == 0 then [] else Repeat(turn, n - 1) + turn(n - 1)
  }

  /** Past every outer index that occurs. */
  function Bound(view: View): nat { BoundOf(view.groups, |view.outers|) }

  function BoundOf(groups: seq<Group>, atLeast: nat): (n: nat)
    ensures atLeast <= n && forall i | 0 <= i < |groups| :: groups[i].outerIndex < n
  {
    if groups == [] then atLeast
    else
      var n := BoundOf(groups[..|groups| - 1], atLeast);
      var k := groups[|groups| - 1].outerIndex;
      if k < n then n else k + 1
  }

  function Schedule(view: View): seq<Action> {
    LogActions(view.logs) + Turns(view.outers, GroupsByOuter(view.groups), Bound(view))
  }

  // ----- The parser -----

  class Parser {
    const trades: EventQueue<Event>
    const creates: EventQueue<Event>
    const migrations: EventQueue<Event>
    const swaps: EventQueue<Event>
    const pools: EventQueue<Event>
    const liquidities: EventQueue<Event>
    var parsed: seq<Parsed>
    /** All of it in one value. */
    ghost var state: State

    ghost function Queues(): set<EventQueue<Event>> {
      {trades, creates, migrations, swaps, pools, liquidities}
    }

    ghost predicate Valid()
      reads this, Queues()
    {
      && state == Contents()
      && trades !in {creates, migrations, swaps, pools, liquidities}
      && creates !in {migrations, swaps, pools, liquidities}
      && migrations !in {swaps, pools, liquidities}
      && swaps !in {pools, liquidities}
      && pools != liquidities
    }

    ghost function Contents(): State
      reads this, Queues()
    {
      State(PendingEvents(trades.Contents(), creates.Contents(), migrations.Contents(),
                          swaps.Contents(), pools.Contents(), liquidities.Contents()), parsed)
    }

    constructor ()
      ensures Valid() && fresh(Queues()) && state == Init
    {
      trades := new EventQueue();
      creates := new EventQueue();
      migrations := new EventQueue();
      swaps := new EventQueue();
      pools := new EventQueue();
      liquidities := new EventQueue();
      parsed := [];
      state := Init;
    }

    method QueueFor(f: Family) returns (q: EventQueue<Event>)
      requires Valid()
      ensures q in Queues() && q.Contents() == QueueOf(state.pending, f)
      ensures f == Trades <==> q == trades
      ensures f == Creates <==> q == creates
      ensures f == Migrations <==> q == migrations
      ensures f == Swaps <==> q == swaps
      ensures f == Pools <==> q == pools
      ensures f == Liquidities <==> q == liquidities
    {
      match f {
        case Trades => q := trades;
        case Creates => q := creates;
        case Migrations => q := migrations;
        case Swaps => q := swaps;
        case Pools => q := pools;
        case Liquidities => q := liquidities;
      }
    }

    /** An event goes to the queue of its family. */
    method CollectOne(event: Event, origin: Origin)
      requires Valid()
      modifies this, Queues()
      ensures Valid() && state == Step(old(state), Collect(origin, event))
    {
      var q := QueueFor(FamilyOf(event.kind));
      q.PushUnique(origin, event);
      state := Step(state, Collect(origin, event));
    }

    method CollectEvents(events: seq<Event>, origin: Origin)
      requires Valid()
      modifies this, Queues()
      ensures Valid() && state == Exec(old(state), Collects(origin, events))
    {
      var i := 0;
      while i < |events|
        invariant i <= |events|
        invariant Valid() && state == Exec(old(state), Collects(origin, events[..i]))
      {
        assert events[..i + 1][..i] == events[..i];
        ExecSnoc(old(state), Collects(origin, events[..i]), Collect(origin, events[i]));
        CollectOne(events[i], origin);
        i := i + 1;
      }
      assert events[..i] == events;
    }

    /** Decoding each line as it comes. */
    method CollectLogEvents(r: Reader, logs: seq<string>)
      requires Valid()
      modifies this, Queues()
      ensures Valid() && state == Exec(old(state), LogActions(Lines(r, logs)))
    {
      ghost var lines := Lines(r, logs);
      var i := 0;
      while i < |logs|
        invariant i <= |logs|
        invariant Valid() && state == Exec(old(state), LogActions(lines[..i]))
      {
        NextLine(old(state), lines, i);
        var event := EventOfLine(r, logs[i]);
        assert lines[i] == event;
        if event.Some? {
          CollectOne(event.value, Logs);
        }
        i := i + 1;
      }
      assert lines[..i] == lines;
    }

    /** Each inner instruction is decoded, searched for events and parsed. */
    method ScanInnerGroup(r: Reader, group: seq<RawIx>, outerIndex: nat) returns (invocations: seq<Invocation>)
      requires Valid()
      modifies this, Queues()
      ensures Valid() && state == Exec(old(state), ScanCollects(Inners(r, group)))
      ensures invocations == ScanInvocations(Inners(r, group), outerIndex)
    {
      ghost var inners := Inners(r, group);
      invocations := [];
      var i := 0;
      while i < |group|
        invariant i <= |group|
        invariant Valid() && state == Exec(old(state), ScanCollects(inners[..i]))
        invariant invocations == ScanInvocations(inners[..i], outerIndex)
      {
        NextInner(old(state), inners, i, outerIndex);
        var events, instruction := ReadInner(r, group[i]);
        assert inners[i] == InnerIx(events, instruction);
        CollectEvents(events, InnerCpi);
        if instruction.Some? {
          invocations := invocations + [Invoking(Inner(outerIndex, i), instruction.value)];
        }
        i := i + 1;
      }
      assert inners[..i] == inners;
    }

    method ReadInner(r: Reader, raw: RawIx) returns (events: seq<Event>, instruction: Option<Instruction>)
      ensures InnerOf(r, raw) == InnerIx(events, instruction)
    {
      events, instruction := [], None;
      var bytes := r.decode(raw.data);
      if bytes.None? {
        return;
      }
      if !raw.program.OtherProgram? {
        events := OneOrNone(CollectEvent(bytes.value));
        if |bytes.value| > 8 {
          events := events + OneOrNone(CollectEvent(bytes.value[8..]));
        }
      }
      instruction := ParseIx(r, raw, bytes.value);
    }

    method ProcessInvocation(invocation: Invocation)
      requires Valid()
      modifies this, Queues()
      ensures Valid() && state == Step(old(state), Process(invocation))
    {
      var q := QueueFor(invocation.family);
      var taken := q.RemoveFirstMatch(invocation.matches);
      if taken.Some? {
        parsed := parsed + [Parsed(invocation, taken.value.origin, taken.value.event)];
      }
      state := Step(state, Process(invocation));
    }

    method ProcessAll(invocations: seq<Invocation>)
      requires Valid()
      modifies this, Queues()
      ensures Valid() && state == Exec(old(state), Processes(invocations))
    {
      var i := 0;
      while i < |invocations|
        invariant i <= |invocations|
        invariant Valid() && state == Exec(old(state), Processes(invocations[..i]))
      {
        assert invocations[..i + 1][..i] == invocations[..i];
        ExecSnoc(old(state), Processes(invocations[..i]), Process(invocations[i]));
        ProcessInvocation(invocations[i]);
        i := i + 1;
      }
      assert invocations[..i] == invocations;
    }

    /** One outer index, with or without an outer instruction and with or without a group. */
    method TakeTurn(r: Reader, outer: Option<RawIx>, group: Option<seq<RawIx>>, i: nat,
                    ghost outers: seq<Option<Instruction>>, ghost all: map<nat, seq<InnerIx>>,
                    ghost after: nat -> State)
      requires Valid() && state == after(i) && Follows(after, outers, all)
      requires outer.Some? <==> i < |outers|
      requires outer.Some? ==> outers[i] == OuterOf(r, outer.value)
      requires group.Some? <==> i in all
      requires group.Some? ==> all[i] == Inners(r, group.value)
      modifies this, Queues()
      ensures Valid() && state == after(i + 1)
    {
      var invocation: Option<Instruction> := None;
      if outer.Some? {
        invocation := OuterOf(r, outer.value);
      }
      var inner := [];
      ghost var a, b, c: seq<Action> := [], [], [];
      if group.Some? {
        a := ScanCollects(Inners(r, group.value));
        inner := ScanInnerGroup(r, group.value, i);
      }
      if invocation.Some? {
        b := [Process(Invoking(Outer(i), invocation.value))];
        assert b == [] + b;
        ExecSnoc(state, [], b[0]);
        ProcessInvocation(Invoking(Outer(i), invocation.value));
      }
      c := Processes(inner);
      ProcessAll(inner);
      ExecConcat(after(i), a, b);
      ExecConcat(after(i), a + b, c);
      assert Turn(outers, all, i) == a + b + c;
    }

    /** The walk executes the schedule of the decoded view. */
    method ParseView(r: Reader, raw: RawView) returns (events: seq<Parsed>)
      requires Valid() && state == Init
      modifies this, Queues()
      ensures events == Exec(Init, Schedule(ViewOf(r, raw))).parsed
    {
      ghost var view := ViewOf(r, raw);
      CollectLogEvents(r, raw.logs);
      var byOuter := CollectGroups(r, raw.groups);
      ghost var all := GroupsByOuter(view.groups);
      ghost var after := AfterTurns(state, view.outers, all);
      AfterTurnsFollows(state, view.outers, all);
      var left := VisitOuters(r, raw.outers, byOuter, all, after);
      GroupsBounded(view.groups, |view.outers|);
      DrainGroups(r, left, view.outers, all, Bound(view), after);
      ExecConcat(Init, LogActions(view.logs), Turns(view.outers, all, Bound(view)));
      events := parsed;
    }

    method CollectGroups(r: Reader, groups: seq<RawGroup>) returns (byOuter: map<nat, seq<RawIx>>)
      ensures Decoded(r, byOuter) == GroupsByOuter(Groups(r, groups))
    {
      ghost var decoded := Groups(r, groups);
      byOuter := map[];
      var i := 0;
      while i < |groups|
        invariant i <= |groups| && Decoded(r, byOuter) == GroupsByOuter(decoded[..i])
      {
        assert decoded[..i + 1][..i] == decoded[..i];
        ghost var before := byOuter;
        byOuter := byOuter[groups[i].outerIndex := groups[i].instructions];
        assert decoded[i] == Group(groups[i].outerIndex, Inners(r, groups[i].instructions));
        assert Decoded(r, byOuter) == Decoded(r, before)[groups[i].outerIndex := Inners(r, groups[i].instructions)];
        i := i + 1;
      }
      assert decoded[..i] == decoded;
    }

    /** Every outer instruction in turn, each with the group of its index, which is then gone. */
    method VisitOuters(r: Reader, raw: seq<RawIx>, groups: map<nat, seq<RawIx>>,
                       ghost all: map<nat, seq<InnerIx>>, ghost after: nat -> State)
      returns (left: map<nat, seq<RawIx>>)
      requires Valid() && state == after(0) && Follows(after, Outers(r, raw), all) && all == Decoded(r, groups)
      modifies this, Queues()
      ensures Valid() && state == after(|raw|) && Rest(Decoded(r, left), all, |raw|)
    {
      left := groups;
      var i := 0;
      while i < |raw|
        invariant i <= |raw| && Rest(Decoded(r, left), all, i)
        invariant Valid() && state == after(i)
      {
        var group := if i in left then Some(left[i]) else None;
        RestAfter(Decoded(r, left), all, i);
        DecodedWithout(r, left, i);
        left := left - {i};
        TakeTurn(r, Some(raw[i]), group, i, Outers(r, raw), all, after);
        i := i + 1;
      }
    }

    /** The groups no outer instruction claimed, in ascending order of their index. */
    method DrainGroups(r: Reader, groups: map<nat, seq<RawIx>>, ghost outers: seq<Option<Instruction>>,
                       ghost all: map<nat, seq<InnerIx>>, ghost bound: nat, ghost after: nat -> State)
      requires Valid() && state == after(|outers|) && Follows(after, outers, all)
      requires |outers| <= bound && Rest(Decoded(r, groups), all, |outers|)
      requires forall k | k in all :: k < bound
      modifies this, Queues()
      ensures Valid() && state == after(bound)
    {
      var left := groups;
      ghost var at := |outers|;
      while left != map[]
        invariant |outers| <= at <= bound && Rest(Decoded(r, left), all, at)
        invariant Valid() && state == after(at)
        decreases |left|
      {
        left, at := DrainLeast(r, left, outers, all, at, after);
      }
      assert forall k | k in all && k >= at :: k in Decoded(r, left);
      AfterGap(after, outers, all, at, bound);
    }

    method DrainLeast(r: Reader, groups: map<nat, seq<RawIx>>, ghost outers: seq<Option<Instruction>>,
                      ghost all: map<nat, seq<InnerIx>>, ghost at: nat, ghost after: nat -> State)
      returns (left: map<nat, seq<RawIx>>, ghost next: nat)
      requires Valid() && state == after(at) && Follows(after, outers, all)
      requires |outers| <= at && Rest(Decoded(r, groups), all, at) && groups != map[]
      modifies this, Queues()
      ensures |left| < |groups| && next > at && next - 1 in all
      ensures Valid() && state == after(next) && Rest(Decoded(r, left), all, next)
    {
      LeastKey(groups.Keys);
      var k :| k in groups && IsLeast(groups.Keys, k);
      TakeLeast(r, groups, all, at, k);
      AfterGap(after, outers, all, at, k);
      TakeTurn(r, None, Some(groups[k]), k, outers, all, after);
      left, next := groups - {k}, k + 1;
    }
  }

  function Decoded(r: Reader, groups: map<nat, seq<RawIx>>): (all: map<nat, seq<InnerIx>>)
    ensures all.Keys == groups.Keys && forall k | k in groups :: all[k] == Inners(r, groups[k])
  {
    map k | k in groups :: Inners(r, groups[k])
  }

  lemma {:induction false} DecodedWithout(r: Reader, groups: map<nat, seq<RawIx>>, k: nat)
    ensures Decoded(r, groups - {k}) == Decoded(r, groups) - {k}
  {
  }

  /** The state after each outer index is the state before it, run through its turn. */
  ghost predicate Follows(after: nat -> State, outers: seq<Option<Instruction>>, all: map<nat, seq<InnerIx>>) {
    forall j: nat {:trigger Turn(outers, all, j)} :: after(j + 1) == Exec(after(j), Turn(outers, all, j))
  }

  ghost function AfterTurns(s: State, outers: seq<Option<Instruction>>, all: map<nat, seq<InnerIx>>): nat -> State {
    (n: nat) => Exec(s, Turns(outers, all, n))
  }

  lemma {:induction false} AfterTurnsFollows(s: State, outers: seq<Option<Instruction>>, all: map<nat, seq<InnerIx>>)
    ensures Follows(AfterTurns(s, outers, all), outers, all)
    ensures AfterTurns(s, outers, all)(0) == s
  {
    forall j: nat {:trigger Turn(outers, all, j)}
      ensures AfterTurns(s, outers, all)(j + 1) == Exec(AfterTurns(s, outers, all)(j), Turn(outers, all, j))
    {
      ExecConcat(s, Turns(outers, all, j), Turn(outers, all, j));
    }
  }

  lemma {:induction false} AfterGap(after: nat -> State, outers: seq<Option<Instruction>>, all: map<nat, seq<InnerIx>>,
                                    lo: nat, hi: nat)
    requires Follows(after, outers, all) && |outers| <= lo <= hi
    requires forall k | lo <= k < hi :: k !in all
    ensures after(lo) == after(hi)
    decreases hi
  {
    if lo >= hi {
    } else {
      AfterGap(after, outers, all, lo, hi - 1);
      assert Turn(outers, all, hi - 1) == [];
    }
  }

  lemma {:induction false} NextLine(s: State, logs: seq<Option<Event>>, i: nat)
    requires i < |logs|
    ensures Exec(s, LogActions(logs[..i + 1])) ==
              if logs[i].None? then Exec(s, LogActions(logs[..i]))
              else Step(Exec(s, LogActions(logs[..i])), Collect(Logs, logs[i].value))
  {
    assert logs[..i + 1][..i] == logs[..i];
    if logs[i].Some? {
      CollectsSnoc(Logs, LogEvents(logs[..i]), logs[i].value);
      ExecSnoc(s, LogActions(logs[..i]), Collect(Logs, logs[i].value));
    }
  }

  lemma {:induction false} NextInner(s: State, group: seq<InnerIx>, i: nat, outer: nat)
    requires i < |group|
    ensures Exec(s, ScanCollects(group[..i + 1])) ==
              Exec(Exec(s, ScanCollects(group[..i])), Collects(InnerCpi, group[i].events))
    ensures ScanInvocations(group[..i + 1], outer) ==
              if group[i].instruction.None? then ScanInvocations(group[..i], outer)
              else ScanInvocations(group[..i], outer) + [Invoking(Inner(outer, i), group[i].instruction.value)]
  {
    assert group[..i + 1][..i] == group[..i];
    ExecConcat(s, ScanCollects(group[..i]), Collects(InnerCpi, group[i].events));
  }

  /** What is left of the groups from an outer index on. */
  ghost predicate Rest(left: map<nat, seq<InnerIx>>, all: map<nat, seq<InnerIx>>, from: nat) {
    && (forall k | k in left :: k in all && k >= from && left[k] == all[k])
    && (forall k | k in all && k >= from :: k in left)
  }

  /** Nothing lies between where the groups were drained to and the least that is left. */
  lemma {:induction false} SkipTo(left: map<nat, seq<InnerIx>>, all: map<nat, seq<InnerIx>>, at: nat, k: nat)
    requires Rest(left, all, at) && IsLeast(left.Keys, k)
    ensures at <= k && k in all && left[k] == all[k] && Rest(left - {k}, all, k + 1)
    ensures forall j | at <= j < k :: j !in all
  {
  }

  lemma {:induction false} TakeLeast(r: Reader, groups: map<nat, seq<RawIx>>, all: map<nat, seq<InnerIx>>, at: nat,
                                     k: nat)
    requires Rest(Decoded(r, groups), all, at) && IsLeast(groups.Keys, k)
    ensures at <= k && k in all && all[k] == Inners(r, groups[k])
    ensures Rest(Decoded(r, groups - {k}), all, k + 1) && |groups - {k}| < |groups|
    ensures forall j | at <= j < k :: j !in all
  {
    SkipTo(Decoded(r, groups), all, at, k);
    DecodedWithout(r, groups, k);
    assert groups.Keys == (groups - {k}).Keys + {k};
  }

  lemma {:induction false} RestAfter(left: map<nat, seq<InnerIx>>, all: map<nat, seq<InnerIx>>, i: nat)
    requires Rest(left, all, i)
    ensures Rest(left - {i}, all, i + 1)
    ensures i in left <==> i in all
    ensures i in all ==> left[i] == all[i]
  {
  }

  lemma {:induction false} GroupsBounded(groups: seq<Group>, atLeast: nat)
    ensures forall k | k in GroupsByOuter(groups) :: k < BoundOf(groups, atLeast)
  {
    if groups == [] {
    } else {
      GroupsBounded(groups[..|groups| - 1], atLeast);
    }
  }

  predicate IsLeast(keys: set<nat>, k: nat) {
    k in keys && forall j | j in keys :: k <= j
  }

  lemma {:induction false} LeastKey(keys: set<nat>)
    requires keys != {}
    ensures exists k :: IsLeast(keys, k)
    decreases |keys|
  {
    var x :| x in keys;
    var rest := keys - {x};
    if rest == {} {
      assert keys == {x};
      assert IsLeast(keys, x);
    } else {
      LeastKey(rest);
      var k :| IsLeast(rest, k);
      assert keys == rest + {x};
      assert IsLeast(keys, if x <= k then x else k);
    }
  }
}
