/** Running a part of the log a second time, and running it out of order. */
module Replay {
  import opened Options
  import opened Upserts
  import opened ReadModel

  // ----- The ending of a market -----

  /** All of a market that depends on the order of closes and upserts. */
  datatype Ending = Absent | Present(endedAt: Option<real>)

  function EndingOf(o: Option<MarketRow>): Ending {
    match o
    case None => Absent
    case Some(row) => Present(row.endedAt)
  }

  predicate Makes(op: Op, id: string) { op.UpsertMarket? && op.market.marketId == id }

  /** The ending a statement writes to the market, provided it finds or makes its row. */
  function Written(op: Op, id: string): Option<real> {
    match op
    case UpsertMarket(r) => if r.marketId == id then OptionalTime(r.endedAt) else None
    case CloseMarket(m, endedAt) => if m == id then Some(UnixToTimestampSeconds(endedAt)) else None
    case _ => None
  }

  function EndingStep(e: Ending, op: Op, id: string): Ending {
    match e
    case Absent => if Makes(op, id) then Present(Written(op, id)) else Absent
    case Present(endedAt) => Present(Coalesce(Written(op, id), endedAt))
  }

  function EndingRun(e: Ending, ops: seq<Op>, id: string): Ending {
    if ops == [] then e else EndingStep(EndingRun(e, ops[..|ops| - 1], id), ops[|ops| - 1], id)
  }

  lemma {:induction false} EndingApply(db: Db, op: Op, id: string)
    ensures EndingOf(Get(Apply(db, op).markets, id)) == EndingStep(EndingOf(Get(db.markets, id)), op, id)
  {
  }

  lemma {:induction false} EndingsAreRuns(db: Db, ops: seq<Op>, id: string)
    ensures EndingOf(Get(Run(db, ops).markets, id)) == EndingRun(EndingOf(Get(db.markets, id)), ops, id)
  {
    if ops == [] {
    } else {
      EndingsAreRuns(db, ops[..|ops| - 1], id);
      EndingApply(Run(db, ops[..|ops| - 1]), ops[|ops| - 1], id);
    }
  }

  /** The last ending written to the market, whether or not a row was there. */
  function LastWritten(ops: seq<Op>, id: string): Option<real> {
    if ops == [] then None else Coalesce(Written(ops[|ops| - 1], id), LastWritten(ops[..|ops| - 1], id))
  }

  lemma {:induction false} LastWrittenIs(ops: seq<Op>, id: string)
    ensures LastWritten(ops, id) == None <==> forall i | 0 <= i < |ops| :: Written(ops[i], id) == None
  {
    if ops == [] {
    } else {
      var init := ops[..|ops| - 1];
      LastWrittenIs(init, id);
      assert forall i | 0 <= i < |init| :: init[i] == ops[i];
    }
  }

  lemma {:induction false} PresentRun(endedAt: Option<real>, ops: seq<Op>, id: string)
    ensures EndingRun(Present(endedAt), ops, id) == Present(Coalesce(LastWritten(ops, id), endedAt))
  {
    if ops == [] {
    } else {
      PresentRun(endedAt, ops[..|ops| - 1], id);
    }
  }

  /** The first statement that makes the market's row. */
  predicate MadeAt(ops: seq<Op>, id: string, i: int) {
    && 0 <= i < |ops| && Makes(ops[i], id)
    && forall j | 0 <= j < i :: !Makes(ops[j], id)
  }

  lemma {:induction false} NeverMade(ops: seq<Op>, id: string)
    requires forall i | 0 <= i < |ops| :: !Makes(ops[i], id)
    ensures EndingRun(Absent, ops, id) == Absent
  {
    if ops == [] {
    } else {
      NeverMade(ops[..|ops| - 1], id);
    }
  }

  /** From nothing, only what is written from the first upsert on takes effect. */
  lemma {:induction false} MadeRun(ops: seq<Op>, id: string, i: int)
    requires MadeAt(ops, id, i)
    ensures EndingRun(Absent, ops, id) == Present(LastWritten(ops[i..], id))
    ensures LastWritten(ops, id) == Coalesce(LastWritten(ops[i..], id), LastWritten(ops[..i], id))
  {
    var init, op := ops[..|ops| - 1], ops[|ops| - 1];
    assert ops[i..][..|ops| - 1 - i] == init[i..];
    if i < |init| {
      assert init[..i] == ops[..i];
      MadeRun(init, id, i);
    } else {
      assert ops[..i] == init && ops[i..] == [op] && [op][..0] == [];
      NeverMade(init, id);
    }
  }

  lemma {:induction false} FirstMade(ops: seq<Op>, id: string)
    requires exists i :: 0 <= i < |ops| && Makes(ops[i], id)
    ensures exists i :: MadeAt(ops, id, i)
  {
    var init := ops[..|ops| - 1];
    if exists i :: 0 <= i < |init| && Makes(init[i], id) {
      FirstMade(init, id);
      var i :| MadeAt(init, id, i);
      assert MadeAt(ops, id, i);
    } else {
      assert forall j | 0 <= j < |init| :: ops[j] == init[j];
      assert MadeAt(ops, id, |init|);
    }
  }

  /** The statements make the market's row, end the market before that, and never after. */
  predicate EndsOnlyTooEarly(ops: seq<Op>, id: string) {
    exists i | 0 <= i < |ops| ::
      && MadeAt(ops, id, i)
      && (exists j | 0 <= j < i :: Written(ops[j], id).Some?)
      && (forall j | i <= j < |ops| :: Written(ops[j], id) == None)
  }

  lemma {:induction false} TooEarlyIff(ops: seq<Op>, id: string, i: int)
    requires MadeAt(ops, id, i)
    ensures EndsOnlyTooEarly(ops, id) <==> LastWritten(ops[i..], id) == None && LastWritten(ops[..i], id).Some?
  {
    LastWrittenIs(ops[i..], id);
    LastWrittenIs(ops[..i], id);
    assert forall j | i <= j < |ops| :: ops[j] == ops[i..][j - i];
    assert forall k | 0 <= k < |ops| - i :: ops[i..][k] == ops[k + i];
  }

  /** Running the statements again changes the market's ending exactly when there was no row before
   * them and they end the market only too early. */
  lemma {:induction false} EndingTwice(e: Ending, ops: seq<Op>, id: string)
    ensures EndingRun(EndingRun(e, ops, id), ops, id) == EndingRun(e, ops, id)
       <==> !(e.Absent? && EndsOnlyTooEarly(ops, id))
  {
    if e.Present? {
      PresentRun(e.endedAt, ops, id);
      PresentRun(EndingRun(e, ops, id).endedAt, ops, id);
    } else if exists i :: 0 <= i < |ops| && Makes(ops[i], id) {
      FirstMade(ops, id);
      var i :| MadeAt(ops, id, i);
      MadeRun(ops, id, i);
      PresentRun(LastWritten(ops[i..], id), ops, id);
      TooEarlyIff(ops, id, i);
    } else {
      NeverMade(ops, id);
    }
  }

  // ----- Replaying -----

  /** The two databases agree on everything but the endings of markets. */
  ghost predicate SameButEndings(a: Db, b: Db) {
    && a.tokens == b.tokens && a.metadata == b.metadata
    && a.trades == b.trades && a.activities == b.activities
    && forall id :: UnendedOf(Get(a.markets, id)) == UnendedOf(Get(b.markets, id))
  }

  lemma {:induction false} MapsByKey<R>(a: map<string, R>, b: map<string, R>)
    requires forall k :: Get(a, k) == Get(b, k)
    ensures a == b
  {
    forall k
      ensures k in a <==> k in b
      ensures k in a ==> a[k] == b[k]
    {
      assert Get(a, k) == Get(b, k);
    }
  }

  /** Whatever the statements, running them again can only change endings. */
  lemma {:induction false} AllButEndingsTwice(db: Db, ops: seq<Op>)
    ensures SameButEndings(Run(Run(db, ops), ops), Run(db, ops))
  {
    var once := Run(db, ops);
    var twice := Run(once, ops);
    TokenBand();
    MetadataBand();
    MarketBand();
    forall mint: string
      ensures Get(twice.tokens, mint) == Get(once.tokens, mint)
    {
      TokensAreFolds(db, ops, mint);
      TokensAreFolds(once, ops, mint);
      FoldTwice(Get(db.tokens, mint), TokenRows(ops, mint), MergeToken);
    }
    MapsByKey(twice.tokens, once.tokens);
    forall mint: string
      ensures Get(twice.metadata, mint) == Get(once.metadata, mint)
    {
      MetadataAreFolds(db, ops, mint);
      MetadataAreFolds(once, ops, mint);
      FoldTwice(Get(db.metadata, mint), MetadataRows(ops, mint), MergeMetadata);
    }
    MapsByKey(twice.metadata, once.metadata);
    forall id: string
      ensures UnendedOf(Get(twice.markets, id)) == UnendedOf(Get(once.markets, id))
    {
      MarketsAreFolds(db, ops, id);
      MarketsAreFolds(once, ops, id);
      FoldTwice(UnendedOf(Get(db.markets, id)), MarketRows(ops, id), MergeMarket);
    }
    InsertsAreInserts(db, ops);
    InsertsAreInserts(once, ops);
    InsertTwice(db.trades, TradeRows(ops));
    InsertTwice(db.activities, ActivityRows(ops));
  }

  lemma {:induction false} RowFromParts(a: Option<MarketRow>, b: Option<MarketRow>)
    requires UnendedOf(a) == UnendedOf(b)
    ensures a == b <==> EndingOf(a) == EndingOf(b)
  {
  }

  /** Replaying statements over a database that has them already leaves it unchanged if and only if no
   * market that had no row before them was ended only too early. */
  lemma {:induction false} ReplayUnchangedIff(db: Db, ops: seq<Op>)
    ensures Run(Run(db, ops), ops) == Run(db, ops)
       <==> forall id: string :: !(id !in db.markets && EndsOnlyTooEarly(ops, id))
  {
    var once := Run(db, ops);
    var twice := Run(once, ops);
    AllButEndingsTwice(db, ops);
    forall id: string
      ensures Get(twice.markets, id) == Get(once.markets, id)
         <==> !(id !in db.markets && EndsOnlyTooEarly(ops, id))
    {
      EndingsAreRuns(db, ops, id);
      EndingsAreRuns(once, ops, id);
      EndingTwice(EndingOf(Get(db.markets, id)), ops, id);
      RowFromParts(Get(twice.markets, id), Get(once.markets, id));
    }
    if forall id: string :: !(id !in db.markets && EndsOnlyTooEarly(ops, id)) {
      MapsByKey(twice.markets, once.markets);
    } else {
      var id: string :| id !in db.markets && EndsOnlyTooEarly(ops, id);
      assert Get(twice.markets, id) != Get(once.markets, id);
    }
  }

  /** Every ending of a market in the log comes after a statement that makes its row. */
  predicate EndsAfterMade(ops: seq<Op>) {
    forall j | 0 <= j < |ops| && ops[j].CloseMarket? ::
      exists i | 0 <= i < j :: Makes(ops[i], ops[j].marketId)
  }

  /** A suffix of a log whose closes all come after their market's first upsert can be replayed over
   * the whole, from wherever it starts. */
  lemma {:induction false} ReplaySuffix(a: seq<Op>, b: seq<Op>)
    requires EndsAfterMade(a + b)
    ensures Run(Run(EmptyDb, a + b), b) == Run(EmptyDb, a + b)
  {
    RunConcat(EmptyDb, a, b);
    ReplayUnchangedIff(Run(EmptyDb, a), b);
    forall id: string | id !in Run(EmptyDb, a).markets
      ensures !EndsOnlyTooEarly(b, id)
    {
      if EndsOnlyTooEarly(b, id) {
        var i :| 0 <= i < |b| && MadeAt(b, id, i)
          && (exists j | 0 <= j < i :: Written(b[j], id).Some?)
          && (forall j | i <= j < |b| :: Written(b[j], id) == None);
        var j :| 0 <= j < i && Written(b[j], id).Some?;
        EarlyEndNeedsRow(a, b, id, i, j);
        assert false;
      }
    }
  }

  lemma {:induction false} EarlyEndNeedsRow(a: seq<Op>, b: seq<Op>, id: string, i: int, j: int)
    requires EndsAfterMade(a + b) && MadeAt(b, id, i) && 0 <= j < i && Written(b[j], id).Some?
    ensures id in Run(EmptyDb, a).markets
  {
    assert (a + b)[|a| + j] == b[j];
    var k :| 0 <= k < |a| + j && Makes((a + b)[k], id);
    assert forall m | 0 <= m < j :: (a + b)[|a| + m] == b[m] && !Makes(b[m], id);
    assert k < |a|;
    UpsertMakesRow(EmptyDb, a, id, k);
  }

  lemma {:induction false} MarketsStay(db: Db, op: Op, id: string)
    requires id in db.markets
    ensures id in Apply(db, op).markets
  {
  }

  lemma {:induction false} UpsertMakesRow(db: Db, ops: seq<Op>, id: string, k: nat)
    requires k < |ops| && Makes(ops[k], id)
    ensures id in Run(db, ops).markets
  {
    var init := ops[..|ops| - 1];
    if k < |init| {
      UpsertMakesRow(db, init, id, k);
      MarketsStay(Run(db, init), ops[|init|], id);
    }
  }

  // ----- Batching -----

  predicate IsState(op: Op) { !op.InsertTrade? && !op.InsertActivity? }

  function StateOps(ops: seq<Op>): seq<Op> {
    if ops == [] then []
    else
      var op := ops[|ops| - 1];
      if IsState(op) then StateOps(ops[..|ops| - 1]) + [op] else StateOps(ops[..|ops| - 1])
  }

  function TradeOps(ops: seq<Op>): seq<Op> {
    if ops == [] then []
    else
      var op := ops[|ops| - 1];
      if op.InsertTrade? then TradeOps(ops[..|ops| - 1]) + [op] else TradeOps(ops[..|ops| - 1])
  }

  function ActivityOps(ops: seq<Op>): seq<Op> {
    if ops == [] then []
    else
      var op := ops[|ops| - 1];
      if op.InsertActivity? then ActivityOps(ops[..|ops| - 1]) + [op] else ActivityOps(ops[..|ops| - 1])
  }

  /** The order in which a flushed batch writes. */
  function Batched(ops: seq<Op>): seq<Op> { StateOps(ops) + TradeOps(ops) + ActivityOps(ops) }

  lemma {:induction false} StateOpsOnly(db: Db, ops: seq<Op>)
    ensures Run(db, StateOps(ops)) == Run(db, ops).(trades := db.trades, activities := db.activities)
  {
    if ops == [] {
    } else {
      var init, op := ops[..|ops| - 1], ops[|ops| - 1];
      StateOpsOnly(db, init);
      RunSnoc(db, StateOps(init), op);
    }
  }

  lemma {:induction false} TradeOpsOnly(db: Db, start: Db, ops: seq<Op>)
    requires start.trades == db.trades
    ensures Run(start, TradeOps(ops)) == start.(trades := Run(db, ops).trades)
  {
    if ops == [] {
    } else {
      var init, op := ops[..|ops| - 1], ops[|ops| - 1];
      TradeOpsOnly(db, start, init);
      RunSnoc(start, TradeOps(init), op);
    }
  }

  lemma {:induction false} ActivityOpsOnly(db: Db, start: Db, ops: seq<Op>)
    requires start.activities == db.activities
    ensures Run(start, ActivityOps(ops)) == start.(activities := Run(db, ops).activities)
  {
    if ops == [] {
    } else {
      var init, op := ops[..|ops| - 1], ops[|ops| - 1];
      ActivityOpsOnly(db, start, init);
      RunSnoc(start, ActivityOps(init), op);
    }
  }

  /** Writing state first, then trades, then activities gives the same tables, row for row, as writing
   * every statement in the order of the events. */
  lemma {:induction false} BatchingKeepsMeaning(db: Db, ops: seq<Op>)
    ensures Run(db, Batched(ops)) == Run(db, ops)
  {
    var afterState := Run(db, StateOps(ops));
    var afterTrades := Run(afterState, TradeOps(ops));
    StateOpsOnly(db, ops);
    TradeOpsOnly(db, afterState, ops);
    ActivityOpsOnly(db, afterTrades, ops);
    RunConcat(db, StateOps(ops), TradeOps(ops));
    RunConcat(db, StateOps(ops) + TradeOps(ops), ActivityOps(ops));
  }
}
