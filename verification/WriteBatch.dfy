/** The batch that collects the projector's statements and writes them grouped by table. */
module WriteBatch {
  import opened Options
  import opened ReadModel
  import opened Replay

  function Trades(trades: seq<TradeEventRecord>): seq<Op> {
    if trades == [] then [] else Trades(trades[..|trades| - 1]) + [InsertTrade(trades[|trades| - 1])]
  }

  function Activities(activities: seq<ActivityEventRecord>): seq<Op> {
    if activities == [] then []
    else Activities(activities[..|activities| - 1]) + [InsertActivity(activities[|activities| - 1])]
  }

  class Batch {
    const store: ReadModelStore
    var stateOps: seq<Op>
    var trades: seq<TradeEventRecord>
    var activities: seq<ActivityEventRecord>
    /** Everything written to the batch, in the order of the calls. */
    ghost var written: seq<Op>

    ghost predicate Valid()
      reads this
    {
      && stateOps == StateOps(written)
      && Trades(trades) == TradeOps(written)
      && Activities(activities) == ActivityOps(written)
      && forall i | 0 <= i < |stateOps| :: IsState(stateOps[i])
    }

    constructor (store: ReadModelStore)
      ensures Valid() && this.store == store && written == []
    {
      this.store := store;
      stateOps, trades, activities, written := [], [], [], [];
    }

    /** The four statements on rows that are updated in place. */
    method WriteState(op: Op)
      requires Valid() && IsState(op)
      modifies this
      ensures Valid() && written == old(written) + [op]
    {
      stateOps := stateOps + [op];
      written := written + [op];
      assert written[..|written| - 1] == old(written);
    }

    method WriteTrade(trade: TradeEventRecord)
      requires Valid()
      modifies this
      ensures Valid() && written == old(written) + [InsertTrade(trade)]
    {
      trades := trades + [trade];
      written := written + [InsertTrade(trade)];
      assert written[..|written| - 1] == old(written) && trades[..|trades| - 1] == old(trades);
    }

    method WriteActivity(activity: ActivityEventRecord)
      requires Valid()
      modifies this
      ensures Valid() && written == old(written) + [InsertActivity(activity)]
    {
      activities := activities + [activity];
      written := written + [InsertActivity(activity)];
      assert written[..|written| - 1] == old(written) && activities[..|activities| - 1] == old(activities);
    }

    /** Flushing has the effect of writing every statement directly, in the order of the calls. */
    method Flush() returns (ok: bool)
      requires Valid()
      modifies store
      ensures ok ==> store.Contents() == Run(old(store.Contents()), written)
      ensures old(store.statementsLeft) == None ==> ok && store.statementsLeft == None
    {
      ghost var before := store.Contents();
      ok := FlushState();
      if !ok { return; }
      ghost var afterState := store.Contents();
      ok := FlushTrades();
      if !ok { return; }
      ok := FlushActivities();
      if !ok { return; }
      RunConcat(before, StateOps(written), TradeOps(written));
      RunConcat(before, StateOps(written) + TradeOps(written), ActivityOps(written));
      BatchingKeepsMeaning(before, written);
    }

    method FlushState() returns (ok: bool)
      requires Valid()
      modifies store
      ensures ok ==> store.Contents() == Run(old(store.Contents()), stateOps)
      ensures old(store.statementsLeft) == None ==> ok && store.statementsLeft == None
    {
      ok := true;
      var i := 0;
      while i < |stateOps|
        invariant i <= |stateOps|
        invariant store.Contents() == Run(old(store.Contents()), stateOps[..i])
        invariant old(store.statementsLeft) == None ==> store.statementsLeft == None
      {
        RunSnoc(old(store.Contents()), stateOps[..i], stateOps[i]);
        assert stateOps[..i + 1] == stateOps[..i] + [stateOps[i]];
        ok := Exec(stateOps[i]);
        if !ok { return; }
        i := i + 1;
      }
      assert stateOps[..i] == stateOps;
    }

    method Exec(op: Op) returns (ok: bool)
      requires IsState(op)
      modifies store
      ensures ok ==> store.Contents() == Apply(old(store.Contents()), op)
      ensures old(store.statementsLeft) == None ==> ok && store.statementsLeft == None
    {
      match op {
        case UpsertToken(record) => ok := store.WriteToken(record);
        case UpsertMetadata(record) => ok := store.WriteMetadata(record);
        case UpsertMarket(record) => ok := store.WriteMarket(record);
        case CloseMarket(marketId, endedAt) => ok := store.CloseTokenMarket(marketId, endedAt);
      }
    }

    method FlushTrades() returns (ok: bool)
      modifies store
      ensures ok ==> store.Contents() == Run(old(store.Contents()), Trades(trades))
      ensures old(store.statementsLeft) == None ==> ok && store.statementsLeft == None
    {
      ok := true;
      var i := 0;
      while i < |trades|
        invariant i <= |trades|
        invariant store.Contents() == Run(old(store.Contents()), Trades(trades[..i]))
        invariant old(store.statementsLeft) == None ==> store.statementsLeft == None
      {
        assert trades[..i + 1][..i] == trades[..i];
        RunSnoc(old(store.Contents()), Trades(trades[..i]), InsertTrade(trades[i]));
        ok := store.WriteTrade(trades[i]);
        if !ok { return; }
        i := i + 1;
      }
      assert trades[..i] == trades;
    }

    method FlushActivities() returns (ok: bool)
      modifies store
      ensures ok ==> store.Contents() == Run(old(store.Contents()), Activities(activities))
      ensures old(store.statementsLeft) == None ==> ok && store.statementsLeft == None
    {
      ok := true;
      var i := 0;
      while i < |activities|
        invariant i <= |activities|
        invariant store.Contents() == Run(old(store.Contents()), Activities(activities[..i]))
        invariant old(store.statementsLeft) == None ==> store.statementsLeft == None
      {
        assert activities[..i + 1][..i] == activities[..i];
        RunSnoc(old(store.Contents()), Activities(activities[..i]), InsertActivity(activities[i]));
        ok := store.WriteActivity(activities[i]);
        if !ok { return; }
        i := i + 1;
      }
      assert activities[..i] == activities;
    }
  }
}
