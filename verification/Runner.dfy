/** The projector's loop: batches of log entries, each projected in one transaction together with the
 * checkpoint that says how far the read model has come. */
module Runner {
  import opened Options
  import opened LogOrder
  import opened ReadModel
  import opened Replay
  import WriteBatch
  import Projector

  /** An entry whose payload does not decode, or whose event cannot be projected, stops the projector. */
  datatype Entry = Entry(logId: nat, event: Projector.Envelope, payload: Option<Projector.Payload>)

  function OpsOfEntry(e: Entry): Result<seq<Op>, Projector.Error> {
    match e.payload
    case None => Err(Projector.UndecodablePayload(e.event.eventId))
    case Some(payload) => Projector.Projection(e.event, payload)
  }

  predicate Projectable(e: Entry) { OpsOfEntry(e).Ok? }

  predicate AllProjectable(entries: seq<Entry>) {
    forall i | 0 <= i < |entries| :: Projectable(entries[i])
  }

  /** The statements of a part of the log, in the order of the log. */
  function OpsOf(entries: seq<Entry>): seq<Op>
    requires AllProjectable(entries)
  {
    if entries == [] then []
    else OpsOf(entries[..|entries| - 1]) + OpsOfEntry(entries[|entries| - 1]).value
  }

  function Ids(log: seq<Entry>): (ids: seq<nat>)
    ensures |ids| == |log| && forall i | 0 <= i < |log| :: ids[i] == log[i].logId
  {
    seq(|log|, i requires 0 <= i < |log| => log[i].logId)
  }

  /** The log as the database hands it out: ids ascend from one. */
  predicate IsLog(log: seq<Entry>) {
    Increasing(Ids(log)) && forall i | 0 <= i < |log| :: log[i].logId > 0
  }

  function UpTo(log: seq<Entry>, id: nat): seq<Entry>
    requires IsLog(log)
  {
    log[..Position(Ids(log), id)]
  }

  /** `log_id > after order by log_id asc limit n` */
  function After(log: seq<Entry>, after: nat, limit: nat): (page: seq<Entry>)
    requires IsLog(log)
    ensures |page| <= limit
  {
    var rest := log[Position(Ids(log), after)..];
    if |rest| <= limit then rest else rest[..limit]
  }

  function LastId(after: nat, entries: seq<Entry>): nat {
    if entries == [] then after else entries[|entries| - 1].logId
  }

  lemma {:induction false} PositionOf(log: seq<Entry>, id: nat, n: nat)
    requires IsLog(log) && n <= |log|
    requires n > 0 ==> log[n - 1].logId <= id
    requires n < |log| ==> id < log[n].logId
    ensures Position(Ids(log), id) == n
  {
  }

  /** Reading a page moves the position to its end. */
  lemma {:induction false} PageIsNext(log: seq<Entry>, after: nat, limit: nat)
    requires IsLog(log)
    ensures UpTo(log, LastId(after, After(log, after, limit))) == UpTo(log, after) + After(log, after, limit)
  {
    var n, page := Position(Ids(log), after), After(log, after, limit);
    var m := n + |page|;
    assert page == log[n..m] && log[..m] == log[..n] + log[n..m];
    if page != [] {
      assert page[|page| - 1] == log[m - 1];
      if m < |log| { assert Ids(log)[m - 1] < Ids(log)[m]; }
      PositionOf(log, LastId(after, page), m);
    }
  }

  /** The part of the log after one id and up to another. */
  function Between(log: seq<Entry>, after: nat, upTo: nat): seq<Entry>
    requires IsLog(log) && after <= upTo
  {
    PositionGrows(Ids(log), after, upTo);
    log[Position(Ids(log), after)..Position(Ids(log), upTo)]
  }

  lemma {:induction false} PositionGrows(ids: seq<nat>, a: nat, b: nat)
    requires Increasing(ids) && a <= b
    ensures Position(ids, a) <= Position(ids, b)
  {
    if Position(ids, a) > 0 {
      assert ids[Position(ids, a) - 1] <= a;
    }
  }

  lemma {:induction false} UpToBetween(log: seq<Entry>, after: nat, upTo: nat)
    requires IsLog(log) && after <= upTo
    ensures UpTo(log, upTo) == UpTo(log, after) + Between(log, after, upTo)
  {
    PositionGrows(Ids(log), after, upTo);
  }

  /** A page extends the part read so far. */
  lemma {:induction false} PageExtends(log: seq<Entry>, start: nat, after: nat, limit: nat)
    requires IsLog(log) && start <= after
    ensures
      var page := After(log, after, limit);
      && after <= LastId(after, page)
      && Between(log, start, LastId(after, page)) == Between(log, start, after) + page
      && Position(Ids(log), LastId(after, page)) == Position(Ids(log), after) + |page|
  {
    var page := After(log, after, limit);
    var next := LastId(after, page);
    PageAscends(log, after, limit);
    PageIsNext(log, after, limit);
    assert |UpTo(log, next)| == |UpTo(log, after)| + |page|;
    PositionGrows(Ids(log), start, after);
    assert UpTo(log, next)[Position(Ids(log), start)..] == Between(log, start, next);
  }

  lemma {:induction false} ProjectableConcat(a: seq<Entry>, b: seq<Entry>)
    ensures AllProjectable(a + b) <==> AllProjectable(a) && AllProjectable(b)
  {
    if AllProjectable(a + b) {
      forall i | 0 <= i < |a| ensures Projectable(a[i]) { assert (a + b)[i] == a[i]; }
      forall i | 0 <= i < |b| ensures Projectable(b[i]) { assert (a + b)[|a| + i] == b[i]; }
    }
  }

  lemma {:induction false} OpsOfSnoc(entries: seq<Entry>, e: Entry)
    requires AllProjectable(entries) && Projectable(e)
    ensures AllProjectable(entries + [e]) && OpsOf(entries + [e]) == OpsOf(entries) + OpsOfEntry(e).value
  {
  }

  lemma {:induction false} ConcatAssociates<T>(a: seq<T>, b: seq<T>, c: seq<T>)
    ensures a + b + c == a + (b + c)
  {
  }

  lemma {:induction false} OpsOfConcat(a: seq<Entry>, b: seq<Entry>)
    requires AllProjectable(a) && AllProjectable(b)
    ensures AllProjectable(a + b) && OpsOf(a + b) == OpsOf(a) + OpsOf(b)
    decreases |b|
  {
    ProjectableConcat(a, b);
    if b == [] {
      assert a + b == a;
    } else {
      var init, e := b[..|b| - 1], b[|b| - 1];
      assert b == init + [e];
      ProjectableConcat(init, [e]);
      OpsOfConcat(a, init);
      OpsOfSnoc(init, e);
      OpsOfSnoc(a + init, e);
      assert a + b == a + init + [e];
      ConcatAssociates(OpsOf(a), OpsOf(init), OpsOfEntry(e).value);
    }
  }

  /** The read model a part of the log amounts to. */
  function Projected(entries: seq<Entry>): Db
    requires AllProjectable(entries)
  {
    Run(EmptyDb, OpsOf(entries))
  }

  lemma {:induction false} ProjectedConcat(a: seq<Entry>, b: seq<Entry>)
    requires AllProjectable(a) && AllProjectable(b)
    ensures AllProjectable(a + b) && Projected(a + b) == Run(Projected(a), OpsOf(b))
  {
    OpsOfConcat(a, b);
    RunConcat(EmptyDb, OpsOf(a), OpsOf(b));
  }

  /** The property the checkpoint stands for. */
  ghost predicate InStep(log: seq<Entry>, db: Db, checkpoint: nat)
    requires IsLog(log)
  {
    AllProjectable(UpTo(log, checkpoint)) && db == Projected(UpTo(log, checkpoint))
  }

  /** The entries after one id and up to another have been brought into the tables. */
  ghost predicate Brought(log: seq<Entry>, before: Db, first: nat, db: Db, last: nat)
    requires IsLog(log)
  {
    first <= last && AllProjectable(Between(log, first, last)) && db == Run(before, OpsOf(Between(log, first, last)))
  }

  lemma {:induction false} NothingBrought(log: seq<Entry>, db: Db, first: nat)
    requires IsLog(log)
    ensures Brought(log, db, first, db, first)
  {
    assert Between(log, first, first) == [];
  }

  lemma {:induction false} PageBrought(log: seq<Entry>, before: Db, first: nat, db: Db, last: nat, limit: nat)
    requires IsLog(log) && Brought(log, before, first, db, last) && AllProjectable(After(log, last, limit))
    ensures
      var page := After(log, last, limit);
      Brought(log, before, first, Run(db, OpsOf(page)), LastId(last, page))
  {
    var done, page := Between(log, first, last), After(log, last, limit);
    PageExtends(log, first, last, limit);
    OpsOfConcat(done, page);
    RunConcat(before, OpsOf(done), OpsOf(page));
  }

  /** Bringing in the next part of the log keeps a read model in step. */
  lemma {:induction false} BroughtKeepsInStep(log: seq<Entry>, before: Db, first: nat, db: Db, last: nat)
    requires IsLog(log) && Brought(log, before, first, db, last) && InStep(log, before, first)
    ensures InStep(log, db, last)
  {
    UpToBetween(log, first, last);
    ProjectedConcat(UpTo(log, first), Between(log, first, last));
  }

  /** How many entries lie after an id. */
  function Left(log: seq<Entry>, id: nat): nat
    requires IsLog(log)
  {
    |log| - Position(Ids(log), id)
  }

  lemma {:induction false} PageLeavesLess(log: seq<Entry>, after: nat, limit: nat)
    requires IsLog(log)
    ensures Left(log, LastId(after, After(log, after, limit))) ==
              if Left(log, after) <= limit then 0 else Left(log, after) - limit
  {
    PageExtends(log, after, after, limit);
  }

  lemma {:induction false} NoneLeft(log: seq<Entry>, id: nat)
    requires IsLog(log) && Left(log, id) == 0
    ensures UpTo(log, id) == log
  {
  }

  /** The log, the checkpoint and the transaction around both it and the read model. */
  class ServiceEventStore {
    var log: seq<Entry>
    var checkpoint: nat
    var commitFails: bool

    constructor ()
      ensures log == [] && checkpoint == 0 && !commitFails
    {
      log, checkpoint, commitFails := [], 0, false;
    }
  }

  class ProjectionRunner {
    const reader: ServiceEventStore
    const store: ReadModelStore
    const batchSize: nat

    constructor (reader: ServiceEventStore, store: ReadModelStore)
      ensures this.reader == reader && this.store == store && batchSize == 256
    {
      this.reader, this.store, batchSize := reader, store, 256;
    }

    /** One batch.  Either all of it is in the tables and the checkpoint stands at its last entry, or
     * neither has moved.  Without a fault of the database it fails exactly when an entry of the batch
     * cannot be projected. */
    method ReplayBatch(afterLogId: nat) returns (nextLogId: nat, processed: nat, ok: bool)
      requires IsLog(reader.log)
      modifies reader`checkpoint, store
      ensures
        var page := After(reader.log, afterLogId, batchSize);
        if ok then
          && AllProjectable(page) && processed == |page| && nextLogId == LastId(afterLogId, page)
          && store.Contents() == Run(old(store.Contents()), OpsOf(page))
          && reader.checkpoint == if page == [] then old(reader.checkpoint) else nextLogId
        else store.Contents() == old(store.Contents()) && reader.checkpoint == old(reader.checkpoint)
      ensures old(store.statementsLeft) == None ==>
                && store.statementsLeft == None
                && (!reader.commitFails ==> (ok <==> AllProjectable(After(reader.log, afterLogId, batchSize))))
    {
      var entries := After(reader.log, afterLogId, batchSize);
      nextLogId, processed := afterLogId, 0;
      if |entries| == 0 {
        return nextLogId, 0, true;
      }
      var before, checkpointBefore := store.Contents(), reader.checkpoint;
      var writer := new WriteBatch.Batch(store);
      nextLogId, processed := ProjectEntries(writer, entries, afterLogId);
      ok := processed == |entries|;
      if ok {
        ok := writer.Flush();
      }
      if ok {
        reader.checkpoint := nextLogId;
        ok := !reader.commitFails;
      }
      if ok {
        assert entries[..processed] == entries;
      } else {
        store.Restore(before);
        reader.checkpoint := checkpointBefore;
      }
    }

    /** The entries are projected into the batch up to the first that cannot be. */
    method ProjectEntries(writer: WriteBatch.Batch, entries: seq<Entry>, afterLogId: nat)
      returns (lastLogId: nat, processed: nat)
      requires writer.Valid() && writer.written == []
      modifies writer
      ensures writer.Valid()
      ensures processed <= |entries| && AllProjectable(entries[..processed])
      ensures processed < |entries| ==> !Projectable(entries[processed])
      ensures writer.written == OpsOf(entries[..processed])
      ensures lastLogId == LastId(afterLogId, entries[..processed])
    {
      lastLogId, processed := afterLogId, 0;
      while processed < |entries|
        invariant processed <= |entries| && writer.Valid()
        invariant AllProjectable(entries[..processed]) && writer.written == OpsOf(entries[..processed])
        invariant lastLogId == LastId(afterLogId, entries[..processed])
      {
        var entry := entries[processed];
        assert entries[..processed + 1] == entries[..processed] + [entry];
        if entry.payload == None {
          return;
        }
        var error := Projector.Project(writer, entry.event, entry.payload.value);
        if error.Some? {
          return;
        }
        OpsOfSnoc(entries[..processed], entry);
        lastLogId := entry.logId;
        processed := processed + 1;
      }
    }

    /** The loop, for as many rounds as the process lives: it starts at the checkpoint, ends early on the
     * first failure, and brings exactly the entries it moves the checkpoint over into the tables.  So it
     * keeps the read model in step with the log; and with no fault of the database and no entry that cannot
     * be projected, enough rounds lead to the end of the log. */
    method RunLoop(rounds: nat) returns (ok: bool)
      requires IsLog(reader.log)
      modifies reader`checkpoint, store
      ensures Brought(reader.log, old(store.Contents()), old(reader.checkpoint), store.Contents(), reader.checkpoint)
      ensures InStep(reader.log, old(store.Contents()), old(reader.checkpoint))
          ==> InStep(reader.log, store.Contents(), reader.checkpoint)
      ensures old(store.statementsLeft) == None && !reader.commitFails && AllProjectable(reader.log) ==>
                && ok && store.statementsLeft == None
                && (Left(reader.log, old(reader.checkpoint)) <= rounds * batchSize ==>
                    UpTo(reader.log, reader.checkpoint) == reader.log)
    {
      ghost var log, before, first := reader.log, store.Contents(), reader.checkpoint;
      NothingBrought(log, before, first);
      ok := Rounds(rounds, before, first);
      StepsIfInStep(log, before, first, store.Contents(), reader.checkpoint);
      EnoughRounds(log, first, reader.checkpoint, rounds, batchSize);
    }

    /** The rounds themselves. */
    method Rounds(rounds: nat, ghost before: Db, ghost first: nat) returns (ok: bool)
      requires IsLog(reader.log) && first == reader.checkpoint
      requires Brought(reader.log, before, first, store.Contents(), first)
      modifies reader`checkpoint, store
      ensures Brought(reader.log, before, first, store.Contents(), reader.checkpoint)
      ensures old(store.statementsLeft) == None ==>
                store.statementsLeft == None && (!reader.commitFails && AllProjectable(reader.log) ==> ok)
      ensures ok ==> CameFar(reader.log, first, reader.checkpoint, Capacity(rounds, batchSize))
    {
      var lastLogId := reader.checkpoint;
      var round := 0;
      ok := true;
      while round < rounds
        invariant round <= rounds && ok && lastLogId == reader.checkpoint
        invariant Brought(reader.log, before, first, store.Contents(), lastLogId)
        invariant old(store.statementsLeft) == None ==> store.statementsLeft == None
        invariant CameFar(reader.log, first, lastLogId, Capacity(round, batchSize))
      {
        lastLogId, ok := Round(lastLogId, before, first);
        if !ok {
          return;
        }
        round := round + 1;
      }
    }

    /** One round of the loop. */
    method Round(lastLogId: nat, ghost before: Db, ghost first: nat) returns (nextLogId: nat, ok: bool)
      requires IsLog(reader.log) && lastLogId == reader.checkpoint
      requires Brought(reader.log, before, first, store.Contents(), lastLogId)
      modifies reader`checkpoint, store
      ensures nextLogId == reader.checkpoint && Brought(reader.log, before, first, store.Contents(), nextLogId)
      ensures old(store.statementsLeft) == None ==>
                store.statementsLeft == None && (!reader.commitFails && AllProjectable(reader.log) ==> ok)
      ensures ok ==>
                Left(reader.log, nextLogId) ==
                if Left(reader.log, lastLogId) <= batchSize then 0 else Left(reader.log, lastLogId) - batchSize
    {
      PageBroughtIf(reader.log, before, first, store.Contents(), lastLogId, batchSize);
      PageLeavesLess(reader.log, lastLogId, batchSize);
      var processed;
      nextLogId, processed, ok := ReplayBatch(lastLogId);
      if !ok {
        nextLogId := lastLogId;
      }
    }

    /** From the start of the log, whatever the checkpoint says: the entries up to the id returned have been
     * run over the tables that are there, in batches; without a fault that is the whole log, and this fails
     * only on an entry that cannot be projected. */
    method ReplayFromStart() returns (lastLogId: nat, ok: bool)
      requires IsLog(reader.log) && batchSize > 0
      modifies reader`checkpoint, store
      ensures AllProjectable(UpTo(reader.log, lastLogId))
      ensures store.Contents() == Run(old(store.Contents()), OpsOf(UpTo(reader.log, lastLogId)))
      ensures reader.checkpoint == if lastLogId == 0 then old(reader.checkpoint) else lastLogId
      ensures ok ==> UpTo(reader.log, lastLogId) == reader.log
      ensures ok && reader.log != [] ==> lastLogId == reader.checkpoint == LastId(0, reader.log)
      ensures old(store.statementsLeft) == None && !reader.commitFails && !ok ==> !AllProjectable(reader.log)
    {
      lastLogId := 0;
      StartOfLog(reader.log);
      while true
        invariant AllProjectable(UpTo(reader.log, lastLogId))
        invariant store.Contents() == Run(old(store.Contents()), OpsOf(UpTo(reader.log, lastLogId)))
        invariant lastLogId == LastId(0, UpTo(reader.log, lastLogId))
        invariant reader.checkpoint == if lastLogId == 0 then old(reader.checkpoint) else lastLogId
        invariant old(store.statementsLeft) == None ==> store.statementsLeft == None
        decreases |reader.log| - |UpTo(reader.log, lastLogId)|
      {
        ghost var done := UpTo(reader.log, lastLogId);
        ghost var page := After(reader.log, lastLogId, batchSize);
        PageIsNext(reader.log, lastLogId, batchSize);
        PageInLog(reader.log, lastLogId, batchSize);
        var nextLogId, processed;
        nextLogId, processed, ok := ReplayBatch(lastLogId);
        if !ok {
          return;
        }
        OpsOfConcat(done, page);
        RunConcat(old(store.Contents()), OpsOf(done), OpsOf(page));
        lastLogId := nextLogId;
        if processed == 0 {
          EmptyPageIsEnd(reader.log, lastLogId, batchSize);
          return;
        }
      }
    }
  }

  /** How many entries fit into so many batches. */
  function Capacity(rounds: nat, batchSize: nat): nat {
    if rounds == 0 then 0 else Capacity(rounds - 1, batchSize) + batchSize
  }

  lemma {:induction false} CapacityIs(rounds: nat, batchSize: nat)
    ensures Capacity(rounds, batchSize) == rounds * batchSize
  {
    if rounds == 0 {
    } else {
      CapacityIs(rounds - 1, batchSize);
    }
  }

  /** The end of the log has been reached, or so many entries have been passed. */
  predicate CameFar(log: seq<Entry>, first: nat, last: nat, n: nat)
    requires IsLog(log)
  {
    Left(log, last) == 0 || Left(log, last) + n <= Left(log, first)
  }

  lemma {:induction false} EnoughRounds(log: seq<Entry>, first: nat, last: nat, rounds: nat, batchSize: nat)
    requires IsLog(log)
    ensures CameFar(log, first, last, Capacity(rounds, batchSize)) && Left(log, first) <= rounds * batchSize
        ==> UpTo(log, last) == log
  {
    CapacityIs(rounds, batchSize);
    if Left(log, last) == 0 { NoneLeft(log, last); }
  }

  lemma {:induction false} StepsIfInStep(log: seq<Entry>, before: Db, first: nat, db: Db, last: nat)
    requires IsLog(log) && Brought(log, before, first, db, last)
    ensures InStep(log, before, first) ==> InStep(log, db, last)
  {
    if InStep(log, before, first) { BroughtKeepsInStep(log, before, first, db, last); }
  }

  lemma {:induction false} PageBroughtIf(log: seq<Entry>, before: Db, first: nat, db: Db, last: nat, limit: nat)
    requires IsLog(log) && Brought(log, before, first, db, last)
    ensures AllProjectable(log) ==> AllProjectable(After(log, last, limit))
    ensures
      var page := After(log, last, limit);
      AllProjectable(page) ==> Brought(log, before, first, Run(db, OpsOf(page)), LastId(last, page))
  {
    PageInLog(log, last, limit);
    if AllProjectable(After(log, last, limit)) { PageBrought(log, before, first, db, last, limit); }
  }

  lemma {:induction false} StartOfLog(log: seq<Entry>)
    requires IsLog(log)
    ensures UpTo(log, 0) == []
  {
  }

  lemma {:induction false} PageInLog(log: seq<Entry>, after: nat, limit: nat)
    requires IsLog(log)
    ensures AllProjectable(log) ==> AllProjectable(After(log, after, limit))
  {
  }

  lemma {:induction false} PageAscends(log: seq<Entry>, after: nat, limit: nat)
    requires IsLog(log)
    ensures After(log, after, limit) != [] ==> after < LastId(after, After(log, after, limit))
  {
  }

  lemma {:induction false} EmptyPageIsEnd(log: seq<Entry>, after: nat, limit: nat)
    requires IsLog(log) && limit > 0 && After(log, after, limit) == []
    ensures UpTo(log, after) == log
  {
  }

  /** Replaying a suffix of the log over the read model of the whole leaves it unchanged if and only if no
   * market without a row before the suffix is ended in it only ahead of its first upsert. */
  lemma {:induction false} ReplayedSuffixIff(a: seq<Entry>, b: seq<Entry>)
    requires AllProjectable(a) && AllProjectable(b)
    ensures AllProjectable(a + b)
    ensures Run(Projected(a + b), OpsOf(b)) == Projected(a + b)
       <==> forall id: string :: !(id !in Projected(a).markets && EndsOnlyTooEarly(OpsOf(b), id))
  {
    ProjectedConcat(a, b);
    ReplayUnchangedIff(Projected(a), OpsOf(b));
  }

  /** The condition is needed: a migration in the log ahead of the creation of its token ends no market
   * when it is projected first, for the curve has no row yet; replayed, it ends the curve's market. */
  lemma {:induction false} EarlyMigrationIsNotReplayable(first: Entry, second: Entry)
    requires first.payload.Some? && first.payload.value.PumpfunMigrate?
    requires second.payload.Some? && second.payload.value.PumpfunCreate?
    requires
      var curve := first.payload.value.migrate.bondingCurve;
      curve != "" && second.payload.value.create.bondingCurve == curve && first.payload.value.migrate.pool != curve
    ensures AllProjectable([first, second])
    ensures
      var curve := first.payload.value.migrate.bondingCurve;
      var once := Projected([first, second]);
      var twice := Run(once, OpsOf([first, second]));
      && curve in once.markets && once.markets[curve].endedAt == None
      && curve in twice.markets && twice.markets[curve].endedAt == Some(UnixToTimestampSeconds(first.event.eventUnixTs))
  {
    var curve := first.payload.value.migrate.bondingCurve;
    var ops := OpsOfEntry(first).value + OpsOfEntry(second).value;
    OpsOfTwo(first, second);
    EndedThenMade(first, second, ops);
    MadeRun(ops, curve, 6);
    OnlyWritten(ops, curve, 0);
    PresentRun(None, ops, curve);
    EndingsAreRuns(EmptyDb, ops, curve);
    EndingsAreRuns(Run(EmptyDb, ops), ops, curve);
  }

  lemma {:induction false} EndedThenMade(first: Entry, second: Entry, ops: seq<Op>)
    requires first.payload.Some? && first.payload.value.PumpfunMigrate?
    requires second.payload.Some? && second.payload.value.PumpfunCreate?
    requires
      var curve := first.payload.value.migrate.bondingCurve;
      curve != "" && second.payload.value.create.bondingCurve == curve && first.payload.value.migrate.pool != curve
    requires ops == OpsOfEntry(first).value + OpsOfEntry(second).value
    ensures
      var curve := first.payload.value.migrate.bondingCurve;
      && MadeAt(ops, curve, 6) && LastWritten(ops[6..], curve) == None
      && Written(ops[0], curve) == Some(UnixToTimestampSeconds(first.event.eventUnixTs))
      && forall i | 0 <= i < |ops| && i != 0 :: Written(ops[i], curve) == None
  {
    var curve := first.payload.value.migrate.bondingCurve;
    var a, b := OpsOfEntry(first).value, OpsOfEntry(second).value;
    assert |a| == 4 && |b| == 4;
    assert ops[6..] == [b[2], b[3]];
    LastWrittenIs(ops[6..], curve);
  }

  lemma {:induction false} OpsOfOne(e: Entry)
    requires Projectable(e)
    ensures AllProjectable([e]) && OpsOf([e]) == OpsOfEntry(e).value
  {
    assert [e][..0] == [];
  }

  lemma {:induction false} OpsOfTwo(first: Entry, second: Entry)
    requires Projectable(first) && Projectable(second)
    ensures AllProjectable([first, second])
    ensures OpsOf([first, second]) == OpsOfEntry(first).value + OpsOfEntry(second).value
  {
    OpsOfOne(first);
    OpsOfOne(second);
    OpsOfConcat([first], [second]);
    assert [first, second] == [first] + [second];
  }

  /** The one ending written is the last. */
  lemma {:induction false} OnlyWritten(ops: seq<Op>, id: string, at: nat)
    requires at < |ops| && Written(ops[at], id).Some?
    requires forall i | 0 <= i < |ops| && i != at :: Written(ops[i], id) == None
    ensures LastWritten(ops, id) == Written(ops[at], id)
  {
    if at < |ops| - 1 {
      OnlyWritten(ops[..|ops| - 1], id, at);
    }
  }
}
