/** The projector process against the database, one statement at a time: the log grows while it works,
 * and it can fail or be killed between any two statements. */
module RunnerProtocol {
  import opened LogOrder
  import opened Options
  import opened ReadModel
  import opened Replay
  import opened Runner
  import Projector

  /** Where the process stands.  `last` is the log id it thinks the read model has come to. */
  datatype Phase =
    | Stopped
    | Waiting(last: nat)
    | Projecting(last: nat, batch: seq<Entry>, done: nat)
    | Flushing(last: nat, batch: seq<Entry>, written: nat)
    | Saved(last: nat, batch: seq<Entry>)

  /** The committed state, the process, and its open transaction. */
  datatype State = State(
    log: seq<Entry>, db: Db, checkpoint: nat,
    phase: Phase, queue: seq<Op>, work: Db, workCheckpoint: nat)

  const Init := State([], EmptyDb, 0, Stopped, [], EmptyDb, 0)

  datatype Step =
    | Append(entry: Entry)
    | Start
    | Read(limit: nat)
    | ProjectOne
    | BeginFlush
    | WriteOne
    | SaveCheckpoint
    | Commit(heard: bool)
    | Fail

  predicate Enabled(s: State, step: Step) {
    match step
    case Append(entry) => IsLog(s.log) && IsLog(s.log + [entry])
    case Start => s.phase.Stopped?
    case Read(limit) => s.phase.Waiting? && IsLog(s.log)
    case ProjectOne =>
      s.phase.Projecting? && s.phase.done < |s.phase.batch| && Projectable(s.phase.batch[s.phase.done])
    case BeginFlush => s.phase.Projecting? && s.phase.done == |s.phase.batch|
    case WriteOne => s.phase.Flushing? && s.phase.written < |Batched(s.queue)|
    case SaveCheckpoint => s.phase.Flushing? && s.phase.written == |Batched(s.queue)|
    case Commit(_) => s.phase.Saved?
    case Fail => true
  }

  /** A commit whose answer is lost takes effect and stops the process all the same. */
  function Apply(s: State, step: Step): State
    requires Enabled(s, step)
  {
    match step
    case Append(entry) => s.(log := s.log + [entry])
    case Start => s.(phase := Waiting(s.checkpoint))
    case Read(limit) =>
      var batch := After(s.log, s.phase.last, limit);
      if batch == [] then s
      else s.(phase := Projecting(s.phase.last, batch, 0), queue := [], work := s.db, workCheckpoint := s.checkpoint)
    case ProjectOne =>
      s.(queue := s.queue + OpsOfEntry(s.phase.batch[s.phase.done]).value, phase := s.phase.(done := s.phase.done + 1))
    case BeginFlush => s.(phase := Flushing(s.phase.last, s.phase.batch, 0))
    case WriteOne =>
      s.(work := ReadModel.Apply(s.work, Batched(s.queue)[s.phase.written]),
         phase := s.phase.(written := s.phase.written + 1))
    case SaveCheckpoint =>
      s.(workCheckpoint := LastId(s.phase.last, s.phase.batch), phase := Saved(s.phase.last, s.phase.batch))
    case Commit(heard) =>
      s.(db := s.work, checkpoint := s.workCheckpoint, phase := if heard then Waiting(s.workCheckpoint) else Stopped)
    case Fail => s.(phase := Stopped)
  }

  predicate Legal(s: State, steps: seq<Step>)
    decreases |steps|
  {
    steps == [] || (Enabled(s, steps[0]) && Legal(Apply(s, steps[0]), steps[1..]))
  }

  function Run(s: State, steps: seq<Step>): State
    requires Legal(s, steps)
    decreases |steps|
  {
    if steps == [] then s else Run(Apply(s, steps[0]), steps[1..])
  }

  // ----- The invariant -----

  /** An id the log has reached. */
  predicate Reached(log: seq<Entry>, id: nat) { id == 0 || exists i | 0 <= i < |log| :: log[i].logId == id }

  predicate IsNext(log: seq<Entry>, last: nat, batch: seq<Entry>)
    requires IsLog(log)
  {
    Reached(log, LastId(last, batch)) && UpTo(log, LastId(last, batch)) == UpTo(log, last) + batch
  }

  predicate BatchOk(s: State, last: nat, batch: seq<Entry>)
    requires IsLog(s.log)
  {
    last == s.checkpoint && IsNext(s.log, last, batch)
  }

  predicate PhaseOk(s: State)
    requires IsLog(s.log)
  {
    match s.phase
    case Stopped => true
    case Waiting(last) => last == s.checkpoint
    case Projecting(last, batch, done) =>
      && BatchOk(s, last, batch) && done <= |batch|
      && AllProjectable(batch[..done]) && s.queue == OpsOf(batch[..done]) && s.work == s.db
    case Flushing(last, batch, written) =>
      && BatchOk(s, last, batch) && AllProjectable(batch) && s.queue == OpsOf(batch)
      && written <= |Batched(s.queue)| && s.work == ReadModel.Run(s.db, Batched(s.queue)[..written])
    case Saved(last, batch) =>
      && BatchOk(s, last, batch) && AllProjectable(batch)
      && s.work == ReadModel.Run(s.db, OpsOf(batch)) && s.workCheckpoint == LastId(last, batch)
  }

  ghost predicate Inv(s: State) {
    && IsLog(s.log) && Reached(s.log, s.checkpoint)
    && InStep(s.log, s.db, s.checkpoint)
    && PhaseOk(s)
  }

  // ----- The log grows -----

  lemma {:induction false} GrowthKeepsUpTo(log: seq<Entry>, entry: Entry, id: nat)
    requires IsLog(log) && IsLog(log + [entry]) && Reached(log, id)
    ensures Reached(log + [entry], id) && UpTo(log + [entry], id) == UpTo(log, id)
  {
    var grown := log + [entry];
    if id != 0 {
      var i :| 0 <= i < |log| && log[i].logId == id;
      assert grown[i].logId == id;
      assert Ids(grown)[i] < Ids(grown)[|log|];
    }
    var n := Position(Ids(log), id);
    assert n < |log| ==> id < Ids(log)[n] == log[n].logId;
    assert n > 0 ==> Ids(log)[n - 1] == log[n - 1].logId <= id;
    assert n < |grown| ==> id < grown[n].logId;
    PositionOf(grown, id, n);
  }

  lemma {:induction false} AppendKeepsInv(s: State, entry: Entry)
    requires Inv(s) && Enabled(s, Append(entry))
    ensures Inv(Apply(s, Append(entry)))
  {
    GrowthKeepsUpTo(s.log, entry, s.checkpoint);
    if s.phase.Projecting? || s.phase.Flushing? || s.phase.Saved? {
      GrowthKeepsUpTo(s.log, entry, LastId(s.phase.last, s.phase.batch));
    }
  }

  // ----- The steps of the process -----

  lemma {:induction false} ReadKeepsInv(s: State, limit: nat)
    requires Inv(s) && Enabled(s, Read(limit))
    ensures Inv(Apply(s, Read(limit)))
  {
    var last := s.phase.last;
    var batch := After(s.log, last, limit);
    PageIsNext(s.log, last, limit);
    if batch != [] {
      var n := Position(Ids(s.log), last);
      assert batch[|batch| - 1] == s.log[n + |batch| - 1];
    }
  }

  lemma {:induction false} ProjectOneKeepsPhase(s: State)
    requires IsLog(s.log) && PhaseOk(s) && Enabled(s, ProjectOne)
    ensures PhaseOk(Apply(s, ProjectOne))
  {
    var batch, done := s.phase.batch, s.phase.done;
    assert batch[..done + 1] == batch[..done] + [batch[done]];
    OpsOfSnoc(batch[..done], batch[done]);
  }

  lemma {:induction false} WriteOneKeepsPhase(s: State)
    requires IsLog(s.log) && PhaseOk(s) && Enabled(s, WriteOne)
    ensures PhaseOk(Apply(s, WriteOne))
  {
    var ops, written := Batched(s.queue), s.phase.written;
    assert ops[..written + 1] == ops[..written] + [ops[written]];
    RunSnoc(s.db, ops[..written], ops[written]);
  }

  lemma {:induction false} SaveKeepsPhase(s: State)
    requires IsLog(s.log) && PhaseOk(s) && Enabled(s, SaveCheckpoint)
    ensures PhaseOk(Apply(s, SaveCheckpoint))
  {
    assert Batched(s.queue)[..s.phase.written] == Batched(s.queue);
    BatchingKeepsMeaning(s.db, s.queue);
  }

  lemma {:induction false} CommitKeepsInv(s: State, heard: bool)
    requires Inv(s) && Enabled(s, Commit(heard))
    ensures Inv(Apply(s, Commit(heard)))
  {
    ProjectedConcat(UpTo(s.log, s.phase.last), s.phase.batch);
  }

  lemma {:induction false} StepKeepsInv(s: State, step: Step)
    requires Inv(s) && Enabled(s, step)
    ensures Inv(Apply(s, step))
  {
    match step
    case Append(entry) => AppendKeepsInv(s, entry);
    case Start =>
    case Read(limit) => ReadKeepsInv(s, limit);
    case ProjectOne => ProjectOneKeepsPhase(s);
    case BeginFlush => BeginFlushKeepsPhase(s);
    case WriteOne => WriteOneKeepsPhase(s);
    case SaveCheckpoint => SaveKeepsPhase(s);
    case Commit(heard) => CommitKeepsInv(s, heard);
    case Fail =>
  }

  lemma {:induction false} BeginFlushKeepsPhase(s: State)
    requires IsLog(s.log) && PhaseOk(s) && Enabled(s, BeginFlush)
    ensures PhaseOk(Apply(s, BeginFlush))
  {
    assert s.phase.batch[..s.phase.done] == s.phase.batch;
  }

  lemma {:induction false} InvOnEveryRun(s: State, steps: seq<Step>)
    requires Inv(s) && Legal(s, steps)
    ensures Inv(Run(s, steps))
    decreases |steps|
  {
    if steps == [] {
    } else {
      StepKeepsInv(s, steps[0]);
      InvOnEveryRun(Apply(s, steps[0]), steps[1..]);
    }
  }

  lemma {:induction false} InitInv()
    ensures Inv(Init)
  {
  }

  // ----- What the checkpoint promises -----

  /** In every run, with batches of any size and a failure at any point, every committed read model is the
   * projection of exactly the log entries with id up to the saved checkpoint. */
  lemma {:induction false} CommittedIsProjection(steps: seq<Step>)
    requires Legal(Init, steps)
    ensures
      var s := Run(Init, steps);
      && IsLog(s.log) && AllProjectable(UpTo(s.log, s.checkpoint))
      && s.db == Projected(UpTo(s.log, s.checkpoint))
  {
    InitInv();
    InvOnEveryRun(Init, steps);
  }

  /** So two runs over the same log that stand at the same checkpoint have the same tables, however their
   * batches were cut and however often they failed. */
  lemma {:induction false} RunsAgree(a: seq<Step>, b: seq<Step>)
    requires Legal(Init, a) && Legal(Init, b)
    requires Run(Init, a).log == Run(Init, b).log && Run(Init, a).checkpoint == Run(Init, b).checkpoint
    ensures Run(Init, a).db == Run(Init, b).db
  {
    CommittedIsProjection(a);
    CommittedIsProjection(b);
  }

  /** An entry that cannot be projected is never passed. */
  lemma {:induction false} NeverPastPoison(steps: seq<Step>, i: nat)
    requires Legal(Init, steps) && i < |Run(Init, steps).log| && !Projectable(Run(Init, steps).log[i])
    ensures Run(Init, steps).checkpoint < Run(Init, steps).log[i].logId
  {
    var s := Run(Init, steps);
    CommittedIsProjection(steps);
    var done := UpTo(s.log, s.checkpoint);
    assert forall k | 0 <= k < |done| :: done[k] == s.log[k];
    assert Ids(s.log)[i] == s.log[i].logId;
  }

  lemma {:induction false} ProjectedKeepsActiveMarkets(entries: seq<Entry>)
    requires AllProjectable(entries)
    ensures Projector.ActiveMarketsExist(Projected(entries))
  {
    if entries == [] {
    } else {
      var init, e := entries[..|entries| - 1], entries[|entries| - 1];
      ProjectedKeepsActiveMarkets(init);
      RunConcat(EmptyDb, OpsOf(init), OpsOfEntry(e).value);
      Projector.ProjectionKeepsActiveMarkets(Projected(init), e.event, e.payload.value);
    }
  }

  /** In every run, each token of the committed read model that names an active market names one that has
   * a row. */
  lemma {:induction false} ActiveMarketsOnEveryRun(steps: seq<Step>)
    requires Legal(Init, steps)
    ensures Projector.ActiveMarketsExist(Run(Init, steps).db)
  {
    CommittedIsProjection(steps);
    var s := Run(Init, steps);
    ProjectedKeepsActiveMarkets(UpTo(s.log, s.checkpoint));
  }

  /** The checkpoint never goes back. */
  lemma {:induction false} CheckpointAscends(s: State, step: Step)
    requires Inv(s) && Enabled(s, step)
    ensures s.checkpoint <= Apply(s, step).checkpoint
  {
  }

  /** Inside an open transaction it need not hold: a run that has written the first statement of a creation
   * has a token there that names a market without a row.  Nothing of it is committed. */
  lemma {:induction false} UncommittedDangles(entry: Entry)
    requires entry.logId > 0 && entry.payload.Some? && entry.payload.value.PumpfunCreate?
    requires entry.payload.value.create.bondingCurve != ""
    ensures
      exists steps ::
        && Legal(Init, steps)
        && !Projector.ActiveMarketsExist(Run(Init, steps).work)
        && Run(Init, steps).db == EmptyDb && Run(Init, steps).checkpoint == 0
  {
    var ops := OpsOfEntry(entry).value;
    var steps := CreationQueued(entry);
    var s := Run(Init, steps);
    FirstIsToken(ops);
    OneMore(Init, steps, WriteOne);
    Projector.ActiveMarketDanglesWithin(entry.event, entry.payload.value.create);
    assert ops[..1] == [ops[0]] && [ops[0]][..0] == [];
    assert Run(Init, steps + [WriteOne]).work == ReadModel.Run(EmptyDb, ops[..1]);
  }

  lemma {:induction false} CreationQueued(entry: Entry) returns (steps: seq<Step>)
    requires entry.logId > 0 && entry.payload.Some? && entry.payload.value.PumpfunCreate?
    ensures Legal(Init, steps)
    ensures Run(Init, steps) == State([entry], EmptyDb, 0, Flushing(0, [entry], 0), OpsOfEntry(entry).value, EmptyDb, 0)
  {
    var ops := OpsOfEntry(entry).value;
    var s := Init;
    steps, s := Advance([], s, Append(entry));
    steps, s := Advance(steps, s, Start);
    assert s == State([entry], EmptyDb, 0, Waiting(0), [], EmptyDb, 0);
    assert After([entry], 0, 1) == [entry];
    steps, s := Advance(steps, s, Read(1));
    assert s == State([entry], EmptyDb, 0, Projecting(0, [entry], 0), [], EmptyDb, 0);
    assert [] + ops == ops;
    steps, s := Advance(steps, s, ProjectOne);
    assert s == State([entry], EmptyDb, 0, Projecting(0, [entry], 1), ops, EmptyDb, 0);
    steps, s := Advance(steps, s, BeginFlush);
  }

  lemma {:induction false} Advance(steps: seq<Step>, s: State, step: Step) returns (steps': seq<Step>, s': State)
    requires Legal(Init, steps) && Run(Init, steps) == s && Enabled(s, step)
    ensures Legal(Init, steps') && Run(Init, steps') == s' == Apply(s, step)
  {
    OneMore(Init, steps, step);
    steps', s' := steps + [step], Apply(s, step);
  }

  lemma {:induction false} OneMore(s: State, steps: seq<Step>, step: Step)
    requires Legal(s, steps) && Enabled(Run(s, steps), step)
    ensures Legal(s, steps + [step]) && Run(s, steps + [step]) == Apply(Run(s, steps), step)
    decreases |steps|
  {
    if steps == [] {
      assert ([] + [step])[1..] == [];
    } else {
      assert (steps + [step])[1..] == steps[1..] + [step];
      OneMore(Apply(s, steps[0]), steps[1..], step);
    }
  }

  /** A creation's statement on its token is written first. */
  lemma {:induction false} FirstIsToken(ops: seq<Op>)
    requires |ops| == 4 && ops[0].UpsertToken? && ops[1].UpsertMetadata?
    requires ops[2].UpsertMarket? && ops[3].InsertActivity?
    ensures |Batched(ops)| > 0 && Batched(ops)[0] == ops[0]
  {
    FirstOfState(ops);
  }

  lemma {:induction false} FirstOfState(ops: seq<Op>)
    requires ops != [] && IsState(ops[0])
    ensures StateOps(ops) != [] && StateOps(ops)[0] == ops[0]
  {
    if |ops| > 1 {
      FirstOfState(ops[..|ops| - 1]);
    }
  }
}
