/** The projector can always catch up: from every state it can reach, with batches of any size, steps that
 * do not fail lead to the end of the log. */
module CatchUp {
  import opened LogOrder
  import opened ReadModel
  import opened Replay
  import opened Runner
  import opened RunnerProtocol

  /** A run on the way: what its steps are and where it stands. */
  ghost predicate Stands(steps: seq<Step>, s: State) { Legal(Init, steps) && RunnerProtocol.Run(Init, steps) == s }

  lemma {:induction false} Go(steps: seq<Step>, s: State, step: Step) returns (on: seq<Step>, next: State)
    requires Stands(steps, s) && Enabled(s, step)
    ensures Stands(on, next) && steps <= on && next == RunnerProtocol.Apply(s, step)
  {
    OneMore(Init, steps, step);
    on, next := steps + [step], RunnerProtocol.Apply(s, step);
  }

  lemma {:induction false} InvHere(steps: seq<Step>, s: State)
    requires Stands(steps, s)
    ensures Inv(s)
  {
    InitInv();
    InvOnEveryRun(Init, steps);
  }

  // ----- One page -----

  /** Projecting the rest of a batch. */
  lemma {:induction false} ProjectRest(steps: seq<Step>, s: State) returns (on: seq<Step>, next: State)
    requires Stands(steps, s) && s.phase.Projecting? && s.phase.done <= |s.phase.batch|
    requires AllProjectable(s.phase.batch)
    ensures Stands(on, next) && steps <= on
    ensures next == s.(phase := s.phase.(done := |s.phase.batch|), queue := next.queue)
    decreases |s.phase.batch| - s.phase.done
  {
    if s.phase.done == |s.phase.batch| {
      on, next := steps, s;
    } else {
      on, next := Go(steps, s, ProjectOne);
      on, next := ProjectRest(on, next);
    }
  }

  /** Writing the rest of what is queued. */
  lemma {:induction false} WriteRest(steps: seq<Step>, s: State) returns (on: seq<Step>, next: State)
    requires Stands(steps, s) && s.phase.Flushing? && s.phase.written <= |Batched(s.queue)|
    ensures Stands(on, next) && steps <= on
    ensures next == s.(phase := s.phase.(written := |Batched(s.queue)|), work := next.work)
    decreases |Batched(s.queue)| - s.phase.written
  {
    if s.phase.written == |Batched(s.queue)| {
      on, next := steps, s;
    } else {
      on, next := Go(steps, s, WriteOne);
      on, next := WriteRest(on, next);
    }
  }

  /** A process that waits can bring in the page that follows its checkpoint. */
  lemma {:induction false} PassPage(steps: seq<Step>, s: State, limit: nat) returns (on: seq<Step>, next: State)
    requires Stands(steps, s) && s.phase == Waiting(s.checkpoint) && IsLog(s.log)
    requires AllProjectable(s.log) && After(s.log, s.checkpoint, limit) != []
    ensures Stands(on, next) && steps <= on && next.log == s.log
    ensures next.checkpoint == LastId(s.checkpoint, After(s.log, s.checkpoint, limit))
    ensures next.phase == Waiting(next.checkpoint)
  {
    var batch := After(s.log, s.checkpoint, limit);
    PageIsProjectable(s.log, s.checkpoint, limit);
    on, next := Go(steps, s, Read(limit));
    on, next := ProjectRest(on, next);
    on, next := Go(on, next, BeginFlush);
    on, next := WriteRest(on, next);
    on, next := Go(on, next, SaveCheckpoint);
    on, next := Go(on, next, Commit(true));
  }

  lemma {:induction false} PageIsProjectable(log: seq<Entry>, after: nat, limit: nat)
    requires IsLog(log) && AllProjectable(log)
    ensures AllProjectable(After(log, after, limit))
  {
    var page, n := After(log, after, limit), Position(Ids(log), after);
    var rest := log[n..];
    assert forall i | 0 <= i < |rest| :: rest[i] == log[n + i];
    forall i | 0 <= i < |page| ensures Projectable(page[i]) {
      assert page[i] == rest[i] == log[n + i];
    }
  }

  // ----- The whole log -----

  lemma {:induction false} PassAll(steps: seq<Step>, s: State, limit: nat) returns (on: seq<Step>, next: State)
    requires Stands(steps, s) && s.phase == Waiting(s.checkpoint) && IsLog(s.log)
    requires AllProjectable(s.log) && limit > 0
    ensures Stands(on, next) && steps <= on && next.log == s.log && Left(next.log, next.checkpoint) == 0
    decreases Left(s.log, s.checkpoint)
  {
    if Left(s.log, s.checkpoint) == 0 {
      on, next := steps, s;
    } else {
      PageLeavesLess(s.log, s.checkpoint, limit);
      on, next := PassPage(steps, s, limit);
      on, next := PassAll(on, next, limit);
    }
  }

  /** Whatever has happened, once every entry of the log can be projected: restarting the process and letting
   * it work undisturbed, with batches of any size, commits the projection of the whole log. */
  lemma {:induction false} CatchUpIsReachable(steps: seq<Step>, limit: nat) returns (on: seq<Step>, end: State)
    requires Legal(Init, steps) && limit > 0 && AllProjectable(RunnerProtocol.Run(Init, steps).log)
    ensures steps <= on && Legal(Init, on) && end == RunnerProtocol.Run(Init, on)
    ensures end.log == RunnerProtocol.Run(Init, steps).log && end.db == Projected(end.log)
    ensures IsLog(end.log) && UpTo(end.log, end.checkpoint) == end.log
  {
    var s := RunnerProtocol.Run(Init, steps);
    InvHere(steps, s);
    on, end := Go(steps, s, Fail);
    on, end := Go(on, end, Start);
    on, end := PassAll(on, end, limit);
    NoneLeft(end.log, end.checkpoint);
    CommittedIsProjection(on);
  }
}
