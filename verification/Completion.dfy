/** Where a run of an open subscription leads when nothing fails any more: the events still outstanding
 * between the log and the client run out, and the client then has everything.
 */
module Completion {
  import opened LogOrder
  import opened Handover

  /** Nothing is outstanding anywhere between the log and the client. */
  predicate Quiet(s: State) {
    && s.link.Up? && s.link.conn.open && s.link.conn.replay.Over? && s.link.conn.loop.Live?
    && s.link.conn.events == [] && s.link.conn.out == [] && s.published == |s.log|
  }

  /** Whenever the pipeline of an open subscription is empty the client has everything. */
  lemma {:induction false} QuietMeansComplete(cursor: nat, steps: seq<Step>)
    requires Legal(Init(cursor), steps) && Quiet(Run(Init(cursor), steps))
    ensures
      var s := Run(Init(cursor), steps);
      forall i | 0 <= i < |s.log| && s.base < s.log[i] :: s.log[i] in s.received
  {
    InvOnEveryRun(Init(cursor), steps);
    QuietIsComplete(Run(Init(cursor), steps));
  }

  lemma {:induction false} QuietIsComplete(s: State)
    requires Inv(s) && Quiet(s)
    ensures forall i | 0 <= i < |s.log| && s.base < s.log[i] :: s.log[i] in s.received
  {
    var c := s.link.conn;
    assert Held(c.loop) + c.events == [];
    forall i | 0 <= i < |s.log| && s.base < s.log[i]
      ensures s.log[i] in s.received
    {
      assert s.log[i] <= c.pos;
    }
  }

  /** The subscription is open, its goroutine runs and its replay has not given up. */
  predicate Going(s: State) {
    s.link.Up? && s.link.conn.open && !s.link.conn.loop.Gone? && !s.link.conn.replay.Failed?
  }

  /** A step of the publisher, the server or the client that goes through; no event is added. */
  predicate GoesThrough(step: Step) {
    match step
    case Publish(ok) => ok
    case ReplaySend(ok) => ok
    case FlushNext(ok) => ok
    case TakeEvent(ok) => ok
    case ReplayFetch => true
    case ReplayBatchEnd => true
    case TakeReplayDone => true
    case FlushEnd => true
    case Receive => true
    case _ => false
  }

  ghost predicate AllGoThrough(steps: seq<Step>) {
    forall i | 0 <= i < |steps| :: GoesThrough(steps[i])
  }

  /** What still has to be done for a quiet state: publish, replay, hand over, handle, receive. */
  function Next(s: State): Step
    requires Inv(s) && Going(s) && !Quiet(s)
  {
    var c := s.link.conn;
    if s.published < |s.log| then Publish(true)
    else if c.replay.Idle? then ReplayFetch
    else if c.replay.Sending? && c.replay.rest != [] then ReplaySend(true)
    else if c.replay.Sending? then ReplayBatchEnd
    else if c.replay.Handing? then TakeReplayDone
    else if c.loop.Flushing? && c.loop.held != [] then FlushNext(true)
    else if c.loop.Flushing? then FlushEnd
    else if c.events != [] then TakeEvent(true)
    else Receive
  }

  /** How many events of the log lie above a position. */
  function Ahead(log: seq<nat>, last: nat): nat
    requires Increasing(log)
  {
    |log| - Position(log, last)
  }

  /** How far replay is from its end. */
  function ReplayLeft(log: seq<nat>, replay: Replay): nat
    requires Increasing(log)
  {
    match replay
    case Idle(last) => 3 * Ahead(log, last) + 3
    case Sending(last, rest, _) => 3 * Ahead(log, last) + (if rest == [] then 4 else 2)
    case Handing(_) => 1
    case Over => 0
    case Failed => 0
  }

  function LoopLeft(loop: Loop): nat {
    |Held(loop)| + if loop.Flushing? then 1 else 0
  }

  lemma {:induction false} NextIsEnabled(s: State)
    requires Inv(s) && Going(s) && !Quiet(s)
    ensures GoesThrough(Next(s)) && Enabled(s, Next(s))
    ensures Going(Apply(s, Next(s))) && Apply(s, Next(s)).log == s.log && Apply(s, Next(s)).base == s.base
  {
  }

  lemma {:induction false} SendingAdvances(log: seq<nat>, last: nat, id: nat)
    requires Increasing(log) && NextIn(log, last, id)
    ensures Ahead(log, Max(last, id)) < Ahead(log, last)
  {
    var i :| 0 <= i < |log| && log[i] == id;
    assert Position(log, last) <= i < Position(log, id);
  }

  lemma {:induction false} FetchAdvances(log: seq<nat>, c: Conn)
    requires Increasing(log) && c.replay.Idle?
    ensures ReplayLeft(log, FetchBatch(log, c).replay) < ReplayLeft(log, c.replay)
  {
  }

  lemma {:induction false} ReplayAdvances(log: seq<nat>, c: Conn)
    requires Increasing(log) && ReplayOk(log, c) && c.replay.Sending? && c.replay.rest != []
    ensures ReplayLeft(log, SendReplayed(c, true).replay) < ReplayLeft(log, c.replay)
  {
    SendingAdvances(log, c.replay.last, c.replay.rest[0]);
  }

  /** What is left to do, most significant part first: events to publish, replay, events in the hub
   * channel, events in the goroutine's buffer, events on their way to the client. */
  datatype Work = Work(unpublished: nat, replay: nat, queued: nat, held: nat, out: nat)

  function WorkOf(s: State): Work
    requires Increasing(s.log) && s.published <= |s.log| && s.link.Up?
  {
    var c := s.link.conn;
    Work(|s.log| - s.published, ReplayLeft(s.log, c.replay), |c.events|, LoopLeft(c.loop), |c.out|)
  }

  predicate Less(a: Work, b: Work) {
    || a.unpublished < b.unpublished
    || (a.unpublished == b.unpublished && a.replay < b.replay)
    || (a.unpublished == b.unpublished && a.replay == b.replay && a.queued < b.queued)
    || (a.unpublished == b.unpublished && a.replay == b.replay && a.queued == b.queued && a.held < b.held)
    || (a.unpublished == b.unpublished && a.replay == b.replay && a.queued == b.queued && a.held == b.held
        && a.out < b.out)
  }

  lemma {:induction false} ReplayIsCloser(s: State)
    requires Inv(s) && Going(s) && s.published == |s.log| && !s.link.conn.replay.Over?
    ensures Enabled(s, Next(s)) && Apply(s, Next(s)).link.Up?
    ensures Less(WorkOf(Apply(s, Next(s))), WorkOf(s))
  {
    var c := s.link.conn;
    if c.replay.Idle? {
      FetchAdvances(s.log, c);
    } else if c.replay.Sending? && c.replay.rest != [] {
      ReplayAdvances(s.log, c);
    }
  }

  lemma {:induction false} LoopIsCloser(s: State)
    requires Inv(s) && Going(s) && !Quiet(s) && s.published == |s.log| && s.link.conn.replay.Over?
    ensures Enabled(s, Next(s)) && Apply(s, Next(s)).link.Up?
    ensures Less(WorkOf(Apply(s, Next(s))), WorkOf(s))
  {
    assert !s.link.conn.loop.Buffering?;
  }

  lemma {:induction false} NextIsCloser(s: State) returns (s': State)
    requires Inv(s) && Going(s) && !Quiet(s)
    ensures Enabled(s, Next(s)) && GoesThrough(Next(s)) && s' == Apply(s, Next(s))
    ensures Inv(s') && Going(s') && s'.log == s.log && s'.base == s.base && Less(WorkOf(s'), WorkOf(s))
  {
    NextIsEnabled(s);
    StepKeepsInv(s, Next(s));
    s' := Apply(s, Next(s));
    if s.published == |s.log| {
      if s.link.conn.replay.Over? {
        LoopIsCloser(s);
      } else {
        ReplayIsCloser(s);
      }
    }
  }

  /** The steps go through one after the other and end in a quiet state with nothing added. */
  ghost predicate LeadsToQuiet(s: State, steps: seq<Step>) {
    && Legal(s, steps) && AllGoThrough(steps)
    && var s' := Run(s, steps);
       Inv(s') && Quiet(s') && s'.log == s.log && s'.base == s.base
  }

  lemma {:induction false} OneBefore(s: State, step: Step, s': State, rest: seq<Step>)
    requires Enabled(s, step) && GoesThrough(step) && s' == Apply(s, step)
    requires s'.log == s.log && s'.base == s.base && LeadsToQuiet(s', rest)
    ensures LeadsToQuiet(s, [step] + rest)
  {
    assert ([step] + rest)[1..] == rest;
  }

  /** From every reachable state of an open, unrefused subscription, steps that go through lead to a
   * state where the client has everything. */
  lemma {:induction false} QuietIsReachable(s: State, work: Work) returns (steps: seq<Step>)
    requires Inv(s) && Going(s) && work == WorkOf(s)
    ensures LeadsToQuiet(s, steps)
    decreases work.unpublished, work.replay, work.queued, work.held, work.out
  {
    if Quiet(s) {
      steps := [];
    } else {
      var s' := NextIsCloser(s);
      var rest := QuietIsReachable(s', WorkOf(s'));
      steps := [Next(s)] + rest;
      OneBefore(s, Next(s), s', rest);
    }
  }

  /** Whatever has happened before, an open, unrefused subscription can complete the client's stream. */
  lemma {:induction false} CompletionIsReachable(cursor: nat, steps: seq<Step>) returns (more: seq<Step>)
    requires Legal(Init(cursor), steps) && Going(Run(Init(cursor), steps))
    ensures LeadsToQuiet(Run(Init(cursor), steps), more)
    ensures
      var s := Run(Run(Init(cursor), steps), more);
      && s.log == Run(Init(cursor), steps).log
      && forall i | 0 <= i < |s.log| && s.base < s.log[i] :: s.log[i] in s.received
  {
    InvOnEveryRun(Init(cursor), steps);
    var s := Run(Init(cursor), steps);
    more := QuietIsReachable(s, WorkOf(s));
    QuietIsComplete(Run(s, more));
  }
}
