/** Where a reconnect asks from, and what its replay sends again: from the largest id the client knows, and
 * nothing the client had. */
module Reconnect {
  import opened LogOrder
  import opened Handover

  // ----- The cursor -----

  /** A position the client was given: the one it began with, an id it received, or one the page set. */
  ghost predicate Known(initial: nat, received: set<nat>, steps: seq<Step>, position: nat) {
    position == initial || position in received || SetCursor(position) in steps
  }

  ghost predicate IsLargestKnown(initial: nat, received: set<nat>, steps: seq<Step>, cursor: nat) {
    && Known(initial, received, steps, cursor)
    && forall position: nat | Known(initial, received, steps, position) :: position <= cursor
  }

  ghost predicate ReceivedUpTo(s: State) { forall id | id in s.received :: id <= s.cursor }

  lemma {:induction false} StepMovesCursor(s: State, step: Step)
    requires ReceivedUpTo(s) && Enabled(s, step)
    ensures
      var next := Apply(s, step);
      && ReceivedUpTo(next) && s.received <= next.received && s.cursor <= next.cursor
      && (next.cursor == s.cursor || next.cursor in next.received || step == SetCursor(next.cursor))
      && (step.SetCursor? ==> step.id <= next.cursor)
  {
  }

  lemma {:induction false} CursorFrom(s: State, steps: seq<Step>)
    requires ReceivedUpTo(s) && Legal(s, steps)
    ensures ReceivedUpTo(Run(s, steps)) && s.received <= Run(s, steps).received
    ensures IsLargestKnown(s.cursor, Run(s, steps).received, steps, Run(s, steps).cursor)
    decreases |steps|
  {
    if steps == [] {
    } else {
      var next, end := Apply(s, steps[0]), Run(s, steps);
      StepMovesCursor(s, steps[0]);
      CursorFrom(next, steps[1..]);
      assert forall step :: step in steps <==> step == steps[0] || step in steps[1..];
      FirstStepKnown(s, steps[0], next, end, steps);
    }
  }

  lemma {:induction false} FirstStepKnown(s: State, step: Step, next: State, end: State, steps: seq<Step>)
    requires steps != [] && step == steps[0]
    requires IsLargestKnown(next.cursor, end.received, steps[1..], end.cursor) && ReceivedUpTo(end)
    requires s.cursor <= next.cursor && next.received <= end.received
    requires next.cursor == s.cursor || next.cursor in next.received || step == SetCursor(next.cursor)
    requires step.SetCursor? ==> step.id <= next.cursor
    ensures IsLargestKnown(s.cursor, end.received, steps, end.cursor)
  {
    assert forall x :: x in steps <==> x == steps[0] || x in steps[1..];
    assert Known(next.cursor, end.received, steps[1..], next.cursor);
    forall position: nat | Known(s.cursor, end.received, steps, position)
      ensures position <= end.cursor
    {
      if position in end.received || SetCursor(position) in steps[1..] {
        assert Known(next.cursor, end.received, steps[1..], position);
      }
    }
  }

  /** In every run the client's cursor is the largest of the position it began with, the ids it has received
   * and the positions the page has set. */
  lemma {:induction false} CursorIsLargestKnown(cursor: nat, steps: seq<Step>)
    requires Legal(Init(cursor), steps)
    ensures
      var s := Run(Init(cursor), steps);
      IsLargestKnown(cursor, s.received, steps, s.cursor)
  {
    CursorFrom(Init(cursor), steps);
  }

  // ----- The subscription that is asked for -----

  /** Nothing ends the connection. */
  ghost predicate Lasts(steps: seq<Step>) {
    forall i | 0 <= i < |steps| :: !steps[i].Drop? && !steps[i].Restart?
  }

  /** The subscription is on its way, or made; with a position it starts there, and without one nothing is
   * replayed. */
  predicate AskedFrom(s: State, since: nat) {
    match s.link
    case Down => false
    case Asking(asked) => asked == since
    case Up(c) => if since > 0 then c.start == since else c.replay.Over? && c.sentReplay == []
  }

  lemma {:induction false} StepKeepsAsked(s: State, step: Step, since: nat)
    requires AskedFrom(s, since) && Enabled(s, step) && !step.Drop? && !step.Restart?
    ensures AskedFrom(Apply(s, step), since)
  {
    if InServer(step) { ServerStepIsLocal(s, step); }
  }

  lemma {:induction false} RunKeepsAsked(s: State, steps: seq<Step>, since: nat)
    requires AskedFrom(s, since) && Legal(s, steps) && Lasts(steps)
    ensures AskedFrom(Run(s, steps), since)
    decreases |steps|
  {
    if steps == [] {
    } else {
      assert !steps[0].Drop? && !steps[0].Restart?;
      StepKeepsAsked(s, steps[0], since);
      RunKeepsAsked(Apply(s, steps[0]), steps[1..], since);
    }
  }

  lemma {:induction false} FollowersAreAbove(log: seq<nat>, c: nat, ids: seq<nat>)
    requires Follows(log, c, ids)
    ensures forall id | id in ids :: c < id
    decreases |ids|
  {
    if ids == [] {
    } else {
      FollowersAreAbove(log, ids[0], ids[1..]);
      assert forall id | id in ids :: id == ids[0] || id in ids[1..];
    }
  }

  lemma {:induction false} RunSplit(s: State, a: seq<Step>, b: seq<Step>)
    requires Legal(s, a + b)
    ensures Legal(s, a) && Legal(Run(s, a), b) && Run(s, a + b) == Run(Run(s, a), b)
    decreases |a|
  {
    if a == [] {
      assert a + b == b;
    } else {
      assert (a + b)[1..] == a[1..] + b;
      RunSplit(Apply(s, a[0]), a[1..], b);
    }
  }

  /** After any run, a reconnect asks from the largest position the client knows; and as long as the
   * connection lasts, its replay sends ids above that position only, so none of those the client had
   * received when it asked. */
  lemma {:induction false} ReplaySendsNothingReceived(cursor: nat, before: seq<Step>, after: seq<Step>)
    requires Legal(Init(cursor), before + [Ask] + after) && Lasts(after)
    ensures Legal(Init(cursor), before) && Enabled(Run(Init(cursor), before), Ask)
    ensures
      var asked, end := Run(Init(cursor), before), Run(Init(cursor), before + [Ask] + after);
      && IsLargestKnown(cursor, asked.received, before, asked.cursor)
      && AskedFrom(end, asked.cursor)
      && (end.link.Up? ==>
            forall id | id in end.link.conn.sentReplay :: asked.cursor < id && id !in asked.received)
  {
    RunSplit(Init(cursor), before + [Ask], after);
    RunSplit(Init(cursor), before, [Ask]);
    CursorFrom(Init(cursor), before);
    var asked, end := Run(Init(cursor), before), Run(Init(cursor), before + [Ask] + after);
    assert [Ask][1..] == [] && [Ask][0] == Ask;
    assert Run(asked, [Ask]) == Apply(asked, Ask);
    RunKeepsAsked(Apply(asked, Ask), after, asked.cursor);
    InvOnEveryRun(Init(cursor), before + [Ask] + after);
    if end.link.Up? {
      FollowersAreAbove(end.log, end.link.conn.start, end.link.conn.sentReplay);
    }
  }
}
