/** The per-topic goroutine of the WebSocket handler and the replay loop, as the code that runs.
 *
 * `Outgoing` is the connection's bounded outgoing channel.  The methods are proved against what they
 * put into it; `FlushForwardsAll` ties the flush to the single steps of `Handover`.
 */
module TopicStream {
  import opened LogOrder
  import Handover

  class Outgoing {
    const cap: nat
    var queue: seq<nat>

    constructor (cap: nat)
      ensures this.cap == cap && queue == []
    {
      this.cap := cap;
      queue := [];
    }

    /** How many more messages fit. */
    function Room(): nat
      reads this
    {
      if |queue| < cap then cap - |queue| else 0
    }

    method TryPut(id: nat) returns (ok: bool)
      modifies this
      ensures ok <==> old(Room()) > 0
      ensures queue == if ok then old(queue) + [id] else old(queue)
    {
      ok := |queue| < cap;
      if ok {
        queue := queue + [id];
      }
    }
  }

  /** The longest prefix of ids that still fits. */
  function Fitting(ids: seq<nat>, room: nat): seq<nat> {
    if |ids| <= room then ids else ids[..room]
  }

  /** Exactly the ids above the cut, nothing else. */
  lemma {:induction false} AboveKeepsExactly(ids: seq<nat>, max: nat, id: nat)
    ensures multiset(Above(ids, max))[id] == if id <= max then 0 else multiset(ids)[id]
  {
    if ids == [] {
    } else {
      AboveKeepsExactly(ids[1..], max, id);
      assert ids == [ids[0]] + ids[1..];
    }
  }

  lemma {:induction false} AboveKeepsOrder(ids: seq<nat>, max: nat)
    requires Increasing(ids)
    ensures Increasing(Above(ids, max))
    ensures forall x | x in Above(ids, max) :: x in ids
  {
    if ids == [] {
    } else {
      var rest := Above(ids[1..], max);
      AboveKeepsOrder(ids[1..], max);
      forall i | 0 <= i < |rest|
        ensures ids[0] < rest[i]
      {
        assert rest[i] in ids[1..];
      }
    }
  }

  class TopicLoop {
    const out: Outgoing
    var replayReady: bool
    var replayMax: nat
    var buffered: seq<nat>
    var stopped: bool

    /** A goroutine for one subscription: it waits for a replay exactly when a token topic was asked for
     * from a positive position. */
    constructor (out: Outgoing, since: nat, tokenTopic: bool)
      ensures this.out == out && buffered == [] && !stopped
      ensures replayReady <==> since == 0 || !tokenTopic
      ensures replayMax == if replayReady then 0 else since
    {
      this.out := out;
      replayReady := since == 0 || !tokenTopic;
      replayMax := if since == 0 || !tokenTopic then 0 else since;
      buffered := [];
      stopped := false;
    }

    /** The hand-over: everything buffered above the replayed position goes out in order; if it does not
     * all fit, the goroutine gives up after what fits and keeps its buffer. */
    method OnReplayDone(replayedMax: nat)
      requires !stopped
      modifies this, out
      ensures replayReady && replayMax == replayedMax
      ensures out.queue == old(out.queue) + Fitting(Above(old(buffered), replayedMax), old(out.Room()))
      ensures stopped <==> |Above(old(buffered), replayedMax)| > old(out.Room())
      ensures !stopped ==> buffered == []
    {
      replayMax := replayedMax;
      replayReady := true;
      var i := 0;
      while i < |buffered|
        modifies out, `stopped
        invariant i <= |buffered| && !stopped
        invariant |Above(buffered[..i], replayMax)| <= old(out.Room())
        invariant out.queue == old(out.queue) + Above(buffered[..i], replayMax)
      {
        var ev := buffered[i];
        AboveSnoc(buffered[..i], replayMax, ev);
        assert buffered[..i + 1] == buffered[..i] + [ev];
        if ev > replayMax {
          var ok := out.TryPut(ev);
          if !ok {
            stopped := true;
            AbovePrefix(buffered, i, replayMax);
            return;
          }
        }
        i := i + 1;
      }
      assert buffered[..i] == buffered;
      buffered := [];
    }

    /** A live event is held back while the replay runs and forwarded afterwards, whatever its id. */
    method OnEvent(id: nat)
      requires !stopped
      modifies this, out
      ensures replayReady == old(replayReady) && replayMax == old(replayMax)
      ensures !replayReady ==> buffered == old(buffered) + [id] && out.queue == old(out.queue) && !stopped
      ensures replayReady ==> buffered == old(buffered)
      ensures replayReady ==> (stopped <==> old(out.Room()) == 0)
      ensures replayReady ==> out.queue == old(out.queue) + if stopped then [] else [id]
    {
      if !replayReady {
        buffered := buffered + [id];
        return;
      }
      var ok := out.TryPut(id);
      if !ok {
        stopped := true;
      }
    }
  }

  lemma {:induction false} AboveConcat(a: seq<nat>, b: seq<nat>, max: nat)
    ensures Above(a + b, max) == Above(a, max) + Above(b, max)
  {
    if a == [] {
      assert a + b == b;
    } else {
      assert (a + b)[1..] == a[1..] + b;
      AboveConcat(a[1..], b, max);
    }
  }

  lemma {:induction false} AbovePrefix(ids: seq<nat>, i: nat, max: nat)
    requires i < |ids| && ids[i] > max
    ensures Above(ids[..i], max) < Above(ids, max)
  {
    assert ids == ids[..i] + ids[i..];
    AboveConcat(ids[..i], ids[i..], max);
  }

  /** The flush steps of the interleaved model, all of them going through, add up to this method. */
  lemma {:induction false} FlushForwardsAll(s: Handover.State, n: nat)
    requires s.link.Up? && s.link.conn.loop.Flushing? && n == |s.link.conn.loop.held|
    ensures
      var steps := seq(n, i => Handover.FlushNext(true));
      var held, max := s.link.conn.loop.held, s.link.conn.loop.max;
      && Handover.Legal(s, steps)
      && Handover.Run(s, steps).link.Up?
      && Handover.Run(s, steps).link.conn.out == s.link.conn.out + Above(held, max)
      && Handover.Run(s, steps).link.conn.loop == Handover.Flushing([], max)
    decreases n
  {
    var steps := seq(n, i => Handover.FlushNext(true));
    if n > 0 {
      var s1 := Handover.Apply(s, Handover.FlushNext(true));
      assert steps[1..] == seq(n - 1, i => Handover.FlushNext(true));
      FlushForwardsAll(s1, n - 1);
    }
  }

  /** One batch of the replay: the position moves to each event before it is sent, and the first event
   * that does not fit ends the replay. */
  method SendBatch(batch: seq<nat>, after: nat, out: Outgoing) returns (lastLogId: nat, ok: bool)
    requires Increasing([after] + batch)
    modifies out
    ensures out.queue == old(out.queue) + Fitting(batch, old(out.Room()))
    ensures ok <==> |batch| <= old(out.Room())
    ensures lastLogId == if ok then EndOf(after, batch) else batch[old(out.Room())]
  {
    lastLogId, ok := after, true;
    var i := 0;
    while i < |batch|
      invariant i <= |batch| && i <= old(out.Room())
      invariant lastLogId == EndOf(after, batch[..i])
      invariant out.queue == old(out.queue) + batch[..i]
    {
      var event := batch[i];
      assert ([after] + batch)[i] == lastLogId && ([after] + batch)[i + 1] == event;
      if event > lastLogId {
        lastLogId := event;
      }
      var put := out.TryPut(event);
      if !put {
        ok := false;
        return;
      }
      assert batch[..i + 1] == batch[..i] + [event];
      i := i + 1;
    }
    assert batch[..i] == batch;
  }

  /** What a replay from `after` leaves behind: everything above the position that fits, in order; it
   * succeeds exactly when all of it fits, and otherwise its position has moved to the event that did
   * not fit. */
  predicate ReplayOutcome(log: seq<nat>, after: nat, room: nat, before: seq<nat>,
                          queue: seq<nat>, last: nat, ok: bool)
    requires Increasing(log)
  {
    var rest := log[Position(log, after)..];
    && queue == before + Fitting(rest, room)
    && (ok <==> |rest| <= room)
    && last == if ok then EndOf(after, rest) else rest[room]
  }

  /** The replay has sent the first `sent` events above its start and stands at the last of them. */
  predicate InReplay(log: seq<nat>, after: nat, last: nat, sent: nat)
    requires Increasing(log)
  {
    && Position(log, after) + sent <= |log|
    && Position(log, last) == Position(log, after) + sent
    && last == EndOf(after, log[Position(log, after)..][..sent])
  }

  /** One batch: either all of it fits and the replay has moved on by it, or the replay ends with
   * exactly what fits of all there was to replay. */
  lemma {:induction false} BatchStep(log: seq<nat>, after: nat, last: nat, limit: nat, sent: nat, room: nat,
                                     q: seq<nat>)
    requires Increasing(log) && limit > 0 && InReplay(log, after, last, sent) && sent <= room
    ensures
      var rest := log[Position(log, after)..];
      var batch := Page(log, last, limit);
      var out := q + rest[..sent] + Fitting(batch, room - sent);
      && Increasing([last] + batch)
      && (batch == [] ==> sent == |rest| && rest[..sent] == rest)
      && (|batch| <= room - sent ==>
            && sent + |batch| <= |rest| && out == q + rest[..sent + |batch|]
            && (batch != [] ==> InReplay(log, after, EndOf(last, batch), sent + |batch|))
            && (|batch| < limit ==> sent + |batch| == |rest| && rest[..sent + |batch|] == rest))
      && (|batch| > room - sent ==>
            |rest| > room && out == q + Fitting(rest, room) && batch[room - sent] == rest[room])
  {
    var rest := log[Position(log, after)..];
    var batch := Page(log, last, limit);
    PageContinues(log, after, last, limit, sent);
    PageAscends(log, last, limit);
    BatchOut(rest, room, sent, batch, q);
    if batch != [] {
      PageEnds(log, after, last, limit, sent);
    }
  }

  lemma {:induction false} BatchOut(rest: seq<nat>, room: nat, sent: nat, batch: seq<nat>, q: seq<nat>)
    requires sent <= |rest| && sent <= room && batch <= rest[sent..]
    ensures
      var out := q + rest[..sent] + Fitting(batch, room - sent);
      && sent + |batch| <= |rest|
      && (|batch| <= room - sent ==> out == q + rest[..sent + |batch|])
      && (|batch| > room - sent ==> |rest| > room && out == q + Fitting(rest, room) && batch[room - sent] == rest[room])
      && (sent == |rest| ==> rest[..sent] == rest)
      && (sent + |batch| == |rest| ==> rest[..sent + |batch|] == rest)
  {
  }

  /** One batch of the replay; `done` tells a batch that came up short. */
  method ReplayBatch(log: seq<nat>, last: nat, batchSize: nat, out: Outgoing,
                     ghost after: nat, ghost sent: nat, ghost room: nat, ghost before: seq<nat>)
    returns (lastLogId: nat, ok: bool, done: bool, ghost sent': nat)
    requires Increasing(log) && batchSize > 0 && InReplay(log, after, last, sent)
    requires out.queue == before + log[Position(log, after)..][..sent] && sent + out.Room() == room
    modifies out
    ensures !ok || done ==> ReplayOutcome(log, after, room, before, out.queue, lastLogId, ok)
    ensures ok && !done ==>
              && sent < sent' && InReplay(log, after, lastLogId, sent')
              && out.queue == before + log[Position(log, after)..][..sent']
              && sent' + out.Room() == room
  {
    var batch := Page(log, last, batchSize);
    PageAscends(log, last, batchSize);
    lastLogId, ok := SendBatch(batch, last, out);
    done := |batch| < batchSize;
    sent' := sent + |batch|;
    BatchOutcome(log, after, last, batchSize, sent, room, before, out.queue, lastLogId, ok);
  }

  /** What the sent batch means for the replay as a whole. */
  lemma {:induction false} BatchOutcome(log: seq<nat>, after: nat, last: nat, limit: nat, sent: nat, room: nat,
                                        before: seq<nat>, queue: seq<nat>, lastLogId: nat, ok: bool)
    requires Increasing(log) && limit > 0 && InReplay(log, after, last, sent) && sent <= room
    requires queue == before + log[Position(log, after)..][..sent] + Fitting(Page(log, last, limit), room - sent)
    requires ok <==> |Page(log, last, limit)| <= room - sent
    requires lastLogId == if ok then EndOf(last, Page(log, last, limit)) else Page(log, last, limit)[room - sent]
    ensures
      var n := |Page(log, last, limit)|;
      && (!ok || n < limit ==> ReplayOutcome(log, after, room, before, queue, lastLogId, ok))
      && (ok && n >= limit ==>
            && n > 0 && InReplay(log, after, lastLogId, sent + n)
            && queue == before + log[Position(log, after)..][..sent + n])
  {
    BatchStep(log, after, last, limit, sent, room, before);
  }

  /** replayTopic: batch after batch of the mint's events above the position, until a batch comes up
   * short or the outgoing channel is full.  `topicHasEvents` is false when there is no event query, or
   * the topic is not a token topic, or names no mint. */
  method ReplayTopic(log: seq<nat>, after: nat, topicHasEvents: bool, batchSize: nat, out: Outgoing)
    returns (lastLogId: nat, ok: bool)
    requires Increasing(log) && batchSize > 0
    modifies out
    ensures !topicHasEvents ==> ok && lastLogId == after && out.queue == old(out.queue)
    ensures topicHasEvents ==>
              ReplayOutcome(log, after, old(out.Room()), old(out.queue), out.queue, lastLogId, ok)
  {
    lastLogId, ok := after, true;
    if !topicHasEvents {
      return;
    }
    ghost var sent := 0;
    var done := false;
    assert out.queue == out.queue + log[Position(log, after)..][..0];
    while ok && !done
      invariant !ok || done ==>
                  ReplayOutcome(log, after, old(out.Room()), old(out.queue), out.queue, lastLogId, ok)
      invariant ok && !done ==>
                  && InReplay(log, after, lastLogId, sent)
                  && out.queue == old(out.queue) + log[Position(log, after)..][..sent]
                  && sent + out.Room() == old(out.Room())
      decreases ok && !done, |log| - sent
    {
      lastLogId, ok, done, sent :=
        ReplayBatch(log, lastLogId, batchSize, out, after, sent, old(out.Room()), old(out.queue));
    }
  }

  /** The page read after `sent` events continues what is left, and a short page ends it. */
  lemma {:induction false} PageContinues(log: seq<nat>, after: nat, last: nat, limit: nat, sent: nat)
    requires Increasing(log) && limit > 0
    requires Position(log, after) + sent <= |log| && Position(log, last) == Position(log, after) + sent
    ensures
      var rest := log[Position(log, after)..];
      var batch := Page(log, last, limit);
      && batch <= rest[sent..]
      && (|batch| < limit ==> sent + |batch| == |rest|)
      && (batch == [] ==> sent == |rest|)
  {
  }

  lemma {:induction false} PageEnds(log: seq<nat>, after: nat, last: nat, limit: nat, sent: nat)
    requires Increasing(log) && limit > 0
    requires Position(log, after) + sent <= |log| && Position(log, last) == Position(log, after) + sent
    requires Page(log, last, limit) != [] && sent + |Page(log, last, limit)| <= |log| - Position(log, after)
    ensures
      var rest := log[Position(log, after)..];
      var batch := Page(log, last, limit);
      && EndOf(last, batch) == EndOf(after, rest[..sent + |batch|])
      && Position(log, EndOf(last, batch)) == Position(log, after) + sent + |batch|
  {
    var start := Position(log, after);
    var page := Page(log, last, limit);
    var k := sent + |page|;
    PageIs(log, last, limit);
    assert page[|page| - 1] == log[start + k - 1];
    TakeOfDrop(log, start, k);
    PositionOf(log, start + k - 1);
  }

  lemma {:induction false} TakeOfDrop(xs: seq<nat>, start: nat, k: nat)
    requires 0 < k && start + k <= |xs|
    ensures xs[start..][..k] != [] && xs[start..][..k][k - 1] == xs[start + k - 1] && |xs[start..][..k]| == k
  {
  }

  /** A page is the next stretch of the log, cut at the limit. */
  lemma {:induction false} PageIs(log: seq<nat>, last: nat, limit: nat)
    requires Increasing(log)
    ensures
      var at := Position(log, last);
      var n := if |log| - at <= limit then |log| - at else limit;
      Page(log, last, limit) == log[at..at + n]
  {
  }

  lemma {:induction false} PageAscends(log: seq<nat>, last: nat, limit: nat)
    requires Increasing(log)
    ensures Increasing([last] + Page(log, last, limit))
  {
  }

  lemma {:induction false} PositionOf(log: seq<nat>, i: nat)
    requires Increasing(log) && i < |log|
    ensures Position(log, log[i]) == i + 1
  {
    if i + 1 < |log| { assert log[i] < log[i + 1]; }
  }
}
