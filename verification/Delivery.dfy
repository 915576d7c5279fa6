/** What one subscription has been sent, exactly: which events twice, and which never.
 *
 * The statements read the history fields of `Conn`.  The runs that show a promise broken are held to
 * the capacities of the two channels, so a send in them fails only on a full channel.
 */
module Delivery {
  import opened Options
  import opened LogOrder
  import opened Handover

  const HubCapacity: nat := 64
  const OutCapacity: nat := 256

  // ----- The history of a connection -----

  /** The largest id replay has sent, or the position it started from. */
  function ReplayMax(c: Conn): nat { EndOf(c.start, c.sentReplay) }

  /** The log index from which on the topic goroutine forwards without comparing ids. */
  function LiveFrom(c: Conn): nat {
    match c.handed
    case Some(h) => h
    case None => c.from
  }

  /** The log index the hub channel reaches up to. */
  function Reach(published: nat, c: Conn): nat { if c.open then published else c.cut }

  /** Of the log entries from `joined` up to `n`, those from `h` on, and before `h` those above `max`. */
  function Stretch(log: seq<nat>, joined: nat, h: nat, n: nat, max: nat): seq<nat>
    requires joined <= h <= n <= |log|
  {
    Above(log[joined..h], max) + log[h..n]
  }

  lemma {:induction false} BufferedGrows(log: seq<nat>, joined: nat, n: nat, max: nat)
    requires joined <= n < |log|
    ensures Stretch(log, joined, n + 1, n + 1, max) ==
              Stretch(log, joined, n, n, max) + (if log[n] <= max then [] else [log[n]])
  {
    assert log[joined..n + 1] == log[joined..n] + [log[n]];
    AboveSnoc(log[joined..n], max, log[n]);
    assert log[n..n] == [] && log[n + 1..n + 1] == [];
  }

  lemma {:induction false} LiveGrows(log: seq<nat>, joined: nat, h: nat, n: nat, max: nat)
    requires joined <= h <= n < |log|
    ensures Stretch(log, joined, h, n + 1, max) == Stretch(log, joined, h, n, max) + [log[n]]
  {
    assert log[h..n + 1] == log[h..n] + [log[n]];
  }

  lemma {:induction false} NothingYet(log: seq<nat>, n: nat, max: nat)
    requires n <= |log|
    ensures Stretch(log, n, n, n, max) == []
  {
    assert log[n..n] == [];
  }

  lemma {:induction false} StretchKept(log: seq<nat>, id: nat, joined: nat, h: nat, n: nat, max: nat)
    requires joined <= h <= n <= |log|
    ensures Stretch(log + [id], joined, h, n, max) == Stretch(log, joined, h, n, max)
  {
    assert (log + [id])[joined..h] == log[joined..h];
    assert (log + [id])[h..n] == log[h..n];
  }

  /** The topic goroutine has sent the buffered events above the replayed ones, and everything since. */
  predicate LiveIs(log: seq<nat>, c: Conn) {
    && c.joined <= LiveFrom(c) <= c.from <= |log|
    && c.sentLive == Stretch(log, c.joined, LiveFrom(c), c.from, ReplayMax(c))
    && c.pos == Max(ReplayMax(c), EndOf(0, c.sentLive))
  }

  predicate PhaseOk(log: seq<nat>, c: Conn) {
    && (!c.replay.Over? ==> c.from == c.joined && c.handed == None)
    && (c.replay.Over? || c.replay.Handing? ==> Past(log, c.joined, ReplayMax(c)))
    && (c.loop.Live? ==> c.handed.Some?)
    && (c.loop.Flushing? ==> c.handed == None)
    && (c.loop.Gone? && !c.closing ==> !c.open && (c.replay.Over? ==> c.from == c.cut))
    && (c.replay.Failed? ==> c.closing)
  }

  predicate ReachOk(published: nat, c: Conn) {
    && c.from <= Reach(published, c) <= published
    && (!c.loop.Gone? ==> c.from + |Held(c.loop)| + |c.events| == Reach(published, c))
  }

  predicate HistoryOk(log: seq<nat>, published: nat, c: Conn) {
    LiveIs(log, c) && PhaseOk(log, c) && ReachOk(published, c)
  }

  ghost predicate DeliveryInv(s: State) {
    Inv(s) && (s.link.Up? ==> HistoryOk(s.log, s.published, s.link.conn))
  }

  // ----- Every step keeps it -----

  lemma {:induction false} InsertKeepsHistory(log: seq<nat>, published: nat, c: Conn, id: nat)
    requires HistoryOk(log, published, c)
    ensures HistoryOk(log + [id], published, c)
  {
    StretchKept(log, id, c.joined, LiveFrom(c), c.from, ReplayMax(c));
  }

  lemma {:induction false} PublishKeepsHistory(s: State, ok: bool)
    requires s.link.Up? && HistoryOk(s.log, s.published, s.link.conn) && Enabled(s, Publish(ok))
    ensures HistoryOk(s.log, s.published + 1, Apply(s, Publish(ok)).link.conn)
  {
    var c, c' := s.link.conn, Apply(s, Publish(ok)).link.conn;
    assert LiveFrom(c') == LiveFrom(c) && ReplayMax(c') == ReplayMax(c);
    assert LiveIs(s.log, c') && PhaseOk(s.log, c');
  }

  lemma {:induction false} SubscribedHasHistory(log: seq<nat>, published: nat, since: nat)
    requires Increasing(log) && published <= |log|
    ensures HistoryOk(log, published, Subscribed(log, published, since))
  {
    NothingYet(log, published, Subscribed(log, published, since).start);
  }

  lemma {:induction false} SendKeepsLive(log: seq<nat>, c: Conn, c': Conn, id: nat)
    requires LiveIs(log, c) && c.from == c.joined && c.handed == None && ReplayMax(c) == c.pos < id
    requires c' == Enqueue(c, id).(replay := c'.replay, sentReplay := c.sentReplay + [id])
    ensures LiveIs(log, c')
  {
    NothingYet(log, c.from, c.pos);
    NothingYet(log, c.from, id);
  }

  lemma {:induction false} SendKeepsHistory(log: seq<nat>, published: nat, c: Conn, ok: bool)
    requires ConnOk(log, published, c) && HistoryOk(log, published, c)
    requires c.replay.Sending? && c.replay.rest != []
    ensures HistoryOk(log, published, SendReplayed(c, ok))
  {
    if ok {
      SendKeepsLive(log, c, SendReplayed(c, ok), c.replay.rest[0]);
    }
  }

  lemma {:induction false} SkipKeepsLive(log: seq<nat>, c: Conn, next: Loop)
    requires LiveIs(log, c) && c.handed == None && c.from < |log| && log[c.from] <= ReplayMax(c)
    ensures LiveIs(log, c.(loop := next, from := c.from + 1))
  {
    BufferedGrows(log, c.joined, c.from, ReplayMax(c));
  }

  lemma {:induction false} LastIsBelow(log: seq<nat>, c: Conn)
    requires Increasing(log) && LoopOk(log, c) && c.from < |log| && c.sentLive != []
    ensures EndOf(0, c.sentLive) < log[c.from]
  {
    var last := c.sentLive[|c.sentLive| - 1];
    var j :| 0 <= j < c.from && log[..c.from][j] == last;
    assert log[j] < log[c.from];
  }

  lemma {:induction false} ForwardKeepsLiveIs(log: seq<nat>, c: Conn, next: Loop)
    requires Increasing(log) && LiveIs(log, c) && LoopOk(log, c)
    requires c.from < |log| && (c.handed == None ==> ReplayMax(c) < log[c.from])
    ensures LiveIs(log, Forward(c, log[c.from], true, next))
  {
    var n, id := c.from, log[c.from];
    var c' := Forward(c, id, true, next);
    if c.handed == None {
      BufferedGrows(log, c.joined, n, ReplayMax(c));
    } else {
      LiveGrows(log, c.joined, LiveFrom(c), n, ReplayMax(c));
    }
    assert c'.sentLive == c.sentLive + [id] && EndOf(0, c'.sentLive) == id;
    assert ReplayMax(c') == ReplayMax(c);
    if c.sentLive != [] {
      LastIsBelow(log, c);
    }
  }

  /** What the goroutine handles next is the log entry it stands at. */
  lemma {:induction false} HeldHead(log: seq<nat>, published: nat, c: Conn)
    requires published <= |log| && QueueOk(log, published, c) && Held(c.loop) != []
    ensures c.from < |log| && Held(c.loop)[0] == log[c.from]
  {
    assert (Held(c.loop) + c.events)[0] == Held(c.loop)[0];
  }

  lemma {:induction false} FlushKeepsLiveIs(log: seq<nat>, c: Conn, ok: bool)
    requires Increasing(log) && LoopOk(log, c) && LiveIs(log, c) && c.handed == None
    requires c.loop.Flushing? && c.loop.held != [] && c.from < |log| && c.loop.held[0] == log[c.from]
    ensures LiveIs(log, Flush(c, ok))
  {
    var next := Flushing(c.loop.held[1..], c.loop.max);
    if c.loop.held[0] <= c.loop.max {
      SkipKeepsLive(log, c, next);
    } else if ok {
      ForwardKeepsLiveIs(log, c, next);
    }
  }

  lemma {:induction false} FlushKeepsReach(published: nat, c: Conn, ok: bool)
    requires ReachOk(published, c) && c.loop.Flushing? && c.loop.held != []
    ensures ReachOk(published, Flush(c, ok))
  {
  }

  lemma {:induction false} FlushKeepsPhase(log: seq<nat>, c: Conn, ok: bool)
    requires PhaseOk(log, c) && c.loop.Flushing? && c.loop.held != [] && c.replay.Over?
    ensures PhaseOk(log, Flush(c, ok))
  {
  }

  lemma {:induction false} FlushKeepsHistory(log: seq<nat>, published: nat, c: Conn, ok: bool)
    requires Increasing(log) && published <= |log| && ConnOk(log, published, c) && HistoryOk(log, published, c)
    requires c.loop.Flushing? && c.loop.held != []
    ensures HistoryOk(log, published, Flush(c, ok))
  {
    HeldHead(log, published, c);
    FlushKeepsLiveIs(log, c, ok);
    FlushKeepsReach(published, c, ok);
    FlushKeepsPhase(log, c, ok);
  }

  lemma {:induction false} HandleKeepsHistory(log: seq<nat>, published: nat, c: Conn, ok: bool)
    requires Increasing(log) && published <= |log| && ConnOk(log, published, c) && HistoryOk(log, published, c)
    requires (c.loop.Buffering? || c.loop.Live?) && c.events != []
    ensures HistoryOk(log, published, HandleEvent(c, ok))
  {
    if c.loop.Live? {
      LiveKeepsQueue(log, published, c, ok);
      var c1 := c.(events := c.events[1..], taken := c.taken + 1);
      assert LoopOk(log, c1);
      if ok {
        ForwardKeepsLiveIs(log, c1, Live);
      }
    }
  }

  lemma {:induction false} FetchKeepsHistory(log: seq<nat>, published: nat, c: Conn)
    requires Increasing(log) && ConnOk(log, published, c) && HistoryOk(log, published, c) && c.replay.Idle?
    ensures HistoryOk(log, published, FetchBatch(log, c))
  {
    PageFollows(log, c.replay.last, BatchSize);
    assert LiveIs(log, FetchBatch(log, c));
  }

  lemma {:induction false} EndKeepsHistory(log: seq<nat>, published: nat, c: Conn)
    requires ConnOk(log, published, c) && HistoryOk(log, published, c) && c.replay.Sending? && c.replay.rest == []
    ensures HistoryOk(log, published, EndBatch(c))
  {
    assert LiveIs(log, EndBatch(c));
  }

  /** The steps that only move a goroutine on. */
  lemma {:induction false} QuietStepKeepsHistory(s: State, step: Step)
    requires s.link.Up? && ConnOk(s.log, s.published, s.link.conn) && Enabled(s, step)
    requires HistoryOk(s.log, s.published, s.link.conn)
    requires step.ReplayError? || step.TakeReplayDone? || step.FlushEnd?
      || step.SeesOverflow? || step.SeesClosed? || step.OtherRefused? || step.OtherOverflows?
    ensures HistoryOk(s.log, s.published, Apply(s, step).link.conn)
  {
    var c, c' := s.link.conn, Apply(s, step).link.conn;
    assert c'.sentReplay == c.sentReplay && c'.sentLive == c.sentLive && c'.start == c.start;
    assert LiveFrom(c') == LiveFrom(c) && ReplayMax(c') == ReplayMax(c);
    assert LiveIs(s.log, c') && PhaseOk(s.log, c');
  }

  lemma {:induction false} ServerStepKeepsHistory(s: State, step: Step)
    requires Inv(s) && Enabled(s, step) && InServer(step) && HistoryOk(s.log, s.published, s.link.conn)
    ensures Apply(s, step).link.Up? && HistoryOk(s.log, s.published, Apply(s, step).link.conn)
  {
    var log, published, c := s.log, s.published, s.link.conn;
    match step
    case ReplayFetch => FetchKeepsHistory(log, published, c);
    case ReplaySend(ok) => SendKeepsHistory(log, published, c, ok);
    case ReplayBatchEnd => EndKeepsHistory(log, published, c);
    case FlushNext(ok) => FlushKeepsHistory(log, published, c, ok);
    case TakeEvent(ok) => HandleKeepsHistory(log, published, c, ok);
    case _ => QuietStepKeepsHistory(s, step);
  }

  lemma {:induction false} OtherStepKeepsHistory(s: State, step: Step)
    requires DeliveryInv(s) && Enabled(s, step) && !InServer(step) && Apply(s, step).link.Up?
    ensures HistoryOk(Apply(s, step).log, Apply(s, step).published, Apply(s, step).link.conn)
  {
    match step
    case Insert(id) => InsertKeepsHistory(s.log, s.published, s.link.conn, id);
    case Publish(ok) => PublishKeepsHistory(s, ok);
    case ServerSubscribe => SubscribedHasHistory(s.log, s.published, s.link.since);
    case Receive =>
      var c, c' := s.link.conn, Apply(s, step).link.conn;
      assert LiveFrom(c') == LiveFrom(c) && ReplayMax(c') == ReplayMax(c);
    case SetCursor(id) =>
      assert Apply(s, step).link == s.link;
  }

  lemma {:induction false} StepKeepsDelivery(s: State, step: Step)
    requires DeliveryInv(s) && Enabled(s, step)
    ensures DeliveryInv(Apply(s, step))
  {
    StepKeepsInv(s, step);
    if InServer(step) {
      ServerStepKeepsHistory(s, step);
      ServerStepIsLocal(s, step);
    } else if Apply(s, step).link.Up? {
      OtherStepKeepsHistory(s, step);
    }
  }

  lemma {:induction false} DeliveryOnEveryRun(s: State, steps: seq<Step>)
    requires DeliveryInv(s) && Legal(s, steps)
    ensures DeliveryInv(Run(s, steps))
    decreases |steps|
  {
    if steps == [] {
    } else {
      StepKeepsDelivery(s, steps[0]);
      DeliveryOnEveryRun(Apply(s, steps[0]), steps[1..]);
    }
  }

  // ----- How often an event is sent -----

  /** How often one id has been put into the outgoing queue of one subscription. */
  function TimesSent(c: Conn, id: nat): nat {
    multiset(c.sentReplay)[id] + multiset(c.sentLive)[id]
  }

  lemma {:induction false} OnceInIncreasing(ids: seq<nat>, id: nat)
    requires Increasing(ids)
    ensures multiset(ids)[id] == if id in ids then 1 else 0
  {
    if ids == [] {
    } else {
      var init := ids[..|ids| - 1];
      assert ids == init + [ids[|ids| - 1]];
      OnceInIncreasing(init, id);
      if id in init {
        var i :| 0 <= i < |init| && init[i] == id;
        assert ids[i] < ids[|ids| - 1];
      }
    }
  }

  lemma {:induction false} InAbove(ids: seq<nat>, max: nat, id: nat)
    ensures id in Above(ids, max) <==> id in ids && max < id
  {
    if ids == [] {
    } else {
      InAbove(ids[1..], max, id);
    }
  }

  /** What has been sent once or twice, exactly: replay sends the events of the log above the requested
   * position up to the last one it sent; the topic goroutine sends those of the buffered stretch that
   * replay has not, and of the live stretch all. */
  lemma {:induction false} TimesSentExactly(cursor: nat, steps: seq<Step>, id: nat)
    requires Legal(Init(cursor), steps) && Run(Init(cursor), steps).link.Up?
    ensures
      var s := Run(Init(cursor), steps);
      var c := s.link.conn;
      && c.joined <= LiveFrom(c) <= c.from <= |s.log|
      && Increasing(c.sentReplay) && Increasing(c.sentLive)
      && multiset(c.sentReplay)[id] == (if id in s.log && c.start < id <= ReplayMax(c) then 1 else 0)
      && multiset(c.sentLive)[id] ==
           (if (ReplayMax(c) < id && id in s.log[c.joined..LiveFrom(c)]) || id in s.log[LiveFrom(c)..c.from]
            then 1 else 0)
  {
    DeliveryOnEveryRun(Init(cursor), steps);
    var s := Run(Init(cursor), steps);
    var c := s.link.conn;
    FollowsExactly(s.log, c.start, c.sentReplay);
    OnceInIncreasing(c.sentReplay, id);
    OnceInIncreasing(c.sentLive, id);
    InAbove(s.log[c.joined..LiveFrom(c)], ReplayMax(c), id);
  }

  /** Exactly-once fails exactly here: an event is sent twice when replay has sent it and the topic
   * goroutine handled it after the hand-over, where nothing compares it with what replay has sent; it may
   * have been published, and be waiting in the hub channel, before that. */
  lemma {:induction false} SentTwiceIff(cursor: nat, steps: seq<Step>, id: nat)
    requires Legal(Init(cursor), steps) && Run(Init(cursor), steps).link.Up?
    ensures
      var s := Run(Init(cursor), steps);
      var c := s.link.conn;
      && LiveFrom(c) <= c.from <= |s.log|
      && TimesSent(c, id) <= 2
      && (id > ReplayMax(c) ==> TimesSent(c, id) <= 1)
      && (TimesSent(c, id) == 2 <==> c.start < id <= ReplayMax(c) && id in s.log[LiveFrom(c)..c.from])
  {
    TimesSentExactly(cursor, steps, id);
  }

  // ----- What is never sent -----

  /** In the hub channel or in the goroutine's buffer, with a goroutine to handle it. */
  predicate Waiting(c: Conn, id: nat) {
    !c.loop.Gone? && id in Held(c.loop) + c.events
  }

  /** The log index from which on this subscription handles nothing any more, if there is one. */
  function LostFrom(c: Conn): Option<nat> {
    if c.loop.Gone? then Some(c.from)
    else if !c.open then Some(c.cut)
    else None
  }

  lemma {:induction false} LiveHas(log: seq<nat>, c: Conn, i: nat)
    requires LiveIs(log, c) && c.joined <= i < c.from && ReplayMax(c) < log[i]
    ensures log[i] in c.sentLive
  {
    var h := LiveFrom(c);
    if i < h {
      assert log[c.joined..h][i - c.joined] == log[i];
      InAbove(log[c.joined..h], ReplayMax(c), log[i]);
    } else {
      assert log[h..c.from][i - h] == log[i];
    }
  }

  lemma {:induction false} SentLiveUpToPosition(log: seq<nat>, c: Conn, i: nat)
    requires Increasing(log) && LiveIs(log, c) && LoopOk(log, c) && i < |log| && ReplayMax(c) < log[i]
    requires c.sentLive != [] ==> Past(log, c.joined, ReplayMax(c))
    ensures log[i] in c.sentLive <==> log[i] <= c.pos
  {
    if log[i] in c.sentLive {
      assert log[i] <= EndOf(0, c.sentLive);
    } else if log[i] <= c.pos {
      var last := c.sentLive[|c.sentLive| - 1];
      var k :| 0 <= k < c.from && log[..c.from][k] == last;
      assert c.joined <= i <= k;
      LiveHas(log, c, i);
    }
  }

  /** A subscription has sent the events of the log between its start and its position, no others above
   * its start. */
  lemma {:induction false} SentIsUpToPosition(log: seq<nat>, published: nat, c: Conn, i: nat)
    requires Increasing(log) && ReplayOk(log, c) && LoopOk(log, c) && HistoryOk(log, published, c)
    requires i < |log| && c.start < log[i]
    ensures log[i] in c.sentReplay + c.sentLive <==> log[i] <= c.pos
  {
    FollowsExactly(log, c.start, c.sentReplay);
    NothingYet(log, c.from, ReplayMax(c));
    if ReplayMax(c) < log[i] {
      SentLiveUpToPosition(log, c, i);
    }
  }

  lemma {:induction false} InSlice(log: seq<nat>, a: nat, b: nat, i: nat)
    requires Increasing(log) && a <= b <= |log| && i < |log|
    ensures log[i] in log[a..b] <==> a <= i < b
  {
    if log[i] in log[a..b] {
      var k :| 0 <= k < b - a && log[a..b][k] == log[i];
      assert log[a + k] == log[i];
    }
    if a <= i < b {
      assert log[a..b][i - a] == log[i];
    }
  }

  lemma {:induction false} WaitingIsBetween(s: State, i: nat)
    requires DeliveryInv(s) && s.link.Up? && i < |s.log|
    ensures
      var c := s.link.conn;
      Waiting(c, s.log[i]) <==> !c.loop.Gone? && c.from <= i < Reach(s.published, c)
  {
    var log, c := s.log, s.link.conn;
    if !c.loop.Gone? {
      assert Held(c.loop) + c.events == log[c.from..Reach(s.published, c)];
      InSlice(log, c.from, Reach(s.published, c), i);
    }
  }

  /** Replay has still to send it: it is in the batch at hand, or a batch that is still to be read has it. */
  predicate ToBeReplayed(c: Conn, id: nat) {
    match c.replay
    case Idle(last) => last < id
    case Sending(last, rest, short) => if short then id in rest else last < id
    case _ => false
  }

  /** Replay reads the log no more. */
  predicate ReadToEnd(replay: Replay) {
    replay.Over? || replay.Handing? || (replay.Sending? && replay.short)
  }

  /** The position once the batch at hand is sent. */
  function PosAfterBatch(c: Conn): nat {
    match c.replay
    case Sending(last, rest, _) => EndOf(last, rest)
    case _ => c.pos
  }

  lemma {:induction false} AbovePositionIsAhead(s: State, i: nat)
    requires DeliveryInv(s) && s.link.Up? && i < |s.log| && PosAfterBatch(s.link.conn) < s.log[i]
    requires ReadToEnd(s.link.conn.replay)
    ensures s.link.conn.from <= i
  {
    var c := s.link.conn;
    if !c.replay.Sending? && c.joined <= i < c.from {
      LiveHas(s.log, c, i);
    }
  }

  /** What is above the position is in the batch at hand exactly up to the position after it. */
  lemma {:induction false} InBatch(s: State, i: nat)
    requires DeliveryInv(s) && s.link.Up? && i < |s.log| && s.link.conn.replay.Sending?
    requires s.link.conn.pos < s.log[i]
    ensures s.log[i] in s.link.conn.replay.rest <==> s.log[i] <= PosAfterBatch(s.link.conn)
  {
    FollowsExactly(s.log, s.link.conn.replay.last, s.link.conn.replay.rest);
  }

  lemma {:induction false} BatchIsAhead(s: State)
    requires DeliveryInv(s) && s.link.Up? && s.link.conn.replay.Sending?
    ensures s.link.conn.pos <= PosAfterBatch(s.link.conn)
  {
    FollowsExactly(s.log, s.link.conn.replay.last, s.link.conn.replay.rest);
  }

  /** Sent, or still with somebody who will send it. */
  predicate Delivered(c: Conn, id: nat) {
    id in c.sentReplay + c.sentLive || Waiting(c, id) || ToBeReplayed(c, id)
  }

  lemma {:induction false} NotDeliveredIff(s: State, i: nat)
    requires DeliveryInv(s) && s.link.Up? && !s.link.conn.replay.Failed?
    requires i < s.published && s.link.conn.start < s.log[i]
    ensures
      var c := s.link.conn;
      !Delivered(c, s.log[i])
      <==> ReadToEnd(c.replay) && LostFrom(c).Some? && LostFrom(c).value <= i && PosAfterBatch(c) < s.log[i]
  {
    var c, id := s.link.conn, s.log[i];
    SentIsUpToPosition(s.log, s.published, c, i);
    WaitingIsBetween(s, i);
    if c.replay.Sending? {
      BatchIsAhead(s);
      if c.pos < id { InBatch(s, i); }
    }
    if ReadToEnd(c.replay) && PosAfterBatch(c) < id {
      AbovePositionIsAhead(s, i);
    }
  }

  /** "Delivered" fails exactly here: unless replay has given up, which closes the connection, a published
   * event above the subscription's start is neither sent nor waiting nor still to be replayed exactly when
   * replay reads the log no more, and the event lies above the position it leads to, at or past the index
   * the goroutine stopped at, or else the one the closed channel missed first. */
  lemma {:induction false} UndeliveredIff(cursor: nat, steps: seq<Step>, i: nat)
    requires Legal(Init(cursor), steps) && Run(Init(cursor), steps).link.Up?
    requires
      var s := Run(Init(cursor), steps);
      var c := s.link.conn;
      i < s.published <= |s.log| && c.start < s.log[i] && !c.replay.Failed?
    ensures
      var s := Run(Init(cursor), steps);
      var c := s.link.conn;
      s.log[i] !in c.sentReplay + c.sentLive && !Waiting(c, s.log[i]) && !ToBeReplayed(c, s.log[i])
      <==> ReadToEnd(c.replay) && LostFrom(c).Some? && LostFrom(c).value <= i && PosAfterBatch(c) < s.log[i]
  {
    DeliveryOnEveryRun(Init(cursor), steps);
    NotDeliveredIff(Run(Init(cursor), steps), i);
  }

  /** "Delivered or the connection closed" fails exactly here, in whatever phase the subscription is: a
   * message, of whatever kind, did not fit the hub channel, replay reads the log no more, the event lies
   * above the position, and it was published at or after the refused message, or else at any time since the
   * subscription was made if the goroutine saw the closed channel while it still held events back. */
  lemma {:induction false} UndeliveredAndOpenIff(cursor: nat, steps: seq<Step>, i: nat)
    requires Legal(Init(cursor), steps) && Run(Init(cursor), steps).link.Up?
    requires
      var s := Run(Init(cursor), steps);
      i < s.published <= |s.log| && s.link.conn.start < s.log[i]
    ensures
      var s := Run(Init(cursor), steps);
      var c := s.link.conn;
      s.log[i] !in c.sentReplay + c.sentLive && !Waiting(c, s.log[i]) && !ToBeReplayed(c, s.log[i]) && !c.closing
      <==>
      && !c.closing && !c.open && ReadToEnd(c.replay) && PosAfterBatch(c) < s.log[i]
      && (if c.loop.Gone? && !c.replay.Over? then c.joined else c.cut) <= i
  {
    DeliveryOnEveryRun(Init(cursor), steps);
    OpenAndNotDeliveredIff(Run(Init(cursor), steps), i);
  }

  lemma {:induction false} OpenAndNotDeliveredIff(s: State, i: nat)
    requires DeliveryInv(s) && s.link.Up? && i < s.published && s.link.conn.start < s.log[i]
    ensures
      var c := s.link.conn;
      !Delivered(c, s.log[i]) && !c.closing
      <==>
      && !c.closing && !c.open && ReadToEnd(c.replay) && PosAfterBatch(c) < s.log[i]
      && (if c.loop.Gone? && !c.replay.Over? then c.joined else c.cut) <= i
  {
    if !s.link.conn.replay.Failed? {
      NotDeliveredIff(s, i);
    }
  }

  // ----- Runs that break the promises -----

  /** A send fails exactly when its channel is full. */
  predicate Fits(s: State, step: Step) {
    s.link.Up? ==>
      var c := s.link.conn;
      match step
      case Publish(ok) => c.open ==> ok == (|c.events| < HubCapacity)
      case OtherRefused => |c.events| >= HubCapacity
      case ReplaySend(ok) => ok == (|c.out| < OutCapacity)
      case FlushNext(ok) => ok == (|c.out| < OutCapacity)
      case TakeEvent(ok) => c.loop.Live? ==> ok == (|c.out| < OutCapacity)
      case OtherOverflows => |c.out| >= OutCapacity
      case _ => true
  }

  ghost predicate AllFit(s: State, steps: seq<Step>)
    requires Legal(s, steps)
    decreases |steps|
  {
    steps == [] || (Fits(s, steps[0]) && AllFit(Apply(s, steps[0]), steps[1..]))
  }

  lemma {:induction false} OneMore(s: State, steps: seq<Step>, step: Step)
    requires Legal(s, steps) && AllFit(s, steps) && Enabled(Run(s, steps), step) && Fits(Run(s, steps), step)
    ensures Legal(s, steps + [step]) && AllFit(s, steps + [step])
    ensures Run(s, steps + [step]) == Apply(Run(s, steps), step)
    decreases |steps|
  {
    if steps == [] {
      assert ([step])[1..] == [];
      assert [] + [step] == [step];
    } else {
      assert (steps + [step])[1..] == steps[1..] + [step];
      OneMore(Apply(s, steps[0]), steps[1..], step);
    }
  }

  ghost predicate ReachableFrom(cursor: nat, s: State) {
    exists steps :: Legal(Init(cursor), steps) && AllFit(Init(cursor), steps) && Run(Init(cursor), steps) == s
  }

  lemma {:induction false} Take(cursor: nat, s: State, step: Step) returns (s': State)
    requires ReachableFrom(cursor, s) && Enabled(s, step) && Fits(s, step)
    ensures s' == Apply(s, step) && ReachableFrom(cursor, s')
  {
    var steps :| Legal(Init(cursor), steps) && AllFit(Init(cursor), steps) && Run(Init(cursor), steps) == s;
    OneMore(Init(cursor), steps, step);
    s' := Apply(s, step);
  }

  lemma {:induction false} Asked(cursor: nat) returns (s: State)
    ensures ReachableFrom(cursor, s) && s == State([], 0, cursor, cursor, {}, Asking(cursor))
  {
    s := Init(cursor);
    assert Legal(s, []) && AllFit(s, []) && Run(s, []) == s;
    s := Take(cursor, s, Ask);
  }

  lemma {:induction false} SubscribedAtFour() returns (s: State)
    ensures ReachableFrom(4, s)
    ensures s == State([5], 0, 4, 4, {},
      Up(Conn([], true, Idle(4), Buffering([]), [], false, 4, 0, 4, 4, [], [], 0, None, 0, 0)))
  {
    s := Asked(4);
    s := Take(4, s, Insert(5));
    s := Take(4, s, ServerSubscribe);
  }

  /** A subscription made at cursor 4 whose replay has sent event 5 before it was published. */
  lemma {:induction false} ReplayedEarly() returns (s: State)
    ensures ReachableFrom(4, s)
    ensures s == State([5], 0, 4, 4, {},
      Up(Conn([], true, Handing(5), Buffering([]), [5], false, 4, 0, 5, 4, [5], [], 0, None, 0, 0)))
  {
    s := SubscribedAtFour();
    assert Page([5], 4, BatchSize) == [5];
    s := Take(4, s, ReplayFetch);
    assert s.link.conn.replay == Sending(4, [5], true);
    s := Take(4, s, ReplaySend(true));
    assert [5][1..] == [] && [] + [5] == [5];
    s := Take(4, s, ReplayBatchEnd);
  }

  /** Delivery is not exactly-once: an event inserted before the replay reads the log and published
   * after the hand-over is sent by both. */
  lemma {:induction false} SentTwice()
    ensures exists s :: ReachableFrom(4, s) && s.link.Up? && TimesSent(s.link.conn, 5) == 2
  {
    var s := ReplayedEarly();
    s := Take(4, s, TakeReplayDone);
    s := Take(4, s, FlushEnd);
    s := Take(4, s, Publish(true));
    s := Take(4, s, TakeEvent(true));
    assert s.link.conn.sentReplay == [5] && s.link.conn.sentLive == [5];
  }

  /** The log after n inserts: 5, 6, and so on. */
  function Ids(n: nat): seq<nat> { seq(n, k => 5 + k) }

  /** A live subscription, made at cursor 4 before anything was logged, that has taken k of n events. */
  function LiveAt(n: nat, k: nat, open: bool, logged: nat): State
    requires k <= n <= logged
  {
    var pos := if k == 0 then 4 else 4 + k;
    State(Ids(logged), logged, 4, 4, {},
      Up(Conn(Ids(n)[k..], open, Over, Live, Ids(k), false, 4, k, pos, 4, [], Ids(k), 0, Some(0),
              if open then 0 else n, k)))
  }

  /** A subscription made at cursor 4 whose replay has found nothing, its result not yet taken. */
  lemma {:induction false} ReplayedNothing() returns (s: State)
    ensures ReachableFrom(4, s) && s == HoldingAt(0, 0, true)
  {
    s := Asked(4);
    s := Take(4, s, ServerSubscribe);
    assert s.link.conn == Conn([], true, Idle(4), Buffering([]), [], false, 4, 0, 4, 4, [], [], 0, None, 0, 0);
    assert Page([], 4, BatchSize) == [];
    s := Take(4, s, ReplayFetch);
    assert s.link.conn.replay == Handing(4);
    assert Ids(0) == [];
  }

  lemma {:induction false} LiveAtFour() returns (s: State)
    ensures ReachableFrom(4, s) && s == LiveAt(0, 0, true, 0)
  {
    s := ReplayedNothing();
    assert Ids(0) == [];
    s := Take(4, s, TakeReplayDone);
    assert s.link.conn == Conn([], true, Over, Flushing([], 4), [], false, 4, 0, 4, 4, [], [], 0, None, 0, 0);
    s := Take(4, s, FlushEnd);
    assert s.link.conn == Conn([], true, Over, Live, [], false, 4, 0, 4, 4, [], [], 0, Some(0), 0, 0);
  }

  lemma {:induction false} Filled(n: nat) returns (s: State)
    requires n <= HubCapacity
    ensures ReachableFrom(4, s) && s == LiveAt(n, 0, true, n)
  {
    if n == 0 {
      s := LiveAtFour();
    } else {
      s := Filled(n - 1);
      assert Ids(n) == Ids(n - 1) + [4 + n];
      s := Take(4, s, Insert(4 + n));
      assert s.log[n - 1] == 4 + n;
      s := Take(4, s, Publish(true));
    }
  }

  /** The hub channel filled, cut off by one more event, and k of its events taken. */
  lemma {:induction false} Drained(k: nat) returns (s: State)
    requires k <= HubCapacity
    ensures ReachableFrom(4, s) && s == LiveAt(HubCapacity, k, false, HubCapacity + 1)
  {
    var n := HubCapacity;
    if k == 0 {
      s := Filled(n);
      assert Ids(n + 1) == Ids(n) + [5 + n];
      s := Take(4, s, Insert(5 + n));
      s := Take(4, s, Publish(false));
    } else {
      s := Drained(k - 1);
      assert Ids(n)[k - 1..][1..] == Ids(n)[k..];
      assert Ids(k) == Ids(k - 1) + [4 + k];
      s := Take(4, s, TakeEvent(true));
    }
  }

  /** "Delivered or closed" does not hold: 64 events fill the hub channel, the next one cuts the
   * subscription off, the goroutine drains the channel, sees it closed first and just returns.  That
   * event and a later one are never sent, and the connection stays open. */
  lemma {:induction false} SilentAfterOverflow()
    ensures exists s ::
      && ReachableFrom(4, s) && Silent(s) && !s.link.conn.closing && s.published == |s.log|
      && 69 in s.log && TimesSent(s.link.conn, 69) == 0
      && 70 in s.log && TimesSent(s.link.conn, 70) == 0
  {
    var s := Drained(HubCapacity);
    assert s.link.conn.events == [];
    s := Take(4, s, SeesClosed);
    assert s.log[64] == 69;
    s := Take(4, s, Insert(70));
    assert s.log[65] == 70;
    s := Take(4, s, Publish(true));
    assert s.log[64] == 69 && s.log[65] == 70;
    assert s.link.conn.sentLive == Ids(64);
  }

  /** A subscription that holds back k of n events while the result of its replay waits. */
  function HoldingAt(n: nat, k: nat, open: bool): State
    requires k <= n
  {
    State(Ids(n), n, 4, 4, {},
      Up(Conn(Ids(n)[k..], open, Handing(4), Buffering(Ids(k)), [], false, 4, 0, 4, 4, [], [], 0, None,
              if open then 0 else n, k)))
  }

  lemma {:induction false} FilledWhileHolding(n: nat) returns (s: State)
    requires n <= HubCapacity
    ensures ReachableFrom(4, s) && s == HoldingAt(n, 0, true)
  {
    if n == 0 {
      s := ReplayedNothing();
    } else {
      s := FilledWhileHolding(n - 1);
      assert Ids(n) == Ids(n - 1) + [4 + n];
      s := Take(4, s, Insert(4 + n));
      assert s.log[n - 1] == 4 + n;
      s := Take(4, s, Publish(true));
    }
  }

  /** The hub channel filled and cut off by a message of another kind, and k of its events held back. */
  lemma {:induction false} HeldBack(k: nat) returns (s: State)
    requires k <= HubCapacity
    ensures ReachableFrom(4, s) && s == HoldingAt(HubCapacity, k, false)
  {
    if k == 0 {
      s := FilledWhileHolding(HubCapacity);
      s := Take(4, s, OtherRefused);
    } else {
      s := HeldBack(k - 1);
      assert Ids(HubCapacity)[k - 1..][1..] == Ids(HubCapacity)[k..];
      assert Ids(k) == Ids(k - 1) + [4 + k];
      s := Take(4, s, TakeEvent(true));
    }
  }

  /** Nor for events published before the refused message: when the goroutine sees the channel closed before
   * it sees the replay's result, it returns and drops what it held back.  All 64 events of a full channel
   * are lost while the connection stays open. */
  lemma {:induction false} LostWhileHeldBack(i: nat)
    requires i < HubCapacity
    ensures exists s ::
      && ReachableFrom(4, s) && Silent(s) && !s.link.conn.closing && s.published == |s.log| == s.link.conn.cut
      && i < s.link.conn.cut && s.log[i] == 5 + i && TimesSent(s.link.conn, 5 + i) == 0
  {
    var s := HeldBack(HubCapacity);
    assert s.link.conn.events == [];
    s := Take(4, s, SeesClosed);
    assert s.log == Ids(HubCapacity) && s.log[i] == 5 + i;
  }

  /** The topic goroutine has returned and replay is finished, its result taken or not, while the connection
   * stays open. */
  predicate Silent(s: State) {
    s.link.Up? && s.link.conn.loop.Gone? && (s.link.conn.replay.Over? || s.link.conn.replay.Handing?)
  }

  /** A silent subscription stays silent as long as the connection lasts. */
  lemma {:induction false} SilenceLasts(s: State, steps: seq<Step>)
    requires Legal(s, steps) && Silent(s)
    requires forall i | 0 <= i < |steps| :: !steps[i].Drop? && !steps[i].Restart?
    ensures Silent(Run(s, steps))
    ensures Run(s, steps).link.conn.sentReplay == s.link.conn.sentReplay
    ensures Run(s, steps).link.conn.sentLive == s.link.conn.sentLive
    decreases |steps|
  {
    if steps == [] {
    } else {
      assert !steps[0].Drop? && !steps[0].Restart?;
      SilenceLasts(Apply(s, steps[0]), steps[1..]);
    }
  }
}
