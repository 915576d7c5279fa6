/** The hand-over from replay to live events, from the event log to one client of one token topic.
 *
 * The state is the log of the mint's events, how much of it the ingest loop has published, the
 * client's cursor, and the connection: the hub subscription's Events channel, the replay goroutine,
 * the per-topic goroutine with its buffer, and the outgoing queue together with the network.  A step
 * is any one action of any of these, so a run is any interleaving, disconnects, restarts and overflows
 * included.  Every non-blocking send carries a flag saying whether it went through and may fail at any
 * time, and messages of other kinds on the topic, which are no events of the log, may be refused at any
 * time as well; so the theorems hold for every channel capacity and every amount of other traffic.
 */
module Handover {
  import opened Options
  import opened LogOrder

  const BatchSize: nat := 512

  datatype Replay =
    | Idle(last: nat)                                        // about to read the next batch
    | Sending(last: nat, rest: seq<nat>, short: bool)        // in the middle of a batch
    | Handing(max: nat)                                      // result waiting in replayDone
    | Over                                                   // finished, or not needed
    | Failed                                                 // gave up; the connection will be closed

  datatype Loop =
    | Buffering(held: seq<nat>)
    | Flushing(held: seq<nat>, max: nat)
    | Live
    | Gone

  /** A connection with its subscription.  `closing` says that the server has begun to close it.  The rest
   * is history: where the stream starts, the log index of the next event the topic goroutine will handle,
   * the largest id put into `out`, the largest id the client took from it, what each of the two goroutines
   * has put into `out`, the log index of the first event published to the subscription, the one the
   * goroutine stood at when it went live, the one of the first event the closed channel missed, and the one
   * of the next event the goroutine would take from the channel. */
  datatype Conn = Conn(
    events: seq<nat>, open: bool, replay: Replay, loop: Loop, out: seq<nat>, closing: bool,
    start: nat, from: nat, pos: nat, delivered: nat, sentReplay: seq<nat>, sentLive: seq<nat>,
    joined: nat, handed: Option<nat>, cut: nat, taken: nat)

  datatype Link =
    | Down
    | Asking(since: nat)   // subscribe message on its way; zero stands for no since_log_id
    | Up(conn: Conn)

  /** `base` is the position the client's stream is complete from: its initial cursor, raised when the
   * page sets the cursor from a snapshot, and, for a subscription without a cursor, to what had been
   * published when it was made. */
  datatype State = State(
    log: seq<nat>, published: nat, cursor: nat, base: nat, received: set<nat>, link: Link)

  datatype Step =
    | Insert(id: nat)
    | Publish(ok: bool)
    | Restart
    | Ask
    | ServerSubscribe
    | ReplayFetch
    | ReplaySend(ok: bool)
    | ReplayBatchEnd
    | ReplayError
    | TakeReplayDone
    | FlushNext(ok: bool)
    | FlushEnd
    | TakeEvent(ok: bool)
    | SeesOverflow
    | SeesClosed
    | OtherRefused     // a message that is no log event does not fit the hub channel
    | OtherOverflows   // a message that is no log event does not fit the outgoing channel
    | Receive
    | Drop
    | SetCursor(id: nat)

  function Init(cursor: nat): State { State([], 0, cursor, cursor, {}, Down) }

  function LastPublished(log: seq<nat>, published: nat): nat
    requires published <= |log|
  {
    if published == 0 then 0 else log[published - 1]
  }

  function Enqueue(c: Conn, id: nat): Conn {
    c.(out := c.out + [id], pos := Max(c.pos, id))
  }

  predicate Enabled(s: State, step: Step) {
    match step
    case Insert(id) => 0 < id && forall i | 0 <= i < |s.log| :: s.log[i] < id
    case Publish(_) => s.published < |s.log|
    case Restart => true
    case Ask => s.link.Down?
    case ServerSubscribe => s.link.Asking? && s.published <= |s.log|
    case ReplayFetch => s.link.Up? && s.link.conn.replay.Idle? && Increasing(s.log)
    case ReplaySend(_) => s.link.Up? && s.link.conn.replay.Sending? && s.link.conn.replay.rest != []
    case ReplayBatchEnd => s.link.Up? && s.link.conn.replay.Sending? && s.link.conn.replay.rest == []
    case ReplayError => s.link.Up? && s.link.conn.replay.Idle?
    case TakeReplayDone => s.link.Up? && s.link.conn.replay.Handing? && s.link.conn.loop.Buffering?
    case FlushNext(_) => s.link.Up? && s.link.conn.loop.Flushing? && s.link.conn.loop.held != []
    case FlushEnd => s.link.Up? && s.link.conn.loop.Flushing? && s.link.conn.loop.held == []
    case TakeEvent(_) =>
      && s.link.Up? && s.link.conn.events != []
      && (s.link.conn.loop.Buffering? || s.link.conn.loop.Live?)
    case SeesOverflow => s.link.Up? && !s.link.conn.open && (s.link.conn.loop.Buffering? || s.link.conn.loop.Live?)
    case SeesClosed =>
      && s.link.Up? && !s.link.conn.open && s.link.conn.events == []
      && (s.link.conn.loop.Buffering? || s.link.conn.loop.Live?)
    case OtherRefused => s.link.Up? && s.link.conn.open
    case OtherOverflows => s.link.Up? && s.link.conn.loop.Live?
    case Receive => s.link.Up? && s.link.conn.out != []
    case Drop => !s.link.Down?
    case SetCursor(id) => 0 < id
  }

  /** Registering a subscription; with a positive cursor the replay goroutine is started as well. */
  function Subscribed(log: seq<nat>, published: nat, since: nat): Conn
    requires published <= |log|
  {
    if since > 0 then
      Conn([], true, Idle(since), Buffering([]), [], false, since, published, since, since, [], [],
           published, None, 0, published)
    else
      var start := LastPublished(log, published);
      Conn([], true, Over, Live, [], false, start, published, start, start, [], [],
           published, Some(published), 0, published)
  }

  function FetchBatch(log: seq<nat>, c: Conn): Conn
    requires c.replay.Idle? && Increasing(log)
  {
    var page := Page(log, c.replay.last, BatchSize);
    c.(replay := if page == [] then Handing(c.replay.last)
                 else Sending(c.replay.last, page, |page| < BatchSize))
  }

  /** `lastLogID` moves before the send is tried. */
  function SendReplayed(c: Conn, ok: bool): Conn
    requires c.replay.Sending? && c.replay.rest != []
  {
    var Sending(last, rest, short) := c.replay;
    if ok then
      Enqueue(c, rest[0]).(replay := Sending(Max(last, rest[0]), rest[1..], short),
                           sentReplay := c.sentReplay + [rest[0]])
    else c.(replay := Failed, closing := true)
  }

  function EndBatch(c: Conn): Conn
    requires c.replay.Sending?
  {
    c.(replay := if c.replay.short then Handing(c.replay.last) else Idle(c.replay.last))
  }

  /** Handling one event in order: flushed or live. */
  function Forward(c: Conn, id: nat, ok: bool, next: Loop): Conn {
    if ok then Enqueue(c, id).(loop := next, from := c.from + 1, sentLive := c.sentLive + [id])
    else c.(loop := Gone, closing := true)
  }

  /** A refused send marks the subscription: no further event of the log reaches its channel. */
  function CutOff(c: Conn, at: nat): Conn { c.(open := false, cut := at) }

  function Flush(c: Conn, ok: bool): Conn
    requires c.loop.Flushing? && c.loop.held != []
  {
    var Flushing(held, max) := c.loop;
    if held[0] <= max then c.(loop := Flushing(held[1..], max), from := c.from + 1)
    else Forward(c, held[0], ok, Flushing(held[1..], max))
  }

  function HandleEvent(c: Conn, ok: bool): Conn
    requires (c.loop.Buffering? || c.loop.Live?) && c.events != []
  {
    var c1 := c.(events := c.events[1..], taken := c.taken + 1);
    if c.loop.Buffering? then c1.(loop := Buffering(c.loop.held + [c.events[0]]))
    else Forward(c1, c.events[0], ok, Live)
  }

  function Apply(s: State, step: Step): State
    requires Enabled(s, step)
  {
    match step
    case Insert(id) => s.(log := s.log + [id])
    case Publish(ok) =>
      var s1 := s.(published := s.published + 1);
      if s.link.Up? && s.link.conn.open then
        var c := s.link.conn;
        s1.(link := Up(if ok then c.(events := c.events + [s.log[s.published]]) else CutOff(c, s.published)))
      else s1
    case Restart => s.(published := |s.log|, link := Down)
    case Ask => s.(link := Asking(s.cursor))
    case ServerSubscribe =>
      var c := Subscribed(s.log, s.published, s.link.since);
      s.(link := Up(c), base := if s.link.since > 0 then s.base else Max(s.base, c.start))
    case ReplayFetch => s.(link := Up(FetchBatch(s.log, s.link.conn)))
    case ReplaySend(ok) => s.(link := Up(SendReplayed(s.link.conn, ok)))
    case ReplayBatchEnd => s.(link := Up(EndBatch(s.link.conn)))
    case ReplayError => s.(link := Up(s.link.conn.(replay := Failed, closing := true)))
    case TakeReplayDone =>
      var c := s.link.conn;
      s.(link := Up(c.(replay := Over, loop := Flushing(c.loop.held, c.replay.max))))
    case FlushNext(ok) => s.(link := Up(Flush(s.link.conn, ok)))
    case FlushEnd => s.(link := Up(s.link.conn.(loop := Live, handed := Some(s.link.conn.from))))
    case TakeEvent(ok) => s.(link := Up(HandleEvent(s.link.conn, ok)))
    case SeesOverflow => s.(link := Up(s.link.conn.(loop := Gone, closing := true)))
    case SeesClosed => s.(link := Up(s.link.conn.(loop := Gone)))
    case OtherRefused => s.(link := Up(CutOff(s.link.conn, s.published)))
    case OtherOverflows => s.(link := Up(s.link.conn.(loop := Gone, closing := true)))
    case Receive =>
      var c := s.link.conn;
      var id := c.out[0];
      s.(link := Up(c.(out := c.out[1..], delivered := Max(c.delivered, id))),
         received := s.received + {id}, cursor := Max(s.cursor, id))
    case Drop => s.(link := Down)
    case SetCursor(id) =>
      if id > s.cursor then s.(cursor := id, base := Max(s.base, id)) else s
  }

  ghost predicate Legal(s: State, steps: seq<Step>)
    decreases |steps|
  {
    steps == [] || (Enabled(s, steps[0]) && Legal(Apply(s, steps[0]), steps[1..]))
  }

  ghost function Run(s: State, steps: seq<Step>): State
    requires Legal(s, steps)
    decreases |steps|
  {
    if steps == [] then s else Run(Apply(s, steps[0]), steps[1..])
  }

  // ----- The invariant -----

  /** Everything in the first n entries of the log has id at most p. */
  predicate Past(log: seq<nat>, n: nat, p: nat) {
    n <= |log| && forall i | 0 <= i < n :: log[i] <= p
  }

  function Held(loop: Loop): seq<nat> {
    match loop
    case Buffering(held) => held
    case Flushing(held, _) => held
    case Live => []
    case Gone => []
  }

  /** What the topic goroutine still has to handle is the stretch of the log from index `from` on, up
   * to what has been published as long as the subscription is open. */
  predicate QueueOk(log: seq<nat>, published: nat, c: Conn) {
    c.loop.Gone? || published > |log| ||
    var queue := Held(c.loop) + c.events;
    && c.from + |queue| <= published
    && queue == log[c.from..c.from + |queue|]
    && (c.open ==> c.from + |queue| == published)
  }

  predicate ReplayOk(log: seq<nat>, c: Conn) {
    var end := EndOf(c.start, c.sentReplay);
    && Follows(log, c.start, c.sentReplay)
    && match c.replay
       case Idle(last) => last == c.pos == end && (c.loop.Buffering? || c.loop.Gone?)
       case Sending(last, rest, short) =>
         && last == c.pos == end && (c.loop.Buffering? || c.loop.Gone?)
         && Follows(log, last, rest)
         && (short ==> Past(log, c.from, EndOf(last, rest)))
       case Handing(max) => max == c.pos == end && (c.loop.Buffering? || c.loop.Gone?) && Past(log, c.from, max)
       case Over => !c.loop.Buffering? && end <= c.pos
       case Failed => c.loop.Buffering? || c.loop.Gone?
  }

  predicate LoopOk(log: seq<nat>, c: Conn) {
    && c.from <= |log|
    && Increasing(c.sentLive)
    && (forall i | 0 <= i < |c.sentLive| :: c.sentLive[i] in log[..c.from])
    && (c.loop.Flushing? ==> Past(log, c.from, c.pos) && c.loop.max == EndOf(c.start, c.sentReplay))
    && (c.loop.Live? ==> Past(log, c.from, c.pos))
    && (c.loop.Buffering? ==> c.sentLive == [])
  }

  predicate StreamOk(log: seq<nat>, c: Conn) {
    && c.start <= c.delivered
    && (c.delivered == c.start || c.delivered in log)
    && Chain(log, c.delivered, c.out, c.pos)
  }

  predicate ConnOk(log: seq<nat>, published: nat, c: Conn) {
    StreamOk(log, c) && QueueOk(log, published, c) && ReplayOk(log, c) && LoopOk(log, c)
  }

  ghost predicate ClientOk(s: State, c: Conn) {
    && Covers(s.log, c.start, c.delivered, s.received)
    && (c.delivered <= s.cursor || c.delivered == c.start)
    && c.start <= Max(s.base, s.cursor)
  }

  /** The client has received every event of its mint between the position its stream is complete from
   * and its cursor, so that asking again from the cursor skips nothing. */
  ghost predicate NoGap(s: State) {
    Covers(s.log, s.base, s.cursor, s.received)
  }

  ghost predicate Inv(s: State) {
    && Increasing(s.log)
    && s.published <= |s.log|
    && NoGap(s)
    && (s.cursor in s.log || s.cursor <= s.base)
    && match s.link
       case Down => true
       case Asking(since) => since <= s.cursor
       case Up(c) => ConnOk(s.log, s.published, c) && ClientOk(s, c)
  }

  // ----- Steps of the log -----

  lemma {:induction false} InsertKeepsConn(log: seq<nat>, published: nat, c: Conn, id: nat)
    requires Increasing(log + [id]) && published <= |log| && ConnOk(log, published, c)
    ensures ConnOk(log + [id], published, c)
  {
    var log' := log + [id];
    ChainGrows(log, id, c.delivered, c.out, c.pos);
    FollowsGrows(log, id, c.start, c.sentReplay);
    if c.replay.Sending? {
      FollowsGrows(log, id, c.replay.last, c.replay.rest);
    }
    assert log'[..c.from] == log[..c.from];
    if !c.loop.Gone? {
      var n := c.from + |Held(c.loop) + c.events|;
      assert log'[c.from..n] == log[c.from..n];
    }
  }

  lemma {:induction false} InsertKeepsInv(s: State, id: nat)
    requires Inv(s) && Enabled(s, Insert(id))
    ensures Inv(Apply(s, Insert(id)))
  {
    var s' := Apply(s, Insert(id));
    assert Increasing(s'.log);
    if s.link.Up? {
      InsertKeepsConn(s.log, s.published, s.link.conn, id);
    }
  }

  lemma {:induction false} PublishKeepsQueue(log: seq<nat>, published: nat, c: Conn, ok: bool)
    requires published < |log| && QueueOk(log, published, c) && c.open
    ensures QueueOk(log, published + 1, if ok then c.(events := c.events + [log[published]]) else CutOff(c, published))
  {
    if !c.loop.Gone? && ok {
      var h := log[published];
      assert Held(c.loop) + (c.events + [h]) == Held(c.loop) + c.events + [h];
      assert log[c.from..published + 1] == log[c.from..published] + [h];
    }
  }

  lemma {:induction false} PublishKeepsConn(s: State, ok: bool)
    requires s.link.Up? && ConnOk(s.log, s.published, s.link.conn) && Enabled(s, Publish(ok))
    ensures Apply(s, Publish(ok)).link.Up? && ConnOk(s.log, s.published + 1, Apply(s, Publish(ok)).link.conn)
  {
    var c, c' := s.link.conn, Apply(s, Publish(ok)).link.conn;
    SameStream(s.log, c, c');
    if c.open { PublishKeepsQueue(s.log, s.published, c, ok); }
    assert ReplayOk(s.log, c') && LoopOk(s.log, c');
  }

  lemma {:induction false} PublishKeepsInv(s: State, ok: bool)
    requires Inv(s) && Enabled(s, Publish(ok))
    ensures Inv(Apply(s, Publish(ok)))
  {
    if s.link.Up? {
      PublishKeepsConn(s, ok);
      assert ClientOk(Apply(s, Publish(ok)), Apply(s, Publish(ok)).link.conn);
    }
  }

  lemma {:induction false} SameStream(log: seq<nat>, c: Conn, c': Conn)
    requires StreamOk(log, c)
    requires c'.start == c.start && c'.delivered == c.delivered && c'.out == c.out && c'.pos == c.pos
    ensures StreamOk(log, c')
  {
  }

  lemma {:induction false} SameQueue(log: seq<nat>, published: nat, c: Conn, c': Conn)
    requires QueueOk(log, published, c)
    requires c'.loop == c.loop && c'.events == c.events && c'.from == c.from && c'.open == c.open
    ensures QueueOk(log, published, c')
  {
  }

  // ----- Steps of the server -----

  lemma {:induction false} SubscribeKeepsInv(s: State)
    requires Inv(s) && Enabled(s, ServerSubscribe)
    ensures Inv(Apply(s, ServerSubscribe))
  {
    SubscribedIsOk(s.log, s.published, s.link.since);
    SubscribedKeepsClient(s);
  }

  lemma {:induction false} SubscribedKeepsClient(s: State)
    requires Inv(s) && Enabled(s, ServerSubscribe)
    ensures
      var s' := Apply(s, ServerSubscribe);
      && NoGap(s') && (s'.cursor in s'.log || s'.cursor <= s'.base)
      && ClientOk(s', s'.link.conn)
  {
    var s' := Apply(s, ServerSubscribe);
    assert s'.log == s.log && s'.received == s.received && s.base <= s'.base;
    assert s'.link.conn.delivered == s'.link.conn.start;
  }

  lemma {:induction false} SubscribedIsOk(log: seq<nat>, published: nat, since: nat)
    requires Increasing(log) && published <= |log|
    ensures ConnOk(log, published, Subscribed(log, published, since))
  {
    var c := Subscribed(log, published, since);
    NewQueueIsOk(log, published, c);
    NewStreamIsOk(log, c);
    if since > 0 {
      ResumedIsOk(log, c, since);
    } else {
      FreshIsOk(log, published, c);
    }
  }

  lemma {:induction false} ResumedIsOk(log: seq<nat>, c: Conn, since: nat)
    requires c.from <= |log| && c.start == c.pos == since && c.sentReplay == [] && c.sentLive == []
    requires c.replay == Idle(since) && c.loop == Buffering([])
    ensures ReplayOk(log, c) && LoopOk(log, c)
  {
  }

  lemma {:induction false} FreshIsOk(log: seq<nat>, published: nat, c: Conn)
    requires Increasing(log) && published <= |log| && c.from == published && c.sentReplay == [] && c.sentLive == []
    requires c.start == c.pos == LastPublished(log, published) && c.replay.Over? && c.loop.Live?
    ensures ReplayOk(log, c) && LoopOk(log, c)
  {
  }

  lemma {:induction false} NewQueueIsOk(log: seq<nat>, published: nat, c: Conn)
    requires published <= |log| && c.from == published && Held(c.loop) == c.events == []
    ensures QueueOk(log, published, c)
  {
    assert log[published..published] == [];
  }

  lemma {:induction false} NewStreamIsOk(log: seq<nat>, c: Conn)
    requires c.start == c.delivered == c.pos && c.out == []
    ensures StreamOk(log, c)
  {
  }

  lemma {:induction false} FetchKeepsConn(log: seq<nat>, published: nat, c: Conn)
    requires Increasing(log) && ConnOk(log, published, c) && c.replay.Idle?
    ensures ConnOk(log, published, FetchBatch(log, c))
  {
    PageFollows(log, c.replay.last, BatchSize);
  }

  lemma {:induction false} SendKeepsReplay(log: seq<nat>, c: Conn, ok: bool)
    requires ReplayOk(log, c) && c.replay.Sending? && c.replay.rest != []
    ensures ReplayOk(log, SendReplayed(c, ok))
  {
    if ok { FollowsSnoc(log, c.start, c.sentReplay, c.replay.rest[0]); }
  }

  lemma {:induction false} EnqueueKeepsStream(log: seq<nat>, c: Conn, id: nat)
    requires StreamOk(log, c) && NextIn(log, c.pos, id)
    ensures StreamOk(log, Enqueue(c, id))
  {
    ChainSnoc(log, c.delivered, c.out, c.pos, id);
  }

  lemma {:induction false} SendKeepsConn(log: seq<nat>, published: nat, c: Conn, ok: bool)
    requires Increasing(log) && ConnOk(log, published, c) && c.replay.Sending? && c.replay.rest != []
    ensures ConnOk(log, published, SendReplayed(c, ok))
  {
    var c' := SendReplayed(c, ok);
    SendKeepsReplay(log, c, ok);
    SameQueue(log, published, c, c');
    if ok {
      EnqueueKeepsStream(log, c, c.replay.rest[0]);
      SameStream(log, Enqueue(c, c.replay.rest[0]), c');
    } else {
      SameStream(log, c, c');
    }
    assert LoopOk(log, c');
  }

  /** The heart of the hand-over: the next event in log order is either one the stream has passed or
   * exactly the one that comes next, so forwarding it opens no gap. */
  lemma {:induction false} ForwardKeepsStream(log: seq<nat>, c: Conn, id: nat, next: Loop)
    requires Increasing(log) && StreamOk(log, c) && c.from < |log| && id == log[c.from] && Past(log, c.from, c.pos)
    ensures StreamOk(log, Forward(c, id, true, next))
    ensures Past(log, c.from + 1, Forward(c, id, true, next).pos)
  {
    if c.pos < id {
      assert NextIn(log, c.pos, id);
    }
    ChainSnoc(log, c.delivered, c.out, c.pos, id);
  }

  lemma {:induction false} ForwardKeepsLive(log: seq<nat>, c: Conn, id: nat)
    requires Increasing(log) && LoopOk(log, c) && c.from < |log| && id == log[c.from]
    ensures Increasing(c.sentLive + [id])
    ensures forall x | x in c.sentLive + [id] :: x in log[..c.from + 1]
  {
    assert log[..c.from + 1] == log[..c.from] + [id];
    forall i | 0 <= i < |c.sentLive|
      ensures c.sentLive[i] < id
    {
      var j :| 0 <= j < c.from && log[..c.from][j] == c.sentLive[i];
      assert log[j] < log[c.from];
    }
  }

  lemma {:induction false} FlushKeepsQueue(log: seq<nat>, published: nat, c: Conn, ok: bool)
    requires published <= |log| && QueueOk(log, published, c) && c.loop.Flushing? && c.loop.held != []
    ensures QueueOk(log, published, Flush(c, ok))
    ensures c.from < |log| && c.loop.held[0] == log[c.from]
  {
    var queue := c.loop.held + c.events;
    assert queue[0] == c.loop.held[0];
    assert queue[1..] == c.loop.held[1..] + c.events;
    assert log[c.from..c.from + |queue|][1..] == log[c.from + 1..c.from + |queue|];
  }

  lemma {:induction false} SkipKeepsLoop(log: seq<nat>, c: Conn, next: Loop)
    requires LoopOk(log, c) && c.from < |log| && c.loop.Flushing? && log[c.from] <= c.loop.max
    requires ReplayOk(log, c) && next.Flushing? && next.max == c.loop.max
    ensures LoopOk(log, c.(loop := next, from := c.from + 1))
  {
    assert log[..c.from + 1] == log[..c.from] + [log[c.from]];
  }

  lemma {:induction false} FlushKeepsConn(log: seq<nat>, published: nat, c: Conn, ok: bool)
    requires Increasing(log) && published <= |log| && ConnOk(log, published, c)
    requires c.loop.Flushing? && c.loop.held != []
    ensures ConnOk(log, published, Flush(c, ok))
  {
    var id, next := c.loop.held[0], Flushing(c.loop.held[1..], c.loop.max);
    FlushKeepsQueue(log, published, c, ok);
    if id <= c.loop.max {
      SameStream(log, c, Flush(c, ok));
      SkipKeepsLoop(log, c, next);
    } else if ok {
      ForwardKeepsStream(log, c, id, next);
      ForwardKeepsLive(log, c, id);
      assert log[..c.from + 1] == log[..c.from] + [id];
    } else {
      SameStream(log, c, Flush(c, ok));
    }
    assert ReplayOk(log, Flush(c, ok)) && LoopOk(log, Flush(c, ok));
  }

  lemma {:induction false} HoldKeepsConn(log: seq<nat>, published: nat, c: Conn, ok: bool)
    requires published <= |log| && ConnOk(log, published, c) && c.loop.Buffering? && c.events != []
    ensures ConnOk(log, published, HandleEvent(c, ok))
  {
  }

  lemma {:induction false} LiveKeepsQueue(log: seq<nat>, published: nat, c: Conn, ok: bool)
    requires published <= |log| && QueueOk(log, published, c) && c.loop.Live? && c.events != []
    ensures QueueOk(log, published, HandleEvent(c, ok))
    ensures c.from < |log| && c.events[0] == log[c.from]
  {
    var n := c.from + |c.events|;
    assert Held(c.loop) + c.events == c.events && Held(Live) + c.events[1..] == c.events[1..];
    assert log[c.from..n][1..] == log[c.from + 1..n];
  }

  lemma {:induction false} LiveKeepsConn(log: seq<nat>, published: nat, c: Conn, ok: bool)
    requires Increasing(log) && published <= |log| && ConnOk(log, published, c)
    requires c.loop.Live? && c.events != []
    ensures ConnOk(log, published, HandleEvent(c, ok))
  {
    var id := c.events[0];
    var c1 := c.(events := c.events[1..], taken := c.taken + 1);
    LiveKeepsQueue(log, published, c, ok);
    assert HandleEvent(c, ok) == Forward(c1, id, ok, Live);
    assert StreamOk(log, c1) && LoopOk(log, c1);
    if ok {
      ForwardKeepsStream(log, c1, id, Live);
      ForwardKeepsLive(log, c1, id);
    }
  }

  /** The steps that only move a goroutine on. */
  lemma {:induction false} QuietStepsKeepConn(s: State, step: Step)
    requires s.link.Up? && s.published <= |s.log| && ConnOk(s.log, s.published, s.link.conn) && Enabled(s, step)
    requires step.ReplayBatchEnd? || step.ReplayError? || step.TakeReplayDone? || step.FlushEnd?
      || step.SeesOverflow? || step.SeesClosed? || step.OtherRefused? || step.OtherOverflows?
    ensures ConnOk(s.log, s.published, Apply(s, step).link.conn)
  {
    var c, c' := s.link.conn, Apply(s, step).link.conn;
    assert c'.out == c.out && c'.pos == c.pos && c'.delivered == c.delivered && c'.start == c.start;
    assert StreamOk(s.log, c');
  }

  /** A step inside the server leaves the client's side alone. */
  lemma {:induction false} ServerStepKeepsInv(s: State, c': Conn)
    requires Inv(s) && s.link.Up? && ConnOk(s.log, s.published, c')
    requires c'.start == s.link.conn.start && c'.delivered == s.link.conn.delivered
    ensures Inv(s.(link := Up(c')))
  {
  }

  // ----- Steps of the client -----

  lemma {:induction false} ReceiveKeepsStream(log: seq<nat>, c: Conn, got: set<nat>)
    requires StreamOk(log, c) && c.out != [] && Covers(log, c.start, c.delivered, got)
    ensures
      var delivered := Max(c.delivered, c.out[0]);
      StreamOk(log, c.(out := c.out[1..], delivered := delivered)) &&
      Covers(log, c.start, delivered, got + {c.out[0]})
  {
    if c.delivered < c.out[0] {
      assert NextIn(log, c.delivered, c.out[0]);
    }
  }

  /** What the client now has of the stream closes up with what it had before. */
  lemma {:induction false} ReceiveKeepsNoGap(s: State, delivered: nat)
    requires Inv(s) && Enabled(s, Receive) && delivered == Max(s.link.conn.delivered, s.link.conn.out[0])
    requires Covers(s.log, s.link.conn.start, delivered, s.received + {s.link.conn.out[0]})
    ensures NoGap(Apply(s, Receive))
    ensures var s' := Apply(s, Receive); s'.cursor in s.log || s'.cursor <= s.base
  {
    var c := s.link.conn;
    var id := c.out[0];
    if s.cursor < id && c.delivered < id {
      assert NextIn(s.log, c.delivered, id);
    }
  }

  lemma {:induction false} ReceiveKeepsInv(s: State)
    requires Inv(s) && Enabled(s, Receive)
    ensures Inv(Apply(s, Receive))
  {
    var c := s.link.conn;
    var s' := Apply(s, Receive);
    ReceiveKeepsStream(s.log, c, s.received);
    ReceiveKeepsNoGap(s, s'.link.conn.delivered);
  }

  predicate InServer(step: Step) {
    && !step.Insert? && !step.Publish? && !step.ServerSubscribe? && !step.Receive?
    && !step.Restart? && !step.Ask? && !step.Drop? && !step.SetCursor?
  }

  predicate OfLogOrClient(step: Step) {
    step.Insert? || step.Publish? || step.ServerSubscribe? || step.Receive?
  }

  lemma {:induction false} StepKeepsInv(s: State, step: Step)
    requires Inv(s) && Enabled(s, step)
    ensures Inv(Apply(s, step))
  {
    if InServer(step) {
      InServerKeepsInv(s, step);
    } else if OfLogOrClient(step) {
      LogOrClientStepKeepsInv(s, step);
    } else {
      OutsideStepKeepsInv(s, step);
    }
  }

  lemma {:induction false} LogOrClientStepKeepsInv(s: State, step: Step)
    requires Inv(s) && Enabled(s, step) && OfLogOrClient(step)
    ensures Inv(Apply(s, step))
  {
    match step
    case Insert(id) => InsertKeepsInv(s, id);
    case Publish(ok) => PublishKeepsInv(s, ok);
    case ServerSubscribe => SubscribeKeepsInv(s);
    case Receive => ReceiveKeepsInv(s);
  }

  lemma {:induction false} ServerStepIsLocal(s: State, step: Step)
    requires Enabled(s, step) && InServer(step)
    ensures Apply(s, step).link.Up? && Apply(s, step) == s.(link := Apply(s, step).link)
    ensures Apply(s, step).link.conn.start == s.link.conn.start
    ensures Apply(s, step).link.conn.delivered == s.link.conn.delivered
  {
  }

  lemma {:induction false} InServerKeepsInv(s: State, step: Step)
    requires Inv(s) && Enabled(s, step) && InServer(step)
    ensures Inv(Apply(s, step))
  {
    ServerStepIsLocal(s, step);
    ServerStepKeepsConn(s, step);
    ServerStepKeepsInv(s, Apply(s, step).link.conn);
  }

  lemma {:induction false} OutsideStepKeepsInv(s: State, step: Step)
    requires Inv(s) && Enabled(s, step)
    requires step.Restart? || step.Ask? || step.Drop? || step.SetCursor?
    ensures Inv(Apply(s, step))
  {
  }

  lemma {:induction false} ServerStepKeepsConn(s: State, step: Step)
    requires Inv(s) && Enabled(s, step) && InServer(step)
    ensures Apply(s, step).link.Up? && ConnOk(s.log, s.published, Apply(s, step).link.conn)
  {
    match step
    case ReplayFetch => FetchKeepsConn(s.log, s.published, s.link.conn);
    case ReplaySend(ok) => SendKeepsConn(s.log, s.published, s.link.conn, ok);
    case FlushNext(ok) => FlushKeepsConn(s.log, s.published, s.link.conn, ok);
    case TakeEvent(ok) =>
      if s.link.conn.loop.Buffering? {
        HoldKeepsConn(s.log, s.published, s.link.conn, ok);
      } else {
        LiveKeepsConn(s.log, s.published, s.link.conn, ok);
      }
    case _ => QuietStepsKeepConn(s, step);
  }

  lemma {:induction false} InvOnEveryRun(s: State, steps: seq<Step>)
    requires Inv(s) && Legal(s, steps)
    ensures Inv(Run(s, steps))
    decreases |steps|
  {
    if steps == [] {
    } else {
      StepKeepsInv(s, steps[0]);
      InvOnEveryRun(Apply(s, steps[0]), steps[1..]);
    }
  }

  // ----- What the protocol promises -----

  /** No gap across reconnects: in every run the client has received every event of its mint with log id
   * in (base, cursor]. */
  lemma {:induction false} NoGapOnEveryRun(cursor: nat, steps: seq<Step>)
    requires Legal(Init(cursor), steps)
    ensures NoGap(Run(Init(cursor), steps))
  {
    InvOnEveryRun(Init(cursor), steps);
  }

  ghost predicate OnlyReceivedMove(steps: seq<Step>) {
    forall i | 0 <= i < |steps| :: !steps[i].SetCursor?
  }

  lemma {:induction false} BaseStays(s: State, steps: seq<Step>)
    requires Legal(s, steps) && OnlyReceivedMove(steps)
    requires s.cursor > 0 && (s.link.Asking? ==> s.link.since > 0)
    ensures Run(s, steps).base == s.base
    decreases |steps|
  {
    if steps == [] {
    } else {
      assert !steps[0].SetCursor?;
      BaseStays(Apply(s, steps[0]), steps[1..]);
    }
  }

  /** With a positive initial cursor that only received messages move afterwards, the stream is complete
   * from that initial cursor on. */
  lemma {:induction false} NoGapFromInitialCursor(cursor: nat, steps: seq<Step>)
    requires cursor > 0 && Legal(Init(cursor), steps) && OnlyReceivedMove(steps)
    ensures
      var s := Run(Init(cursor), steps);
      Covers(s.log, cursor, s.cursor, s.received)
  {
    NoGapOnEveryRun(cursor, steps);
    BaseStays(Init(cursor), steps);
  }
}
