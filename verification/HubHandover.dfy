/** The hub channel of the hand-over is a subscription of the hub: with messages of other kinds on the topic
 * taking up room in it, each move of the hand-over does to it what the hub's own operations do, and the
 * events that have gone through it are one stretch of the log. */
module HubHandover {
  import opened Options
  import opened LogOrder
  import opened Handover
  import opened Delivery
  import HubModel
  import Hub

  /** What the topic carries: the events of the log, by id, and messages of other kinds. */
  datatype Item = Event(id: nat) | Other

  type Channel = HubModel.Channel<Item>

  function EventsIn(items: seq<Item>): seq<nat> {
    if items == [] then []
    else if items[0].Event? then [items[0].id] + EventsIn(items[1..])
    else EventsIn(items[1..])
  }

  lemma {:induction false} EventsSnoc(items: seq<Item>, item: Item)
    ensures EventsIn(items + [item]) == EventsIn(items) + if item.Event? then [item.id] else []
  {
    if items == [] {
      assert ([] + [item])[1..] == [];
    } else {
      assert (items + [item])[1..] == items[1..] + [item];
      EventsSnoc(items[1..], item);
    }
  }

  /** A step of the hand-over, or one that only moves a message of another kind: it is queued, or the topic
   * goroutine takes it and drops it or passes it on. */
  datatype Move = Ours(step: Step) | OtherQueued | OtherTaken

  /** The hand-over together with the subscription as the hub keeps it. */
  datatype Both = Both(s: State, ch: Channel)

  /** The subscription the hub keeps is the one of the hand-over. */
  predicate Shows(ch: Channel, c: Conn) {
    && EventsIn(ch.queue) == c.events && HubModel.ChannelOk(ch)
    && (HubModel.Open(ch) <==> c.open)
  }

  /** Sends to the hub channel fail exactly when it is full, whatever it is full of; the goroutine takes what
   * is at its head, and sees it closed when nothing is left in it. */
  predicate CanMove(b: Both, move: Move) {
    b.s.link.Up? &&
    match move
    case Ours(step) =>
      && Enabled(b.s, step) && !step.Drop? && !step.Restart?
      && (match step
          case Publish(ok) => HubModel.Open(b.ch) ==> ok == (|b.ch.queue| < b.ch.cap)
          case OtherRefused => HubModel.Open(b.ch) && |b.ch.queue| >= b.ch.cap
          case TakeEvent(_) => b.ch.queue != [] && b.ch.queue[0].Event?
          case OtherOverflows => b.ch.queue != [] && b.ch.queue[0].Other?
          case SeesClosed => b.ch.queue == []
          case _ => true)
    case OtherQueued => HubModel.Open(b.ch) && |b.ch.queue| < b.ch.cap
    case OtherTaken =>
      b.ch.queue != [] && b.ch.queue[0].Other? && (b.s.link.conn.loop.Buffering? || b.s.link.conn.loop.Live?)
  }

  /** What the hub does to the subscription; one that was cut off is registered no more, so nothing is offered
   * to it. */
  ghost function ChannelAfter(b: Both, move: Move): Channel
    requires CanMove(b, move)
  {
    match move
    case Ours(step) =>
      (match step
       case Publish(_) =>
         if HubModel.Open(b.ch) then Hub.Offered(b.ch, Event(b.s.log[b.s.published])) else b.ch
       case OtherRefused => Hub.Offered(b.ch, Other)
       case TakeEvent(_) => b.ch.(queue := b.ch.queue[1..])
       case OtherOverflows => b.ch.(queue := b.ch.queue[1..])
       case _ => b.ch)
    case OtherQueued => Hub.Offered(b.ch, Other)
    case OtherTaken => b.ch.(queue := b.ch.queue[1..])
  }

  ghost function AfterMove(b: Both, move: Move): Both
    requires CanMove(b, move)
  {
    Both(if move.Ours? then Apply(b.s, move.step) else b.s, ChannelAfter(b, move))
  }

  lemma {:induction false} SubscribedShows(log: seq<nat>, published: nat, since: nat, buffer: nat)
    requires published <= |log|
    ensures Shows(HubModel.NewChannel(buffer), Subscribed(log, published, since))
  {
  }

  lemma {:induction false} PublishShows(b: Both, ok: bool)
    requires CanMove(b, Ours(Publish(ok))) && Shows(b.ch, b.s.link.conn)
    ensures Shows(ChannelAfter(b, Ours(Publish(ok))), Apply(b.s, Publish(ok)).link.conn)
  {
    if HubModel.Open(b.ch) {
      var item := Event(b.s.log[b.s.published]);
      Hub.OfferedOrCut(b.ch, item);
      EventsSnoc(b.ch.queue, item);
    }
  }

  /** The step of the hand-over and the hub's operation lead to the same channel again. */
  lemma {:induction false} MoveShows(b: Both, move: Move)
    requires CanMove(b, move) && Shows(b.ch, b.s.link.conn)
    ensures AfterMove(b, move).s.link.Up?
    ensures Shows(AfterMove(b, move).ch, AfterMove(b, move).s.link.conn)
    ensures AfterMove(b, move).ch.cap == b.ch.cap
  {
    match move
    case Ours(step) =>
      if step.Publish? {
        PublishShows(b, step.ok);
      } else if step.OtherRefused? {
        Hub.OfferedOrCut(b.ch, Other);
      }
    case OtherQueued =>
      Hub.OfferedOrCut(b.ch, Other);
      EventsSnoc(b.ch.queue, Other);
    case OtherTaken =>
  }

  ghost predicate CanMoveAll(b: Both, moves: seq<Move>)
    decreases |moves|
  {
    moves == [] || (CanMove(b, moves[0]) && CanMoveAll(AfterMove(b, moves[0]), moves[1..]))
  }

  ghost function AfterMoves(b: Both, moves: seq<Move>): Both
    requires CanMoveAll(b, moves)
    decreases |moves|
  {
    if moves == [] then b else AfterMoves(AfterMove(b, moves[0]), moves[1..])
  }

  function StepsOf(moves: seq<Move>): seq<Step> {
    if moves == [] then []
    else if moves[0].Ours? then [moves[0].step] + StepsOf(moves[1..])
    else StepsOf(moves[1..])
  }

  /** Messages of other kinds do not touch the hand-over. */
  lemma {:induction false} MovesAreSteps(b: Both, moves: seq<Move>)
    requires CanMoveAll(b, moves)
    ensures Legal(b.s, StepsOf(moves)) && Run(b.s, StepsOf(moves)) == AfterMoves(b, moves).s
    decreases |moves|
  {
    if moves == [] {
    } else {
      var rest := StepsOf(moves[1..]);
      MovesAreSteps(AfterMove(b, moves[0]), moves[1..]);
      if moves[0].Ours? {
        assert ([moves[0].step] + rest)[1..] == rest;
      }
    }
  }

  lemma {:induction false} MovesShow(b: Both, moves: seq<Move>)
    requires CanMoveAll(b, moves) && b.s.link.Up? && Shows(b.ch, b.s.link.conn)
    ensures
      var b' := AfterMoves(b, moves);
      b'.s.link.Up? && Shows(b'.ch, b'.s.link.conn) && b'.ch.cap == b.ch.cap
    decreases |moves|
  {
    if moves == [] {
    } else {
      MoveShows(b, moves[0]);
      MovesShow(AfterMove(b, moves[0]), moves[1..]);
    }
  }

  /** From the moment it is made and as long as the connection lasts, with any amount of other traffic and for
   * any capacity, the channel the hub's own operations make of a new subscription holds exactly the events
   * the hand-over has queued, and is open exactly as long; and the hand-over runs as it does alone. */
  lemma {:induction false} ChannelIsTheHubs(s: State, moves: seq<Move>, buffer: nat)
    requires Enabled(s, ServerSubscribe)
    requires CanMoveAll(Both(Apply(s, ServerSubscribe), HubModel.NewChannel(buffer)), moves)
    ensures
      var made := Both(Apply(s, ServerSubscribe), HubModel.NewChannel(buffer));
      var b := AfterMoves(made, moves);
      && b.s.link.Up? && Shows(b.ch, b.s.link.conn) && b.ch.cap == buffer
      && Legal(made.s, StepsOf(moves)) && b.s == Run(made.s, StepsOf(moves))
  {
    var made := Both(Apply(s, ServerSubscribe), HubModel.NewChannel(buffer));
    SubscribedShows(s.log, s.published, s.link.since, buffer);
    MovesShow(made, moves);
    MovesAreSteps(made, moves);
  }

  // ----- What goes through the channel -----

  /** The channel holds the stretch of the log from the next event to be taken on. */
  predicate TakenOk(s: State) {
    s.link.Up? ==>
      var c := s.link.conn;
      && c.joined <= c.taken <= Reach(s.published, c) <= s.published <= |s.log|
      && c.events == s.log[c.taken..Reach(s.published, c)]
      && (!c.loop.Gone? ==> c.taken == c.from + |Held(c.loop)|)
  }

  lemma {:induction false} PublishKeepsTaken(s: State, ok: bool)
    requires TakenOk(s) && Enabled(s, Publish(ok))
    ensures TakenOk(Apply(s, Publish(ok)))
  {
    if s.link.Up? && s.link.conn.open && ok {
      var c := s.link.conn;
      assert s.log[c.taken..s.published + 1] == s.log[c.taken..s.published] + [s.log[s.published]];
    }
  }

  lemma {:induction false} TakeKeepsTaken(s: State, ok: bool)
    requires TakenOk(s) && Enabled(s, TakeEvent(ok))
    ensures TakenOk(Apply(s, TakeEvent(ok)))
  {
    var c := s.link.conn;
    var end := Reach(s.published, c);
    assert s.log[c.taken..end][1..] == s.log[c.taken + 1..end];
  }

  lemma {:induction false} InsertKeepsTaken(s: State, id: nat)
    requires TakenOk(s) && Enabled(s, Insert(id))
    ensures TakenOk(Apply(s, Insert(id)))
  {
    if s.link.Up? {
      var c := s.link.conn;
      assert (s.log + [id])[c.taken..Reach(s.published, c)] == s.log[c.taken..Reach(s.published, c)];
    }
  }

  lemma {:induction false} StepKeepsTaken(s: State, step: Step)
    requires TakenOk(s) && s.published <= |s.log| && Enabled(s, step)
    ensures TakenOk(Apply(s, step)) && Apply(s, step).published <= |Apply(s, step).log|
  {
    match step
    case Publish(ok) => PublishKeepsTaken(s, ok);
    case TakeEvent(ok) => TakeKeepsTaken(s, ok);
    case Insert(id) => InsertKeepsTaken(s, id);
    case _ =>
  }

  lemma {:induction false} TakenOnEveryRun(s: State, steps: seq<Step>)
    requires TakenOk(s) && s.published <= |s.log| && Legal(s, steps)
    ensures TakenOk(Run(s, steps))
    decreases |steps|
  {
    if steps == [] {
    } else {
      StepKeepsTaken(s, steps[0]);
      TakenOnEveryRun(Apply(s, steps[0]), steps[1..]);
    }
  }

  /** What the topic goroutine has taken from the hub channel since it was made. */
  function Drained(log: seq<nat>, c: Conn): seq<nat>
    requires c.joined <= c.taken <= |log|
  {
    log[c.joined..c.taken]
  }

  lemma {:induction false} HandledAndHeld(log: seq<nat>, published: nat, c: Conn)
    requires published <= |log| && !c.loop.Gone? && QueueOk(log, published, c)
    requires c.joined <= c.from <= c.taken <= |log| && c.taken == c.from + |Held(c.loop)|
    ensures Drained(log, c) == log[c.joined..c.from] + Held(c.loop)
  {
    var queue := Held(c.loop) + c.events;
    assert queue == log[c.from..c.from + |queue|];
    assert Held(c.loop) == queue[..|Held(c.loop)|] == log[c.from..c.taken];
    assert log[c.joined..c.taken] == log[c.joined..c.from] + log[c.from..c.taken];
  }

  /** In every run, drained and queued together are the contiguous stretch of the log from the first event
   * published to the subscription on: up to the last one published while it is open, and once it was cut
   * off, up to the first event that did not get through, whether or not the goroutine has returned.  While
   * it has not, what it has drained is what it has handled and what it holds back. */
  lemma {:induction false} DrainedAndQueued(cursor: nat, steps: seq<Step>)
    requires Legal(Init(cursor), steps) && Run(Init(cursor), steps).link.Up?
    ensures
      var s := Run(Init(cursor), steps);
      var c := s.link.conn;
      && c.joined <= c.taken <= Reach(s.published, c) <= s.published <= |s.log|
      && Drained(s.log, c) + c.events == s.log[c.joined..Reach(s.published, c)]
      && (!c.loop.Gone? ==>
            c.joined <= c.from <= c.taken && Drained(s.log, c) == s.log[c.joined..c.from] + Held(c.loop))
  {
    DeliveryOnEveryRun(Init(cursor), steps);
    TakenOnEveryRun(Init(cursor), steps);
    var s := Run(Init(cursor), steps);
    var c := s.link.conn;
    var end := Reach(s.published, c);
    assert s.log[c.joined..end] == s.log[c.joined..c.taken] + s.log[c.taken..end];
    if !c.loop.Gone? { HandledAndHeld(s.log, s.published, c); }
  }
}
