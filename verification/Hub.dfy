/** The hub and its subscriptions as the objects of the program, one goroutine at a time.
 *
 * Each method is tied to the functions of `HubModel` that its interleaved steps are made of, so what
 * is proved there over every interleaving is about these bodies.
 */
module Hub {
  import opened HubModel

  class Subscription<T> {
    const cap: nat
    var queue: seq<T>
    var eventsClosed: bool
    var overflowBuf: nat
    var overflowClosed: bool
    var closed: bool
    var overflowed: bool
    var fault: bool

    ghost function View(): Channel<T>
      reads this
    {
      Channel(queue, cap, eventsClosed, overflowBuf, overflowClosed, closed, overflowed, fault)
    }

    constructor (buffer: nat)
      ensures View() == NewChannel(buffer)
    {
      cap := buffer;
      queue := [];
      eventsClosed, overflowBuf, overflowClosed := false, 0, false;
      closed, overflowed, fault := false, false, false;
    }

    method TryPush(event: T) returns (sent: bool)
      modifies this
      ensures (View(), sent) == TrySend(old(View()), event)
    {
      sent := false;
      if eventsClosed {
        fault := true;
      } else if |queue| < cap {
        queue := queue + [event];
        sent := true;
      }
    }

    method CloseEventsChannel()
      modifies this
      ensures View() == CloseEvents(old(View()))
    {
      fault := fault || eventsClosed;
      eventsClosed := true;
    }

    method MarkOverflowed() returns (first: bool)
      modifies this
      ensures View() == MarkOverflow(old(View()))
      ensures first <==> !old(closed) && !old(overflowed)
    {
      if closed || overflowed {
        return false;
      }
      overflowed := true;
      if overflowClosed {
        fault := true;
      } else if overflowBuf < 1 {
        overflowBuf := overflowBuf + 1;
      }
      CloseEventsChannel();
      return true;
    }

    method Close() returns (first: bool)
      modifies this
      ensures View() == CloseSubscription(old(View()))
      ensures first <==> !old(closed)
    {
      if closed {
        return false;
      }
      closed := true;
      if !overflowed {
        CloseEventsChannel();
      }
      fault := fault || overflowClosed;
      overflowClosed := true;
      return true;
    }
  }

  /** What one Publish call does to one subscriber when nothing else runs: the event is queued, or, when
   * it does not fit, the subscriber is told and cut off. */
  ghost function Offered<T>(c: Channel<T>, event: T): Channel<T> {
    var (c', sent) := TrySend(c, event);
    if sent then c' else MarkOverflow(c')
  }

  /** Nothing is lost without the subscriber being told, and nothing goes wrong with an open channel. */
  lemma {:induction false} OfferedOrCut<T>(c: Channel<T>, event: T)
    requires ChannelOk(c) && Open(c)
    ensures
      var c' := Offered(c, event);
      && ChannelOk(c')
      && (c'.overflowed <==> |c.queue| == c.cap)
      && (if c'.overflowed then c'.queue == c.queue && c'.eventsClosed
          else c'.queue == c.queue + [event] && Open(c'))
  {
  }

  lemma {:induction false} OfferedIs<T>(c: Channel<T>, event: T)
    requires ChannelOk(c) && Open(c)
    ensures Offered(c, event) == if |c.queue| == c.cap then MarkOverflow(TrySend(c, event).0) else TrySend(c, event).0
  {
  }

  /** Removing a set of subscribers from a topic one at a time. */
  ghost function DeregisterSet<T>(registry: map<Topic, set<Subscription<T>>>, topic: Topic,
                                  gone: set<Subscription<T>>): map<Topic, set<Subscription<T>>>
  {
    if topic !in registry || gone == {} then registry
    else if registry[topic] - gone == {} then registry - {topic}
    else registry[topic := registry[topic] - gone]
  }

  lemma {:induction false} DeregisterOneMore<T>(registry: map<Topic, set<Subscription<T>>>, topic: Topic,
                             gone: set<Subscription<T>>, sub: Subscription<T>)
    ensures Deregister(DeregisterSet(registry, topic, gone), topic, sub)
              == DeregisterSet(registry, topic, gone + {sub})
  {
    if topic in registry {
      assert registry[topic] - gone - {sub} == registry[topic] - (gone + {sub});
      if registry[topic] - gone == {} { assert registry[topic] - (gone + {sub}) == {}; }
      if gone == {} { assert registry[topic] - gone == registry[topic]; }
    }
  }

  /** Who is left was there before, and nobody that was removed is left under the topic. */
  lemma {:induction false} RemainIn<T>(registry: map<Topic, set<Subscription<T>>>, topic: Topic,
                                       gone: set<Subscription<T>>)
    requires forall t | t in registry :: registry[t] != {}
    ensures
      var left := DeregisterSet(registry, topic, gone);
      forall t | t in left ::
        t in registry && left[t] <= registry[t] && left[t] != {} && (t == topic ==> left[t] !! gone)
  {
  }

  class Hub<T> {
    var subscribers: map<Topic, set<Subscription<T>>>

    constructor ()
      ensures subscribers == map[] && Valid()
    {
      subscribers := map[];
    }

    ghost function Members(): set<Subscription<T>>
      reads this
    {
      set t, s | t in subscribers && s in subscribers[t] :: s
    }

    /** The registry invariant of the interleaved model, on objects. */
    ghost predicate Valid()
      reads this, Members()
    {
      && (forall t | t in subscribers :: subscribers[t] != {})
      && (forall t, s | t in subscribers && s in subscribers[t] :: ChannelOk(s.View()) && Open(s.View()))
      && (forall t, u, s | t in subscribers && u in subscribers && s in subscribers[t] && s in subscribers[u] :: t == u)
    }

    method Subscribe(topic: Topic, buffer: nat) returns (sub: Subscription<T>)
      requires Valid()
      modifies this
      ensures Valid()
      ensures fresh(sub) && sub.View() == NewChannel(buffer)
      ensures subscribers == old(subscribers)[topic :=
                (if topic in old(subscribers) then old(subscribers)[topic] else {}) + {sub}]
    {
      sub := new Subscription(buffer);
      if topic !in subscribers {
        subscribers := subscribers[topic := {}];
      }
      subscribers := subscribers[topic := subscribers[topic] + {sub}];
      assert sub !in old(Members()) && ChannelOk(sub.View()) && Open(sub.View());
      forall t, s | t in subscribers && s in subscribers[t] && s != sub
        ensures t in old(subscribers) && s in old(subscribers)[t] && s.View() == old(s.View())
      {
        assert s in old(Members());
      }
    }

    method Unsubscribe(sub: Subscription?<T>)
      requires Valid()
      modifies this, sub
      ensures Valid()
      ensures sub == null ==> subscribers == old(subscribers)
      ensures sub != null ==>
                subscribers == DeregisterAll(old(subscribers), sub) && sub.View() == CloseSubscription(old(sub.View()))
    {
      if sub == null {
        return;
      }
      RemoveEverywhere(sub);
      var _ := sub.Close();
      assert forall t, s | t in subscribers && s in subscribers[t] :: s != sub && s in old(Members());
    }

    /** The lock section of Unsubscribe: take the subscription out of every topic. */
    method RemoveEverywhere(sub: Subscription<T>)
      requires forall t | t in subscribers :: subscribers[t] != {}
      modifies `subscribers
      ensures subscribers == DeregisterAll(old(subscribers), sub)
    {
      var topics := subscribers.Keys;
      while topics != {}
        invariant topics <= old(subscribers).Keys
        invariant forall t | t in topics :: t in subscribers && subscribers[t] == old(subscribers)[t]
        invariant subscribers.Keys <= old(subscribers).Keys
        invariant forall t | t in old(subscribers) && t !in topics ::
                    if old(subscribers)[t] - {sub} == {} then t !in subscribers
                    else t in subscribers && subscribers[t] == old(subscribers)[t] - {sub}
        decreases topics
      {
        var topic :| topic in topics;
        if sub in subscribers[topic] {
          if subscribers[topic] - {sub} == {} {
            subscribers := subscribers - {topic};
          } else {
            subscribers := subscribers[topic := subscribers[topic] - {sub}];
          }
        } else {
          assert subscribers[topic] - {sub} == subscribers[topic];
        }
        topics := topics - {topic};
      }
      assert subscribers == DeregisterAll(old(subscribers), sub);
    }

    /** Every subscriber of the topic is offered the event; exactly those it does not fit are told,
     * cut off and removed; nobody else is touched. */
    method Publish(topic: Topic, event: T)
      requires Valid()
      modifies this, Members()
      ensures Valid()
      ensures topic !in old(subscribers) ==> subscribers == old(subscribers)
      ensures topic in old(subscribers) ==>
                && (forall s | s in old(subscribers)[topic] :: s.View() == Offered(old(s.View()), event))
                && subscribers == DeregisterSet(old(subscribers), topic,
                                                set s | s in old(subscribers)[topic] && |old(s.queue)| == s.cap)
      ensures forall s | s in old(Members()) && (topic !in old(subscribers) || s !in old(subscribers)[topic]) ::
                s.View() == old(s.View())
    {
      if topic !in subscribers {
        return;
      }
      ghost var registry := subscribers;
      var full := OfferAndCut(topic, event);
      RemainIn(registry, topic, full);
      forall t, s | t in subscribers && s in subscribers[t]
        ensures ChannelOk(s.View()) && Open(s.View())
      {
        assert t in registry && s in registry[t] && s !in full;
      }
    }

    /** The two lock sections, one after the other. */
    method OfferAndCut(topic: Topic, event: T) returns (full: set<Subscription<T>>)
      requires Valid() && topic in subscribers
      modifies this, Members()
      ensures full == set s | s in old(subscribers)[topic] && |old(s.queue)| == s.cap
      ensures subscribers == DeregisterSet(old(subscribers), topic, full)
      ensures forall s | s in old(subscribers)[topic] :: s.View() == Offered(old(s.View()), event)
      ensures forall s | s in old(Members()) && s !in old(subscribers)[topic] :: s.View() == old(s.View())
      ensures forall s | s in old(Members()) && s !in full :: ChannelOk(s.View()) && Open(s.View())
    {
      full := Scan(topic, event);
      label scanned:
      CutOff(topic, full);
      forall s | s in old(subscribers)[topic]
        ensures s.View() == Offered(old(s.View()), event)
        ensures s !in full ==> ChannelOk(s.View()) && Open(s.View())
      {
        OfferedIs(old(s.View()), event);
        OfferedOrCut(old(s.View()), event);
        assert old@scanned(s.View()) == TrySend(old(s.View()), event).0;
      }
    }

    /** The first lock section: offer the event to every subscriber of the topic. */
    method Scan(topic: Topic, event: T) returns (full: set<Subscription<T>>)
      requires Valid() && topic in subscribers
      modifies subscribers[topic]
      ensures full == set s | s in subscribers[topic] && |old(s.queue)| == s.cap
      ensures forall s | s in subscribers[topic] ::
                s.View() == TrySend(old(s.View()), event).0
    {
      var todo := subscribers[topic];
      full := {};
      while todo != {}
        invariant todo <= subscribers[topic]
        invariant full == set s | s in subscribers[topic] - todo && |old(s.queue)| == s.cap
        invariant forall s | s in todo :: s.View() == old(s.View())
        invariant forall s | s in subscribers[topic] - todo :: s.View() == TrySend(old(s.View()), event).0
        decreases todo
      {
        var sub :| sub in todo;
        var sent := sub.TryPush(event);
        if !sent {
          full := full + {sub};
        }
        todo := todo - {sub};
      }
    }

    /** The second lock section: remove and mark the subscribers the event did not fit. */
    method CutOff(topic: Topic, full: set<Subscription<T>>)
      modifies this, full
      ensures subscribers == DeregisterSet(old(subscribers), topic, full)
      ensures forall s | s in full :: s.View() == MarkOverflow(old(s.View()))
    {
      var todo := full;
      while todo != {}
        invariant todo <= full
        invariant subscribers == DeregisterSet(old(subscribers), topic, full - todo)
        invariant forall s | s in todo :: s.View() == old(s.View())
        invariant forall s | s in full - todo :: s.View() == MarkOverflow(old(s.View()))
        decreases todo
      {
        var sub :| sub in todo;
        DeregisterOneMore(old(subscribers), topic, full - todo, sub);
        assert full - (todo - {sub}) == full - todo + {sub};
        if topic in subscribers {
          if subscribers[topic] - {sub} == {} {
            subscribers := subscribers - {topic};
          } else {
            subscribers := subscribers[topic := subscribers[topic] - {sub}];
          }
        }
        var _ := sub.MarkOverflowed();
        todo := todo - {sub};
      }
      assert full - todo == full;
    }
  }
}
