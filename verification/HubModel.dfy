/** The realtime hub as a set of interleaved steps.
 *
 * `Channel` is one subscription: its two Go channels and its two flags.  `State` adds the subscriber
 * registry, the goroutines that are inside a hub operation, and the history the theorems talk about.
 * Every lock section of the hub is cut as finely as the locks allow: several publishers may scan a
 * topic at the same time (they hold the lock as readers) and their sends interleave one by one, and
 * closing a subscription happens outside the hub lock.
 */
module HubModel {

  /** One subscription.  `overflowBuf` is what sits in the Overflow channel (capacity one).  `fault`
   * records a Go panic: a send on a closed channel, or a channel closed twice. */
  datatype Channel<T> = Channel(
    queue: seq<T>, cap: nat, eventsClosed: bool,
    overflowBuf: nat, overflowClosed: bool,
    closed: bool, overflowed: bool, fault: bool)

  function NewChannel<T>(buffer: nat): Channel<T> {
    Channel([], buffer, false, 0, false, false, false, false)
  }

  /** `select { case sub.Events <- event: default: }`: the second result says whether it was sent. */
  function TrySend<T>(c: Channel<T>, e: T): (Channel<T>, bool) {
    if c.eventsClosed then (c.(fault := true), false)
    else if |c.queue| < c.cap then (c.(queue := c.queue + [e]), true)
    else (c, false)
  }

  function CloseEvents<T>(c: Channel<T>): Channel<T> {
    c.(eventsClosed := true, fault := c.fault || c.eventsClosed)
  }

  function CloseOverflow<T>(c: Channel<T>): Channel<T> {
    c.(overflowClosed := true, fault := c.fault || c.overflowClosed)
  }

  /** `select { case s.Overflow <- struct{}{}: default: }` */
  function SignalOverflow<T>(c: Channel<T>): Channel<T> {
    if c.overflowClosed then c.(fault := true)
    else if c.overflowBuf < 1 then c.(overflowBuf := c.overflowBuf + 1)
    else c
  }

  function MarkOverflow<T>(c: Channel<T>): Channel<T> {
    if c.closed || c.overflowed then c
    else CloseEvents(SignalOverflow(c.(overflowed := true)))
  }

  function CloseSubscription<T>(c: Channel<T>): Channel<T> {
    if c.closed then c
    else
      var c1 := c.(closed := true);
      CloseOverflow(if c1.overflowed then c1 else CloseEvents(c1))
  }

  type Topic = string
  type SubId = nat
  type Tid = nat

  /** A published envelope, tagged with the goroutine that published it. */
  datatype Msg = Msg(publisher: Tid, body: string)

  /** A subscription with its history: the topic, how much had been published when it started, what
   * its consumer has already taken from Events, and how many overflow signals it has taken. */
  datatype Sub = Sub(ch: Channel<Msg>, topic: Topic, start: nat, drained: seq<Msg>, signals: nat) {
    function Received(): seq<Msg> { drained + ch.queue }
  }

  /** Where a goroutine is inside a hub operation. */
  datatype Phase =
    | Scan(topic: Topic, msg: Msg, todo: set<SubId>, full: set<SubId>)  // holds the lock as a reader
    | WaitMark(topic: Topic, msg: Msg, full: set<SubId>)                // between the two lock sections
    | Mark(topic: Topic, msg: Msg, todo: set<SubId>)                    // holds the lock as a writer
    | Closing(id: SubId)                                                // removed, not yet closed

  datatype State = State(
    registry: map<Topic, set<SubId>>,
    subs: map<SubId, Sub>,
    threads: map<Tid, Phase>,
    history: map<Topic, seq<Msg>>)

  datatype Step =
    | Subscribe(id: SubId, topic: Topic, buffer: nat)
    | PublishBegin(tid: Tid, topic: Topic, body: string)
    | ScanSend(tid: Tid, id: SubId)
    | ScanEnd(tid: Tid)
    | MarkBegin(tid: Tid)
    | MarkOne(tid: Tid, id: SubId)
    | MarkEnd(tid: Tid)
    | UnsubscribeRemove(tid: Tid, id: SubId)
    | UnsubscribeClose(tid: Tid)
    | TakeEvent(id: SubId)
    | TakeOverflow(id: SubId)

  const Init := State(map[], map[], map[], map[])

  function History(s: State, topic: Topic): seq<Msg> {
    if topic in s.history then s.history[topic] else []
  }

  predicate Registered(s: State, id: SubId) {
    id in s.subs && s.subs[id].topic in s.registry && id in s.registry[s.subs[id].topic]
  }

  /** `delete(subs, sub)`, dropping the topic when its set becomes empty. */
  function Deregister<Id(==)>(registry: map<Topic, set<Id>>, topic: Topic, id: Id): map<Topic, set<Id>> {
    if topic !in registry then registry
    else if registry[topic] - {id} == {} then registry - {topic}
    else registry[topic := registry[topic] - {id}]
  }

  /** The removal loop of Unsubscribe goes over every topic. */
  function DeregisterAll<Id(==)>(registry: map<Topic, set<Id>>, id: Id): map<Topic, set<Id>> {
    map t | t in registry && registry[t] - {id} != {} :: registry[t] - {id}
  }

  predicate WriterFree(s: State) {
    forall tid | tid in s.threads :: !s.threads[tid].Mark?
  }

  predicate LockFree(s: State) {
    forall tid | tid in s.threads :: !s.threads[tid].Mark? && !s.threads[tid].Scan?
  }

  predicate Enabled(s: State, step: Step) {
    match step
    case Subscribe(id, _, _) => LockFree(s) && id !in s.subs
    case PublishBegin(tid, _, _) => WriterFree(s) && tid !in s.threads
    case ScanSend(tid, id) => tid in s.threads && s.threads[tid].Scan? && id in s.threads[tid].todo && id in s.subs
    case ScanEnd(tid) => tid in s.threads && s.threads[tid].Scan? && s.threads[tid].todo == {}
    case MarkBegin(tid) => tid in s.threads && s.threads[tid].WaitMark? && LockFree(s)
    case MarkOne(tid, id) => tid in s.threads && s.threads[tid].Mark? && id in s.threads[tid].todo && id in s.subs
    case MarkEnd(tid) => tid in s.threads && s.threads[tid].Mark? && s.threads[tid].todo == {}
    case UnsubscribeRemove(tid, id) => LockFree(s) && tid !in s.threads && id in s.subs
    case UnsubscribeClose(tid) => tid in s.threads && s.threads[tid].Closing? && s.threads[tid].id in s.subs
    case TakeEvent(id) => id in s.subs && s.subs[id].ch.queue != []
    case TakeOverflow(id) => id in s.subs && s.subs[id].ch.overflowBuf > 0
  }

  function Apply(s: State, step: Step): State
    requires Enabled(s, step)
  {
    match step
    case Subscribe(id, topic, buffer) =>
      var others := if topic in s.registry then s.registry[topic] else {};
      s.(registry := s.registry[topic := others + {id}],
         subs := s.subs[id := Sub(NewChannel(buffer), topic, |History(s, topic)|, [], 0)])
    case PublishBegin(tid, topic, body) =>
      var msg := Msg(tid, body);
      var s1 := s.(history := s.history[topic := History(s, topic) + [msg]]);
      if topic !in s.registry then s1
      else s1.(threads := s.threads[tid := Scan(topic, msg, s.registry[topic], {})])
    case ScanSend(tid, id) =>
      var Scan(topic, msg, todo, full) := s.threads[tid];
      var (ch, sent) := TrySend(s.subs[id].ch, msg);
      s.(subs := s.subs[id := s.subs[id].(ch := ch)],
         threads := s.threads[tid := Scan(topic, msg, todo - {id}, if sent then full else full + {id})])
    case ScanEnd(tid) =>
      var Scan(topic, msg, _, full) := s.threads[tid];
      s.(threads := if full == {} then s.threads - {tid} else s.threads[tid := WaitMark(topic, msg, full)])
    case MarkBegin(tid) =>
      var WaitMark(topic, msg, full) := s.threads[tid];
      s.(threads := s.threads[tid := Mark(topic, msg, full)])
    case MarkOne(tid, id) =>
      var Mark(topic, msg, todo) := s.threads[tid];
      s.(registry := Deregister(s.registry, topic, id),
         subs := s.subs[id := s.subs[id].(ch := MarkOverflow(s.subs[id].ch))],
         threads := s.threads[tid := Mark(topic, msg, todo - {id})])
    case MarkEnd(tid) => s.(threads := s.threads - {tid})
    case UnsubscribeRemove(tid, id) =>
      s.(registry := DeregisterAll(s.registry, id), threads := s.threads[tid := Closing(id)])
    case UnsubscribeClose(tid) =>
      var id := s.threads[tid].id;
      s.(subs := s.subs[id := s.subs[id].(ch := CloseSubscription(s.subs[id].ch))],
         threads := s.threads - {tid})
    case TakeEvent(id) =>
      var sub := s.subs[id];
      s.(subs := s.subs[id := sub.(ch := sub.ch.(queue := sub.ch.queue[1..]),
                                   drained := sub.drained + [sub.ch.queue[0]])])
    case TakeOverflow(id) =>
      var sub := s.subs[id];
      s.(subs := s.subs[id := sub.(ch := sub.ch.(overflowBuf := sub.ch.overflowBuf - 1),
                                   signals := sub.signals + 1)])
  }

  /** A run is any sequence of steps each of which is enabled when it is taken. */
  ghost predicate Legal(s: State, steps: seq<Step>)
    decreases |steps|
  {
    steps == [] || (Enabled(s, steps[0]) && Legal(Apply(s, steps[0]), steps[1..]))
  }

  ghost function Run(s: State, steps: seq<Step>): State
    requires Legal(s, steps)
    decreases |steps|
  {
    if steps == [] then s else Run(Apply(s, steps[0]), steps[1..])
  }

  // ----- Channel safety -----

  predicate ChannelOk<T>(c: Channel<T>) {
    && !c.fault
    && |c.queue| <= c.cap
    && (c.eventsClosed <==> c.closed || c.overflowed)
    && (c.overflowClosed <==> c.closed)
  }

  predicate Open<T>(c: Channel<T>) { !c.closed && !c.overflowed && !c.eventsClosed }

  predicate RegistryOk(s: State) {
    forall t | t in s.registry ::
      s.registry[t] != {} &&
      forall id | id in s.registry[t] :: id in s.subs && s.subs[id].topic == t && Open(s.subs[id].ch)
  }

  predicate SubOk(sub: Sub) {
    ChannelOk(sub.ch) && sub.ch.overflowBuf + sub.signals == if sub.ch.overflowed then 1 else 0
  }

  predicate SubsOk(s: State) {
    forall id | id in s.subs :: SubOk(s.subs[id])
  }

  predicate OfTopic(s: State, ids: set<SubId>, topic: Topic) {
    forall id | id in ids :: id in s.subs && s.subs[id].topic == topic
  }

  predicate PhaseOk(s: State, tid: Tid, p: Phase) {
    match p
    case Scan(topic, msg, todo, full) =>
      msg.publisher == tid && topic in s.registry && todo + full <= s.registry[topic] && todo !! full
    case WaitMark(topic, msg, full) => msg.publisher == tid && OfTopic(s, full, topic)
    case Mark(topic, msg, todo) => msg.publisher == tid && OfTopic(s, todo, topic)
    case Closing(id) => id in s.subs && !Registered(s, id)
  }

  predicate ThreadsOk(s: State) {
    forall tid | tid in s.threads :: PhaseOk(s, tid, s.threads[tid])
  }

  /** The read-write lock: a writer excludes every other holder. */
  predicate LockOk(s: State) {
    forall a, b | a in s.threads && b in s.threads && a != b && s.threads[a].Mark? ::
      !s.threads[b].Mark? && !s.threads[b].Scan?
  }

  predicate Inv(s: State) {
    RegistryOk(s) && SubsOk(s) && ThreadsOk(s) && LockOk(s)
  }

  lemma {:induction false} ChannelSteps<T>(c: Channel<T>, e: T)
    requires ChannelOk(c)
    ensures Open(c) ==> ChannelOk(TrySend(c, e).0) && Open(TrySend(c, e).0)
    ensures ChannelOk(MarkOverflow(c)) && ChannelOk(CloseSubscription(c))
  {
  }

  lemma {:induction false} StepKeepsRegistry(s: State, step: Step)
    requires Inv(s) && Enabled(s, step)
    ensures RegistryOk(Apply(s, step))
  {
    match step
    case ScanSend(tid, id) =>
      assert PhaseOk(s, tid, s.threads[tid]);
      ChannelSteps(s.subs[id].ch, s.threads[tid].msg);
    case MarkOne(tid, id) =>
      MarkKeepsRegistry(s, tid, id);
    case UnsubscribeClose(tid) =>
      CloseKeepsRegistry(s, tid);
    case _ =>
  }

  lemma {:induction false} CloseKeepsRegistry(s: State, tid: Tid)
    requires Inv(s) && Enabled(s, UnsubscribeClose(tid))
    ensures RegistryOk(Apply(s, UnsubscribeClose(tid)))
  {
    assert PhaseOk(s, tid, s.threads[tid]);
  }

  lemma {:induction false} MarkKeepsRegistry(s: State, tid: Tid, id: SubId)
    requires Inv(s) && Enabled(s, MarkOne(tid, id))
    ensures RegistryOk(Apply(s, MarkOne(tid, id)))
  {
    assert PhaseOk(s, tid, s.threads[tid]);
  }

  lemma {:induction false} StepKeepsSubs(s: State, step: Step)
    requires Inv(s) && Enabled(s, step)
    ensures SubsOk(Apply(s, step))
  {
    forall id | id in Apply(s, step).subs
      ensures SubOk(Apply(s, step).subs[id])
    {
      if id in s.subs { StepKeepsSub(s, step, id); }
    }
  }

  lemma {:induction false} StepKeepsSub(s: State, step: Step, id: SubId)
    requires RegistryOk(s) && ThreadsOk(s) && Enabled(s, step) && id in s.subs && SubOk(s.subs[id])
    ensures SubOk(Apply(s, step).subs[id])
  {
    if step.ScanSend? {
      assert PhaseOk(s, step.tid, s.threads[step.tid]);
    }
  }

  lemma {:induction false} StepKeepsLock(s: State, step: Step)
    requires LockOk(s) && Enabled(s, step)
    ensures LockOk(Apply(s, step))
  {
  }

  lemma {:induction false} StepKeepsThreads(s: State, step: Step)
    requires Inv(s) && Enabled(s, step)
    ensures ThreadsOk(Apply(s, step))
  {
    var s' := Apply(s, step);
    forall tid | tid in s'.threads
      ensures PhaseOk(s', tid, s'.threads[tid])
    {
      if tid in s.threads {
        assert PhaseOk(s, tid, s.threads[tid]);
        if s'.threads[tid] == s.threads[tid] {
          StepKeepsBystander(s, step, tid);
        } else {
          StepKeepsActor(s, step, tid);
        }
      }
    }
  }

  lemma {:induction false} StepKeepsActor(s: State, step: Step, tid: Tid)
    requires RegistryOk(s) && Enabled(s, step)
    requires tid in s.threads && tid in Apply(s, step).threads && PhaseOk(s, tid, s.threads[tid])
    requires Apply(s, step).threads[tid] != s.threads[tid]
    ensures PhaseOk(Apply(s, step), tid, Apply(s, step).threads[tid])
  {
  }

  /** The lock keeps the registry still under a scan, and nobody puts a removed subscription back. */
  lemma {:induction false} StepKeepsBystander(s: State, step: Step, tid: Tid)
    requires LockOk(s) && Enabled(s, step)
    requires tid in s.threads && tid in Apply(s, step).threads && PhaseOk(s, tid, s.threads[tid])
    requires Apply(s, step).threads[tid] == s.threads[tid]
    ensures PhaseOk(Apply(s, step), tid, s.threads[tid])
  {
  }

  /** Every step keeps the invariant. */
  lemma {:induction false} StepKeepsInv(s: State, step: Step)
    requires Inv(s) && Enabled(s, step)
    ensures Inv(Apply(s, step))
  {
    StepKeepsRegistry(s, step);
    StepKeepsSubs(s, step);
    StepKeepsThreads(s, step);
    StepKeepsLock(s, step);
  }

  /** What the hub promises about its channels in one state. */
  predicate ChannelSafe(s: State) {
    && (forall id | id in s.subs :: !s.subs[id].ch.fault && s.subs[id].ch.overflowBuf + s.subs[id].signals <= 1)
    && (forall t | t in s.registry :: s.registry[t] != {})
    && (forall t, id | t in s.registry && id in s.registry[t] :: id in s.subs && !s.subs[id].ch.eventsClosed)
  }

  /** In every run no send hits a closed channel, no channel is closed twice, a subscription is told of
   * an overflow at most once, a registered subscription has an open Events channel, and no topic maps
   * to an empty set. */
  lemma {:induction false} ChannelsSafeOnEveryRun(steps: seq<Step>)
    requires Legal(Init, steps)
    ensures ChannelSafe(Run(Init, steps))
  {
    InvOnEveryRun(Init, steps);
  }

  lemma {:induction false} InvOnEveryRun(s: State, steps: seq<Step>)
    requires Inv(s) && Legal(s, steps)
    ensures Inv(Run(s, steps))
    decreases |steps|
  {
    if steps == [] {
    } else {
      StepKeepsInv(s, steps[0]);
      InvOnEveryRun(Apply(s, steps[0]), steps[1..]);
    }
  }

  // ----- Order of delivery -----

  /** The messages of one publisher, in order. */
  function By(p: Tid, xs: seq<Msg>): seq<Msg> {
    if xs == [] then []
    else
      var rest := By(p, xs[..|xs| - 1]);
      if xs[|xs| - 1].publisher == p then rest + [xs[|xs| - 1]] else rest
  }

  lemma {:induction false} ByAppend(p: Tid, xs: seq<Msg>, m: Msg)
    ensures By(p, xs + [m]) == if m.publisher == p then By(p, xs) + [m] else By(p, xs)
  {
    assert (xs + [m])[..|xs|] == xs;
  }

  /** What has been published on a subscription's topic since it subscribed. */
  function Since(s: State, id: SubId): seq<Msg>
    requires id in s.subs
  {
    var h := History(s, s.subs[id].topic);
    if s.subs[id].start <= |h| then h[s.subs[id].start..] else []
  }

  /** The message a Publish call of p in progress has not delivered to this subscription (yet). */
  function Owed(s: State, p: Tid, id: SubId): seq<Msg>
    requires id in s.subs
  {
    if p !in s.threads then []
    else
      match s.threads[p]
      case Scan(topic, msg, todo, full) => if topic == s.subs[id].topic && id in todo + full then [msg] else []
      case WaitMark(topic, msg, full) => if topic == s.subs[id].topic && id in full then [msg] else []
      case Mark(topic, msg, todo) => if topic == s.subs[id].topic && id in todo then [msg] else []
      case Closing(_) => []
  }

  /** What was received is a prefix of what was sent; while the subscription is registered nothing is
   * missing but what is still owed. */
  predicate Ordered(sent: seq<Msg>, got: seq<Msg>, registered: bool, owed: seq<Msg>) {
    got <= sent && (registered ==> sent == got + owed)
  }

  lemma {:induction false} OrderedPublish(sent: seq<Msg>, got: seq<Msg>, registered: bool, owed: seq<Msg>,
                                          more: seq<Msg>)
    requires Ordered(sent, got, registered, owed)
    ensures Ordered(sent + more, got, registered, owed + more)
  {
  }

  lemma {:induction false} OrderedDeliver(sent: seq<Msg>, got: seq<Msg>, owed: seq<Msg>, more: seq<Msg>)
    requires Ordered(sent, got, true, more + owed)
    ensures Ordered(sent, got + more, true, owed)
  {
    assert sent == got + more + owed;
  }

  /** The order in which one subscription sees one publisher. */
  predicate InOrder(s: State, p: Tid, id: SubId)
    requires id in s.subs
  {
    Ordered(By(p, Since(s, id)), By(p, s.subs[id].Received()), Registered(s, id), Owed(s, p, id))
  }

  predicate StartsOk(s: State) {
    forall id | id in s.subs :: s.subs[id].start <= |History(s, s.subs[id].topic)|
  }

  ghost predicate FifoOk(s: State) {
    && StartsOk(s)
    && (forall id, p | id in s.subs :: InOrder(s, p, id))
  }

  lemma {:induction false} StepKeepsFifo(s: State, step: Step)
    requires Inv(s) && FifoOk(s) && Enabled(s, step)
    ensures FifoOk(Apply(s, step))
  {
    var s' := Apply(s, step);
    StepKeepsStarts(s, step);
    forall id, p | id in s'.subs
      ensures InOrder(s', p, id)
    {
      if id in s.subs {
        assert InOrder(s, p, id);
        StepKeepsOrder(s, step, p, id);
      } else {
        assert Since(s', id) == [];
      }
    }
  }

  lemma {:induction false} StepKeepsStarts(s: State, step: Step)
    requires StartsOk(s) && Enabled(s, step)
    ensures StartsOk(Apply(s, step))
  {
  }

  lemma {:induction false} StepKeepsOrder(s: State, step: Step, p: Tid, id: SubId)
    requires Inv(s) && Enabled(s, step) && id in s.subs
    requires InOrder(s, p, id) && s.subs[id].start <= |History(s, s.subs[id].topic)|
    ensures InOrder(Apply(s, step), p, id)
  {
    match step
    case PublishBegin(tid, topic, body) =>
      PublishKeepsOrder(s, tid, topic, body, p, id);
    case ScanSend(tid, id0) =>
      assert PhaseOk(s, tid, s.threads[tid]);
      SendKeepsOrder(s, tid, id0, p, id);
    case _ =>
      OtherStepsKeepOrder(s, step, p, id);
  }

  lemma {:induction false} PublishKeepsOrder(s: State, tid: Tid, topic: Topic, body: string, p: Tid, id: SubId)
    requires Enabled(s, PublishBegin(tid, topic, body)) && id in s.subs
    requires InOrder(s, p, id) && s.subs[id].start <= |History(s, s.subs[id].topic)|
    ensures InOrder(Apply(s, PublishBegin(tid, topic, body)), p, id)
  {
    if s.subs[id].topic == topic {
      PublishOnTopicKeepsOrder(s, tid, topic, body, p, id);
    } else {
      PublishElsewhereKeepsOrder(s, tid, topic, body, p, id);
    }
  }

  lemma {:induction false} PublishElsewhereKeepsOrder(s: State, tid: Tid, topic: Topic, body: string, p: Tid, id: SubId)
    requires Enabled(s, PublishBegin(tid, topic, body)) && id in s.subs && s.subs[id].topic != topic
    requires InOrder(s, p, id)
    ensures InOrder(Apply(s, PublishBegin(tid, topic, body)), p, id)
  {
    SameOrder(s, Apply(s, PublishBegin(tid, topic, body)), p, id);
  }

  lemma {:induction false} PublishOnTopicKeepsOrder(s: State, tid: Tid, topic: Topic, body: string, p: Tid, id: SubId)
    requires Enabled(s, PublishBegin(tid, topic, body)) && id in s.subs && s.subs[id].topic == topic
    requires InOrder(s, p, id) && s.subs[id].start <= |History(s, topic)|
    ensures InOrder(Apply(s, PublishBegin(tid, topic, body)), p, id)
  {
    var s' := Apply(s, PublishBegin(tid, topic, body));
    var more := if p == tid then [Msg(tid, body)] else [];
    var sent, got, owed := By(p, Since(s, id)), By(p, s.subs[id].Received()), Owed(s, p, id);
    PublishExtends(s, tid, topic, body, p, id);
    PublishOwes(s, tid, topic, body, p, id);
    OrderedPublish(sent, got, Registered(s, id), owed, more);
    AreInOrder(s', p, id, sent + more, got, owed + more);
  }

  lemma {:induction false} AreInOrder(s: State, p: Tid, id: SubId, sent: seq<Msg>, got: seq<Msg>, owed: seq<Msg>)
    requires id in s.subs && Ordered(sent, got, Registered(s, id), owed)
    requires By(p, Since(s, id)) == sent && By(p, s.subs[id].Received()) == got
    requires Registered(s, id) ==> Owed(s, p, id) == owed
    ensures InOrder(s, p, id)
  {
  }

  lemma {:induction false} PublishExtends(s: State, tid: Tid, topic: Topic, body: string, p: Tid, id: SubId)
    requires Enabled(s, PublishBegin(tid, topic, body)) && id in s.subs && s.subs[id].topic == topic
    requires s.subs[id].start <= |History(s, topic)|
    ensures By(p, Since(Apply(s, PublishBegin(tid, topic, body)), id))
              == By(p, Since(s, id)) + if p == tid then [Msg(tid, body)] else []
  {
    assert Since(Apply(s, PublishBegin(tid, topic, body)), id) == Since(s, id) + [Msg(tid, body)];
    ByAppend(p, Since(s, id), Msg(tid, body));
  }

  lemma {:induction false} PublishOwes(s: State, tid: Tid, topic: Topic, body: string, p: Tid, id: SubId)
    requires Enabled(s, PublishBegin(tid, topic, body)) && id in s.subs && s.subs[id].topic == topic
    ensures
      var s' := Apply(s, PublishBegin(tid, topic, body));
      && Registered(s', id) == Registered(s, id)
      && (Registered(s, id) ==> Owed(s', p, id) == Owed(s, p, id) + if p == tid then [Msg(tid, body)] else [])
  {
  }

  /** Only the subscription that is sent to can change, and only for the sending publisher. */
  lemma {:induction false} SendKeepsOrder(s: State, tid: Tid, id0: SubId, p: Tid, id: SubId)
    requires Enabled(s, ScanSend(tid, id0)) && id in s.subs
    requires PhaseOk(s, tid, s.threads[tid]) && RegistryOk(s)
    requires InOrder(s, p, id)
    ensures InOrder(Apply(s, ScanSend(tid, id0)), p, id)
  {
    if id == id0 && TrySend(s.subs[id].ch, s.threads[tid].msg).1 {
      SentKeepsOrder(s, tid, p, id);
    } else {
      var s' := Apply(s, ScanSend(tid, id0));
      assert s'.subs[id].Received() == s.subs[id].Received();
      SameOrder(s, s', p, id);
    }
  }

  lemma {:induction false} SentKeepsOrder(s: State, tid: Tid, p: Tid, id: SubId)
    requires Enabled(s, ScanSend(tid, id)) && TrySend(s.subs[id].ch, s.threads[tid].msg).1
    requires PhaseOk(s, tid, s.threads[tid]) && RegistryOk(s)
    requires InOrder(s, p, id)
    ensures InOrder(Apply(s, ScanSend(tid, id)), p, id)
  {
    var s' := Apply(s, ScanSend(tid, id));
    var msg := s.threads[tid].msg;
    var more := if p == tid then [msg] else [];
    assert By(p, s'.subs[id].Received()) == By(p, s.subs[id].Received()) + more by {
      assert s'.subs[id].Received() == s.subs[id].Received() + [msg];
      ByAppend(p, s.subs[id].Received(), msg);
    }
    SendPays(s, tid, p, id);
    OrderedDeliver(By(p, Since(s, id)), By(p, s.subs[id].Received()), Owed(s', p, id), more);
  }

  lemma {:induction false} SendPays(s: State, tid: Tid, p: Tid, id: SubId)
    requires Enabled(s, ScanSend(tid, id)) && TrySend(s.subs[id].ch, s.threads[tid].msg).1
    requires PhaseOk(s, tid, s.threads[tid]) && RegistryOk(s)
    ensures
      var s' := Apply(s, ScanSend(tid, id));
      && Registered(s, id) && Registered(s', id)
      && Since(s', id) == Since(s, id)
      && Owed(s, p, id) == (if p == tid then [s.threads[tid].msg] else []) + Owed(s', p, id)
  {
  }

  lemma {:induction false} OtherStepsKeepOrder(s: State, step: Step, p: Tid, id: SubId)
    requires Enabled(s, step) && id in s.subs && !step.PublishBegin? && !step.ScanSend?
    requires InOrder(s, p, id)
    ensures InOrder(Apply(s, step), p, id)
  {
    var s' := Apply(s, step);
    assert s'.subs[id].Received() == s.subs[id].Received();
    assert Registered(s', id) ==> Registered(s, id);
    if Registered(s', id) { OtherStepsOweTheSame(s, step, p, id); }
    SameOrder(s, s', p, id);
  }

  lemma {:induction false} OtherStepsOweTheSame(s: State, step: Step, p: Tid, id: SubId)
    requires Enabled(s, step) && id in s.subs && !step.PublishBegin? && !step.ScanSend?
    requires Registered(Apply(s, step), id)
    ensures Owed(Apply(s, step), p, id) == Owed(s, p, id)
  {
  }

  /** A step that leaves what was received, published and owed alone keeps the order. */
  lemma {:induction false} SameOrder(s: State, s': State, p: Tid, id: SubId)
    requires id in s.subs && id in s'.subs
    requires s'.subs[id].topic == s.subs[id].topic && s'.subs[id].start == s.subs[id].start
    requires s'.subs[id].Received() == s.subs[id].Received()
    requires History(s', s.subs[id].topic) == History(s, s.subs[id].topic)
    requires Registered(s', id) ==> Registered(s, id) && Owed(s', p, id) == Owed(s, p, id)
    requires InOrder(s, p, id)
    ensures InOrder(s', p, id)
  {
  }

  lemma {:induction false} FifoOnEveryRun(s: State, steps: seq<Step>)
    requires Inv(s) && FifoOk(s) && Legal(s, steps)
    ensures Inv(Run(s, steps)) && FifoOk(Run(s, steps))
    decreases |steps|
  {
    if steps == [] {
    } else {
      StepKeepsInv(s, steps[0]);
      StepKeepsFifo(s, steps[0]);
      FifoOnEveryRun(Apply(s, steps[0]), steps[1..]);
    }
  }

  /** In every run, with any number of publishers at once, each subscriber sees each publisher's
   * messages in the order they were published, from its subscription on, with no gap; and a registered
   * subscriber that is owed nothing has received every one of them. */
  lemma {:induction false} DeliveryInOrder(steps: seq<Step>, id: SubId, p: Tid)
    requires Legal(Init, steps) && id in Run(Init, steps).subs
    ensures
      var s := Run(Init, steps);
      && By(p, s.subs[id].Received()) <= By(p, Since(s, id))
      && (Registered(s, id) && p !in s.threads ==> By(p, s.subs[id].Received()) == By(p, Since(s, id)))
  {
    FifoOnEveryRun(Init, steps);
    assert InOrder(Run(Init, steps), p, id);
  }

  predicate AllBy(p: Tid, xs: seq<Msg>) {
    forall i | 0 <= i < |xs| :: xs[i].publisher == p
  }

  lemma {:induction false} ByAll(p: Tid, xs: seq<Msg>)
    ensures |By(p, xs)| <= |xs|
    ensures AllBy(p, xs) <==> By(p, xs) == xs
    ensures AllBy(p, xs) <==> |By(p, xs)| == |xs|
  {
    if xs == [] {
    } else {
      ByAll(p, xs[..|xs| - 1]);
      assert xs == xs[..|xs| - 1] + [xs[|xs| - 1]];
      if AllBy(p, xs[..|xs| - 1]) && xs[|xs| - 1].publisher == p {
        assert AllBy(p, xs);
      }
      if AllBy(p, xs) {
        assert xs[|xs| - 1].publisher == p;
      }
    }
  }

  lemma {:induction false} ByNone(p: Tid, xs: seq<Msg>)
    ensures By(p, xs) == [] <==> forall i | 0 <= i < |xs| :: xs[i].publisher != p
  {
    if xs == [] {
    } else {
      var init := xs[..|xs| - 1];
      ByNone(p, init);
      assert forall i | 0 <= i < |init| :: init[i] == xs[i];
    }
  }

  /** If everything sent is from p, and every publisher's messages arrive in order, what arrived is a
   * prefix of what was sent. */
  lemma {:induction false} OnlyPublisher(sent: seq<Msg>, got: seq<Msg>, p: Tid)
    requires AllBy(p, sent)
    requires forall q :: By(q, got) <= By(q, sent)
    ensures got <= sent
  {
    forall i | 0 <= i < |got|
      ensures got[i].publisher == p
    {
      var q := got[i].publisher;
      assert By(q, got) <= By(q, sent);
      ByNone(q, got);
      ByNone(q, sent);
    }
    ByAll(p, got);
    ByAll(p, sent);
    assert By(p, got) <= By(p, sent);
  }

  /** With a single publisher on the topic, what was drained followed by what is queued is itself a
   * contiguous segment of the publish sequence that starts at the subscription. */
  lemma {:induction false} SinglePublisherSegment(steps: seq<Step>, id: SubId, p: Tid)
    requires Legal(Init, steps) && id in Run(Init, steps).subs
    requires AllBy(p, Since(Run(Init, steps), id))
    ensures
      var s := Run(Init, steps);
      var sub := s.subs[id];
      && sub.start + |sub.Received()| <= |History(s, sub.topic)|
      && sub.Received() == History(s, sub.topic)[sub.start..sub.start + |sub.Received()|]
  {
    var s := Run(Init, steps);
    FifoOnEveryRun(Init, steps);
    forall q
      ensures By(q, s.subs[id].Received()) <= By(q, Since(s, id))
    {
      assert InOrder(s, q, id);
    }
    OnlyPublisher(Since(s, id), s.subs[id].Received(), p);
  }

  /** An overflow cuts the stream at the first message that did not fit. */
  lemma {:induction false} CutAtFirstThatDidNotFit(s: State, tid: Tid, id: SubId)
    requires Inv(s) && FifoOk(s) && Enabled(s, MarkOne(tid, id))
    requires !s.subs[id].ch.overflowed && Registered(s, id)
    ensures
      var s' := Apply(s, MarkOne(tid, id));
      && s'.subs[id].ch.overflowed && !Registered(s', id)
      && By(tid, Since(s, id)) == By(tid, s'.subs[id].Received()) + [s.threads[tid].msg]
  {
    assert PhaseOk(s, tid, s.threads[tid]);
    assert InOrder(s, tid, id);
    assert Apply(s, MarkOne(tid, id)).subs[id].Received() == s.subs[id].Received();
  }

  lemma {:induction false} StepAfterTheCut(s: State, step: Step, id: SubId)
    requires RegistryOk(s) && ThreadsOk(s) && Enabled(s, step) && id in s.subs && s.subs[id].ch.eventsClosed
    ensures
      var s' := Apply(s, step);
      id in s'.subs && s'.subs[id].ch.eventsClosed && s'.subs[id].Received() == s.subs[id].Received()
  {
    if step.ScanSend? {
      assert PhaseOk(s, step.tid, s.threads[step.tid]);
    }
    assert Apply(s, step).subs[id].Received() == s.subs[id].Received();
  }

  /** Once its Events channel is closed a subscription receives nothing more, whatever happens. */
  lemma {:induction false} NothingAfterTheCut(s: State, steps: seq<Step>, id: SubId)
    requires Inv(s) && Legal(s, steps) && id in s.subs && s.subs[id].ch.eventsClosed
    ensures
      var s' := Run(s, steps);
      id in s'.subs && s'.subs[id].ch.eventsClosed && s'.subs[id].Received() == s.subs[id].Received()
    decreases |steps|
  {
    if steps == [] {
    } else {
      StepKeepsInv(s, steps[0]);
      StepAfterTheCut(s, steps[0], id);
      NothingAfterTheCut(Apply(s, steps[0]), steps[1..], id);
    }
  }
}
