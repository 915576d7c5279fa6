/** The client's topics: reference-counted subscriptions whose end is put off by a timer, and the commands
 * they make it send to the server. */
module ClientTopics {
  import opened Options

  /** `since` of zero stands for no position. */
  datatype Command = Subscribe(topic: string, since: nat) | Unsubscribe(topic: string)

  /** The sets and maps of the client; `sent` is what went out on the connection that is open. */
  datatype State = State(
    subscribed: seq<string>, refCounts: map<string, nat>, cursors: map<string, nat>,
    pending: set<string>, open: bool, sent: seq<Command>)

  const Init := State([], map[], map[], {}, false, [])

  datatype Step =
    | SubscribeTopic(topic: string, since: Option<nat>)
    | UnsubscribeTopic(topic: string)
    | TimerFires(topic: string)
    | Opens
    | Closes
    | Receives(logId: nat, mint: Option<string>)
    | SetCursor(topic: string, id: int)
    | Disconnects

  function CursorOf(s: State, topic: string): nat { if topic in s.cursors then s.cursors[topic] else 0 }

  function CountOf(s: State, topic: string): nat { if topic in s.refCounts then s.refCounts[topic] else 0 }

  function RaiseCursor(s: State, topic: string, id: int): State {
    if id > CursorOf(s, topic) then s.(cursors := s.cursors[topic := id]) else s
  }

  /** Sending is dropped while there is no open connection. */
  function Send(s: State, c: Command): State { if s.open then s.(sent := s.sent + [c]) else s }

  function Add(topics: seq<string>, topic: string): seq<string> { if topic in topics then topics else topics + [topic] }

  function Remove(topics: seq<string>, topic: string): seq<string> {
    if topics == [] then []
    else if topics[0] == topic then Remove(topics[1..], topic)
    else [topics[0]] + Remove(topics[1..], topic)
  }

  function Resubscriptions(s: State, topics: seq<string>): seq<Command> {
    if topics == [] then []
    else
      var last := topics[|topics| - 1];
      Resubscriptions(s, topics[..|topics| - 1]) + [Subscribe(last, CursorOf(s, last))]
  }

  predicate Enabled(s: State, step: Step) {
    match step
    case TimerFires(topic) => topic in s.pending
    case Opens => !s.open
    case Closes => s.open
    case Receives(_, _) => s.open
    case _ => true
  }

  function Apply(s: State, step: Step): State {
    match step
    case SubscribeTopic(topic, since) =>
      if topic == "" then s
      else
        var s1 := s.(pending := s.pending - {topic});
        var s2 := if since.Some? then RaiseCursor(s1, topic, since.value) else s1;
        var count := CountOf(s2, topic);
        var s3 := s2.(refCounts := s2.refCounts[topic := count + 1]);
        if count > 0 then s3
        else Send(s3.(subscribed := Add(s3.subscribed, topic)), Subscribe(topic, CursorOf(s3, topic)))
    case UnsubscribeTopic(topic) =>
      if topic == "" then s
      else
        var count := CountOf(s, topic);
        if count <= 1 then s.(refCounts := s.refCounts - {topic}, pending := s.pending + {topic})
        else s.(refCounts := s.refCounts[topic := count - 1], pending := s.pending - {topic})
    case TimerFires(topic) =>
      if CountOf(s, topic) > 0 then s.(pending := s.pending - {topic})
      else
        Send(s.(subscribed := Remove(s.subscribed, topic), cursors := s.cursors - {topic},
                pending := s.pending - {topic}),
             Unsubscribe(topic))
    case Opens => s.(open := true, sent := Resubscriptions(s, s.subscribed))
    case Closes => s.(open := false)
    case Receives(logId, mint) =>
      if mint.None? || mint.value == "" then s else RaiseCursor(s, "token:" + mint.value, logId)
    case SetCursor(topic, id) => if topic == "" || id <= 0 then s else RaiseCursor(s, topic, id)
    case Disconnects => s.(open := false, pending := {})
  }

  // ----- The provider -----

  class Provider {
    var subscribed: seq<string>
    var refCounts: map<string, nat>
    var cursors: map<string, nat>
    var pending: set<string>
    var open: bool
    var sent: seq<Command>

    function Contents(): State
      reads this
    {
      State(subscribed, refCounts, cursors, pending, open, sent)
    }

    constructor ()
      ensures Contents() == Init
    {
      subscribed, refCounts, cursors, pending, open, sent := [], map[], map[], {}, false, [];
    }

    method SendJson(c: Command) returns (ok: bool)
      modifies this`sent
      ensures Contents() == Send(old(Contents()), c) && ok == open
    {
      ok := open;
      if ok {
        sent := sent + [c];
      }
    }

    method SubscribeTo(topic: string, since: Option<nat>)
      modifies this
      ensures Contents() == Apply(old(Contents()), SubscribeTopic(topic, since))
    {
      if topic == "" {
        return;
      }
      pending := pending - {topic};
      if since.Some? && since.value > CursorOf(Contents(), topic) {
        cursors := cursors[topic := since.value];
      }
      var currentCount := CountOf(Contents(), topic);
      refCounts := refCounts[topic := currentCount + 1];
      if currentCount > 0 {
        return;
      }
      subscribed := Add(subscribed, topic);
      var _ := SendJson(Subscribe(topic, CursorOf(Contents(), topic)));
    }

    method UnsubscribeFrom(topic: string)
      modifies this
      ensures Contents() == Apply(old(Contents()), UnsubscribeTopic(topic))
    {
      if topic == "" {
        return;
      }
      pending := pending - {topic};
      var currentCount := CountOf(Contents(), topic);
      if currentCount <= 1 {
        refCounts := refCounts - {topic};
        pending := pending + {topic};
        return;
      }
      refCounts := refCounts[topic := currentCount - 1];
    }

    /** The callback of the timer an unsubscription left behind. */
    method OnTimer(topic: string)
      requires topic in pending
      modifies this
      ensures Contents() == Apply(old(Contents()), TimerFires(topic))
    {
      if CountOf(Contents(), topic) > 0 {
        pending := pending - {topic};
        return;
      }
      subscribed := Remove(subscribed, topic);
      cursors := cursors - {topic};
      pending := pending - {topic};
      var _ := SendJson(Unsubscribe(topic));
    }

    method OnOpen()
      requires !open
      modifies this
      ensures Contents() == Apply(old(Contents()), Opens)
    {
      open, sent := true, [];
      var i := 0;
      while i < |subscribed|
        invariant i <= |subscribed| && open
        invariant Contents() ==
                  old(Contents()).(open := true, sent := Resubscriptions(old(Contents()), subscribed[..i]))
      {
        assert subscribed[..i + 1][..i] == subscribed[..i];
        var _ := SendJson(Subscribe(subscribed[i], CursorOf(Contents(), subscribed[i])));
        i := i + 1;
      }
      assert subscribed[..i] == subscribed;
    }

    method OnMessage(logId: nat, mint: Option<string>)
      modifies this
      ensures Contents() == Apply(old(Contents()), Receives(logId, mint))
    {
      if mint.Some? && mint.value != "" {
        var topic := "token:" + mint.value;
        if logId > CursorOf(Contents(), topic) {
          cursors := cursors[topic := logId];
        }
      }
    }

    method SetTopicCursor(topic: string, logId: int)
      modifies this
      ensures Contents() == Apply(old(Contents()), SetCursor(topic, logId))
    {
      if topic == "" || logId <= 0 {
        return;
      }
      if logId > CursorOf(Contents(), topic) {
        cursors := cursors[topic := logId];
      }
    }

    method Disconnect()
      modifies this
      ensures Contents() == Apply(old(Contents()), Disconnects)
    {
      pending := {};
      open := false;
    }
  }

  // ----- What the server is told -----

  /** The topics the server listens to after the commands of one connection. */
  function Listening(sent: seq<Command>): set<string> {
    if sent == [] then {}
    else
      match sent[|sent| - 1]
      case Subscribe(topic, _) => Listening(sent[..|sent| - 1]) + {topic}
      case Unsubscribe(topic) => Listening(sent[..|sent| - 1]) - {topic}
  }

  function SetOf(topics: seq<string>): set<string> { set t | t in topics }

  predicate Referenced(s: State, topic: string) { topic in s.refCounts }

  /** Counts are positive, referenced topics are subscribed and have no timer, and the server of an open
   * connection listens to exactly the subscribed topics. */
  ghost predicate Inv(s: State) {
    && CountsOk(s)
    && (s.open ==> Listening(s.sent) == SetOf(s.subscribed))
  }

  /** No topic stays subscribed without a reference or a timer. */
  ghost predicate NothingLeft(s: State) {
    forall t | t in s.subscribed :: t in s.refCounts || t in s.pending
  }

  lemma {:induction false} ListeningSnoc(sent: seq<Command>, c: Command)
    ensures Listening(sent + [c]) == if c.Subscribe? then Listening(sent) + {c.topic} else Listening(sent) - {c.topic}
  {
  }

  lemma {:induction false} RemoveIs(topics: seq<string>, topic: string)
    ensures SetOf(Remove(topics, topic)) == SetOf(topics) - {topic}
  {
    if topics == [] {
    } else {
      RemoveIs(topics[1..], topic);
      assert forall t :: t in topics <==> t == topics[0] || t in topics[1..];
      assert forall t :: t in Remove(topics, topic) <==> t in SetOf(Remove(topics, topic));
      assert forall t :: t in Remove(topics[1..], topic) <==> t in SetOf(Remove(topics[1..], topic));
    }
  }

  lemma {:induction false} ResubscribedIs(s: State, topics: seq<string>)
    ensures Listening(Resubscriptions(s, topics)) == SetOf(topics)
  {
    if topics == [] {
    } else {
      var init, last := topics[..|topics| - 1], topics[|topics| - 1];
      ResubscribedIs(s, init);
      ListeningSnoc(Resubscriptions(s, init), Subscribe(last, CursorOf(s, last)));
      assert forall t :: t in topics <==> t in init || t == last;
    }
  }

  ghost predicate CountsOk(s: State) {
    forall t | t in s.refCounts :: s.refCounts[t] > 0 && t in s.subscribed && t !in s.pending && t != ""
  }

  lemma {:induction false} SubscribeKeepsCounts(s: State, topic: string, since: Option<nat>)
    requires CountsOk(s)
    ensures CountsOk(Apply(s, SubscribeTopic(topic, since)))
  {
    var next := Apply(s, SubscribeTopic(topic, since));
    forall t | t in next.refCounts
      ensures next.refCounts[t] > 0 && t in next.subscribed && t !in next.pending && t != ""
    {
      if t == topic && topic != "" {
        assert next.refCounts[t] == CountOf(s, topic) + 1;
      } else {
        assert t in s.refCounts && next.refCounts[t] == s.refCounts[t];
      }
    }
  }

  lemma {:induction false} AddIs(topics: seq<string>, topic: string)
    ensures SetOf(Add(topics, topic)) == SetOf(topics) + {topic}
  {
    assert forall t :: t in Add(topics, topic) <==> t in topics || t == topic;
  }

  lemma {:induction false} SubscribeTells(s: State, topic: string, since: Option<nat>)
    requires Inv(s) && s.open && topic != "" && CountOf(s, topic) == 0
    ensures
      var next := Apply(s, SubscribeTopic(topic, since));
      Listening(next.sent) == SetOf(next.subscribed)
  {
    var next := Apply(s, SubscribeTopic(topic, since));
    var c := Subscribe(topic, CursorOf(next, topic));
    assert next.sent == s.sent + [c] && next.subscribed == Add(s.subscribed, topic);
    ListeningSnoc(s.sent, c);
    AddIs(s.subscribed, topic);
  }

  lemma {:induction false} TimerKeepsInv(s: State, topic: string)
    requires Inv(s) && topic in s.pending
    ensures Inv(Apply(s, TimerFires(topic)))
  {
    ListeningSnoc(s.sent, Unsubscribe(topic));
    RemoveIs(s.subscribed, topic);
    assert forall t :: t in Remove(s.subscribed, topic) <==> t in SetOf(Remove(s.subscribed, topic));
  }

  lemma {:induction false} StepKeepsInv(s: State, step: Step)
    requires Inv(s) && Enabled(s, step)
    ensures Inv(Apply(s, step))
  {
    match step
    case SubscribeTopic(topic, since) =>
      SubscribeKeepsCounts(s, topic, since);
      if s.open && topic != "" && CountOf(s, topic) == 0 { SubscribeTells(s, topic, since); }
    case TimerFires(topic) => TimerKeepsInv(s, topic);
    case Opens => ResubscribedIs(s, s.subscribed);
    case _ =>
  }

  lemma {:induction false} StepKeepsNothingLeft(s: State, step: Step)
    requires Inv(s) && NothingLeft(s) && Enabled(s, step) && !step.Disconnects?
    ensures NothingLeft(Apply(s, step))
  {
    if step.TimerFires? {
      RemoveIs(s.subscribed, step.topic);
      assert forall t :: t in Remove(s.subscribed, step.topic) <==> t in SetOf(Remove(s.subscribed, step.topic));
    }
  }

  predicate Legal(s: State, steps: seq<Step>)
    decreases |steps|
  {
    steps == [] || (Enabled(s, steps[0]) && Legal(Apply(s, steps[0]), steps[1..]))
  }

  function Run(s: State, steps: seq<Step>): State
    decreases |steps|
  {
    if steps == [] then s else Run(Apply(s, steps[0]), steps[1..])
  }

  lemma {:induction false} InvOnEveryRun(s: State, steps: seq<Step>)
    requires Inv(s) && Legal(s, steps)
    ensures Inv(Run(s, steps))
    ensures NothingLeft(s) && (forall i | 0 <= i < |steps| :: !steps[i].Disconnects?) ==> NothingLeft(Run(s, steps))
    decreases |steps|
  {
    if steps == [] {
    } else {
      StepKeepsInv(s, steps[0]);
      if NothingLeft(s) && !steps[0].Disconnects? { StepKeepsNothingLeft(s, steps[0]); }
      InvOnEveryRun(Apply(s, steps[0]), steps[1..]);
    }
  }

  /** In every run the server of an open connection listens to exactly the topics the client holds; and
   * once no timer is pending, as long as the provider was not taken down, to exactly those with a user. */
  lemma {:induction false} ServerFollowsClient(steps: seq<Step>)
    requires Legal(Init, steps) && Run(Init, steps).open
    ensures
      var s := Run(Init, steps);
      && Listening(s.sent) == SetOf(s.subscribed)
      && s.refCounts.Keys <= Listening(s.sent)
      && (s.pending == {} && (forall i | 0 <= i < |steps| :: !steps[i].Disconnects?) ==>
          Listening(s.sent) == s.refCounts.Keys)
  {
    InvOnEveryRun(Init, steps);
  }

  /** Taking the provider down leaves a topic behind, subscribed without a user or a timer, exactly when it
   * takes a topic's timer away before it fires. */
  lemma {:induction false} DisconnectLeavesBehindIff(s: State)
    requires Inv(s) && NothingLeft(s)
    ensures NothingLeft(Apply(s, Disconnects)) <==> forall t | t in s.pending :: t !in s.subscribed
  {
  }

  /** The case: the page leaves a topic and the provider is taken down before the topic's timer fires.  The
   * next connection subscribes to the topic although nobody uses it and no timer will end it. */
  lemma {:induction false} LeftBehind()
    ensures
      var steps := [Opens, SubscribeTopic("token:m", None), UnsubscribeTopic("token:m"), Disconnects, Opens];
      && Legal(Init, steps)
      && var s := Run(Init, steps);
         s.refCounts == map[] && s.pending == {} && Listening(s.sent) == {"token:m"} && !NothingLeft(s)
  {
    var s1 := Apply(Init, Opens);
    var s2 := Apply(s1, SubscribeTopic("token:m", None));
    var s3 := Apply(s2, UnsubscribeTopic("token:m"));
    var s4 := Apply(s3, Disconnects);
    var s5 := Apply(s4, Opens);
    assert s2.subscribed == ["token:m"];
    assert s4 == State(["token:m"], map[], map[], {}, false, s2.sent);
    ResubscribedIs(s4, ["token:m"]);
    assert "token:m" in s5.subscribed;
    StepFirst(s4, Opens, s5, [], s5);
    StepFirst(s3, Disconnects, s4, [Opens], s5);
    StepFirst(s2, UnsubscribeTopic("token:m"), s3, [Disconnects, Opens], s5);
    StepFirst(s1, SubscribeTopic("token:m", None), s2, [UnsubscribeTopic("token:m"), Disconnects, Opens], s5);
    StepFirst(Init, Opens, s1, [SubscribeTopic("token:m", None), UnsubscribeTopic("token:m"), Disconnects, Opens], s5);
  }

  lemma {:induction false} StepFirst(s: State, step: Step, next: State, rest: seq<Step>, end: State)
    requires Enabled(s, step) && next == Apply(s, step) && Legal(next, rest) && Run(next, rest) == end
    ensures Legal(s, [step] + rest) && Run(s, [step] + rest) == end
  {
    assert ([step] + rest)[1..] == rest;
  }

  /** A topic's cursor never goes back while the topic has a user; only the timer of a topic without one
   * forgets it. */
  lemma {:induction false} CursorNeverGoesBack(s: State, step: Step, topic: string)
    requires Inv(s) && Enabled(s, step)
    ensures CursorOf(s, topic) <= CursorOf(Apply(s, step), topic)
         || (step == TimerFires(topic) && !Referenced(s, topic))
  {
  }

  /** Every subscription that goes out carries the topic's cursor of that moment. */
  lemma {:induction false} ResubscriptionsCarryCursors(s: State, topics: seq<string>, i: nat)
    requires i < |topics|
    ensures |Resubscriptions(s, topics)| == |topics|
    ensures Resubscriptions(s, topics)[i] == Subscribe(topics[i], CursorOf(s, topics[i]))
  {
    var init := topics[..|topics| - 1];
    if init != [] {
      ResubscriptionsCarryCursors(s, init, if i < |init| then i else 0);
    }
  }
}
