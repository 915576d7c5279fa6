/** What the client's state is after a run, told from the steps of the run alone. */
module ClientHistory {
  import opened Options
  import opened ClientTopics

  /** How many users the steps leave a topic with; leaving a topic without users changes nothing. */
  function Users(steps: seq<Step>, topic: string): nat {
    if steps == [] then 0
    else
      var before, last := Users(steps[..|steps| - 1], topic), steps[|steps| - 1];
      if last.SubscribeTopic? && last.topic == topic != "" then before + 1
      else if last.UnsubscribeTopic? && last.topic == topic && before > 0 then before - 1
      else before
  }

  /** The position a step gives a topic: by subscribing to it, by setting it, or by a message about its mint. */
  function GivenBy(step: Step, topic: string): nat {
    match step
    case SubscribeTopic(t, Some(since)) => if t == topic != "" then since else 0
    case SetCursor(t, id) => if t == topic != "" && id > 0 then id else 0
    case Receives(id, Some(mint)) => if mint != "" && topic == "token:" + mint then id else 0
    case _ => 0
  }

  /** The timer of a topic fires and nobody uses the topic. */
  predicate Ends(steps: seq<Step>, j: nat, topic: string)
    requires j < |steps|
  {
    steps[j] == TimerFires(topic) && Users(steps[..j], topic) == 0
  }

  /** The topic has not ended after step `i`. */
  ghost predicate Lasting(steps: seq<Step>, i: nat, topic: string) {
    forall j | i < j < |steps| :: !Ends(steps, j, topic)
  }

  /** `position` is the largest of the positions given for a topic since it last ended, or zero. */
  ghost predicate LargestGiven(steps: seq<Step>, topic: string, position: nat) {
    && (forall i | 0 <= i < |steps| && Lasting(steps, i, topic) :: GivenBy(steps[i], topic) <= position)
    && (position == 0 ||
        exists i | 0 <= i < |steps| :: Lasting(steps, i, topic) && GivenBy(steps[i], topic) == position)
  }

  /** Somebody subscribed to the topic and it has not ended since. */
  ghost predicate Held(steps: seq<Step>, topic: string) {
    topic != "" && exists i | 0 <= i < |steps| :: IsSubscription(steps[i], topic) && Lasting(steps, i, topic)
  }

  predicate IsSubscription(step: Step, topic: string) { step.SubscribeTopic? && step.topic == topic }

  /** The last user left, and since then nobody came, no timer fired and the provider was not taken down. */
  ghost predicate Waiting(steps: seq<Step>, topic: string) {
    topic != "" && exists i | 0 <= i < |steps| :: Leaves(steps, i, topic) && Untouched(steps, i, topic)
  }

  predicate Leaves(steps: seq<Step>, i: nat, topic: string)
    requires i < |steps|
  {
    steps[i] == UnsubscribeTopic(topic) && Users(steps[..i], topic) <= 1
  }

  ghost predicate Untouched(steps: seq<Step>, i: nat, topic: string) {
    forall j | i < j < |steps| ::
      !IsSubscription(steps[j], topic) && steps[j] != TimerFires(topic) && !steps[j].Disconnects?
  }

  // ----- The proofs -----

  lemma {:induction false} RunSnoc(s: State, steps: seq<Step>, step: Step)
    requires Legal(s, steps + [step])
    ensures Legal(s, steps) && Enabled(Run(s, steps), step)
    ensures Run(s, steps + [step]) == Apply(Run(s, steps), step)
    decreases |steps|
  {
    if steps == [] {
    } else {
      assert (steps + [step])[1..] == steps[1..] + [step];
      RunSnoc(Apply(s, steps[0]), steps[1..], step);
    }
  }

  lemma {:induction false} EndsSnoc(steps: seq<Step>, step: Step, j: nat, topic: string)
    requires j <= |steps|
    ensures Ends(steps + [step], j, topic) ==
            if j < |steps| then Ends(steps, j, topic) else step == TimerFires(topic) && Users(steps, topic) == 0
  {
    assert (steps + [step])[..j] == steps[..j];
    if j == |steps| { assert steps[..j] == steps; }
  }

  lemma {:induction false} LastingSnoc(steps: seq<Step>, step: Step, i: nat, topic: string)
    requires i < |steps|
    ensures Lasting(steps + [step], i, topic) <==>
            Lasting(steps, i, topic) && !(step == TimerFires(topic) && Users(steps, topic) == 0)
  {
    var all := steps + [step];
    forall j | i < j < |all|
      ensures Ends(all, j, topic) ==
              if j < |steps| then Ends(steps, j, topic) else step == TimerFires(topic) && Users(steps, topic) == 0
    {
      EndsSnoc(steps, step, j, topic);
    }
    assert i < |steps| < |all|;
    if Lasting(all, i, topic) {
      assert !Ends(all, |steps|, topic);
      forall j | i < j < |steps| ensures !Ends(steps, j, topic) {
        assert !Ends(all, j, topic);
      }
    }
  }

  lemma {:induction false} UsersSnoc(steps: seq<Step>, step: Step, topic: string)
    ensures Users(steps + [step], topic) ==
            if IsSubscription(step, topic) && topic != "" then Users(steps, topic) + 1
            else if step == UnsubscribeTopic(topic) && Users(steps, topic) > 0 then Users(steps, topic) - 1
            else Users(steps, topic)
  {
    assert (steps + [step])[..|steps|] == steps;
  }

  lemma {:induction false} LargestSnoc(steps: seq<Step>, step: Step, topic: string, position: nat)
    requires LargestGiven(steps, topic, position)
    ensures LargestGiven(steps + [step], topic,
                         if step == TimerFires(topic) && Users(steps, topic) == 0 then 0
                         else if GivenBy(step, topic) > position then GivenBy(step, topic) else position)
  {
    var all := steps + [step];
    assert Lasting(all, |steps|, topic);
    forall i | 0 <= i < |steps|
      ensures Lasting(all, i, topic) <==>
              Lasting(steps, i, topic) && !(step == TimerFires(topic) && Users(steps, topic) == 0)
      ensures all[i] == steps[i]
    {
      LastingSnoc(steps, step, i, topic);
    }
    if !(step == TimerFires(topic) && Users(steps, topic) == 0) && GivenBy(step, topic) <= position && position != 0 {
      var i :| 0 <= i < |steps| && Lasting(steps, i, topic) && GivenBy(steps[i], topic) == position;
      assert Lasting(all, i, topic) && GivenBy(all[i], topic) == position;
    } else {
      assert GivenBy(all[|steps|], topic) == GivenBy(step, topic);
    }
  }

  /** What one step does to one topic's cursor. */
  lemma {:induction false} CursorOfStep(s: State, step: Step, topic: string)
    requires Inv(s) && Enabled(s, step)
    ensures CursorOf(Apply(s, step), topic) ==
            if step == TimerFires(topic) && CountOf(s, topic) == 0 then 0
            else if GivenBy(step, topic) > CursorOf(s, topic) then GivenBy(step, topic) else CursorOf(s, topic)
  {
  }

  lemma {:induction false} CountOfStep(s: State, step: Step, topic: string)
    requires Inv(s) && Enabled(s, step)
    ensures CountOf(Apply(s, step), topic) ==
            if IsSubscription(step, topic) && topic != "" then CountOf(s, topic) + 1
            else if step == UnsubscribeTopic(topic) && CountOf(s, topic) > 0 then CountOf(s, topic) - 1
            else CountOf(s, topic)
  {
  }

  lemma {:induction false} HistorySnoc(s: State, steps: seq<Step>, step: Step, topic: string, next: State)
    requires Inv(s) && Enabled(s, step) && next == Apply(s, step)
    requires CountOf(s, topic) == Users(steps, topic) && LargestGiven(steps, topic, CursorOf(s, topic))
    ensures CountOf(next, topic) == Users(steps + [step], topic)
    ensures LargestGiven(steps + [step], topic, CursorOf(next, topic))
  {
    UsersSnoc(steps, step, topic);
    CountOfStep(s, step, topic);
    CursorOfStep(s, step, topic);
    LargestSnoc(steps, step, topic, CursorOf(s, topic));
  }

  // ----- The topics that are held, and those that wait for their end -----

  lemma {:induction false} HeldSnoc(steps: seq<Step>, step: Step, topic: string)
    ensures Held(steps + [step], topic) <==>
            if IsSubscription(step, topic) then topic != ""
            else Held(steps, topic) && !(step == TimerFires(topic) && Users(steps, topic) == 0)
  {
    var all := steps + [step];
    assert Lasting(all, |steps|, topic) && all[|steps|] == step;
    forall i | 0 <= i < |steps|
      ensures Lasting(all, i, topic) <==>
              Lasting(steps, i, topic) && !(step == TimerFires(topic) && Users(steps, topic) == 0)
      ensures all[i] == steps[i]
    {
      LastingSnoc(steps, step, i, topic);
    }
    if topic != "" && !IsSubscription(step, topic) && Held(all, topic) {
      var i :| 0 <= i < |all| && IsSubscription(all[i], topic) && Lasting(all, i, topic);
      assert IsSubscription(steps[i], topic) && Lasting(steps, i, topic);
    }
    if Held(steps, topic) && !(step == TimerFires(topic) && Users(steps, topic) == 0) {
      var i :| 0 <= i < |steps| && IsSubscription(steps[i], topic) && Lasting(steps, i, topic);
      assert IsSubscription(all[i], topic) && Lasting(all, i, topic);
    }
  }

  lemma {:induction false} UntouchedSnoc(steps: seq<Step>, step: Step, i: nat, topic: string)
    requires i < |steps|
    ensures Untouched(steps + [step], i, topic) <==>
            Untouched(steps, i, topic) &&
            !IsSubscription(step, topic) && step != TimerFires(topic) && !step.Disconnects?
    ensures Leaves(steps + [step], i, topic) <==> Leaves(steps, i, topic)
  {
    var all := steps + [step];
    assert all[..i] == steps[..i];
    assert forall j | i < j < |all| :: all[j] == if j < |steps| then steps[j] else step;
    if Untouched(all, i, topic) {
      assert all[|steps|] == step;
      forall j | i < j < |steps|
        ensures !IsSubscription(steps[j], topic) && steps[j] != TimerFires(topic) && !steps[j].Disconnects?
      {
        assert all[j] == steps[j];
      }
    }
  }

  lemma {:induction false} WaitingSnoc(steps: seq<Step>, step: Step, topic: string)
    ensures Waiting(steps + [step], topic) <==>
            if step == UnsubscribeTopic(topic) && Users(steps, topic) <= 1 then topic != ""
            else Waiting(steps, topic) && !IsSubscription(step, topic) &&
                 step != TimerFires(topic) && !step.Disconnects?
  {
    var all := steps + [step];
    assert all[|steps|] == step && all[..|steps|] == steps && Untouched(all, |steps|, topic);
    forall i | 0 <= i < |steps|
      ensures Untouched(all, i, topic) <==>
              Untouched(steps, i, topic) &&
              !IsSubscription(step, topic) && step != TimerFires(topic) && !step.Disconnects?
      ensures Leaves(all, i, topic) <==> Leaves(steps, i, topic)
    {
      UntouchedSnoc(steps, step, i, topic);
    }
    assert Leaves(all, |steps|, topic) == (step == UnsubscribeTopic(topic) && Users(steps, topic) <= 1);
    if Waiting(all, topic) && !Leaves(all, |steps|, topic) {
      var i :| 0 <= i < |all| && Leaves(all, i, topic) && Untouched(all, i, topic);
      assert Leaves(steps, i, topic) && Untouched(steps, i, topic);
    }
    if Waiting(steps, topic) && !IsSubscription(step, topic) && step != TimerFires(topic) && !step.Disconnects? {
      var i :| 0 <= i < |steps| && Leaves(steps, i, topic) && Untouched(steps, i, topic);
      assert Leaves(all, i, topic) && Untouched(all, i, topic);
    }
  }

  lemma {:induction false} HeldOfStep(s: State, step: Step, topic: string)
    requires Inv(s) && Enabled(s, step)
    ensures topic in Apply(s, step).subscribed <==>
            if IsSubscription(step, topic) && (topic == "" || CountOf(s, topic) == 0)
            then topic != "" || topic in s.subscribed
            else topic in s.subscribed && !(step == TimerFires(topic) && CountOf(s, topic) == 0)
  {
    if step.TimerFires? {
      RemoveIs(s.subscribed, step.topic);
      assert topic in Remove(s.subscribed, step.topic) <==> topic in SetOf(Remove(s.subscribed, step.topic));
    }
  }

  lemma {:induction false} WaitingOfStep(s: State, step: Step, topic: string)
    requires Inv(s) && Enabled(s, step)
    ensures topic in Apply(s, step).pending <==>
            if step == UnsubscribeTopic(topic) && CountOf(s, topic) <= 1 then topic != "" || topic in s.pending
            else topic in s.pending && !(IsSubscription(step, topic) && topic != "") &&
                 step != TimerFires(topic) && !step.Disconnects?
  {
  }

  // ----- The state of a run -----

  /** The last step that concerns the connection opened it. */
  predicate Connected(steps: seq<Step>) {
    if steps == [] then false
    else
      var last := steps[|steps| - 1];
      last.Opens? || (!last.Closes? && !last.Disconnects? && Connected(steps[..|steps| - 1]))
  }

  /** What a state says of one topic is what the steps say of it. */
  ghost predicate Tells(s: State, steps: seq<Step>, topic: string) {
    && CountOf(s, topic) == Users(steps, topic)
    && LargestGiven(steps, topic, CursorOf(s, topic))
    && (topic in s.subscribed <==> Held(steps, topic))
    && (topic in s.pending <==> Waiting(steps, topic))
  }

  lemma {:induction false} TopicSnoc(s: State, steps: seq<Step>, step: Step, topic: string, next: State)
    requires Inv(s) && Enabled(s, step) && next == Apply(s, step)
    requires Tells(s, steps, topic)
    ensures Held(steps + [step], topic) <==> topic in next.subscribed
    ensures Waiting(steps + [step], topic) <==> topic in next.pending
  {
    HeldSnoc(steps, step, topic);
    HeldOfStep(s, step, topic);
    WaitingSnoc(steps, step, topic);
    WaitingOfStep(s, step, topic);
  }

  /** In every run and for every topic: its users are those the steps leave it with; its cursor is the
   * largest of the positions given for it and the ids received for its mint since it last ended; it is
   * subscribed as long as somebody subscribed to it and it has not ended; and its timer runs from the last
   * user leaving until somebody comes, it fires, or the provider is taken down. */
  lemma {:induction false} StateIsHistory(steps: seq<Step>, topic: string)
    requires Legal(Init, steps)
    ensures Tells(Run(Init, steps), steps, topic)
    ensures Run(Init, steps).open == Connected(steps)
    decreases |steps|
  {
    if steps == [] {
    } else {
      var before, last := steps[..|steps| - 1], steps[|steps| - 1];
      assert before + [last] == steps;
      RunSnoc(Init, before, last);
      InvOnEveryRun(Init, before);
      StateIsHistory(before, topic);
      HistorySnoc(Run(Init, before), before, last, topic, Run(Init, steps));
      TopicSnoc(Run(Init, before), before, last, topic, Run(Init, steps));
      OpenOfStep(Run(Init, before), last);
    }
  }

  lemma {:induction false} OpenOfStep(s: State, step: Step)
    ensures Apply(s, step).open == (step.Opens? || (!step.Closes? && !step.Disconnects? && s.open))
  {
  }

  // ----- The commands -----

  ghost predicate Distinct(topics: seq<string>) {
    forall i, j | 0 <= i < j < |topics| :: topics[i] != topics[j]
  }

  lemma {:induction false} RemoveKeepsDistinct(topics: seq<string>, topic: string)
    requires Distinct(topics)
    ensures Distinct(Remove(topics, topic))
  {
    if topics == [] {
    } else {
      RemoveKeepsDistinct(topics[1..], topic);
      RemoveIs(topics[1..], topic);
      var rest := Remove(topics[1..], topic);
      forall j | 0 <= j < |rest| ensures rest[j] != topics[0] {
        assert rest[j] in SetOf(rest) && rest[j] in topics[1..];
      }
      assert Remove(topics, topic) == if topics[0] == topic then rest else [topics[0]] + rest;
    }
  }

  lemma {:induction false} SubscribedOnce(steps: seq<Step>)
    requires Legal(Init, steps)
    ensures Distinct(Run(Init, steps).subscribed)
    decreases |steps|
  {
    if steps == [] {
    } else {
      var before, last := steps[..|steps| - 1], steps[|steps| - 1];
      assert before + [last] == steps;
      RunSnoc(Init, before, last);
      SubscribedOnce(before);
      DistinctStep(Run(Init, before), last);
    }
  }

  lemma {:induction false} DistinctStep(s: State, step: Step)
    requires Distinct(s.subscribed)
    ensures Distinct(Apply(s, step).subscribed)
  {
    if step.TimerFires? { RemoveKeepsDistinct(s.subscribed, step.topic); }
  }

  /** What a connection that opens after the steps asks for: each held topic once, from the largest position
   * known for it. */
  ghost predicate AsksFor(steps: seq<Step>, sent: seq<Command>) {
    && (forall i, j | 0 <= i < j < |sent| :: sent[i].topic != sent[j].topic)
    && (forall c | c in sent :: c.Subscribe? && Held(steps, c.topic) && LargestGiven(steps, c.topic, c.since))
    && (forall topic | Held(steps, topic) :: exists since :: Subscribe(topic, since) in sent)
  }

  lemma {:induction false} AskedTopics(s: State, i: nat)
    requires i < |s.subscribed|
    ensures |Resubscriptions(s, s.subscribed)| == |s.subscribed|
    ensures Resubscriptions(s, s.subscribed)[i] == Subscribe(s.subscribed[i], CursorOf(s, s.subscribed[i]))
  {
    ResubscriptionsCarryCursors(s, s.subscribed, i);
  }

  lemma {:induction false} AskedFor(s: State, steps: seq<Step>, sent: seq<Command>)
    requires forall topic :: Tells(s, steps, topic)
    requires Distinct(s.subscribed) && sent == Resubscriptions(s, s.subscribed)
    ensures AsksFor(steps, sent)
  {
    forall i | 0 <= i < |s.subscribed|
      ensures |sent| == |s.subscribed| && sent[i] == Subscribe(s.subscribed[i], CursorOf(s, s.subscribed[i]))
    {
      AskedTopics(s, i);
    }
    if s.subscribed == [] { assert sent == []; }
    forall c | c in sent ensures c.Subscribe? && Held(steps, c.topic) && LargestGiven(steps, c.topic, c.since) {
      var i :| 0 <= i < |sent| && sent[i] == c;
      assert c.topic == s.subscribed[i] && Tells(s, steps, c.topic);
    }
    forall topic | Held(steps, topic) ensures exists since :: Subscribe(topic, since) in sent {
      assert Tells(s, steps, topic);
      var i :| 0 <= i < |s.subscribed| && s.subscribed[i] == topic;
      assert Subscribe(topic, CursorOf(s, topic)) == sent[i];
    }
  }

  /** A message about the topic's mint. */
  predicate IsMessage(step: Step, topic: string) {
    step.Receives? && step.mint.Some? && step.mint.value != "" && topic == "token:" + step.mint.value
  }

  lemma {:induction false} ReceivedIsCovered(steps: seq<Step>, sent: seq<Command>, c: Command, i: nat)
    requires AsksFor(steps, sent) && c in sent && i < |steps|
    requires IsMessage(steps[i], c.topic) && Lasting(steps, i, c.topic)
    ensures c.Subscribe? && steps[i].logId <= c.since
  {
    assert LargestGiven(steps, c.topic, c.since);
    assert GivenBy(steps[i], c.topic) == steps[i].logId;
  }

  /** A reconnect, after any run, subscribes each held topic once, from the largest of the positions given
   * for it and the ids received for its mint; so from no earlier than any id the client has received. */
  lemma {:induction false} ReconnectAsksFromTheLargest(steps: seq<Step>, sent: seq<Command>)
    requires Legal(Init, steps + [Opens]) && sent == Run(Init, steps + [Opens]).sent
    ensures AsksFor(steps, sent)
    ensures forall c, i | c in sent && 0 <= i < |steps| && IsMessage(steps[i], c.topic) && Lasting(steps, i, c.topic) ::
              c.Subscribe? && steps[i].logId <= c.since
  {
    RunSnoc(Init, steps, Opens);
    var s := Run(Init, steps);
    forall topic: string ensures Tells(s, steps, topic) {
      StateIsHistory(steps, topic);
    }
    SubscribedOnce(steps);
    AskedFor(s, steps, sent);
    forall c, i | c in sent && 0 <= i < |steps| && IsMessage(steps[i], c.topic) && Lasting(steps, i, c.topic)
      ensures c.Subscribe? && steps[i].logId <= c.since
    {
      ReceivedIsCovered(steps, sent, c, i);
    }
  }

  /** The commands that go out on an open connection: the first user of a topic subscribes it, from its
   * position of that moment, and a timer that ends a topic unsubscribes it; nothing else is sent. */
  lemma {:induction false} CommandsAre(steps: seq<Step>, step: Step)
    requires Legal(Init, steps + [step]) && !step.Opens?
    ensures
      var before, after := Run(Init, steps), Run(Init, steps + [step]);
      if Connected(steps) && step.SubscribeTopic? && step.topic != "" && Users(steps, step.topic) == 0 then
        exists since ::
          LargestGiven(steps + [step], step.topic, since) && after.sent == before.sent + [Subscribe(step.topic, since)]
      else if Connected(steps) && step.TimerFires? && Users(steps, step.topic) == 0 then
        after.sent == before.sent + [Unsubscribe(step.topic)]
      else
        after.sent == before.sent
  {
    RunSnoc(Init, steps, step);
    var s := Run(Init, steps);
    if step.SubscribeTopic? {
      StateIsHistory(steps, step.topic);
      StateIsHistory(steps + [step], step.topic);
      SubscribeSends(s, step.topic, step.since);
    } else if step.TimerFires? {
      StateIsHistory(steps, step.topic);
    }
  }

  lemma {:induction false} SubscribeSends(s: State, topic: string, since: Option<nat>)
    ensures
      var next := Apply(s, SubscribeTopic(topic, since));
      next.sent ==
        if s.open && topic != "" && CountOf(s, topic) == 0 then s.sent + [Subscribe(topic, CursorOf(next, topic))]
        else s.sent
  {
  }
}
