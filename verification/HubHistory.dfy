/** What the hub has done in a run, told from the steps of the run: who was subscribed, removed, cut off and
 * closed, and what was published. */
module HubHistory {
  import opened HubModel

  /** What was published on a topic, in order. */
  function PublishedOn(steps: seq<Step>, topic: Topic): seq<Msg> {
    if steps == [] then []
    else
      var before, last := PublishedOn(steps[..|steps| - 1], topic), steps[|steps| - 1];
      if last.PublishBegin? && last.topic == topic then before + [Msg(last.tid, last.body)] else before
  }

  predicate Makes(step: Step, id: SubId) { step.Subscribe? && step.id == id }

  ghost predicate WasMade(steps: seq<Step>, id: SubId) { exists step | step in steps :: Makes(step, id) }

  /** Some goroutine took it out of every topic. */
  ghost predicate WasRemoved(steps: seq<Step>, id: SubId) {
    exists step | step in steps :: step.UnsubscribeRemove? && step.id == id
  }

  /** Some publisher's message did not fit. */
  ghost predicate WasCutOff(steps: seq<Step>, id: SubId) {
    exists step | step in steps :: step.MarkOne? && step.id == id
  }

  /** A goroutine took it out of every topic and has gone on to close it. */
  ghost predicate WasClosed(steps: seq<Step>, id: SubId) {
    exists i, j | 0 <= i < j < |steps| :: ClosedBy(steps, i, j, id)
  }

  predicate ClosedBy(steps: seq<Step>, i: int, j: int, id: SubId)
    requires 0 <= i < j < |steps|
  {
    && steps[i].UnsubscribeRemove? && steps[i].id == id
    && steps[j] == UnsubscribeClose(steps[i].tid)
  }

  /** The subscription is as it was asked for, from what had been published then. */
  ghost predicate IsAsAsked(sub: Sub, steps: seq<Step>, id: SubId) {
    exists i | 0 <= i < |steps| ::
      steps[i] == Subscribe(id, sub.topic, sub.ch.cap) && sub.start == |PublishedOn(steps[..i], sub.topic)|
  }

  /** What the state says of one subscription is what the steps say of it. */
  ghost predicate Tells(s: State, steps: seq<Step>, id: SubId) {
    && (id in s.subs <==> WasMade(steps, id))
    && (id in s.subs ==> IsAsAsked(s.subs[id], steps, id))
    && (Registered(s, id) <==> WasMade(steps, id) && !WasRemoved(steps, id) && !WasCutOff(steps, id))
    && (id in s.subs ==>
          var ch := s.subs[id].ch;
          && (ch.overflowClosed <==> WasClosed(steps, id))
          && (ch.eventsClosed <==> WasClosed(steps, id) || WasCutOff(steps, id)))
  }

  // ----- One step more -----

  lemma {:induction false} PublishedSnoc(steps: seq<Step>, step: Step, topic: Topic)
    ensures PublishedOn(steps + [step], topic) ==
              if step.PublishBegin? && step.topic == topic then PublishedOn(steps, topic) + [Msg(step.tid, step.body)]
              else PublishedOn(steps, topic)
  {
    assert (steps + [step])[..|steps|] == steps;
  }

  lemma {:induction false} MembersSnoc(steps: seq<Step>, step: Step, id: SubId)
    ensures WasMade(steps + [step], id) <==> WasMade(steps, id) || Makes(step, id)
    ensures WasRemoved(steps + [step], id) <==> WasRemoved(steps, id) || (step.UnsubscribeRemove? && step.id == id)
    ensures WasCutOff(steps + [step], id) <==> WasCutOff(steps, id) || (step.MarkOne? && step.id == id)
  {
    assert forall x :: x in steps + [step] <==> x in steps || x == step;
  }

  /** A goroutine that has taken a subscription out and not gone on to close it. */
  ghost predicate Underway(steps: seq<Step>, tid: Tid, id: SubId) {
    exists i | 0 <= i < |steps| :: steps[i] == UnsubscribeRemove(tid, id) && NotClosing(steps, i, tid)
  }

  ghost predicate NotClosing(steps: seq<Step>, i: nat, tid: Tid) {
    forall j | i < j < |steps| :: steps[j] != UnsubscribeClose(tid)
  }

  lemma {:induction false} UnderwaySnoc(steps: seq<Step>, step: Step, tid: Tid, id: SubId)
    ensures Underway(steps + [step], tid, id) <==>
            step == UnsubscribeRemove(tid, id) || (Underway(steps, tid, id) && step != UnsubscribeClose(tid))
  {
    var all := steps + [step];
    assert forall i | 0 <= i < |all| :: all[i] == if i < |steps| then steps[i] else step;
    assert all[|steps|] == step && NotClosing(all, |steps|, tid);
    if Underway(all, tid, id) && step != UnsubscribeRemove(tid, id) {
      var i :| 0 <= i < |all| && all[i] == UnsubscribeRemove(tid, id) && NotClosing(all, i, tid);
      assert steps[i] == all[i] && forall j | i < j < |steps| :: steps[j] == all[j];
      assert NotClosing(steps, i, tid) && all[|steps|] != UnsubscribeClose(tid);
    }
    if Underway(steps, tid, id) && step != UnsubscribeClose(tid) {
      var i :| 0 <= i < |steps| && steps[i] == UnsubscribeRemove(tid, id) && NotClosing(steps, i, tid);
      assert all[i] == steps[i] && NotClosing(all, i, tid);
    }
  }

  lemma {:induction false} ClosedSnoc(steps: seq<Step>, step: Step, id: SubId)
    ensures WasClosed(steps + [step], id) <==>
            WasClosed(steps, id) || (step.UnsubscribeClose? && RemovedBy(steps, step.tid, id))
  {
    var all := steps + [step];
    assert forall i | 0 <= i < |all| :: all[i] == if i < |steps| then steps[i] else step;
    if WasClosed(all, id) {
      var i, j :| 0 <= i < j < |all| && ClosedBy(all, i, j, id);
      if j < |steps| {
        assert ClosedBy(steps, i, j, id);
      } else {
        assert steps[i] == UnsubscribeRemove(step.tid, id);
      }
    }
    if WasClosed(steps, id) {
      var i, j :| 0 <= i < j < |steps| && ClosedBy(steps, i, j, id);
      assert ClosedBy(all, i, j, id);
    }
    if step.UnsubscribeClose? && RemovedBy(steps, step.tid, id) {
      var i :| 0 <= i < |steps| && steps[i] == UnsubscribeRemove(step.tid, id);
      assert ClosedBy(all, i, |steps|, id);
    }
  }

  predicate RemovedBy(steps: seq<Step>, tid: Tid, id: SubId) { UnsubscribeRemove(tid, id) in steps }

  /** Who has taken it out is still about to close it, or has closed it. */
  lemma {:induction false} RemovedIsUnderwayOrClosed(steps: seq<Step>, tid: Tid, id: SubId)
    requires RemovedBy(steps, tid, id)
    ensures Underway(steps, tid, id) || WasClosed(steps, id)
  {
    var i :| 0 <= i < |steps| && steps[i] == UnsubscribeRemove(tid, id);
    if !NotClosing(steps, i, tid) {
      var j :| i < j < |steps| && steps[j] == UnsubscribeClose(tid);
      assert ClosedBy(steps, i, j, id);
    }
  }

  lemma {:induction false} UnderwayIsRemoved(steps: seq<Step>, tid: Tid, id: SubId)
    requires Underway(steps, tid, id)
    ensures RemovedBy(steps, tid, id)
  {
  }

  // ----- What one step does -----

  predicate IsClosing(s: State, tid: Tid, id: SubId) { tid in s.threads && s.threads[tid] == Closing(id) }

  lemma {:induction false} ThreadOfStep(s: State, step: Step, tid: Tid, id: SubId)
    requires Enabled(s, step)
    ensures IsClosing(Apply(s, step), tid, id) <==>
            step == UnsubscribeRemove(tid, id) || (IsClosing(s, tid, id) && step != UnsubscribeClose(tid))
  {
  }

  lemma {:induction false} RegisteredOfStep(s: State, step: Step, id: SubId)
    requires RegistryOk(s) && ThreadsOk(s) && Enabled(s, step)
    ensures Registered(Apply(s, step), id) <==>
            Makes(step, id) ||
            (Registered(s, id) && !(step.UnsubscribeRemove? && step.id == id) && !(step.MarkOne? && step.id == id))
  {
    if step.MarkOne? { MarkDeregisters(s, step.tid, step.id, id); }
  }

  lemma {:induction false} MarkDeregisters(s: State, tid: Tid, marked: SubId, id: SubId)
    requires RegistryOk(s) && ThreadsOk(s) && Enabled(s, MarkOne(tid, marked))
    ensures Registered(Apply(s, MarkOne(tid, marked)), id) <==> Registered(s, id) && id != marked
  {
    assert PhaseOk(s, tid, s.threads[tid]);
    var topic := s.threads[tid].topic;
    assert s.subs[marked].topic == topic;
    var next := Apply(s, MarkOne(tid, marked));
    assert next.registry == Deregister(s.registry, topic, marked);
    if Registered(s, id) && id != marked && s.subs[id].topic == topic {
      assert id in s.registry[topic] - {marked};
    }
  }

  lemma {:induction false} ChannelOfStep(s: State, step: Step, id: SubId)
    requires Enabled(s, step) && id in s.subs && SubOk(s.subs[id])
    ensures id in Apply(s, step).subs
    ensures
      var ch, next := s.subs[id].ch, Apply(s, step).subs[id].ch;
      var closes := step.UnsubscribeClose? && IsClosing(s, step.tid, id);
      && next.cap == ch.cap && (next.overflowClosed <==> ch.overflowClosed || closes)
      && (next.eventsClosed <==> ch.eventsClosed || closes || (step.MarkOne? && step.id == id))
    ensures Apply(s, step).subs[id].topic == s.subs[id].topic && Apply(s, step).subs[id].start == s.subs[id].start
  {
  }

  lemma {:induction false} HistoryOfStep(s: State, step: Step, topic: Topic)
    requires Enabled(s, step)
    ensures History(Apply(s, step), topic) ==
              if step.PublishBegin? && step.topic == topic then History(s, topic) + [Msg(step.tid, step.body)]
              else History(s, topic)
  {
  }

  lemma {:induction false} NewOfStep(s: State, step: Step, id: SubId)
    requires Enabled(s, step)
    ensures id in Apply(s, step).subs <==> id in s.subs || Makes(step, id)
    ensures Makes(step, id) ==>
              var sub := Apply(s, step).subs[id];
              && id !in s.subs && sub.topic == step.topic && sub.ch.cap == step.buffer
              && sub.start == |History(s, step.topic)| && !sub.ch.eventsClosed && !sub.ch.overflowClosed
  {
  }

  // ----- The state of a run -----

  /** Nothing has happened yet to a subscription that was not made. */
  ghost predicate Untouched(steps: seq<Step>, id: SubId) {
    !WasRemoved(steps, id) && !WasCutOff(steps, id) && !WasClosed(steps, id)
  }

  ghost predicate TellsAll(s: State, steps: seq<Step>, id: SubId) {
    && Tells(s, steps, id)
    && (id !in s.subs ==> Untouched(steps, id))
    && (forall topic :: History(s, topic) == PublishedOn(steps, topic))
    && (forall tid :: IsClosing(s, tid, id) <==> Underway(steps, tid, id))
  }

  lemma {:induction false} AskedSnoc(before: Sub, after: Sub, steps: seq<Step>, step: Step, id: SubId)
    requires IsAsAsked(before, steps, id)
    requires after.topic == before.topic && after.start == before.start && after.ch.cap == before.ch.cap
    ensures IsAsAsked(after, steps + [step], id)
  {
    var i :| 0 <= i < |steps| && steps[i] == Subscribe(id, before.topic, before.ch.cap)
             && before.start == |PublishedOn(steps[..i], before.topic)|;
    assert (steps + [step])[i] == steps[i] && (steps + [step])[..i] == steps[..i];
  }

  lemma {:induction false} AskedNow(sub: Sub, steps: seq<Step>, step: Step, id: SubId)
    requires step == Subscribe(id, sub.topic, sub.ch.cap) && sub.start == |PublishedOn(steps, sub.topic)|
    ensures IsAsAsked(sub, steps + [step], id)
  {
    assert (steps + [step])[|steps|] == step && (steps + [step])[..|steps|] == steps;
  }

  /** Closing is done by the goroutine that took the subscription out. */
  lemma {:induction false} CloserIs(s: State, steps: seq<Step>, step: Step, id: SubId)
    requires forall tid :: IsClosing(s, tid, id) <==> Underway(steps, tid, id)
    ensures WasClosed(steps + [step], id) <==>
            WasClosed(steps, id) || (step.UnsubscribeClose? && IsClosing(s, step.tid, id))
  {
    ClosedSnoc(steps, step, id);
    if step.UnsubscribeClose? {
      if RemovedBy(steps, step.tid, id) { RemovedIsUnderwayOrClosed(steps, step.tid, id); }
      if Underway(steps, step.tid, id) { UnderwayIsRemoved(steps, step.tid, id); }
    }
  }

  lemma {:induction false} ThreadsSnoc(s: State, steps: seq<Step>, step: Step, id: SubId, next: State)
    requires Enabled(s, step) && next == Apply(s, step)
    requires forall tid :: IsClosing(s, tid, id) <==> Underway(steps, tid, id)
    ensures forall tid :: IsClosing(next, tid, id) <==> Underway(steps + [step], tid, id)
  {
    forall tid: Tid ensures IsClosing(next, tid, id) <==> Underway(steps + [step], tid, id) {
      ThreadOfStep(s, step, tid, id);
      UnderwaySnoc(steps, step, tid, id);
    }
  }

  lemma {:induction false} HistorySnoc(s: State, steps: seq<Step>, step: Step, next: State)
    requires Enabled(s, step) && next == Apply(s, step)
    requires forall topic :: History(s, topic) == PublishedOn(steps, topic)
    ensures forall topic :: History(next, topic) == PublishedOn(steps + [step], topic)
  {
    forall topic: Topic ensures History(next, topic) == PublishedOn(steps + [step], topic) {
      HistoryOfStep(s, step, topic);
      PublishedSnoc(steps, step, topic);
    }
  }

  lemma {:induction false} SubSnoc(s: State, steps: seq<Step>, step: Step, id: SubId, next: State)
    requires Inv(s) && Enabled(s, step) && next == Apply(s, step) && TellsAll(s, steps, id) && id in s.subs
    ensures Tells(next, steps + [step], id)
  {
    MembersSnoc(steps, step, id);
    CloserIs(s, steps, step, id);
    NewOfStep(s, step, id);
    RegisteredOfStep(s, step, id);
    ChannelOfStep(s, step, id);
    AskedSnoc(s.subs[id], next.subs[id], steps, step, id);
  }

  lemma {:induction false} NoSubSnoc(s: State, steps: seq<Step>, step: Step, id: SubId, next: State)
    requires Inv(s) && Enabled(s, step) && next == Apply(s, step) && TellsAll(s, steps, id) && id !in s.subs
    ensures Tells(next, steps + [step], id) && Untouched(steps + [step], id)
  {
    MembersSnoc(steps, step, id);
    CloserIs(s, steps, step, id);
    NewOfStep(s, step, id);
    RegisteredOfStep(s, step, id);
    if step.UnsubscribeClose? { assert PhaseOk(s, step.tid, s.threads[step.tid]); }
    if Makes(step, id) { AskedNow(next.subs[id], steps, step, id); }
  }

  lemma {:induction false} StepTells(s: State, steps: seq<Step>, step: Step, id: SubId, next: State)
    requires Inv(s) && Enabled(s, step) && next == Apply(s, step) && TellsAll(s, steps, id)
    ensures TellsAll(next, steps + [step], id)
  {
    ThreadsSnoc(s, steps, step, id, next);
    HistorySnoc(s, steps, step, next);
    if id in s.subs {
      ChannelOfStep(s, step, id);
      SubSnoc(s, steps, step, id, next);
    } else {
      NoSubSnoc(s, steps, step, id, next);
    }
  }

  lemma {:induction false} RunSnoc(s: State, steps: seq<Step>, step: Step)
    requires Legal(s, steps + [step])
    ensures Legal(s, steps) && Enabled(Run(s, steps), step)
    ensures Run(s, steps + [step]) == Apply(Run(s, steps), step)
    decreases |steps|
  {
    if steps == [] {
    } else {
      assert (steps + [step])[1..] == steps[1..] + [step];
      RunSnoc(Apply(s, steps[0]), steps[1..], step);
    }
  }

  lemma {:induction false} AllToldByRun(steps: seq<Step>, id: SubId)
    requires Legal(Init, steps)
    ensures TellsAll(Run(Init, steps), steps, id)
    decreases |steps|
  {
    if steps == [] {
    } else {
      var before, last := steps[..|steps| - 1], steps[|steps| - 1];
      assert before + [last] == steps;
      RunSnoc(Init, before, last);
      InvOnEveryRun(Init, before);
      AllToldByRun(before, id);
      StepTells(Run(Init, before), before, last, id, Run(Init, steps));
    }
  }

  /** In every run, under every interleaving: the published messages are those of the Publish calls, in
   * order; a subscription is there once it was asked for, with the topic and the buffer it was asked for
   * with, and starts after what had been published until then; it is registered until a goroutine takes it
   * out or a message does not fit; its Overflow channel is closed exactly when a goroutine that took it out
   * has gone on to close it; and its Events channel exactly then or when a message did not fit. */
  lemma {:induction false} StateIsHistory(steps: seq<Step>, id: SubId, topic: Topic)
    requires Legal(Init, steps)
    ensures Tells(Run(Init, steps), steps, id)
    ensures History(Run(Init, steps), topic) == PublishedOn(steps, topic)
  {
    AllToldByRun(steps, id);
  }

  /** Once every Unsubscribe call has returned, whoever was unsubscribed is out of the registry and has both
   * channels closed. */
  lemma {:induction false} UnsubscribedIsClosed(steps: seq<Step>, id: SubId)
    requires Legal(Init, steps) && WasRemoved(steps, id)
    requires forall tid | tid in Run(Init, steps).threads :: !Run(Init, steps).threads[tid].Closing?
    ensures
      var s := Run(Init, steps);
      id in s.subs && !Registered(s, id) && s.subs[id].ch.eventsClosed && s.subs[id].ch.overflowClosed
  {
    AllToldByRun(steps, id);
    var step :| step in steps && step.UnsubscribeRemove? && step.id == id;
    assert RemovedBy(steps, step.tid, id);
    RemovedIsUnderwayOrClosed(steps, step.tid, id);
    assert !IsClosing(Run(Init, steps), step.tid, id);
  }
}
