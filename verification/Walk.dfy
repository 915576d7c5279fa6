/** What the walk over a transaction covers: every logged event, in the order of the lines, and every
 * instruction and every carried event of the groups, each once. */
module Walk {
  import opened Options
  import opened EventBytes
  import opened EventQueues
  import opened ParseView
  import opened ParseOrder

  // ----- The logged events -----

  /** The first line that holds an event. */
  predicate FirstAt(logs: seq<Option<Event>>, i: int, e: Event) {
    0 <= i < |logs| && logs[i] == Some(e) && forall k | 0 <= k < i :: logs[k] != Some(e)
  }

  /** The events of a family, each once, in the order of their first lines. */
  ghost predicate AreFirsts(events: seq<Event>, logs: seq<Option<Event>>, f: Family) {
    && Distinct(events)
    && (forall e :: e in events <==> FamilyOf(e.kind) == f && Some(e) in logs)
    && forall p, q, i, j | 0 <= p < q < |events| && FirstAt(logs, i, events[p]) && FirstAt(logs, j, events[q]) :: i < j
  }

  lemma {:induction false} FirstOfMore(logs: seq<Option<Event>>, line: Option<Event>, i: int, e: Event)
    requires Some(e) in logs
    ensures FirstAt(logs + [line], i, e) <==> FirstAt(logs, i, e)
  {
    var all := logs + [line];
    var k :| 0 <= k < |logs| && logs[k] == Some(e);
    assert all[k] == Some(e);
    if 0 <= i < |logs| {
      assert forall j | 0 <= j <= i :: all[j] == logs[j];
    }
  }

  lemma {:induction false} OldLine(events: seq<Event>, logs: seq<Option<Event>>, line: Option<Event>, f: Family)
    requires AreFirsts(events, logs, f)
    requires line.Some? && FamilyOf(line.value.kind) == f ==> line.value in events
    ensures AreFirsts(events, logs + [line], f)
  {
    forall p, i | 0 <= p < |events|
      ensures FirstAt(logs + [line], i, events[p]) <==> FirstAt(logs, i, events[p])
    {
      assert events[p] in events;
      FirstOfMore(logs, line, i, events[p]);
    }
    assert forall e :: Some(e) in logs + [line] <==> Some(e) in logs || line == Some(e);
  }

  lemma {:induction false} NewLine(events: seq<Event>, logs: seq<Option<Event>>, e: Event, f: Family)
    requires AreFirsts(events, logs, f) && FamilyOf(e.kind) == f && e !in events
    ensures AreFirsts(events + [e], logs + [Some(e)], f)
  {
    var all, lines := events + [e], logs + [Some(e)];
    forall x ensures x in all <==> FamilyOf(x.kind) == f && Some(x) in lines {
      assert Some(x) in lines <==> Some(x) in logs || x == e;
    }
    forall p, q, i, j | 0 <= p < q < |all| && FirstAt(lines, i, all[p]) && FirstAt(lines, j, all[q])
      ensures i < j
    {
      assert all[p] == events[p] && events[p] in events;
      FirstOfMore(logs, Some(e), i, events[p]);
      if q < |events| {
        assert events[q] in events;
        FirstOfMore(logs, Some(e), j, events[q]);
      } else {
        assert Some(e) !in logs;
        assert j < |logs| ==> lines[j] == logs[j];
      }
    }
  }

  /** All pending, as they were collected from the logs. */
  predicate AllPending(q: Queue<Event>) {
    |q.pending| == |q.seen| && forall i | 0 <= i < |q.seen| :: q.pending[i] == Pending(Logs, q.seen[i])
  }

  /** After the logs each family's queue holds the events of its kinds, each once, in the order of the lines
   * that told them first. */
  lemma {:induction false} LogsAreCollectedInOrder(logs: seq<Option<Event>>, f: Family)
    ensures
      var q := QueueOf(Exec(Init, LogActions(logs)).pending, f);
      AreFirsts(q.seen, logs, f) && AllPending(q)
  {
    if logs == [] {
    } else {
      var init, line := logs[..|logs| - 1], logs[|logs| - 1];
      assert logs == init + [line] && logs[..|logs|] == logs;
      LogsAreCollectedInOrder(init, f);
      NextLine(Init, logs, |logs| - 1);
      LineIsCollected(Exec(Init, LogActions(init)), init, line, f);
    }
  }

  lemma {:induction false} LineIsCollected(s: State, logs: seq<Option<Event>>, line: Option<Event>, f: Family)
    requires AreFirsts(QueueOf(s.pending, f).seen, logs, f) && AllPending(QueueOf(s.pending, f))
    ensures
      var q := QueueOf((if line.None? then s else Step(s, Collect(Logs, line.value))).pending, f);
      AreFirsts(q.seen, logs + [line], f) && AllPending(q)
  {
    var q := QueueOf(s.pending, f);
    if line.Some? && FamilyOf(line.value.kind) == f && line.value !in q.seen {
      NewLine(q.seen, logs, line.value, f);
    } else {
      OldLine(q.seen, logs, line, f);
    }
  }

  // ----- The groups -----

  /** Of two groups with one index the later stays. */
  lemma {:induction false} LastGroupStays(groups: seq<Group>, i: nat)
    requires i < |groups| && forall j | i < j < |groups| :: groups[j].outerIndex != groups[i].outerIndex
    ensures groups[i].outerIndex in GroupsByOuter(groups)
    ensures GroupsByOuter(groups)[groups[i].outerIndex] == groups[i].instructions
  {
    var init := groups[..|groups| - 1];
    if i < |init| {
      assert forall j | 0 <= j < |init| :: init[j] == groups[j];
      LastGroupStays(init, i);
    }
  }

  /** And every group by outer index is one that came. */
  lemma {:induction false} GroupsCame(groups: seq<Group>, k: nat)
    requires k in GroupsByOuter(groups)
    ensures exists i | 0 <= i < |groups| :: groups[i] == Group(k, GroupsByOuter(groups)[k])
  {
    var init, last := groups[..|groups| - 1], groups[|groups| - 1];
    if last.outerIndex == k {
      assert groups[|groups| - 1] == Group(k, GroupsByOuter(groups)[k]);
    } else {
      GroupsCame(init, k);
      var i :| 0 <= i < |init| && init[i] == Group(k, GroupsByOuter(init)[k]);
      assert groups[i] == init[i];
    }
  }

  // ----- The instructions and events of the groups -----

  /** An instruction stands at a place of the transaction. */
  predicate StandsAt(view: View, source: Source, ix: Instruction) {
    match source
    case Outer(i) => i < |view.outers| && view.outers[i] == Some(ix)
    case Inner(k, j) =>
      var groups := GroupsByOuter(view.groups);
      k in groups && j < |groups[k]| && groups[k][j].instruction == Some(ix)
  }

  /** One of the groups carries an event. */
  ghost predicate Carried(view: View, e: Event) {
    var groups := GroupsByOuter(view.groups);
    exists k, j | k in groups && 0 <= j < |groups[k]| :: e in groups[k][j].events
  }

  lemma {:induction false} InRepeat(turn: nat -> seq<Action>, n: nat, a: Action)
    ensures a in Repeat(turn, n) <==> exists i | 0 <= i < n :: a in turn(i)
  {
    if n == 0 {
    } else {
      InRepeat(turn, n - 1, a);
    }
  }

  lemma {:induction false} InCollects(origin: Origin, events: seq<Event>, a: Action)
    ensures a in Collects(origin, events) <==> a.Collect? && a.origin == origin && a.event in events
  {
    if events == [] {
    } else {
      InCollects(origin, events[..|events| - 1], a);
      assert forall e :: e in events <==> e in events[..|events| - 1] || e == events[|events| - 1];
    }
  }

  lemma {:induction false} InScanCollects(group: seq<InnerIx>, a: Action)
    ensures a in ScanCollects(group) <==>
            a.Collect? && a.origin == InnerCpi && exists j | 0 <= j < |group| :: a.event in group[j].events
  {
    if group == [] {
    } else {
      var init := group[..|group| - 1];
      InScanCollects(init, a);
      InCollects(InnerCpi, group[|group| - 1].events, a);
      assert forall j | 0 <= j < |init| :: init[j] == group[j];
    }
  }

  lemma {:induction false} InProcesses(group: seq<InnerIx>, outer: nat, a: Action)
    ensures a in Processes(ScanInvocations(group, outer)) <==>
            exists j | 0 <= j < |group| ::
              group[j].instruction.Some? && a == Process(Invoking(Inner(outer, j), group[j].instruction.value))
  {
    if group == [] {
    } else {
      var last := |group| - 1;
      var init, before := group[..last], ScanInvocations(group[..last], outer);
      InProcesses(init, outer, a);
      assert forall j | 0 <= j < |init| :: init[j] == group[j];
      if group[last].instruction.Some? {
        var invocation := Invoking(Inner(outer, last), group[last].instruction.value);
        assert (before + [invocation])[..|before|] == before;
      }
    }
  }

  lemma {:induction false} InTurn(outers: seq<Option<Instruction>>, groups: map<nat, seq<InnerIx>>, i: nat, a: Action)
    ensures a in Turn(outers, groups, i) <==>
            || (i in groups && a.Collect? && a.origin == InnerCpi &&
                exists j | 0 <= j < |groups[i]| :: a.event in groups[i][j].events)
            || (i < |outers| && outers[i].Some? && a == Process(Invoking(Outer(i), outers[i].value)))
            || (i in groups && exists j | 0 <= j < |groups[i]| ::
                  groups[i][j].instruction.Some? && a == Process(Invoking(Inner(i, j), groups[i][j].instruction.value)))
  {
    if i in groups {
      InScanCollects(groups[i], a);
      InProcesses(groups[i], i, a);
    }
  }

  lemma {:induction false} PlaceIsVisited(view: View, source: Source, ix: Instruction)
    requires StandsAt(view, source, ix)
    ensures Process(Invoking(source, ix)) in Visits(view)
  {
    var groups := GroupsByOuter(view.groups);
    GroupsBounded(view.groups, |view.outers|);
    InTurn(view.outers, groups, source.outer, Process(Invoking(source, ix)));
    InRepeat(TurnsOf(view.outers, groups), Bound(view), Process(Invoking(source, ix)));
    assert Process(Invoking(source, ix)) in TurnsOf(view.outers, groups)(source.outer);
  }

  lemma {:induction false} CarriedIsCollected(view: View, e: Event)
    requires Carried(view, e)
    ensures Collect(InnerCpi, e) in Visits(view)
  {
    var groups: map<nat, seq<InnerIx>> := GroupsByOuter(view.groups);
    var k, j :| k in groups && 0 <= j < |groups[k]| && e in groups[k][j].events;
    GroupsBounded(view.groups, |view.outers|);
    InTurn(view.outers, groups, k, Collect(InnerCpi, e));
    InRepeat(TurnsOf(view.outers, groups), Bound(view), Collect(InnerCpi, e));
    assert Collect(InnerCpi, e) in TurnsOf(view.outers, groups)(k);
  }

  /** What the walk does is of the transaction. */
  ghost predicate IsOf(view: View, a: Action) {
    match a
    case Collect(origin, e) => origin == InnerCpi && Carried(view, e)
    case Process(invocation) =>
      StandsAt(view, invocation.source, invocation.instruction)
      && invocation == Invoking(invocation.source, invocation.instruction)
  }

  lemma {:induction false} TurnIsOf(view: View, i: nat, a: Action)
    requires a in Turn(view.outers, GroupsByOuter(view.groups), i)
    ensures IsOf(view, a)
  {
    InTurn(view.outers, GroupsByOuter(view.groups), i, a);
  }

  lemma {:induction false} VisitIsOf(view: View, a: Action)
    requires a in Visits(view)
    ensures IsOf(view, a)
  {
    var turn := TurnsOf(view.outers, GroupsByOuter(view.groups));
    InRepeat(turn, Bound(view), a);
    var i :| 0 <= i < Bound(view) && a in turn(i);
    TurnIsOf(view, i, a);
  }

  /** After the logs the walk visits every instruction of the transaction, outer or inner, claimed or not,
   * once and in order, and collects every event the groups carry; it does nothing else. */
  lemma {:induction false} WalkCoversAll(view: View)
    ensures forall source, ix | StandsAt(view, source, ix) :: Process(Invoking(source, ix)) in Visits(view)
    ensures forall e | Carried(view, e) :: Collect(InnerCpi, e) in Visits(view)
    ensures forall a | a in Visits(view) :: IsOf(view, a)
    ensures InOrder(Visits(view))
  {
    forall source, ix | StandsAt(view, source, ix) ensures Process(Invoking(source, ix)) in Visits(view) {
      PlaceIsVisited(view, source, ix);
    }
    forall e | Carried(view, e) ensures Collect(InnerCpi, e) in Visits(view) {
      CarriedIsCollected(view, e);
    }
    forall a | a in Visits(view) ensures IsOf(view, a) {
      VisitIsOf(view, a);
    }
    TurnsOrder(view.outers, GroupsByOuter(view.groups), Bound(view));
  }
}
