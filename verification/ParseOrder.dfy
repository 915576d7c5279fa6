/** What the walk over a transaction yields: its order, what becomes of the events, and which trade gets
 * which event. */
module ParseOrder {
  import opened Options
  import opened FieldCodec
  import opened EventBytes
  import opened EventQueues
  import opened ParseView

  // ----- Order -----

  function Place(s: Source): nat { if s.Outer? then 0 else s.inner + 1 }

  /** The outer index decides, then an outer instruction comes before the inner ones, then the inner index. */
  predicate Before(a: Source, b: Source) {
    a.outer < b.outer || (a.outer == b.outer && Place(a) < Place(b))
  }

  predicate Ordered(sources: seq<Source>) {
    forall i, j | 0 <= i < j < |sources| :: Before(sources[i], sources[j])
  }

  /** The invocations among the actions are in order. */
  predicate InOrder(acts: seq<Action>) {
    forall i, j | 0 <= i < j < |acts| && acts[i].Process? && acts[j].Process? ::
      Before(acts[i].invocation.source, acts[j].invocation.source)
  }

  predicate AllBelow(acts: seq<Action>, hi: nat) {
    forall i | 0 <= i < |acts| && acts[i].Process? :: acts[i].invocation.source.outer < hi
  }

  predicate AllAt(acts: seq<Action>, at: nat) {
    forall i | 0 <= i < |acts| && acts[i].Process? :: acts[i].invocation.source.outer == at
  }

  predicate OnlyCollects(acts: seq<Action>) {
    forall i | 0 <= i < |acts| :: acts[i].Collect?
  }

  lemma {:induction false} CollectsCollect(origin: Origin, events: seq<Event>)
    ensures OnlyCollects(Collects(origin, events))
  {
    if events == [] {
    } else {
      CollectsCollect(origin, events[..|events| - 1]);
    }
  }

  lemma {:induction false} ScanCollectsCollect(group: seq<InnerIx>)
    ensures OnlyCollects(ScanCollects(group))
  {
    if group == [] {
    } else {
      ScanCollectsCollect(group[..|group| - 1]);
      CollectsCollect(InnerCpi, group[|group| - 1].events);
    }
  }

  predicate InnerBelow(acts: seq<Action>, outer: nat, n: nat) {
    forall i | 0 <= i < |acts| ::
      acts[i].Process? && acts[i].invocation.source.Inner?
      && acts[i].invocation.source.outer == outer && acts[i].invocation.source.inner < n
  }

  /** The inner invocations of one group are in the order of their inner index. */
  lemma {:induction false} InnerOrder(group: seq<InnerIx>, outer: nat)
    ensures InOrder(Processes(ScanInvocations(group, outer)))
    ensures InnerBelow(Processes(ScanInvocations(group, outer)), outer, |group|)
  {
    if group == [] {
    } else {
      var last := |group| - 1;
      var before := ScanInvocations(group[..last], outer);
      InnerOrder(group[..last], outer);
      if group[last].instruction.Some? {
        var invocation := Invoking(Inner(outer, last), group[last].instruction.value);
        assert (before + [invocation])[..|before|] == before;
      }
    }
  }

  /** A scan, then maybe the outer invocation, then the inner ones. */
  lemma {:induction false} TurnPartsOrder(a: seq<Action>, b: seq<Action>, c: seq<Action>, outer: nat, n: nat)
    requires OnlyCollects(a)
    requires b == [] || (|b| == 1 && b[0].Process? && b[0].invocation.source == Outer(outer))
    requires InOrder(c) && InnerBelow(c, outer, n)
    ensures InOrder(a + b + c) && AllAt(a + b + c, outer)
  {
  }

  lemma {:induction false} TurnOrder(outers: seq<Option<Instruction>>, groups: map<nat, seq<InnerIx>>, i: nat)
    ensures InOrder(Turn(outers, groups, i)) && AllAt(Turn(outers, groups, i), i)
  {
    var a := if i in groups then ScanCollects(groups[i]) else [];
    var b := if i < |outers| && outers[i].Some? then [Process(Invoking(Outer(i), outers[i].value))] else [];
    var c := if i in groups then Processes(ScanInvocations(groups[i], i)) else [];
    if i in groups {
      ScanCollectsCollect(groups[i]);
      InnerOrder(groups[i], i);
      TurnPartsOrder(a, b, c, i, |groups[i]|);
    } else {
      TurnPartsOrder(a, b, c, i, 0);
    }
  }

  lemma {:induction false} NextInOrder(a: seq<Action>, b: seq<Action>, at: nat)
    requires InOrder(a) && AllBelow(a, at) && InOrder(b) && AllAt(b, at)
    ensures InOrder(a + b) && AllBelow(a + b, at + 1)
  {
  }

  lemma {:induction false} RepeatOrder(turn: nat -> seq<Action>, n: nat)
    requires forall i :: InOrder(turn(i)) && AllAt(turn(i), i)
    ensures InOrder(Repeat(turn, n)) && AllBelow(Repeat(turn, n), n)
  {
    if n == 0 {
    } else {
      RepeatOrder(turn, n - 1);
      NextInOrder(Repeat(turn, n - 1), turn(n - 1), n - 1);
    }
  }

  lemma {:induction false} TurnsOrder(outers: seq<Option<Instruction>>, groups: map<nat, seq<InnerIx>>, hi: nat)
    ensures InOrder(Turns(outers, groups, hi)) && AllBelow(Turns(outers, groups, hi), hi)
  {
    var turn := TurnsOf(outers, groups);
    forall i: nat
      ensures InOrder(turn(i)) && AllAt(turn(i), i)
    {
      TurnOrder(outers, groups, i);
    }
    RepeatOrder(turn, hi);
  }

  function SourcesOf(parsed: seq<Parsed>): (r: seq<Source>)
    ensures |r| == |parsed| && forall i | 0 <= i < |parsed| :: r[i] == parsed[i].invocation.source
  {
    seq(|parsed|, i requires 0 <= i < |parsed| => parsed[i].invocation.source)
  }

  /** The entry a processed invocation adds, if it adds one. */
  function Added(s: State, invocation: Invocation): seq<Parsed> {
    var r := Take(QueueOf(s.pending, invocation.family), invocation.matches);
    if r.1.None? then [] else [Parsed(invocation, r.1.value.origin, r.1.value.event)]
  }

  /** Every parsed entry is that of an invocation among the actions. */
  ghost predicate Visited(acts: seq<Action>, parsed: seq<Parsed>) {
    forall i | 0 <= i < |parsed| :: Occurs(acts, parsed[i].invocation)
  }

  ghost predicate Occurs(acts: seq<Action>, invocation: Invocation) {
    exists k | 0 <= k < |acts| :: acts[k] == Process(invocation)
  }

  lemma {:induction false} VisitedGrows(acts: seq<Action>, a: Action, parsed: seq<Parsed>)
    requires Visited(acts, parsed)
    ensures Visited(acts + [a], parsed)
  {
    forall i | 0 <= i < |parsed|
      ensures Occurs(acts + [a], parsed[i].invocation)
    {
      var k :| 0 <= k < |acts| && acts[k] == Process(parsed[i].invocation);
      assert (acts + [a])[k] == acts[k];
    }
  }

  lemma {:induction false} ParsedNext(acts: seq<Action>, parsed: seq<Parsed>, p: Parsed)
    requires Visited(acts, parsed) && InOrder(acts + [Process(p.invocation)]) && Ordered(SourcesOf(parsed))
    ensures Ordered(SourcesOf(parsed + [p])) && Visited(acts + [Process(p.invocation)], parsed + [p])
  {
    var all := acts + [Process(p.invocation)];
    VisitedGrows(acts, Process(p.invocation), parsed);
    assert all[|acts|] == Process(p.invocation);
    forall i | 0 <= i < |parsed|
      ensures Before(parsed[i].invocation.source, p.invocation.source)
    {
      var k :| 0 <= k < |acts| && acts[k] == Process(parsed[i].invocation);
      assert all[k] == acts[k];
    }
  }

  /** What is parsed keeps the order of what was visited. */
  lemma {:induction false} ParsedKeepsOrder(acts: seq<Action>)
    requires InOrder(acts)
    ensures Ordered(SourcesOf(Exec(Init, acts).parsed)) && Visited(acts, Exec(Init, acts).parsed)
  {
    if acts == [] {
    } else {
      var init, a := acts[..|acts| - 1], acts[|acts| - 1];
      assert acts == init + [a];
      ParsedKeepsOrder(init);
      var before := Exec(Init, init).parsed;
      if a.Process? && Added(Exec(Init, init), a.invocation) != [] {
        ParsedNext(init, before, Added(Exec(Init, init), a.invocation)[0]);
      } else {
        VisitedGrows(init, a, before);
      }
    }
  }

  /** Parsed events come out strictly increasing in (outer index, outer before inner, inner index), the
   * events of unclaimed groups included. */
  lemma {:induction false} ParsedInOrder(view: View)
    ensures Ordered(SourcesOf(Exec(Init, Schedule(view)).parsed))
  {
    CollectsCollect(Logs, LogEvents(view.logs));
    TurnsOrder(view.outers, GroupsByOuter(view.groups), Bound(view));
    ParsedKeepsOrder(Schedule(view));
  }

  // ----- Conservation -----

  /** The events the parsed entries of one family took, in order. */
  function TakenBy(parsed: seq<Parsed>, f: Family): seq<Event> {
    if parsed == [] then []
    else
      var last := parsed[|parsed| - 1];
      var rest := TakenBy(parsed[..|parsed| - 1], f);
      if last.invocation.family == f then rest + [last.event] else rest
  }

  lemma {:induction false} TakenSnoc(parsed: seq<Parsed>, p: Parsed, f: Family)
    ensures TakenBy(parsed + [p], f) ==
              if p.invocation.family == f then TakenBy(parsed, f) + [p.event] else TakenBy(parsed, f)
  {
  }

  lemma {:induction false} ProcessConserves(s: State, invocation: Invocation, f: Family)
    requires Conserved(QueueOf(s.pending, f), TakenBy(s.parsed, f))
    ensures
      var after := Step(s, Process(invocation));
      Conserved(QueueOf(after.pending, f), TakenBy(after.parsed, f))
  {
    var added := Added(s, invocation);
    if added != [] {
      TakenSnoc(s.parsed, added[0], f);
    }
    if invocation.family == f {
      TakeConserves(QueueOf(s.pending, f), TakenBy(s.parsed, f), invocation.matches);
    }
  }

  lemma {:induction false} StepConserves(s: State, a: Action, f: Family)
    requires Conserved(QueueOf(s.pending, f), TakenBy(s.parsed, f))
    ensures Conserved(QueueOf(Step(s, a).pending, f), TakenBy(Step(s, a).parsed, f))
  {
    match a
    case Collect(origin, event) => PushConserves(QueueOf(s.pending, f), TakenBy(s.parsed, f), origin, event);
    case Process(invocation) => ProcessConserves(s, invocation, f);
  }

  /** At every moment of every walk the distinct events collected in a family are those still pending and
   * those taken by parsed entries, each once. */
  lemma {:induction false} EventsAreConserved(acts: seq<Action>, f: Family)
    ensures Conserved(QueueOf(Exec(Init, acts).pending, f), TakenBy(Exec(Init, acts).parsed, f))
  {
    if acts == [] {
    } else {
      EventsAreConserved(acts[..|acts| - 1], f);
      StepConserves(Exec(Init, acts[..|acts| - 1]), acts[|acts| - 1], f);
    }
  }

  /** Collecting an event again after it was taken changes nothing. */
  lemma {:induction false} RecollectingAddsNothing(acts: seq<Action>, origin: Origin, event: Event)
    requires event in TakenBy(Exec(Init, acts).parsed, FamilyOf(event.kind))
    ensures Step(Exec(Init, acts), Collect(origin, event)) == Exec(Init, acts)
  {
    var f, s := FamilyOf(event.kind), Exec(Init, acts);
    EventsAreConserved(acts, f);
    TakenIsNotQueuedAgain(QueueOf(s.pending, f), TakenBy(s.parsed, f), origin, event);
  }

  // ----- Which instructions contend for an event -----

  /** Two instructions that look into one queue and could take the same event. */
  ghost predicate Rivals(a: Instruction, b: Instruction) {
    a != b && FamilyOfIx(a) == FamilyOfIx(b) && exists e :: Matches(a, e) && Matches(b, e)
  }

  /** Every argument that is matched is given. */
  predicate Definite(ix: Instruction) {
    match ix
    case CreateV2Ix(_, _, _, _, _, _, _, _, _) => false
    case BuyIx(_, _, _, _, track) => track.Some?
    case BuyExactQuoteInIx(_, _, _, _, track) => track.Some?
    case _ => true
  }

  /** Definite instructions are told apart by their arguments. */
  lemma {:induction false} DefiniteAreNoRivals(a: Instruction, b: Instruction)
    requires Definite(a) && Definite(b)
    ensures !Rivals(a, b)
  {
  }

  /** Of trades, migrations, sales, new pools, deposits and withdrawals no other instruction is a rival. */
  predicate Unrivalled(ix: Instruction) {
    ix.TradeIx? || ix.MigrateIx? || ix.SellIx? || ix.CreatePoolIx? || ix.DepositIx? || ix.WithdrawIx?
  }

  lemma {:induction false} UnrivalledHasNoRival(ix: Instruction, other: Instruction)
    requires Unrivalled(ix)
    ensures !Rivals(ix, other)
  {
  }

  /** Invocations as the walk makes them. */
  ghost predicate WellMade(acts: seq<Action>) {
    forall i | 0 <= i < |acts| && acts[i].Process? :: MadeByWalk(acts[i].invocation)
  }

  ghost predicate MadeByWalk(invocation: Invocation) {
    && invocation.family == FamilyOfIx(invocation.instruction)
    && forall e :: invocation.matches(e) <==> Matches(invocation.instruction, e)
  }

  /** None of the invocations contends for the instruction's events. */
  ghost predicate NoRival(acts: seq<Action>, ix: Instruction) {
    forall i | 0 <= i < |acts| && acts[i].Process? :: !Rivals(ix, acts[i].invocation.instruction)
  }

  // ----- First in, first out -----

  /** The invocations of one instruction, in order. */
  function Requests(acts: seq<Action>, ix: Instruction): seq<Invocation> {
    if acts == [] then []
    else
      var rest := Requests(acts[..|acts| - 1], ix);
      match acts[|acts| - 1]
      case Collect(_, _) => rest
      case Process(invocation) => if invocation.instruction == ix then rest + [invocation] else rest
  }

  /** What was parsed for one instruction, in order. */
  function ParsedFor(parsed: seq<Parsed>, ix: Instruction): seq<Parsed> {
    if parsed == [] then []
    else
      var last := parsed[|parsed| - 1];
      var rest := ParsedFor(parsed[..|parsed| - 1], ix);
      if last.invocation.instruction == ix then rest + [last] else rest
  }

  lemma {:induction false} ParsedForSnoc(parsed: seq<Parsed>, p: Parsed, ix: Instruction)
    ensures ParsedFor(parsed + [p], ix) ==
              if p.invocation.instruction == ix then ParsedFor(parsed, ix) + [p] else ParsedFor(parsed, ix)
  {
  }

  function EventsOf(parsed: seq<Parsed>): (r: seq<Event>)
    ensures |r| == |parsed| && forall i | 0 <= i < |parsed| :: r[i] == parsed[i].event
  {
    seq(|parsed|, i requires 0 <= i < |parsed| => parsed[i].event)
  }

  function InvocationsOf(parsed: seq<Parsed>): (r: seq<Invocation>)
    ensures |r| == |parsed| && forall i | 0 <= i < |parsed| :: r[i] == parsed[i].invocation
  {
    seq(|parsed|, i requires 0 <= i < |parsed| => parsed[i].invocation)
  }

  function Mine(ix: Instruction): Event -> bool { e => Matches(ix, e) }

  function QueueFor(s: State, ix: Instruction): Queue<Event> { QueueOf(s.pending, FamilyOfIx(ix)) }

  function Collected(s: State, ix: Instruction): seq<Event> { OfGroup(QueueFor(s, ix).seen, Mine(ix)) }

  function Waiting(s: State, ix: Instruction): seq<Event> { OfGroup(Events(QueueFor(s, ix).pending), Mine(ix)) }

  /** What was parsed for an instruction has the first events that match it, in the order in which they were
   * collected; the others are waiting. */
  ghost predicate TakenInOrder(s: State, ix: Instruction) {
    Collected(s, ix) == EventsOf(ParsedFor(s.parsed, ix)) + Waiting(s, ix)
  }

  lemma {:induction false} CollectKeepsOrder(s: State, origin: Origin, event: Event, ix: Instruction)
    requires TakenInOrder(s, ix)
    ensures TakenInOrder(Step(s, Collect(origin, event)), ix)
  {
    var q := QueueFor(s, ix);
    if FamilyOf(event.kind) == FamilyOfIx(ix) && event !in q.seen {
      OfGroupSnoc(q.seen, event, Mine(ix));
      EventsConcat(q.pending, [Pending(origin, event)]);
      assert Events([Pending(origin, event)]) == [event];
      OfGroupSnoc(Events(q.pending), event, Mine(ix));
    }
  }

  /** What processing an invocation means for the events of an instruction it does not contend with: it takes
   * the first that waits, if it is that instruction and there is one. */
  lemma {:induction false} ProcessOutcome(s: State, invocation: Invocation, ix: Instruction)
    requires MadeByWalk(invocation) && !Rivals(ix, invocation.instruction)
    ensures
      var after, added := Step(s, Process(invocation)), Added(s, invocation);
      && Collected(after, ix) == Collected(s, ix)
      && ParsedFor(after.parsed, ix) ==
           (if invocation.instruction == ix && added != [] then ParsedFor(s.parsed, ix) + added
            else ParsedFor(s.parsed, ix))
      && Waiting(s, ix) ==
           (if invocation.instruction == ix && added != [] then [added[0].event] + Waiting(after, ix)
            else Waiting(after, ix))
      && (invocation.instruction == ix && added == [] ==> Waiting(s, ix) == [])
  {
    var added := Added(s, invocation);
    if added != [] {
      ParsedForSnoc(s.parsed, added[0], ix);
    }
    if invocation.family == FamilyOfIx(ix) {
      SameOrApart(invocation, ix);
      TakeOfGroup(QueueFor(s, ix), invocation.matches, Mine(ix));
    }
  }

  lemma {:induction false} SameOrApart(invocation: Invocation, ix: Instruction)
    requires MadeByWalk(invocation) && !Rivals(ix, invocation.instruction) && invocation.family == FamilyOfIx(ix)
    ensures invocation.instruction == ix ==> forall e :: invocation.matches(e) <==> Mine(ix)(e)
    ensures invocation.instruction != ix ==> forall e :: invocation.matches(e) ==> !Mine(ix)(e)
  {
  }

  lemma {:induction false} OneMoreTaken(parsed: seq<Parsed>, p: Parsed, rest: seq<Event>)
    ensures EventsOf(parsed) + ([p.event] + rest) == EventsOf(parsed + [p]) + rest
  {
  }

  lemma {:induction false} ProcessKeepsOrder(s: State, invocation: Invocation, ix: Instruction)
    requires TakenInOrder(s, ix) && MadeByWalk(invocation) && !Rivals(ix, invocation.instruction)
    ensures TakenInOrder(Step(s, Process(invocation)), ix)
  {
    ProcessOutcome(s, invocation, ix);
    var added := Added(s, invocation);
    if invocation.instruction == ix && added != [] {
      assert added == [added[0]];
      OneMoreTaken(ParsedFor(s.parsed, ix), added[0], Waiting(Step(s, Process(invocation)), ix));
    }
  }

  /** First in, first out: in every walk without a rival, the j-th entry parsed for an instruction has the
   * j-th distinct event that matches it. */
  lemma {:induction false} EventsAreFifo(acts: seq<Action>, ix: Instruction)
    requires WellMade(acts) && NoRival(acts, ix)
    ensures TakenInOrder(Exec(Init, acts), ix)
  {
    if acts == [] {
    } else {
      var init := acts[..|acts| - 1];
      assert forall i | 0 <= i < |init| :: init[i] == acts[i];
      EventsAreFifo(init, ix);
      match acts[|acts| - 1]
      case Collect(origin, event) => CollectKeepsOrder(Exec(Init, init), origin, event, ix);
      case Process(invocation) => ProcessKeepsOrder(Exec(Init, init), invocation, ix);
    }
  }

  // ----- None is missed -----

  /** None of the actions brings an event of the family that is not there yet. */
  ghost predicate BringsNothing(s: State, acts: seq<Action>, f: Family) {
    forall i | 0 <= i < |acts| && acts[i].Collect? && FamilyOf(acts[i].event.kind) == f ::
      acts[i].event in QueueOf(s.pending, f).seen
  }

  /** After any number of requests, as many are served as there are events, the earliest ones. */
  ghost predicate ServedInOrder(s: State, requests: seq<Invocation>, ix: Instruction) {
    var served := InvocationsOf(ParsedFor(s.parsed, ix));
    served <= requests && (Waiting(s, ix) == [] || served == requests)
  }

  lemma {:induction false} OneMoreServed(served: seq<Invocation>, requests: seq<Invocation>, next: Invocation,
                                         waiting: seq<Event>, after: seq<Event>, took: bool)
    requires served <= requests && (waiting == [] || served == requests)
    requires if took then waiting != [] else waiting == after == []
    ensures
      var served' := if took then served + [next] else served;
      served' <= requests + [next] && (after == [] || served' == requests + [next])
  {
  }

  lemma {:induction false} ProcessServes(s: State, requests: seq<Invocation>, invocation: Invocation, ix: Instruction)
    requires ServedInOrder(s, requests, ix) && MadeByWalk(invocation) && !Rivals(ix, invocation.instruction)
    ensures ServedInOrder(Step(s, Process(invocation)),
                          if invocation.instruction == ix then requests + [invocation] else requests, ix)
  {
    ProcessOutcome(s, invocation, ix);
    if invocation.instruction == ix {
      var parsed, added, after := ParsedFor(s.parsed, ix), Added(s, invocation), Step(s, Process(invocation));
      OneMoreServed(InvocationsOf(parsed), requests, invocation, Waiting(s, ix), Waiting(after, ix), added != []);
      if added != [] {
        assert InvocationsOf(parsed + added) == InvocationsOf(parsed) + [invocation];
      }
    }
  }

  /** Collecting an event that is there already, or one of another family, changes nothing here. */
  lemma {:induction false} CollectServes(s: State, origin: Origin, event: Event, f: Family)
    requires FamilyOf(event.kind) == f ==> event in QueueOf(s.pending, f).seen
    ensures
      var after := Step(s, Collect(origin, event));
      QueueOf(after.pending, f) == QueueOf(s.pending, f) && after.parsed == s.parsed
  {
  }

  lemma {:induction false} StepServes(s: State, a: Action, requests: seq<Invocation>, ix: Instruction)
    requires ServedInOrder(s, requests, ix)
    requires a.Process? ==> MadeByWalk(a.invocation) && !Rivals(ix, a.invocation.instruction)
    requires a.Collect? && FamilyOf(a.event.kind) == FamilyOfIx(ix) ==> a.event in QueueFor(s, ix).seen
    ensures ServedInOrder(Step(s, a),
                          if a.Process? && a.invocation.instruction == ix then requests + [a.invocation]
                          else requests, ix)
    ensures QueueFor(Step(s, a), ix).seen == QueueFor(s, ix).seen
  {
    match a
    case Collect(origin, event) => CollectServes(s, origin, event, FamilyOfIx(ix));
    case Process(invocation) => ProcessServes(s, requests, invocation, ix);
  }

  lemma {:induction false} AllServed(s: State, acts: seq<Action>, ix: Instruction)
    requires WellMade(acts) && NoRival(acts, ix) && BringsNothing(s, acts, FamilyOfIx(ix))
    requires ParsedFor(s.parsed, ix) == []
    ensures ServedInOrder(Exec(s, acts), Requests(acts, ix), ix)
    ensures QueueFor(Exec(s, acts), ix).seen == QueueFor(s, ix).seen
  {
    if acts == [] {
      assert InvocationsOf(ParsedFor(s.parsed, ix)) == [];
    } else {
      var init, a := acts[..|acts| - 1], acts[|acts| - 1];
      assert forall i | 0 <= i < |init| :: init[i] == acts[i];
      AllServed(s, init, ix);
      StepServes(Exec(s, init), a, Requests(init, ix), ix);
    }
  }

  function Least(a: nat, b: nat): nat { if a <= b then a else b }

  /** When all events of its family come from the logs and nothing contends for them, the j-th invocation of
   * an instruction gets the j-th distinct event that matches it, and it yields as many entries as it has
   * invocations or events, whichever is less. */
  lemma {:induction false} EntriesAreMaximal(logs: seq<Option<Event>>, acts: seq<Action>, ix: Instruction)
    requires WellMade(acts) && NoRival(acts, ix) && BringsNothing(Exec(Init, LogActions(logs)), acts, FamilyOfIx(ix))
    ensures
      var s := Exec(Init, LogActions(logs) + acts);
      var parsed, requests, events := ParsedFor(s.parsed, ix), Requests(acts, ix), Collected(s, ix);
      && |parsed| == Least(|requests|, |events|)
      && forall j | 0 <= j < |parsed| :: parsed[j].invocation == requests[j] && parsed[j].event == events[j]
  {
    var start := Exec(Init, LogActions(logs));
    NothingParsedFromLogs(logs);
    AllServed(start, acts, ix);
    ExecConcat(Init, LogActions(logs), acts);
    CollectsCollect(Logs, LogEvents(logs));
    EventsAreFifo(LogActions(logs) + acts, ix);
    var s := Exec(Init, LogActions(logs) + acts);
    var parsed := ParsedFor(s.parsed, ix);
    assert |InvocationsOf(parsed)| == |EventsOf(parsed)| == |parsed|;
    forall j | 0 <= j < |parsed|
      ensures parsed[j].invocation == Requests(acts, ix)[j] && parsed[j].event == Collected(s, ix)[j]
    {
      assert InvocationsOf(parsed)[j] == Requests(acts, ix)[j];
      assert EventsOf(parsed)[j] == Collected(s, ix)[j];
    }
  }

  lemma {:induction false} NothingParsedFrom(s: State, origin: Origin, events: seq<Event>)
    ensures Exec(s, Collects(origin, events)).parsed == s.parsed
  {
    if events == [] {
    } else {
      var init, event := events[..|events| - 1], events[|events| - 1];
      NothingParsedFrom(s, origin, init);
      ExecSnoc(s, Collects(origin, init), Collect(origin, event));
    }
  }

  lemma {:induction false} NothingParsedFromLogs(logs: seq<Option<Event>>)
    ensures Exec(Init, LogActions(logs)).parsed == []
  {
    NothingParsedFrom(Init, Logs, LogEvents(logs));
  }

  lemma {:induction false} ProcessesAreWellMade(group: seq<InnerIx>, outer: nat)
    ensures WellMade(Processes(ScanInvocations(group, outer)))
  {
    if group == [] {
    } else {
      var last := |group| - 1;
      ProcessesAreWellMade(group[..last], outer);
      if group[last].instruction.Some? {
        var before := ScanInvocations(group[..last], outer);
        var invocation := Invoking(Inner(outer, last), group[last].instruction.value);
        assert (before + [invocation])[..|before|] == before;
      }
    }
  }

  lemma {:induction false} TurnIsWellMade(outers: seq<Option<Instruction>>, groups: map<nat, seq<InnerIx>>, i: nat)
    ensures WellMade(Turn(outers, groups, i))
  {
    if i in groups {
      ScanCollectsCollect(groups[i]);
      ProcessesAreWellMade(groups[i], i);
    }
  }

  lemma {:induction false} RepeatIsWellMade(turn: nat -> seq<Action>, n: nat)
    requires forall i :: WellMade(turn(i))
    ensures WellMade(Repeat(turn, n))
  {
    if n == 0 {
    } else {
      RepeatIsWellMade(turn, n - 1);
    }
  }

  lemma {:induction false} TurnsAreWellMade(outers: seq<Option<Instruction>>, groups: map<nat, seq<InnerIx>>, hi: nat)
    ensures WellMade(Turns(outers, groups, hi))
  {
    var turn := TurnsOf(outers, groups);
    forall i: nat
      ensures WellMade(turn(i))
    {
      TurnIsWellMade(outers, groups, i);
    }
    RepeatIsWellMade(turn, hi);
  }

  /** What the walk does after the logs. */
  function Visits(view: View): seq<Action> { Turns(view.outers, GroupsByOuter(view.groups), Bound(view)) }

  /** Nothing in the transaction contends for the instruction's events: no other instruction ever does, or
   * every instruction of its family there has its arguments given. */
  predicate Uncontested(view: View, ix: Instruction) {
    Unrivalled(ix)
    || (Definite(ix)
        && forall i | 0 <= i < |Visits(view)| && Visits(view)[i].Process?
                      && Visits(view)[i].invocation.family == FamilyOfIx(ix) ::
             Definite(Visits(view)[i].invocation.instruction))
  }

  lemma {:induction false} UncontestedHasNoRival(view: View, ix: Instruction)
    requires Uncontested(view, ix)
    ensures WellMade(Visits(view)) && NoRival(Visits(view), ix)
  {
    TurnsAreWellMade(view.outers, GroupsByOuter(view.groups), Bound(view));
    var acts := Visits(view);
    forall i | 0 <= i < |acts| && acts[i].Process?
      ensures !Rivals(ix, acts[i].invocation.instruction)
    {
      var other := acts[i].invocation.instruction;
      if Unrivalled(ix) {
        UnrivalledHasNoRival(ix, other);
      } else if acts[i].invocation.family == FamilyOfIx(ix) {
        DefiniteAreNoRivals(ix, other);
      }
    }
  }

  /** In the walk over every transaction, at its end: first in, first out for each instruction that is
   * uncontested in it, whatever its form. */
  lemma {:induction false} ViewIsFifo(view: View, ix: Instruction)
    requires Uncontested(view, ix)
    ensures TakenInOrder(Exec(Init, Schedule(view)), ix)
  {
    UncontestedHasNoRival(view, ix);
    CollectsCollect(Logs, LogEvents(view.logs));
    EventsAreFifo(Schedule(view), ix);
  }

  /** And when all events of its family come from the logs, none is missed. */
  lemma {:induction false} ViewIsMaximal(view: View, ix: Instruction)
    requires Uncontested(view, ix)
    requires BringsNothing(Exec(Init, LogActions(view.logs)), Visits(view), FamilyOfIx(ix))
    ensures
      var s := Exec(Init, Schedule(view));
      var parsed, requests, events := ParsedFor(s.parsed, ix), Requests(Visits(view), ix), Collected(s, ix);
      && |parsed| == Least(|requests|, |events|)
      && forall j | 0 <= j < |parsed| :: parsed[j].invocation == requests[j] && parsed[j].event == events[j]
  {
    UncontestedHasNoRival(view, ix);
    EntriesAreMaximal(view.logs, Visits(view), ix);
  }

  // ----- Contested events -----

  lemma {:induction false} ExecTwo(s: State, a: Action, b: Action)
    ensures Exec(s, [a, b]) == Step(Step(s, a), b)
  {
    assert [a, b] == [] + [a] + [b];
    ExecSnoc(s, [], a);
    ExecSnoc(s, [] + [a], b);
  }

  lemma {:induction false} ProcessCounts(s: State, invocation: Invocation)
    requires MadeByWalk(invocation)
    ensures
      var q, after := QueueOf(s.pending, invocation.family), Step(s, Process(invocation));
      && |after.parsed| == |s.parsed| + (if CanTake(q, Mine(invocation.instruction)) then 1 else 0)
      && QueueOf(after.pending, invocation.family) == Take(q, Mine(invocation.instruction)).0
  {
    SameMatches(QueueOf(s.pending, invocation.family), invocation.matches, Mine(invocation.instruction));
  }

  lemma {:induction false} SameMatches(q: Queue<Event>, a: Event -> bool, b: Event -> bool)
    requires forall e :: a(e) <==> b(e)
    ensures Take(q, a) == Take(q, b)
  {
    assert FirstMatch(q.pending, a) == FirstMatch(q.pending, b);
  }

  lemma {:induction false} TwoCount(s: State, a: Invocation, b: Invocation)
    requires MadeByWalk(a) && MadeByWalk(b) && a.family == b.family
    ensures |Exec(s, [Process(a), Process(b)]).parsed|
         == |s.parsed| + Served(QueueOf(s.pending, a.family), Mine(a.instruction), Mine(b.instruction))
  {
    ExecTwo(s, Process(a), Process(b));
    ProcessCounts(s, a);
    ProcessCounts(Step(s, Process(a)), b);
  }

  /** Where instructions contend, taking the first match can serve fewer than possible.  Whatever has been
   * parsed and collected before, of any two invocations of one family, whatever their forms, the first
   * costs an entry that the opposite order would have yielded exactly when the first pending event that
   * matches it is the only one that matches the second, and not the only one that matches itself. */
  lemma {:induction false} ContestedIff(s: State, a: Invocation, b: Invocation)
    requires MadeByWalk(a) && MadeByWalk(b) && a.family == b.family
    ensures
      |Exec(s, [Process(a), Process(b)]).parsed| < |Exec(s, [Process(b), Process(a)]).parsed|
      <==> TakesTheOnlyOne(QueueOf(s.pending, a.family).pending, Mine(a.instruction), Mine(b.instruction))
  {
    TwoCount(s, a, b);
    TwoCount(s, b, a);
    OrderLosesIff(QueueOf(s.pending, a.family), Mine(a.instruction), Mine(b.instruction));
  }

  // ----- A transaction in which an event goes to waste -----

  /** A transaction of two log events and two outer instructions. */
  function TwoByTwo(a: Event, b: Event, x: Instruction, y: Instruction): View {
    View([Some(a), Some(b)], [Some(x), Some(y)], [])
  }

  lemma {:induction false} TwoVisits(a: Event, b: Event, x: Instruction, y: Instruction)
    ensures Visits(TwoByTwo(a, b, x, y)) == [Process(Invoking(Outer(0), x)), Process(Invoking(Outer(1), y))]
  {
    var view := TwoByTwo(a, b, x, y);
    var turn := TurnsOf(view.outers, GroupsByOuter(view.groups));
    assert turn(0) == [Process(Invoking(Outer(0), x))];
    assert turn(1) == [Process(Invoking(Outer(1), y))];
    assert Repeat(turn, 0) == [];
    assert Repeat(turn, 1) == turn(0);
    assert Repeat(turn, 2) == turn(0) + turn(1);
  }

  lemma {:induction false} LogsOfTwo(a: Event, b: Event)
    ensures LogActions([Some(a), Some(b)]) == [Collect(Logs, a), Collect(Logs, b)]
  {
    var logs := [Some(a), Some(b)];
    assert logs[..1] == [Some(a)] && logs[..1][..0] == [];
    CollectsSnoc(Logs, [], a);
    CollectsSnoc(Logs, [a], b);
    assert [] + [a] == [a] && [a] + [b] == [a, b];
    assert LogEvents(logs[..1]) == [a] && LogEvents(logs) == [a, b];
  }

  lemma {:induction false} TwoCollected(a: Event, b: Event)
    requires a != b && FamilyOf(a.kind) == FamilyOf(b.kind)
    ensures
      var s := Exec(Init, LogActions([Some(a), Some(b)]));
      && s.parsed == []
      && QueueOf(s.pending, FamilyOf(a.kind)) == Queue([a, b], [Pending(Logs, a), Pending(Logs, b)])
  {
    var logs := [Some(a), Some(b)];
    var first, second := Collect(Logs, a), Collect(Logs, b);
    LogsOfTwo(a, b);
    ExecTwo(Init, first, second);
    var s := Step(Init, first);
    assert QueueOf(s.pending, FamilyOf(a.kind)) == Push(NoEvents, Logs, a) == Queue([a], [Pending(Logs, a)]);
    assert QueueOf(Step(s, second).pending, FamilyOf(a.kind)) == Push(Queue([a], [Pending(Logs, a)]), Logs, b);
  }

  lemma {:induction false} TwoByTwoCount(a: Event, b: Event, x: Instruction, y: Instruction)
    requires a != b && FamilyOf(a.kind) == FamilyOf(b.kind) == FamilyOfIx(x) == FamilyOfIx(y)
    ensures |Exec(Init, Schedule(TwoByTwo(a, b, x, y))).parsed|
         == Served(Queue([a, b], [Pending(Logs, a), Pending(Logs, b)]), Mine(x), Mine(y))
  {
    var view := TwoByTwo(a, b, x, y);
    TwoVisits(a, b, x, y);
    TwoCollected(a, b);
    ExecConcat(Init, LogActions(view.logs), Visits(view));
    TwoCount(Exec(Init, LogActions(view.logs)), Invoking(Outer(0), x), Invoking(Outer(1), y));
  }

  lemma {:induction false} TwoServed(a: Event, b: Event, open: Event -> bool, given: Event -> bool)
    requires open(a) && open(b) && given(a) && !given(b)
    ensures
      var q := Queue([a, b], [Pending(Logs, a), Pending(Logs, b)]);
      Served(q, open, given) == 1 && Served(q, given, open) == 2
  {
    var q := Queue([a, b], [Pending(Logs, a), Pending(Logs, b)]);
    assert q.pending[0].event == a && q.pending[1].event == b;
    assert FirstMatch(q.pending, open) == 0 && FirstMatch(q.pending, given) == 0;
    SecondIsServedIff(q, open, given);
    SecondIsServedIff(q, given, open);
  }

  /** Either event would do for the first instruction, the first event alone for the second. */
  predicate Contend(a: Event, b: Event, open: Instruction, given: Instruction) {
    && a != b && FamilyOf(a.kind) == FamilyOf(b.kind) == FamilyOfIx(open) == FamilyOfIx(given)
    && Matches(open, a) && Matches(open, b) && Matches(given, a) && !Matches(given, b)
  }

  /** How many entries come out depends on which of the two stands first. */
  lemma {:induction false} OneOrTwo(a: Event, b: Event, open: Instruction, given: Instruction)
    requires Contend(a, b, open, given)
    ensures |Exec(Init, Schedule(TwoByTwo(a, b, open, given))).parsed| == 1
    ensures |Exec(Init, Schedule(TwoByTwo(a, b, given, open))).parsed| == 2
  {
    TwoByTwoCount(a, b, open, given);
    TwoByTwoCount(a, b, given, open);
    TwoServed(a, b, Mine(open), Mine(given));
  }

  /** A transaction as it comes, with two log lines and two outer instructions. */
  function RawTwoByTwo(lineA: string, lineB: string, x: RawIx, y: RawIx): RawView {
    RawView([DataPrefix + lineA, DataPrefix + lineB], [x, y], [])
  }

  /** Its log lines decode to two encoded events. */
  predicate Carries(r: Reader, line: string, i: nat, disc: Bytes, fields: seq<Value>) {
    && i < |Schemas| && disc in Schemas[i].discs && FitsAll(Fits, Schemas[i].layout, fields)
    && r.decode(line) == Some(EncodeEvent(Schemas[i], disc, fields))
  }

  lemma {:induction false} CarriedIsFound(r: Reader, line: string, i: nat, disc: Bytes, fields: seq<Value>)
    requires Carries(r, line, i, disc, fields)
    ensures EventOfLine(r, DataPrefix + line) == Some(Event(Schemas[i].kind, fields))
  {
    CollectsWhatWasEncoded(i, disc, fields);
    assert (DataPrefix + line)[|DataPrefix|..] == line;
  }

  /** A transaction whose log lines carry the two events and whose instructions are the two. */
  predicate IsTransaction(r: Reader, lineA: string, lineB: string, x: RawIx, y: RawIx,
                 i: nat, disc: Bytes, a: Event, b: Event, open: Instruction, given: Instruction) {
    && Carries(r, lineA, i, disc, a.fields) && Carries(r, lineB, i, disc, b.fields)
    && a.kind == b.kind == Schemas[i].kind
    && OuterOf(r, x) == Some(open) && OuterOf(r, y) == Some(given)
  }

  lemma {:induction false} LinesOfTwo(r: Reader, lineA: string, lineB: string, a: Event, b: Event)
    requires EventOfLine(r, DataPrefix + lineA) == Some(a) && EventOfLine(r, DataPrefix + lineB) == Some(b)
    ensures Lines(r, [DataPrefix + lineA, DataPrefix + lineB]) == [Some(a), Some(b)]
  {
  }

  lemma {:induction false} OutersOfTwo(r: Reader, x: RawIx, y: RawIx, open: Instruction, given: Instruction)
    requires OuterOf(r, x) == Some(open) && OuterOf(r, y) == Some(given)
    ensures Outers(r, [x, y]) == [Some(open), Some(given)]
  {
  }

  lemma {:induction false} DecodedTwoByTwo(r: Reader, lineA: string, lineB: string, x: RawIx, y: RawIx,
                                           i: nat, disc: Bytes, a: Event, b: Event,
                                           open: Instruction, given: Instruction)
    requires IsTransaction(r, lineA, lineB, x, y, i, disc, a, b, open, given)
    ensures ViewOf(r, RawTwoByTwo(lineA, lineB, x, y)) == TwoByTwo(a, b, open, given)
    ensures ViewOf(r, RawTwoByTwo(lineA, lineB, y, x)) == TwoByTwo(a, b, given, open)
  {
    CarriedIsFound(r, lineA, i, disc, a.fields);
    CarriedIsFound(r, lineB, i, disc, b.fields);
    LinesOfTwo(r, lineA, lineB, a, b);
    OutersOfTwo(r, x, y, open, given);
    OutersOfTwo(r, y, x, given, open);
  }

  /** How many entries come out of a transaction as it comes. */
  function Entries(r: Reader, raw: RawView): nat { |Exec(Init, Schedule(ViewOf(r, raw))).parsed| }

  lemma {:induction false} WasteInTransaction(r: Reader, lineA: string, lineB: string, x: RawIx, y: RawIx,
                                              i: nat, disc: Bytes, a: Event, b: Event,
                                              open: Instruction, given: Instruction)
    requires IsTransaction(r, lineA, lineB, x, y, i, disc, a, b, open, given) && Contend(a, b, open, given)
    ensures Entries(r, RawTwoByTwo(lineA, lineB, x, y)) == 1
    ensures Entries(r, RawTwoByTwo(lineA, lineB, y, x)) == 2
  {
    DecodedTwoByTwo(r, lineA, lineB, x, y, i, disc, a, b, open, given);
    OneOrTwo(a, b, open, given);
  }

  /** Transactions can be written down: some reader decodes two lines to any two encoded events and has two
   * instructions of any two forms. */
  lemma {:induction false} SomeTransaction(i: nat, disc: Bytes, a: Event, b: Event, open: Instruction,
                                           given: Instruction)
    returns (r: Reader, lineA: string, lineB: string, x: RawIx, y: RawIx)
    requires i < |Schemas| && disc in Schemas[i].discs && a.kind == b.kind == Schemas[i].kind
    requires FitsAll(Fits, Schemas[i].layout, a.fields) && FitsAll(Fits, Schemas[i].layout, b.fields)
    ensures IsTransaction(r, lineA, lineB, x, y, i, disc, a, b, open, given)
  {
    var bytesA, bytesB := EncodeEvent(Schemas[i], disc, a.fields), EncodeEvent(Schemas[i], disc, b.fields);
    lineA, lineB := "a", "b";
    x, y := RawIx(PumpAmm, ["x"], "a"), RawIx(PumpAmm, ["y"], "a");
    r := Reader((text: string) => Some(if text == "a" then bytesA else bytesB),
                (program, accounts: seq<string>, bytes) => Some(if accounts == ["x"] then open else given));
    assert ["x"][0] != ["y"][0];
  }

  // ----- Two buys -----

  /** The place of the layout of buys among all. */
  const BuyAt: nat := 3

  /** The fields of a buy, with the volume flag given. */
  function BoughtWith(pool: Bytes, user: Bytes, baseOut: int, maxQuoteIn: int, flag: bool, fields: seq<Value>): Event
    requires |fields| == |BuySchema.layout|
  {
    Event(Buy, fields[29 := Text(BuyName)][14 := Key(pool)][15 := Key(user)]
                     [1 := Num(baseOut)][2 := Num(maxQuoteIn)][23 := Flag(flag)])
  }

  lemma {:induction false} BuyNameIsText()
    ensures IsUtf8(BuyName)
  {
    assert Utf8From(BuyName, 3);
    assert Utf8From(BuyName, 2);
    assert Utf8From(BuyName, 1);
  }

  lemma {:induction false} BoughtFits(pool: Bytes, user: Bytes, baseOut: int, maxQuoteIn: int, flag: bool,
                                      fields: seq<Value>)
    requires FitsAll(Fits, BuySchema.layout, fields) && |pool| == |user| == 32
    requires 0 <= baseOut < Pow64 && 0 <= maxQuoteIn < Pow64
    ensures FitsAll(Fits, BuySchema.layout, BoughtWith(pool, user, baseOut, maxQuoteIn, flag, fields).fields)
  {
    BuyNameIsText();
  }

  function OpenBuy(pool: Bytes, user: Bytes, baseOut: int, maxQuoteIn: int): Instruction {
    BuyIx(pool, user, baseOut, maxQuoteIn, None)
  }

  function FlaggedBuy(pool: Bytes, user: Bytes, baseOut: int, maxQuoteIn: int): Instruction {
    BuyIx(pool, user, baseOut, maxQuoteIn, Some(true))
  }

  lemma {:induction false} BuysContend(pool: Bytes, user: Bytes, baseOut: int, maxQuoteIn: int, fields: seq<Value>)
    requires |fields| == |BuySchema.layout|
    ensures Contend(BoughtWith(pool, user, baseOut, maxQuoteIn, true, fields),
                    BoughtWith(pool, user, baseOut, maxQuoteIn, false, fields),
                    OpenBuy(pool, user, baseOut, maxQuoteIn), FlaggedBuy(pool, user, baseOut, maxQuoteIn))
  {
    assert BoughtWith(pool, user, baseOut, maxQuoteIn, true, fields).fields[23] == Flag(true);
    assert BoughtWith(pool, user, baseOut, maxQuoteIn, false, fields).fields[23] == Flag(false);
  }

  /** The case: a transaction that logs two buys alike but for the volume flag, and has the two buy
   * instructions, of which the first leaves the flag open.  It takes the event that only the second could
   * have had: one entry comes out, and the other event goes to waste.  With the instructions in the other
   * order two come out. */
  lemma {:induction false} OpenBuyLoses(r: Reader, lineA: string, lineB: string, x: RawIx, y: RawIx,
                                        pool: Bytes, user: Bytes, baseOut: int, maxQuoteIn: int,
                                        fields: seq<Value>, a: Event, b: Event)
    requires |fields| == |BuySchema.layout|
    requires a == BoughtWith(pool, user, baseOut, maxQuoteIn, true, fields)
    requires b == BoughtWith(pool, user, baseOut, maxQuoteIn, false, fields)
    requires IsTransaction(r, lineA, lineB, x, y, BuyAt, BuyDisc, a, b,
                  OpenBuy(pool, user, baseOut, maxQuoteIn), FlaggedBuy(pool, user, baseOut, maxQuoteIn))
    ensures Entries(r, RawTwoByTwo(lineA, lineB, x, y)) == 1
    ensures Entries(r, RawTwoByTwo(lineA, lineB, y, x)) == 2
  {
    BuysContend(pool, user, baseOut, maxQuoteIn, fields);
    WasteInTransaction(r, lineA, lineB, x, y, BuyAt, BuyDisc, a, b,
                       OpenBuy(pool, user, baseOut, maxQuoteIn), FlaggedBuy(pool, user, baseOut, maxQuoteIn));
  }

  /** Such transactions exist: for every pool and user, every pair of amounts and all other fields. */
  lemma {:induction false} OpenBuyHappens(pool: Bytes, user: Bytes, baseOut: int, maxQuoteIn: int,
                                          fields: seq<Value>, a: Event, b: Event)
    returns (r: Reader, lineA: string, lineB: string, x: RawIx, y: RawIx)
    requires FitsAll(Fits, BuySchema.layout, fields) && |pool| == |user| == 32
    requires 0 <= baseOut < Pow64 && 0 <= maxQuoteIn < Pow64
    requires a == BoughtWith(pool, user, baseOut, maxQuoteIn, true, fields)
    requires b == BoughtWith(pool, user, baseOut, maxQuoteIn, false, fields)
    ensures IsTransaction(r, lineA, lineB, x, y, BuyAt, BuyDisc, a, b,
                 OpenBuy(pool, user, baseOut, maxQuoteIn), FlaggedBuy(pool, user, baseOut, maxQuoteIn))
    ensures Entries(r, RawTwoByTwo(lineA, lineB, x, y)) == 1
    ensures Entries(r, RawTwoByTwo(lineA, lineB, y, x)) == 2
  {
    BoughtFits(pool, user, baseOut, maxQuoteIn, true, fields);
    BoughtFits(pool, user, baseOut, maxQuoteIn, false, fields);
    r, lineA, lineB, x, y := SomeTransaction(
      BuyAt, BuyDisc, a, b, OpenBuy(pool, user, baseOut, maxQuoteIn), FlaggedBuy(pool, user, baseOut, maxQuoteIn));
    OpenBuyLoses(r, lineA, lineB, x, y, pool, user, baseOut, maxQuoteIn, fields, a, b);
  }

  // ----- Two creations -----

  const CreateAt: nat := 1

  /** The arguments a creation on a curve is matched by, but for the curve. */
  datatype Creation = Creation(
    mint: Bytes, user: Bytes, creator: Bytes, name: Bytes, symbol: Bytes, uri: Bytes, mayhem: bool)

  /** The event of a creation. */
  function CreatedWith(c: Creation, curve: Bytes, fields: seq<Value>): Event
    requires |fields| == |CreateSchema.layout|
  {
    Event(Create, fields[0 := Text(c.name)][1 := Text(c.symbol)][2 := Text(c.uri)][3 := Key(c.mint)][4 := Key(curve)]
                        [5 := Key(c.user)][6 := Key(c.creator)][13 := Flag(c.mayhem)])
  }

  function PlainCreate(c: Creation, curve: Bytes): Instruction {
    CreateIx(c.mint, curve, c.user, c.creator, c.name, c.symbol, c.uri)
  }

  /** The newer form with its optional accounts missing. */
  function OpenCreate(c: Creation): Instruction {
    CreateV2Ix(c.mint, [], [], c.creator, c.name, c.symbol, c.uri, c.mayhem, None)
  }

  predicate IsText(text: Bytes) { |text| < Pow32 && IsUtf8(text) }

  lemma {:induction false} CreatedFits(c: Creation, curve: Bytes, fields: seq<Value>)
    requires FitsAll(Fits, CreateSchema.layout, fields) && |c.mint| == |curve| == |c.user| == |c.creator| == 32
    requires IsText(c.name) && IsText(c.symbol) && IsText(c.uri)
    ensures FitsAll(Fits, CreateSchema.layout, CreatedWith(c, curve, fields).fields)
  {
  }

  lemma {:induction false} CreationsContend(c: Creation, curve: Bytes, other: Bytes, fields: seq<Value>)
    requires |fields| == |CreateSchema.layout| && curve != other
    ensures Contend(CreatedWith(c, curve, fields), CreatedWith(c, other, fields), OpenCreate(c), PlainCreate(c, curve))
  {
    assert Has(CreatedWith(c, curve, fields), 4, Key(curve));
    assert Has(CreatedWith(c, other, fields), 4, Key(other));
  }

  /** A plain creation and one of the newer form can contend as well: the newer one, with its optional
   * accounts missing, takes the event the plain one needed. */
  lemma {:induction false} OpenCreateLoses(r: Reader, lineA: string, lineB: string, x: RawIx, y: RawIx,
                                           c: Creation, curve: Bytes, other: Bytes,
                                           fields: seq<Value>, a: Event, b: Event)
    requires |fields| == |CreateSchema.layout| && curve != other
    requires a == CreatedWith(c, curve, fields) && b == CreatedWith(c, other, fields)
    requires IsTransaction(r, lineA, lineB, x, y, CreateAt, CreateDisc, a, b, OpenCreate(c), PlainCreate(c, curve))
    ensures Entries(r, RawTwoByTwo(lineA, lineB, x, y)) == 1
    ensures Entries(r, RawTwoByTwo(lineA, lineB, y, x)) == 2
  {
    CreationsContend(c, curve, other, fields);
    WasteInTransaction(r, lineA, lineB, x, y, CreateAt, CreateDisc, a, b, OpenCreate(c), PlainCreate(c, curve));
  }

  /** Such transactions exist as well. */
  lemma {:induction false} OpenCreateHappens(c: Creation, curve: Bytes, other: Bytes, fields: seq<Value>, a: Event,
                                             b: Event)
    returns (r: Reader, lineA: string, lineB: string, x: RawIx, y: RawIx)
    requires FitsAll(Fits, CreateSchema.layout, fields) && curve != other
    requires |c.mint| == |curve| == |other| == |c.user| == |c.creator| == 32
    requires IsText(c.name) && IsText(c.symbol) && IsText(c.uri)
    requires a == CreatedWith(c, curve, fields) && b == CreatedWith(c, other, fields)
    ensures IsTransaction(r, lineA, lineB, x, y, CreateAt, CreateDisc, a, b, OpenCreate(c), PlainCreate(c, curve))
    ensures Entries(r, RawTwoByTwo(lineA, lineB, x, y)) == 1
    ensures Entries(r, RawTwoByTwo(lineA, lineB, y, x)) == 2
  {
    CreatedFits(c, curve, fields);
    CreatedFits(c, other, fields);
    r, lineA, lineB, x, y := SomeTransaction(CreateAt, CreateDisc, a, b, OpenCreate(c), PlainCreate(c, curve));
    OpenCreateLoses(r, lineA, lineB, x, y, c, curve, other, fields, a, b);
  }
}
