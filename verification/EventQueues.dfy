/** The parser's queue of collected events: each distinct event is queued once, and an instruction takes
 * the first queued event that matches it. */
module EventQueues {
  import opened Options

  datatype Origin = Logs | InnerCpi

  datatype Pending<T> = Pending(origin: Origin, event: T)

  datatype Queue<T> = Queue(seen: seq<T>, pending: seq<Pending<T>>)

  function Events<T>(pending: seq<Pending<T>>): seq<T> {
    if pending == [] then [] else [pending[0].event] + Events(pending[1..])
  }

  function Push<T(==)>(q: Queue<T>, origin: Origin, event: T): Queue<T> {
    if event in q.seen then q else Queue(q.seen + [event], q.pending + [Pending(origin, event)])
  }

  /** The index of the first pending event that matches, or the length when none does. */
  function FirstMatch<T>(pending: seq<Pending<T>>, matches: T -> bool): (i: nat)
    ensures i <= |pending|
    ensures i < |pending| ==> matches(pending[i].event)
    ensures forall j | 0 <= j < i :: !matches(pending[j].event)
  {
    if pending == [] || matches(pending[0].event) then 0 else 1 + FirstMatch(pending[1..], matches)
  }

  function Take<T>(q: Queue<T>, matches: T -> bool): (Queue<T>, Option<Pending<T>>) {
    var i := FirstMatch(q.pending, matches);
    if i == |q.pending| then (q, None)
    else (q.(pending := q.pending[..i] + q.pending[i + 1..]), Some(q.pending[i]))
  }

  class EventQueue<T(==)> {
    var seen: seq<T>
    var pending: seq<Pending<T>>

    function Contents(): Queue<T>
      reads this
    {
      Queue(seen, pending)
    }

    constructor ()
      ensures Contents() == Queue([], [])
    {
      seen, pending := [], [];
    }

    method PushUnique(origin: Origin, event: T)
      modifies this
      ensures Contents() == Push(old(Contents()), origin, event)
    {
      var i := 0;
      while i < |seen|
        invariant i <= |seen| && event !in seen[..i]
      {
        if seen[i] == event {
          return;
        }
        assert seen[..i + 1] == seen[..i] + [seen[i]];
        i := i + 1;
      }
      assert seen[..i] == seen;
      seen := seen + [event];
      pending := pending + [Pending(origin, event)];
    }

    method RemoveFirstMatch(matches: T -> bool) returns (taken: Option<Pending<T>>)
      modifies this
      ensures (Contents(), taken) == Take(old(Contents()), matches)
    {
      var i := 0;
      while i < |pending| && !matches(pending[i].event)
        invariant i <= |pending|
        invariant forall j | 0 <= j < i :: !matches(pending[j].event)
      {
        i := i + 1;
      }
      assert i == FirstMatch(pending, matches);
      if i == |pending| {
        return None;
      }
      taken := Some(pending[i]);
      pending := pending[..i] + pending[i + 1..];
    }
  }

  // ----- Conservation -----

  predicate Distinct<T(==)>(xs: seq<T>) {
    forall i, j | 0 <= i < j < |xs| :: xs[i] != xs[j]
  }

  /** Every distinct event that was collected is either still pending or was taken, once. */
  ghost predicate Conserved<T>(q: Queue<T>, taken: seq<T>) {
    Distinct(q.seen) && AccountedFor(q.seen, Events(q.pending), taken)
  }

  ghost predicate AccountedFor<T>(seen: seq<T>, waiting: seq<T>, taken: seq<T>) {
    multiset(seen) == multiset(waiting) + multiset(taken)
  }

  lemma {:induction false} EventsConcat<T>(a: seq<Pending<T>>, b: seq<Pending<T>>)
    ensures Events(a + b) == Events(a) + Events(b)
    decreases |a|
  {
    if a == [] {
      assert a + b == b;
    } else {
      assert (a + b)[1..] == a[1..] + b;
      EventsConcat(a[1..], b);
    }
  }

  lemma {:induction false} EventsAround<T>(pending: seq<Pending<T>>, i: nat)
    requires i < |pending|
    ensures Events(pending) == Events(pending[..i]) + [pending[i].event] + Events(pending[i + 1..])
    ensures Events(pending[..i] + pending[i + 1..]) == Events(pending[..i]) + Events(pending[i + 1..])
  {
    assert pending == pending[..i] + pending[i..];
    EventsConcat(pending[..i], pending[i..]);
    assert Events(pending[i..]) == [pending[i].event] + Events(pending[i + 1..]) by {
      assert pending[i..][1..] == pending[i + 1..];
    }
    EventsConcat(pending[..i], pending[i + 1..]);
  }

  lemma {:induction false} PushConserves<T>(q: Queue<T>, taken: seq<T>, origin: Origin, event: T)
    requires Conserved(q, taken)
    ensures Conserved(Push(q, origin, event), taken)
  {
    EventsConcat(q.pending, [Pending(origin, event)]);
    assert Events([Pending(origin, event)]) == [event];
  }

  lemma {:induction false} TakeConserves<T>(q: Queue<T>, taken: seq<T>, matches: T -> bool)
    requires Conserved(q, taken)
    ensures
      var r := Take(q, matches);
      Conserved(r.0, if r.1.None? then taken else taken + [r.1.value.event])
  {
    var i := FirstMatch(q.pending, matches);
    if i < |q.pending| {
      var left := Take(q, matches).0;
      var a, x, b := Events(q.pending[..i]), q.pending[i].event, Events(q.pending[i + 1..]);
      EventsAround(q.pending, i);
      MoveConserves(q.seen, a, x, b, taken);
      assert left.seen == q.seen && Events(left.pending) == a + b;
      assert AccountedFor(left.seen, Events(left.pending), taken + [x]);
    }
  }

  lemma {:induction false} MoveConserves<T>(seen: seq<T>, a: seq<T>, x: T, b: seq<T>, taken: seq<T>)
    requires AccountedFor(seen, a + [x] + b, taken)
    ensures AccountedFor(seen, a + b, taken + [x])
  {
    assert multiset(a + [x] + b) == multiset(a + b) + multiset([x]);
  }

  /** An event that was taken is never queued again. */
  lemma {:induction false} TakenIsNotQueuedAgain<T>(q: Queue<T>, taken: seq<T>, origin: Origin, event: T)
    requires Conserved(q, taken) && event in taken
    ensures Push(q, origin, event) == q
    ensures event !in Events(q.pending)
  {
    assert multiset(taken)[event] > 0;
    assert multiset(q.seen)[event] > 0;
    DistinctOnce(q.seen, event);
    assert multiset(Events(q.pending))[event] == 0;
  }

  lemma {:induction false} DistinctOnce<T>(xs: seq<T>, x: T)
    requires Distinct(xs)
    ensures multiset(xs)[x] <= 1
  {
    if xs == [] {
    } else {
      var init := xs[..|xs| - 1];
      DistinctOnce(init, x);
      assert xs == init + [xs[|xs| - 1]];
      assert xs[|xs| - 1] !in init;
    }
  }

  // ----- Requests for a group of events -----

  function OfGroup<T>(xs: seq<T>, mine: T -> bool): seq<T> {
    if xs == [] then []
    else if mine(xs[0]) then [xs[0]] + OfGroup(xs[1..], mine)
    else OfGroup(xs[1..], mine)
  }

  lemma {:induction false} OfGroupConcat<T>(a: seq<T>, b: seq<T>, mine: T -> bool)
    ensures OfGroup(a + b, mine) == OfGroup(a, mine) + OfGroup(b, mine)
    decreases |a|
  {
    if a == [] {
      assert a + b == b;
    } else {
      assert (a + b)[1..] == a[1..] + b;
      OfGroupConcat(a[1..], b, mine);
    }
  }

  lemma {:induction false} OfGroupSnoc<T>(xs: seq<T>, x: T, mine: T -> bool)
    ensures OfGroup(xs + [x], mine) == if mine(x) then OfGroup(xs, mine) + [x] else OfGroup(xs, mine)
  {
    OfGroupConcat(xs, [x], mine);
    assert OfGroup([x], mine) == if mine(x) then [x] else [];
  }

  lemma {:induction false} NoneOfGroup<T>(pending: seq<Pending<T>>, mine: T -> bool)
    requires forall j | 0 <= j < |pending| :: !mine(pending[j].event)
    ensures OfGroup(Events(pending), mine) == []
  {
    if pending == [] {
    } else {
      NoneOfGroup(pending[1..], mine);
    }
  }

  /** A request for one group of events takes the first pending one of them, if there is one; a request for
   * none of them leaves them as they are. */
  lemma {:induction false} TakeOfGroup<T(!new)>(q: Queue<T>, matches: T -> bool, mine: T -> bool)
    requires (forall e :: matches(e) <==> mine(e)) || (forall e :: matches(e) ==> !mine(e))
    ensures
      var r := Take(q, matches);
      var before, after := OfGroup(Events(q.pending), mine), OfGroup(Events(r.0.pending), mine);
      if r.1.None? then (forall e :: matches(e) <==> mine(e)) ==> before == after == []
      else before == if mine(r.1.value.event) then [r.1.value.event] + after else after
    ensures Take(q, matches).1.None? ==> Take(q, matches).0 == q
  {
    var i := FirstMatch(q.pending, matches);
    if i < |q.pending| {
      var x := q.pending[i].event;
      EventsAround(q.pending, i);
      OfGroupConcat(Events(q.pending[..i]) + [x], Events(q.pending[i + 1..]), mine);
      OfGroupSnoc(Events(q.pending[..i]), x, mine);
      OfGroupConcat(Events(q.pending[..i]), Events(q.pending[i + 1..]), mine);
      if mine(x) { NoneOfGroup(q.pending[..i], mine); }
    } else if forall e :: matches(e) <==> mine(e) {
      NoneOfGroup(q.pending, mine);
    }
  }

  // ----- Two requests that contend -----

  predicate CanTake<T>(q: Queue<T>, matches: T -> bool) { Take(q, matches).1.Some? }

  /** How many of two requests are served, one after the other. */
  function Served<T>(q: Queue<T>, first: T -> bool, second: T -> bool): nat {
    (if CanTake(q, first) then 1 else 0) + if CanTake(Take(q, first).0, second) then 1 else 0
  }

  lemma {:induction false} CanTakeIff<T>(q: Queue<T>, matches: T -> bool)
    ensures CanTake(q, matches) <==> exists k :: 0 <= k < |q.pending| && matches(q.pending[k].event)
  {
  }

  lemma {:induction false} SecondIsServedIff<T>(q: Queue<T>, first: T -> bool, second: T -> bool)
    ensures CanTake(Take(q, first).0, second) <==>
              exists k :: 0 <= k < |q.pending| && k != FirstMatch(q.pending, first) && second(q.pending[k].event)
  {
    var i := FirstMatch(q.pending, first);
    var left := Take(q, first).0.pending;
    CanTakeIff(Take(q, first).0, second);
    if i < |q.pending| {
      assert left == q.pending[..i] + q.pending[i + 1..];
      if k :| 0 <= k < |q.pending| && k != i && second(q.pending[k].event) {
        assert left[if k < i then k else k - 1] == q.pending[k];
      }
      if k :| 0 <= k < |left| && second(left[k].event) {
        assert left[k] == q.pending[if k < i then k else k + 1];
      }
    }
  }

  /** The first pending event that matches the first request is the only one that matches the second, and not
   * the only one that matches the first. */
  predicate TakesTheOnlyOne<T>(pending: seq<Pending<T>>, first: T -> bool, second: T -> bool) {
    var i := FirstMatch(pending, first);
    && i < |pending| && second(pending[i].event)
    && (forall k | 0 <= k < |pending| && k != i :: !second(pending[k].event))
    && exists k | 0 <= k < |pending| :: k != i && first(pending[k].event)
  }

  /** Taking the first match is not always best: of any two requests, the one served first leaves the other
   * unserved, although the opposite order serves both, exactly when it takes the only event of the other. */
  lemma {:induction false} OrderLosesIff<T>(q: Queue<T>, first: T -> bool, second: T -> bool)
    ensures Served(q, first, second) < Served(q, second, first) <==> TakesTheOnlyOne(q.pending, first, second)
  {
    CanTakeIff(q, first);
    CanTakeIff(q, second);
    SecondIsServedIff(q, first, second);
    SecondIsServedIff(q, second, first);
  }
}
