/** A replay from the start of the log that stops halfway, and the loop that carries on from where it
 * stopped: when the tables are those of the checkpoint in between, and when they are right again. */
module InterruptedReplay {
  import opened Upserts
  import opened ReadModel
  import opened Replay
  import opened Runner
  import TradeTables

  /** The log ends a market, at its very start, only ahead of its first upsert. */
  predicate EndsSomeTooEarly(entries: seq<Entry>, id: string)
    requires AllProjectable(entries)
  {
    EndsOnlyTooEarly(OpsOf(entries), id)
  }

  /** Running the first part of a log over the tables of the whole and then carrying on with the rest leads
   * back to those tables if and only if no market is ended only ahead of its first upsert. */
  lemma {:induction false} RestartCompletesIff(a: seq<Entry>, b: seq<Entry>)
    requires AllProjectable(a) && AllProjectable(b)
    ensures AllProjectable(a + b)
    ensures Run(Run(Projected(a + b), OpsOf(a)), OpsOf(b)) == Projected(a + b)
       <==> forall id: string :: !EndsSomeTooEarly(a + b, id)
  {
    OpsOfConcat(a, b);
    RunConcat(Projected(a + b), OpsOf(a), OpsOf(b));
    ReplayUnchangedIff(EmptyDb, OpsOf(a + b));
    assert forall id: string :: EndsSomeTooEarly(a + b, id) <==> EndsOnlyTooEarly(OpsOf(a + b), id);
  }

  /** An event that is recorded leaves an activity that no part of the log without it accounts for. */
  lemma {:induction false} RecordedStays(a: seq<Entry>, b: seq<Entry>, again: seq<Op>)
    requires AllProjectable(a) && AllProjectable(b) && TradeTables.DistinctEvents(a + b) && OpsOf(b) != []
    ensures AllProjectable(a + b)
    ensures Run(Projected(a + b), again).activities != Projected(a).activities
  {
    ProjectedConcat(a, b);
    TradeTables.TablesAreOfferedRows(a + b);
    ActivityOfRest(a, b);
    assert a == (a + b)[..|a|];
    assert TradeTables.DistinctEvents(a) by {
      assert forall i | 0 <= i < |a| :: a[i] == (a + b)[i];
    }
    TradeTables.TablesAreOfferedRows(a);
    var rows := ActivityRows(OpsOf(a + b));
    InsertsAreInserts(Projected(a + b), again);
    InsertsKeepTheTable(rows, ActivityRows(again));
  }

  /** The rest of the log offers more activities than the first part alone. */
  lemma {:induction false} ActivityOfRest(a: seq<Entry>, b: seq<Entry>)
    requires AllProjectable(a) && AllProjectable(b) && OpsOf(b) != []
    ensures AllProjectable(a + b)
    ensures |ActivityRows(OpsOf(a))| < |ActivityRows(OpsOf(a + b))|
  {
    OpsOfConcat(a, b);
    TradeTables.RowsConcat(OpsOf(a), OpsOf(b));
    SomeActivity(b);
  }

  lemma {:induction false} SomeActivity(b: seq<Entry>)
    requires AllProjectable(b) && OpsOf(b) != []
    ensures ActivityRows(OpsOf(b)) != []
  {
    var init, e := b[..|b| - 1], b[|b| - 1];
    assert b == init + [e];
    TradeTables.RowsSnoc(init, e);
    TradeTables.RowsOfEntry(e);
    if OpsOfEntry(e).value == [] {
      OpsOfSnoc(init, e);
      SomeActivity(init);
    }
  }

  /** In between, the checkpoint describes the tables only when the rest of the log records nothing: in
   * every other case they are ahead of it. */
  lemma {:induction false} InStepInBetweenIff(a: seq<Entry>, b: seq<Entry>)
    requires AllProjectable(a) && AllProjectable(b) && TradeTables.DistinctEvents(a + b)
    ensures AllProjectable(a + b)
    ensures Run(Projected(a + b), OpsOf(a)) == Projected(a)
       <==> OpsOf(b) == [] && forall id: string :: !EndsSomeTooEarly(a, id)
  {
    OpsOfConcat(a, b);
    if OpsOf(b) == [] {
      assert OpsOf(a + b) == OpsOf(a);
      ReplayUnchangedIff(EmptyDb, OpsOf(a));
      assert forall id: string :: EndsSomeTooEarly(a, id) <==> EndsOnlyTooEarly(OpsOf(a), id);
    } else {
      RecordedStays(a, b, OpsOf(a));
    }
  }

  /** What `ReplayFromStart`, stopped at an id, and then `RunLoop` to the end of the log make of the tables
   * of the whole log. */
  lemma {:induction false} ReplayThenLoopIff(log: seq<Entry>, stopped: nat, end: nat, after: Db)
    requires IsLog(log) && AllProjectable(log) && AllProjectable(UpTo(log, stopped))
    requires Brought(log, Run(Projected(log), OpsOf(UpTo(log, stopped))), stopped, after, end) && UpTo(log, end) == log
    ensures after == Projected(log) <==> forall id: string :: !EndsSomeTooEarly(log, id)
  {
    UpToBetween(log, stopped, end);
    RestartCompletesIff(UpTo(log, stopped), Between(log, stopped, end));
  }
}
