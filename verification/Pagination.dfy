/** The pages of a mint's activity: newest first, each page continuing below the last row of the one before. */
module Pagination {
  import opened Options
  import ReadModel

  datatype Row = Row(eventTime: real, slot: int, insertSeq: int, eventId: string)

  /** The cursor keeps the time in whole seconds. */
  datatype Cursor = Cursor(eventUnixTs: int, slot: int, insertSeq: int)

  datatype Page = Page(items: seq<Row>, hasMore: bool, nextCursor: Option<Cursor>)

  /** The time as the database turns it into an integer: to the nearest, halves away from zero. */
  function Epoch(t: real): int {
    if t >= 0.0 then (t + 0.5).Floor else -((-t + 0.5).Floor)
  }

  /** The nearest integer; of two as near, the one farther from zero. */
  lemma {:induction false} EpochIsNearest(t: real)
    ensures -0.5 <= Epoch(t) as real - t <= 0.5
    ensures Epoch(t) as real - t == 0.5 ==> t > 0.0
    ensures Epoch(t) as real - t == -0.5 ==> t < 0.0
  {
  }

  function CursorOf(r: Row): Cursor { Cursor(Epoch(r.eventTime), r.slot, r.insertSeq) }

  /** `(a) < (b)` for the triples of the query. */
  predicate Less(a: Cursor, b: Cursor) {
    a.eventUnixTs < b.eventUnixTs
    || (a.eventUnixTs == b.eventUnixTs && (a.slot < b.slot || (a.slot == b.slot && a.insertSeq < b.insertSeq)))
  }

  /** `order by event_time desc, slot desc, insert_seq desc`; insertion numbers are unique. */
  predicate ComesFirst(a: Row, b: Row) {
    a.eventTime > b.eventTime
    || (a.eventTime == b.eventTime && (a.slot > b.slot || (a.slot == b.slot && a.insertSeq > b.insertSeq)))
  }

  /** A table is given by its rows in the order of the query. */
  predicate Sorted(rows: seq<Row>) {
    forall i, j | 0 <= i < j < |rows| :: ComesFirst(rows[i], rows[j])
  }

  predicate Under(r: Row, cursor: Option<Cursor>) {
    cursor.None? || Less(CursorOf(r), cursor.value)
  }

  /** The rows under a cursor. */
  function Below(rows: seq<Row>, cursor: Option<Cursor>): (below: seq<Row>)
    ensures |below| <= |rows|
    ensures forall i | 0 <= i < |below| :: Under(below[i], cursor)
  {
    if rows == [] then []
    else if Under(rows[0], cursor) then [rows[0]] + Below(rows[1..], cursor)
    else Below(rows[1..], cursor)
  }

  function Take(rows: seq<Row>, n: nat): seq<Row> { if |rows| <= n then rows else rows[..n] }

  /** One page: one row more than asked for is fetched, to see whether there is more. */
  function PageOf(rows: seq<Row>, limit: nat, cursor: Option<Cursor>): Page {
    var fetched := Take(Below(rows, cursor), limit + 1);
    var hasMore := |fetched| > limit;
    var items := Take(fetched, limit);
    Page(items, hasMore, if hasMore && items != [] then Some(CursorOf(items[|items| - 1])) else None)
  }

  /** The store's query on a page; the rows of the table are given in its order. */
  method ListActivityEventsPage(rows: seq<Row>, limit: nat, cursor: Option<Cursor>) returns (page: Page)
    ensures page == PageOf(rows, limit, cursor)
  {
    var fetched := Take(Below(rows, cursor), limit + 1);
    var items: seq<Row> := [];
    var i := 0;
    while i < |fetched|
      invariant i <= |fetched| && items == fetched[..i]
    {
      items := items + [fetched[i]];
      i := i + 1;
    }
    var hasMore := |items| > limit;
    if hasMore {
      items := items[..limit];
    }
    var nextCursor: Option<Cursor> := None;
    if hasMore && |items| > 0 {
      nextCursor := Some(CursorOf(items[|items| - 1]));
    }
    page := Page(items, hasMore, nextCursor);
  }

  const DefaultActivityLimit: nat := 100

  /** The page size a request gets: the one it names if that is positive, and never zero. */
  function ClampLimit(limit: int): (n: nat)
    ensures n > 0
    ensures limit > 0 <==> n == limit
    ensures limit <= 0 ==> n == 100
  {
    if limit <= 0 then DefaultActivityLimit else limit
  }

  // ----- The walk -----

  /** Under the next cursor there are fewer rows than under this one. */
  lemma {:induction false} NextIsLower(rows: seq<Row>, limit: nat, cursor: Option<Cursor>)
    ensures
      var page := PageOf(rows, limit, cursor);
      page.nextCursor.Some? ==> |Below(rows, page.nextCursor)| < |Below(rows, cursor)|
  {
    var page := PageOf(rows, limit, cursor);
    if page.nextCursor.Some? {
      var last := page.items[|page.items| - 1];
      assert last in Below(rows, cursor);
      LowerKeepsFewer(rows, cursor, page.nextCursor.value, last);
    }
  }

  lemma {:induction false} LowerKeepsFewer(rows: seq<Row>, cursor: Option<Cursor>, lower: Cursor, r: Row)
    requires cursor.Some? ==> Less(lower, cursor.value)
    requires lower == CursorOf(r)
    ensures |Below(rows, Some(lower))| <= |Below(rows, cursor)|
    ensures r in Below(rows, cursor) ==> |Below(rows, Some(lower))| < |Below(rows, cursor)|
  {
    if rows == [] {
    } else {
      LowerKeepsFewer(rows[1..], cursor, lower, r);
    }
  }

  /** Following the next cursor until there is no more. */
  function Walk(rows: seq<Row>, limit: nat, cursor: Option<Cursor>): seq<Row>
    decreases |Below(rows, cursor)|
  {
    var page := PageOf(rows, limit, cursor);
    NextIsLower(rows, limit, cursor);
    if page.nextCursor.None? then page.items
    else page.items + Walk(rows, limit, page.nextCursor)
  }

  // ----- When the walk is complete -----

  /** Down the table the keys descend. */
  predicate KeysDescend(rows: seq<Row>) {
    forall i, j | 0 <= i < j < |rows| :: Less(CursorOf(rows[j]), CursorOf(rows[i]))
  }

  lemma {:induction false} BelowAll(rows: seq<Row>)
    ensures Below(rows, None) == rows
  {
    if rows == [] {
    } else {
      BelowAll(rows[1..]);
    }
  }

  /** With descending keys, the rows under the key of a row are those after it. */
  lemma {:induction false} BelowIsSuffix(rows: seq<Row>, i: nat)
    requires KeysDescend(rows) && i < |rows|
    ensures Below(rows, Some(CursorOf(rows[i]))) == rows[i + 1..]
  {
    var rest := rows[1..];
    assert KeysDescend(rest);
    if i > 0 {
      BelowIsSuffix(rest, i - 1);
      assert rest[i..] == rows[i + 1..];
    } else {
      AllUnder(rest, Some(CursorOf(rows[0])));
    }
  }

  lemma {:induction false} AllUnder(rows: seq<Row>, cursor: Option<Cursor>)
    requires forall i | 0 <= i < |rows| :: Under(rows[i], cursor)
    ensures Below(rows, cursor) == rows
  {
    if rows == [] {
    } else {
      AllUnder(rows[1..], cursor);
    }
  }

  lemma {:induction false} BelowTwice(rows: seq<Row>, cursor: Option<Cursor>, lower: Option<Cursor>)
    requires lower.Some? && (cursor.Some? ==> Less(lower.value, cursor.value))
    ensures Below(Below(rows, cursor), lower) == Below(rows, lower)
  {
    if rows == [] {
    } else {
      BelowTwice(rows[1..], cursor, lower);
      if Under(rows[0], cursor) {
        assert ([rows[0]] + Below(rows[1..], cursor))[1..] == Below(rows[1..], cursor);
      }
    }
  }

  lemma {:induction false} BelowDescends(rows: seq<Row>, cursor: Option<Cursor>)
    requires KeysDescend(rows)
    ensures KeysDescend(Below(rows, cursor))
    ensures forall r | r in Below(rows, cursor) :: r in rows
  {
    if rows == [] {
    } else {
      assert KeysDescend(rows[1..]);
      BelowDescends(rows[1..], cursor);
      assert forall r | r in rows[1..] :: Less(CursorOf(r), CursorOf(rows[0]));
    }
  }

  /** Under the key of the last row of a page are exactly the rows that follow it. */
  lemma {:induction false} BelowNext(rows: seq<Row>, cursor: Option<Cursor>, n: nat)
    requires KeysDescend(rows) && 0 < n <= |Below(rows, cursor)|
    ensures
      var below := Below(rows, cursor);
      Below(rows, Some(CursorOf(below[n - 1]))) == below[n..]
  {
    var below := Below(rows, cursor);
    BelowDescends(rows, cursor);
    assert Under(below[n - 1], cursor);
    BelowTwice(rows, cursor, Some(CursorOf(below[n - 1])));
    BelowIsSuffix(below, n - 1);
  }

  /** A page has the next rows under the cursor, and a next cursor if there are more. */
  lemma {:induction false} PageIs(rows: seq<Row>, limit: nat, cursor: Option<Cursor>)
    requires limit > 0
    ensures
      var below, page := Below(rows, cursor), PageOf(rows, limit, cursor);
      if |below| <= limit then page.items == below && page.nextCursor == None
      else page.items == below[..limit] && page.nextCursor == Some(CursorOf(below[limit - 1]))
  {
  }

  lemma {:induction false} WalkStep(rows: seq<Row>, limit: nat, cursor: Option<Cursor>, rest: seq<Row>)
    requires limit > 0
    requires |Below(rows, cursor)| > limit ==> rest == Walk(rows, limit, Some(CursorOf(Below(rows, cursor)[limit - 1])))
    ensures
      var below := Below(rows, cursor);
      Walk(rows, limit, cursor) == if |below| <= limit then below else below[..limit] + rest
  {
    PageIs(rows, limit, cursor);
  }

  /** From every cursor on, the walk returns the rows under it. */
  lemma {:induction false} WalkIsBelow(rows: seq<Row>, limit: nat, cursor: Option<Cursor>)
    requires KeysDescend(rows) && limit > 0
    ensures Walk(rows, limit, cursor) == Below(rows, cursor)
    decreases |Below(rows, cursor)|
  {
    var below := Below(rows, cursor);
    if |below| > limit {
      BelowNext(rows, cursor, limit);
      WalkIsBelow(rows, limit, Some(CursorOf(below[limit - 1])));
      assert below[..limit] + below[limit..] == below;
    }
    WalkStep(rows, limit, cursor, below[if |below| > limit then limit else 0..]);
  }

  /** What a walk returns under a cursor is under the cursor. */
  lemma {:induction false} WalkStaysUnder(rows: seq<Row>, limit: nat, cursor: Option<Cursor>, r: Row)
    requires cursor.Some? && !Under(r, cursor)
    ensures r !in Walk(rows, limit, cursor)
    decreases |Below(rows, cursor)|
  {
    var page := PageOf(rows, limit, cursor);
    assert r !in page.items;
    if page.nextCursor.Some? {
      var last := page.items[|page.items| - 1];
      assert last in Below(rows, cursor) && Under(last, cursor);
      NextIsLower(rows, limit, cursor);
      WalkStaysUnder(rows, limit, page.nextCursor, r);
    }
  }

  /** A row whose key does not lie below that of the row before it is skipped by the walk whose page ends
   * just there. */
  lemma {:induction false} SkippedAtTheEdge(rows: seq<Row>, i: nat)
    requires Sorted(rows) && i + 1 < |rows| && !Less(CursorOf(rows[i + 1]), CursorOf(rows[i]))
    ensures rows[i + 1] !in Walk(rows, i + 1, None)
  {
    BelowAll(rows);
    var page := PageOf(rows, i + 1, None);
    assert page.items == rows[..i + 1];
    assert page.items[|page.items| - 1] == rows[i];
    NextIsLower(rows, i + 1, None);
    assert rows[i + 1] !in page.items by {
      assert forall k | 0 <= k <= i :: ComesFirst(rows[k], rows[i + 1]);
    }
    WalkStaysUnder(rows, i + 1, page.nextCursor, rows[i + 1]);
  }

  lemma {:induction false} LessIsTransitive(a: Cursor, b: Cursor, c: Cursor)
    requires Less(a, b) && Less(b, c)
    ensures Less(a, c)
  {
  }

  /** Keys that descend from row to row descend. */
  lemma {:induction false} DescendStepwise(rows: seq<Row>, i: nat, j: nat)
    requires forall k | 0 <= k < |rows| - 1 :: Less(CursorOf(rows[k + 1]), CursorOf(rows[k]))
    requires i < j < |rows|
    ensures Less(CursorOf(rows[j]), CursorOf(rows[i]))
    decreases j
  {
    assert Less(CursorOf(rows[j - 1 + 1]), CursorOf(rows[j - 1]));
    if i < j - 1 {
      DescendStepwise(rows, i, j - 1);
      LessIsTransitive(CursorOf(rows[j]), CursorOf(rows[j - 1]), CursorOf(rows[i]));
    }
  }

  /** The walk returns every row once, newest first, for every page size, if and only if the keys descend
   * with the rows. */
  lemma {:induction false} WalkCompleteIff(rows: seq<Row>)
    requires Sorted(rows)
    ensures (forall limit: nat | limit > 0 :: Walk(rows, limit, None) == rows) <==> KeysDescend(rows)
  {
    if KeysDescend(rows) {
      BelowAll(rows);
      forall limit: nat | limit > 0
        ensures Walk(rows, limit, None) == rows
      {
        WalkIsBelow(rows, limit, None);
      }
    } else {
      if forall k | 0 <= k < |rows| - 1 :: Less(CursorOf(rows[k + 1]), CursorOf(rows[k])) {
        forall i, j | 0 <= i < j < |rows|
          ensures Less(CursorOf(rows[j]), CursorOf(rows[i]))
        {
          DescendStepwise(rows, i, j);
        }
        assert false;
      }
      var i :| 0 <= i < |rows| - 1 && !Less(CursorOf(rows[i + 1]), CursorOf(rows[i]));
      SkippedAtTheEdge(rows, i);
      assert Walk(rows, i + 1, None) != rows;
    }
  }

  /** The keys descend exactly when within one rounded second the rows descend by slot and insertion
   * already; across seconds the order of times takes care of itself. */
  lemma {:induction false} KeysDescendIff(rows: seq<Row>)
    requires Sorted(rows)
    ensures KeysDescend(rows) <==>
              forall i, j | 0 <= i < j < |rows| && Epoch(rows[i].eventTime) == Epoch(rows[j].eventTime) ::
                rows[j].slot < rows[i].slot || (rows[j].slot == rows[i].slot && rows[j].insertSeq < rows[i].insertSeq)
  {
  }

  predicate WholeSecond(t: real) { t == t.Floor as real }

  lemma {:induction false} WholeSecondEpoch(t: real)
    requires WholeSecond(t)
    ensures Epoch(t) == t.Floor && Epoch(t) as real == t
  {
  }

  /** With event times in whole seconds every walk is complete. */
  lemma {:induction false} WholeSecondsWalk(rows: seq<Row>, limit: nat)
    requires Sorted(rows) && limit > 0 && forall i | 0 <= i < |rows| :: WholeSecond(rows[i].eventTime)
    ensures Walk(rows, limit, None) == rows
  {
    forall i, j | 0 <= i < j < |rows|
      ensures Less(CursorOf(rows[j]), CursorOf(rows[i]))
    {
      WholeSecondEpoch(rows[i].eventTime);
      WholeSecondEpoch(rows[j].eventTime);
      assert ComesFirst(rows[i], rows[j]);
    }
    BelowAll(rows);
    WalkIsBelow(rows, limit, None);
  }

  /** An event whose time was given in milliseconds. */
  function MillisRow(ms: int, slot: int, insertSeq: int, eventId: string): Row {
    Row(ReadModel.UnixToTimestampSeconds(ms), slot, insertSeq, eventId)
  }

  /** With fractions of seconds a row can be lost: two events of one second, the earlier one of a later slot. */
  lemma {:induction false} FractionsLoseARow()
    ensures
      var rows := [MillisRow(1_700_000_000_400, 5, 1, "a"), MillisRow(1_700_000_000_300, 6, 2, "b")];
      Sorted(rows) && Epoch(rows[0].eventTime) == Epoch(rows[1].eventTime) == 1_700_000_000
      && rows[1] !in Walk(rows, 1, None)
  {
    var a, b := MillisRow(1_700_000_000_400, 5, 1, "a"), MillisRow(1_700_000_000_300, 6, 2, "b");
    assert a.eventTime == 1_700_000_000.4 && b.eventTime == 1_700_000_000.3;
    SkippedAtTheEdge([a, b], 0);
  }

  // ----- A table that grows while it is read -----

  /** Inserting a row that is not under the cursor leaves the rows under it as they are. */
  lemma {:induction false} InsertAbove(rows: seq<Row>, at: nat, r: Row, cursor: Option<Cursor>)
    requires at <= |rows| && !Under(r, cursor)
    ensures Below(rows[..at] + [r] + rows[at..], cursor) == Below(rows, cursor)
  {
    var grown := rows[..at] + [r] + rows[at..];
    if at == 0 {
      assert grown[1..] == rows;
    } else {
      assert grown[1..] == rows[1..][..at - 1] + [r] + rows[1..][at - 1..];
      InsertAbove(rows[1..], at - 1, r, cursor);
    }
  }

  datatype Insertion = Insertion(at: nat, row: Row)

  /** The table after rows have been inserted one by one, each at a place of its own. */
  function Inserted(rows: seq<Row>, added: seq<Insertion>): seq<Row>
    requires Fit(rows, added)
    decreases |added|
  {
    if added == [] then rows
    else Inserted(rows[..added[0].at] + [added[0].row] + rows[added[0].at..], added[1..])
  }

  predicate Fit(rows: seq<Row>, added: seq<Insertion>) {
    forall i | 0 <= i < |added| :: added[i].at <= |rows| + i
  }

  lemma {:induction false} InsertionsAbove(rows: seq<Row>, added: seq<Insertion>, cursor: Option<Cursor>)
    requires Fit(rows, added) && forall i | 0 <= i < |added| :: !Under(added[i].row, cursor)
    ensures Below(Inserted(rows, added), cursor) == Below(rows, cursor)
    decreases |added|
  {
    if added == [] {
    } else {
      InsertAbove(rows, added[0].at, added[0].row, cursor);
      InsertionsAbove(rows[..added[0].at] + [added[0].row] + rows[added[0].at..], added[1..], cursor);
    }
  }

  /** The later table is the earlier one with rows inserted, none of them under the cursor. */
  ghost predicate GrownAbove(before: seq<Row>, after: seq<Row>, cursor: Option<Cursor>) {
    exists added: seq<Insertion> :: Fit(before, added) && after == Inserted(before, added)
                    && forall i | 0 <= i < |added| :: !Under(added[i].row, cursor)
  }

  lemma {:induction false} GrownAboveIsQuiet(before: seq<Row>, after: seq<Row>, cursor: Option<Cursor>)
    requires GrownAbove(before, after, cursor)
    ensures Below(after, cursor) == Below(before, cursor)
  {
    var added: seq<Insertion> :| Fit(before, added) && after == Inserted(before, added)
                 && forall i | 0 <= i < |added| :: !Under(added[i].row, cursor);
    InsertionsAbove(before, added, cursor);
  }

  /** The pages of a client that finds the table in a later state with each request. */
  function WalkOver(tables: seq<seq<Row>>, limit: nat, cursor: Option<Cursor>): seq<Row>
    requires tables != []
    decreases |tables|
  {
    var page := PageOf(tables[0], limit, cursor);
    if page.nextCursor.None? || |tables| == 1 then page.items
    else page.items + WalkOver(tables[1..], limit, page.nextCursor)
  }

  /** The client has asked often enough to be told that there is no more. */
  predicate Finishes(tables: seq<seq<Row>>, limit: nat, cursor: Option<Cursor>)
    requires tables != []
    decreases |tables|
  {
    var page := PageOf(tables[0], limit, cursor);
    page.nextCursor.None? || (|tables| > 1 && Finishes(tables[1..], limit, page.nextCursor))
  }

  /** Between two pages rows are only inserted that are not under the cursor of the second. */
  ghost predicate GrowsAbove(tables: seq<seq<Row>>, limit: nat, cursor: Option<Cursor>)
    requires tables != []
    decreases |tables|
  {
    var page := PageOf(tables[0], limit, cursor);
    page.nextCursor.None? || |tables| == 1
    || (GrownAbove(tables[0], tables[1], page.nextCursor) && GrowsAbove(tables[1..], limit, page.nextCursor))
  }

  /** Pages depend on the rows under the cursor alone. */
  lemma {:induction false} PageOfSameRows(a: seq<Row>, b: seq<Row>, limit: nat, cursor: Option<Cursor>)
    requires Below(a, cursor) == Below(b, cursor)
    ensures PageOf(a, limit, cursor) == PageOf(b, limit, cursor)
  {
  }

  lemma {:induction false} SameBelowLower(a: seq<Row>, b: seq<Row>, cursor: Option<Cursor>, lower: Option<Cursor>)
    requires Below(a, cursor) == Below(b, cursor)
    requires lower.Some? && (cursor.Some? ==> Less(lower.value, cursor.value))
    ensures Below(a, lower) == Below(b, lower)
  {
    BelowTwice(a, cursor, lower);
    BelowTwice(b, cursor, lower);
  }

  lemma {:induction false} NextIsUnder(rows: seq<Row>, limit: nat, cursor: Option<Cursor>)
    requires PageOf(rows, limit, cursor).nextCursor.Some? && cursor.Some?
    ensures Less(PageOf(rows, limit, cursor).nextCursor.value, cursor.value)
  {
    var page := PageOf(rows, limit, cursor);
    var last := page.items[|page.items| - 1];
    assert last in Below(rows, cursor) && Under(last, cursor);
  }

  /** Rows inserted above the cursor between two pages neither repeat nor drop any later row: the walk over
   * the growing table returns what the walk over the table at its start would have returned. */
  lemma {:induction false} GrowthAboveIsHarmless(tables: seq<seq<Row>>, start: seq<Row>, limit: nat,
                                                 cursor: Option<Cursor>)
    requires tables != [] && GrowsAbove(tables, limit, cursor)
    requires Below(tables[0], cursor) == Below(start, cursor) && |Below(start, cursor)| < |tables|
    ensures Finishes(tables, limit, cursor) && WalkOver(tables, limit, cursor) == Walk(start, limit, cursor)
    decreases |tables|
  {
    var next := PageOf(tables[0], limit, cursor).nextCursor;
    PageOfSameRows(tables[0], start, limit, cursor);
    if next.None? {
    } else {
      NextIsLower(start, limit, cursor);
      if cursor.Some? { NextIsUnder(start, limit, cursor); }
      SameBelowLower(tables[0], start, cursor, next);
      assert |tables| > 1;
      GrownAboveIsQuiet(tables[0], tables[1], next);
      GrowthAboveIsHarmless(tables[1..], start, limit, next);
    }
  }

  /** So with descending keys every row of the table at the start is returned, once and in order, however
   * many rows are inserted above the client's place meanwhile. */
  lemma {:induction false} StartTableIsReturned(tables: seq<seq<Row>>, limit: nat)
    requires tables != [] && limit > 0 && KeysDescend(tables[0])
    requires GrowsAbove(tables, limit, None) && |tables[0]| < |tables|
    ensures Finishes(tables, limit, None) && WalkOver(tables, limit, None) == tables[0]
  {
    BelowAll(tables[0]);
    GrowthAboveIsHarmless(tables, tables[0], limit, None);
    WalkIsBelow(tables[0], limit, None);
  }

  // ----- Rows inserted anywhere -----

  /** Each table has every row of the one before, and its keys descend. */
  ghost predicate Grows(tables: seq<seq<Row>>)
    requires tables != []
    decreases |tables|
  {
    && KeysDescend(tables[0])
    && (|tables| == 1 || ((forall r | r in tables[0] :: r in tables[1]) && Grows(tables[1..])))
  }

  lemma {:induction false} InBelow(rows: seq<Row>, cursor: Option<Cursor>, r: Row)
    ensures r in Below(rows, cursor) <==> r in rows && Under(r, cursor)
  {
    if rows == [] {
    } else {
      InBelow(rows[1..], cursor, r);
    }
  }

  lemma {:induction false} OnPageOrNext(rows: seq<Row>, limit: nat, cursor: Option<Cursor>, r: Row)
    requires KeysDescend(rows) && limit > 0 && r in rows && Under(r, cursor)
    ensures
      var page := PageOf(rows, limit, cursor);
      r in page.items || (page.nextCursor.Some? && Under(r, page.nextCursor))
  {
    InBelow(rows, cursor, r);
    PageIs(rows, limit, cursor);
    var below := Below(rows, cursor);
    if |below| > limit {
      BelowNext(rows, cursor, limit);
      assert below == below[..limit] + below[limit..];
      if r in below[limit..] {
        InBelow(rows, Some(CursorOf(below[limit - 1])), r);
      }
    }
  }

  /** A row that is in the table when the walk comes past is returned, wherever rows are inserted. */
  lemma {:induction false} NoRowIsLost(tables: seq<seq<Row>>, limit: nat, cursor: Option<Cursor>, r: Row)
    requires tables != [] && limit > 0 && Grows(tables) && Finishes(tables, limit, cursor)
    requires r in tables[0] && Under(r, cursor)
    ensures r in WalkOver(tables, limit, cursor)
    decreases |tables|
  {
    var page := PageOf(tables[0], limit, cursor);
    OnPageOrNext(tables[0], limit, cursor, r);
    if r !in page.items {
      NoRowIsLost(tables[1..], limit, page.nextCursor, r);
    }
  }

  lemma {:induction false} WalkOverStaysUnder(tables: seq<seq<Row>>, limit: nat, cursor: Option<Cursor>, r: Row)
    requires tables != [] && r in WalkOver(tables, limit, cursor)
    ensures Under(r, cursor)
    decreases |tables|
  {
    var page := PageOf(tables[0], limit, cursor);
    if r in page.items {
      assert r in Below(tables[0], cursor);
    } else {
      WalkOverStaysUnder(tables[1..], limit, page.nextCursor, r);
      if cursor.Some? { NextIsUnder(tables[0], limit, cursor); }
    }
  }

  /** And none is returned twice: the keys of the rows returned descend. */
  lemma {:induction false} WalkOverDescends(tables: seq<seq<Row>>, limit: nat, cursor: Option<Cursor>)
    requires tables != [] && Grows(tables)
    ensures KeysDescend(WalkOver(tables, limit, cursor))
    decreases |tables|
  {
    var page := PageOf(tables[0], limit, cursor);
    BelowDescends(tables[0], cursor);
    assert KeysDescend(page.items);
    if page.nextCursor.None? || |tables| == 1 {
    } else {
      var rest := WalkOver(tables[1..], limit, page.nextCursor);
      WalkOverDescends(tables[1..], limit, page.nextCursor);
      forall r | r in rest
        ensures Under(r, page.nextCursor)
      {
        WalkOverStaysUnder(tables[1..], limit, page.nextCursor, r);
      }
      BelowLastIsBelowAll(page.items, rest);
    }
  }

  lemma {:induction false} BelowLastIsBelowAll(items: seq<Row>, rest: seq<Row>)
    requires items != [] && KeysDescend(items) && KeysDescend(rest)
    requires forall r | r in rest :: Less(CursorOf(r), CursorOf(items[|items| - 1]))
    ensures KeysDescend(items + rest)
  {
  }

  /** Whatever is inserted between the pages, and wherever, a walk that finishes returns every row of the
   * table at its start, and no row twice. */
  lemma {:induction false} GrowthLosesNothing(tables: seq<seq<Row>>, limit: nat)
    requires tables != [] && limit > 0 && Grows(tables) && Finishes(tables, limit, None)
    ensures forall r | r in tables[0] :: r in WalkOver(tables, limit, None)
    ensures
      var rows := WalkOver(tables, limit, None);
      forall i, j | 0 <= i < j < |rows| :: rows[i] != rows[j]
  {
    forall r | r in tables[0]
      ensures r in WalkOver(tables, limit, None)
    {
      NoRowIsLost(tables, limit, None, r);
    }
    WalkOverDescends(tables, limit, None);
  }
}
