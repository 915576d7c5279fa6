/** What the tables of the read model have in common: rows merged on conflict, column by column, and
 * rows inserted only when their key is absent. */
module Upserts {
  import opened Options

  function Coalesce<T>(a: Option<T>, b: Option<T>): Option<T> { if a.Some? then a else b }

  function Least(a: real, b: real): real { if a <= b then a else b }

  function Get<K, R>(table: map<K, R>, k: K): Option<R> { if k in table then Some(table[k]) else None }

  /** What an upsert leaves of an optional row. */
  function Upserted<R>(o: Option<R>, r: R, merge: (R, R) -> R): R {
    match o
    case None => r
    case Some(row) => merge(row, r)
  }

  /** An optional row after a sequence of upserts. */
  function Fold<R>(o: Option<R>, rows: seq<R>, merge: (R, R) -> R): Option<R> {
    if rows == [] then o
    else Some(Upserted(Fold(o, rows[..|rows| - 1], merge), rows[|rows| - 1], merge))
  }

  ghost predicate Band<R(!new)>(merge: (R, R) -> R) {
    && (forall a, b, c :: merge(merge(a, b), c) == merge(a, merge(b, c)))
    && (forall a :: merge(a, a) == a)
  }

  function Join<R>(a: Option<R>, b: Option<R>, merge: (R, R) -> R): Option<R> {
    match b
    case None => a
    case Some(r) => Some(Upserted(a, r, merge))
  }

  /** Upserting a sequence is merging once with what the sequence makes of nothing. */
  lemma {:induction false} FoldIsJoin<R(!new)>(o: Option<R>, rows: seq<R>, merge: (R, R) -> R)
    requires Band(merge)
    ensures Fold(o, rows, merge) == Join(o, Fold(None, rows, merge), merge)
  {
    if rows == [] {
    } else {
      FoldIsJoin(o, rows[..|rows| - 1], merge);
    }
  }

  /** Upserting the same sequence again changes nothing. */
  lemma {:induction false} FoldTwice<R(!new)>(o: Option<R>, rows: seq<R>, merge: (R, R) -> R)
    requires Band(merge)
    ensures Fold(Fold(o, rows, merge), rows, merge) == Fold(o, rows, merge)
  {
    FoldIsJoin(o, rows, merge);
    FoldIsJoin(Fold(o, rows, merge), rows, merge);
  }

  // ----- Columns -----

  /** The last value that is there. */
  predicate IsLastSome<X(==)>(xs: seq<Option<X>>, v: Option<X>) {
    match v
    case None => forall i | 0 <= i < |xs| :: xs[i] == None
    case Some(_) => exists i | 0 <= i < |xs| :: xs[i] == v && forall j | i < j < |xs| :: xs[j] == None
  }

  /** The first value that is there. */
  predicate IsFirstSome<X(==)>(xs: seq<Option<X>>, v: Option<X>) {
    match v
    case None => forall i | 0 <= i < |xs| :: xs[i] == None
    case Some(_) => exists i | 0 <= i < |xs| :: xs[i] == v && forall j | 0 <= j < i :: xs[j] == None
  }

  predicate IsMin(xs: seq<real>, v: real) {
    v in xs && forall x | x in xs :: v <= x
  }

  function Column<R, X>(rows: seq<R>, get: R -> X): seq<X> { seq(|rows|, i requires 0 <= i < |rows| => get(rows[i])) }

  lemma {:induction false} ColumnSnoc<R, X>(rows: seq<R>, get: R -> X)
    requires rows != []
    ensures Column(rows, get) == Column(rows[..|rows| - 1], get) + [get(rows[|rows| - 1])]
  {
  }

  lemma {:induction false} LastSomeSnoc<X>(xs: seq<Option<X>>, v: Option<X>, x: Option<X>)
    requires IsLastSome(xs, v)
    ensures IsLastSome(xs + [x], Coalesce(x, v))
  {
    if x.Some? {
      assert (xs + [x])[|xs|] == x;
    } else if v.Some? {
      var i :| 0 <= i < |xs| && xs[i] == v && forall j | i < j < |xs| :: xs[j] == None;
      assert (xs + [x])[i] == v;
    }
  }

  lemma {:induction false} FirstSomeSnoc<X>(xs: seq<Option<X>>, v: Option<X>, x: Option<X>)
    requires IsFirstSome(xs, v)
    ensures IsFirstSome(xs + [x], Coalesce(v, x))
  {
    if v.Some? {
      var i :| 0 <= i < |xs| && xs[i] == v && forall j | 0 <= j < i :: xs[j] == None;
      assert (xs + [x])[i] == v;
    } else if x.Some? {
      assert (xs + [x])[|xs|] == x;
    }
  }

  lemma {:induction false} LastColumn<R(!new), X>(rows: seq<R>, merge: (R, R) -> R, get: R -> Option<X>)
    requires rows != [] && forall a, b :: get(merge(a, b)) == Coalesce(get(b), get(a))
    ensures Fold(None, rows, merge).Some? && IsLastSome(Column(rows, get), get(Fold(None, rows, merge).value))
  {
    ColumnSnoc(rows, get);
    var init, r := rows[..|rows| - 1], rows[|rows| - 1];
    if init == [] {
      assert Column(rows, get) == [get(r)];
      assert [get(r)][0] == get(r);
    } else {
      LastColumn(init, merge, get);
      LastSomeSnoc(Column(init, get), get(Fold(None, init, merge).value), get(r));
    }
  }

  lemma {:induction false} FirstColumn<R(!new), X>(rows: seq<R>, merge: (R, R) -> R, get: R -> Option<X>)
    requires rows != [] && forall a, b :: get(merge(a, b)) == Coalesce(get(a), get(b))
    ensures Fold(None, rows, merge).Some? && IsFirstSome(Column(rows, get), get(Fold(None, rows, merge).value))
  {
    ColumnSnoc(rows, get);
    var init, r := rows[..|rows| - 1], rows[|rows| - 1];
    if init == [] {
      assert Column(rows, get) == [get(r)];
      assert [get(r)][0] == get(r);
    } else {
      FirstColumn(init, merge, get);
      FirstSomeSnoc(Column(init, get), get(Fold(None, init, merge).value), get(r));
    }
  }

  lemma {:induction false} LeastColumn<R(!new)>(rows: seq<R>, merge: (R, R) -> R, get: R -> real)
    requires rows != [] && forall a, b :: get(merge(a, b)) == Least(get(a), get(b))
    ensures Fold(None, rows, merge).Some? && IsMin(Column(rows, get), get(Fold(None, rows, merge).value))
  {
    ColumnSnoc(rows, get);
    var init := rows[..|rows| - 1];
    if init == [] {
      assert Column(rows, get) == [get(rows[|rows| - 1])];
    } else {
      LeastColumn(init, merge, get);
    }
  }

  /** A column the upsert always overwrites. */
  lemma {:induction false} OverwrittenColumn<R(!new), X>(rows: seq<R>, merge: (R, R) -> R, get: R -> X)
    requires rows != [] && forall a, b :: get(merge(a, b)) == get(b)
    ensures Fold(None, rows, merge).Some? && get(Fold(None, rows, merge).value) == get(rows[|rows| - 1])
  {
  }

  /** A column the upsert never touches. */
  lemma {:induction false} UntouchedColumn<R(!new), X>(rows: seq<R>, merge: (R, R) -> R, get: R -> X)
    requires rows != [] && forall a, b :: get(merge(a, b)) == get(a)
    ensures Fold(None, rows, merge).Some? && get(Fold(None, rows, merge).value) == get(rows[0])
  {
    if |rows| > 1 {
      UntouchedColumn(rows[..|rows| - 1], merge, get);
    }
  }

  // ----- Rows inserted once per key -----

  /** The primary key is the time of the event and its id. */
  datatype Keyed<R> = Keyed(eventTime: real, eventId: string, columns: R)

  predicate SameKey<R(!new)>(a: Keyed<R>, b: Keyed<R>) { a.eventTime == b.eventTime && a.eventId == b.eventId }

  predicate HasKey<R(!new)>(rows: seq<Keyed<R>>, r: Keyed<R>) {
    exists i | 0 <= i < |rows| :: SameKey(rows[i], r)
  }

  /** `on conflict (event_time, event_id) do nothing`; new rows come last in the order of insertion. */
  function Insert<R(!new)>(rows: seq<Keyed<R>>, r: Keyed<R>): seq<Keyed<R>> {
    if HasKey(rows, r) then rows else rows + [r]
  }

  function InsertAll<R(!new)>(rows: seq<Keyed<R>>, xs: seq<Keyed<R>>): seq<Keyed<R>> {
    if xs == [] then rows
    else Insert(InsertAll(rows, xs[..|xs| - 1]), xs[|xs| - 1])
  }

  predicate DistinctKeys<R(!new)>(rows: seq<Keyed<R>>) {
    forall i, j | 0 <= i < j < |rows| :: !SameKey(rows[i], rows[j])
  }

  lemma {:induction false} HasKeyGrows<R(!new)>(rows: seq<Keyed<R>>, r: Keyed<R>, x: Keyed<R>)
    requires HasKey(rows, r)
    ensures HasKey(Insert(rows, x), r)
  {
    var i :| 0 <= i < |rows| && SameKey(rows[i], r);
    assert Insert(rows, x)[i] == rows[i];
  }

  lemma {:induction false} AllHaveKeys<R(!new)>(rows: seq<Keyed<R>>, xs: seq<Keyed<R>>)
    ensures forall i | 0 <= i < |xs| :: HasKey(InsertAll(rows, xs), xs[i])
  {
    if xs == [] {
    } else {
      var init, x := xs[..|xs| - 1], xs[|xs| - 1];
      var mid := InsertAll(rows, init);
      AllHaveKeys(rows, init);
      forall i | 0 <= i < |xs|
        ensures HasKey(InsertAll(rows, xs), xs[i])
      {
        if i < |init| {
          assert xs[i] == init[i];
          HasKeyGrows(mid, init[i], x);
        } else if !HasKey(mid, x) {
          assert SameKey((mid + [x])[|mid|], x);
        }
      }
    }
  }

  lemma {:induction false} PresentAreSkipped<R(!new)>(rows: seq<Keyed<R>>, xs: seq<Keyed<R>>)
    requires forall i | 0 <= i < |xs| :: HasKey(rows, xs[i])
    ensures InsertAll(rows, xs) == rows
  {
    if xs == [] {
    } else {
      PresentAreSkipped(rows, xs[..|xs| - 1]);
    }
  }

  /** Inserting the same rows again changes nothing. */
  lemma {:induction false} InsertTwice<R(!new)>(rows: seq<Keyed<R>>, xs: seq<Keyed<R>>)
    ensures InsertAll(InsertAll(rows, xs), xs) == InsertAll(rows, xs)
  {
    AllHaveKeys(rows, xs);
    PresentAreSkipped(InsertAll(rows, xs), xs);
  }

  /** Old rows stay where they are, keys stay distinct, and nothing is invented. */
  lemma {:induction false} InsertsKeepTheTable<R(!new)>(rows: seq<Keyed<R>>, xs: seq<Keyed<R>>)
    ensures rows <= InsertAll(rows, xs)
    ensures DistinctKeys(rows) ==> DistinctKeys(InsertAll(rows, xs))
    ensures forall r | r in InsertAll(rows, xs) :: r in rows || r in xs
  {
    if xs == [] {
    } else {
      var init, x := xs[..|xs| - 1], xs[|xs| - 1];
      var mid := InsertAll(rows, init);
      InsertsKeepTheTable(rows, init);
      forall r | r in InsertAll(rows, xs)
        ensures r in rows || r in xs
      {
        assert r in mid || r == x;
        assert r in init ==> r in xs;
      }
      if DistinctKeys(rows) && !HasKey(mid, x) {
        assert forall i | 0 <= i < |mid| :: (mid + [x])[i] == mid[i] && !SameKey(mid[i], x);
      }
    }
  }

  /** Of the rows with one key, the first offered is the one in the table. */
  lemma {:induction false} FirstOfAKeyWins<R(!new)>(rows: seq<Keyed<R>>, xs: seq<Keyed<R>>, i: nat)
    requires i < |xs| && !HasKey(rows, xs[i]) && !HasKey(xs[..i], xs[i])
    ensures xs[i] in InsertAll(rows, xs)
  {
    var init, x := xs[..|xs| - 1], xs[|xs| - 1];
    var mid := InsertAll(rows, init);
    if i < |init| {
      assert init[..i] == xs[..i] && init[i] == xs[i];
      FirstOfAKeyWins(rows, init, i);
      assert mid <= InsertAll(rows, xs);
    } else {
      assert init == xs[..i];
      AbsentStays(rows, init, x);
      assert (mid + [x])[|mid|] == x;
    }
  }

  lemma {:induction false} AbsentStays<R(!new)>(rows: seq<Keyed<R>>, xs: seq<Keyed<R>>, x: Keyed<R>)
    requires !HasKey(rows, x) && !HasKey(xs, x)
    ensures !HasKey(InsertAll(rows, xs), x)
  {
    if xs == [] {
    } else {
      var init := xs[..|xs| - 1];
      assert forall k | 0 <= k < |init| :: init[k] == xs[k];
      AbsentStays(rows, init, x);
    }
  }
}
