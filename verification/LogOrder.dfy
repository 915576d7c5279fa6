/** Facts about increasing logs of event ids: which ids follow a position, and what it means for a
 * stream of ids to run along the log without leaving one out. */
module LogOrder {

  predicate Increasing(log: seq<nat>) {
    forall i, j | 0 <= i < j < |log| :: log[i] < log[j]
  }

  /** How many entries of the log have an id of at most `id`. */
  function Position(log: seq<nat>, id: nat): (n: nat)
    requires Increasing(log)
    ensures n <= |log|
    ensures forall i | 0 <= i < n :: log[i] <= id
    ensures forall i | n <= i < |log| :: id < log[i]
  {
    if log == [] || id < log[0] then 0
    else 1 + Position(log[1..], id)
  }

  /** `log_id > after order by log_id asc limit n` */
  function Page(log: seq<nat>, after: nat, limit: nat): seq<nat>
    requires Increasing(log)
  {
    var rest := log[Position(log, after)..];
    if |rest| <= limit then rest else rest[..limit]
  }

  /** `h` is the first id of the log after `c`. */
  predicate NextIn(log: seq<nat>, c: nat, h: nat) {
    c < h && h in log && forall i | 0 <= i < |log| :: !(c < log[i] < h)
  }

  /** The ids run along the log from `c` on, without leaving one out. */
  predicate Follows(log: seq<nat>, c: nat, ids: seq<nat>)
    decreases |ids|
  {
    ids == [] || (NextIn(log, c, ids[0]) && Follows(log, ids[0], ids[1..]))
  }

  function EndOf(c: nat, ids: seq<nat>): nat {
    if ids == [] then c else ids[|ids| - 1]
  }

  function Max(a: nat, b: nat): nat { if a < b then b else a }

  /** A stream that repeats ids it has passed but never skips one: from `c` it leads to `pos`. */
  predicate Chain(log: seq<nat>, c: nat, out: seq<nat>, pos: nat)
    decreases |out|
  {
    if out == [] then c == pos
    else if out[0] <= c then Chain(log, c, out[1..], pos)
    else NextIn(log, c, out[0]) && Chain(log, out[0], out[1..], pos)
  }

  /** What is left of the buffered events once those the replay has sent are skipped. */
  function Above(ids: seq<nat>, max: nat): seq<nat> {
    if ids == [] then []
    else if ids[0] <= max then Above(ids[1..], max)
    else [ids[0]] + Above(ids[1..], max)
  }

  lemma {:induction false} AboveSnoc(ids: seq<nat>, max: nat, id: nat)
    ensures Above(ids + [id], max) == if id <= max then Above(ids, max) else Above(ids, max) + [id]
  {
    if ids == [] {
      assert ([] + [id])[1..] == [];
    } else {
      assert (ids + [id])[1..] == ids[1..] + [id];
      AboveSnoc(ids[1..], max, id);
    }
  }

  /** Every id of the log in (lo, hi] has been received. */
  ghost predicate Covers(log: seq<nat>, lo: nat, hi: nat, got: set<nat>) {
    forall i | 0 <= i < |log| && lo < log[i] <= hi :: log[i] in got
  }

  lemma {:induction false} ChainSnoc(log: seq<nat>, c: nat, out: seq<nat>, pos: nat, h: nat)
    requires Chain(log, c, out, pos)
    requires h <= pos || NextIn(log, pos, h)
    ensures Chain(log, c, out + [h], Max(pos, h))
    decreases |out|
  {
    if out == [] {
      assert Chain(log, h, [], h);
      assert ([] + [h])[1..] == [];
    } else {
      assert (out + [h])[1..] == out[1..] + [h];
      ChainSnoc(log, if out[0] <= c then c else out[0], out[1..], pos, h);
    }
  }

  lemma {:induction false} ChainGrows(log: seq<nat>, id: nat, c: nat, out: seq<nat>, pos: nat)
    requires Increasing(log + [id]) && Chain(log, c, out, pos)
    ensures Chain(log + [id], c, out, pos)
    decreases |out|
  {
    if out == [] {
    } else {
      if c < out[0] { NextGrows(log, id, c, out[0]); }
      ChainGrows(log, id, if out[0] <= c then c else out[0], out[1..], pos);
    }
  }

  lemma {:induction false} NextGrows(log: seq<nat>, id: nat, c: nat, h: nat)
    requires Increasing(log + [id]) && NextIn(log, c, h)
    ensures NextIn(log + [id], c, h)
  {
  }

  lemma {:induction false} FollowsGrows(log: seq<nat>, id: nat, c: nat, ids: seq<nat>)
    requires Increasing(log + [id]) && Follows(log, c, ids)
    ensures Follows(log + [id], c, ids)
    decreases |ids|
  {
    if ids == [] {
    } else {
      NextGrows(log, id, c, ids[0]);
      FollowsGrows(log, id, ids[0], ids[1..]);
    }
  }

  lemma {:induction false} FollowsSnoc(log: seq<nat>, c: nat, ids: seq<nat>, h: nat)
    requires Follows(log, c, ids) && NextIn(log, EndOf(c, ids), h)
    ensures Follows(log, c, ids + [h])
    decreases |ids|
  {
    if ids == [] {
      assert ([] + [h])[1..] == [];
    } else {
      assert (ids + [h])[1..] == ids[1..] + [h];
      FollowsSnoc(log, ids[0], ids[1..], h);
    }
  }

  /** The log itself, from any index on, follows whatever lies just before that index. */
  lemma {:induction false} SegmentFollows(log: seq<nat>, c: nat, i: nat, j: nat)
    requires Increasing(log) && i <= j <= |log|
    requires forall k | 0 <= k < i :: log[k] <= c
    requires i < |log| ==> c < log[i]
    ensures Follows(log, c, log[i..j])
    decreases j - i
  {
    if i >= j {
    } else {
      assert log[i..j][1..] == log[i + 1..j];
      SegmentFollows(log, log[i], i + 1, j);
    }
  }

  /** A page of the log continues it, and a short page reaches its end. */
  lemma {:induction false} PageFollows(log: seq<nat>, after: nat, limit: nat)
    requires Increasing(log)
    ensures Follows(log, after, Page(log, after, limit))
    ensures |Page(log, after, limit)| < limit ==>
              forall i | 0 <= i < |log| :: log[i] <= EndOf(after, Page(log, after, limit))
  {
    var n := Position(log, after);
    var page := Page(log, after, limit);
    var m := n + |page|;
    assert page == log[n..m];
    SegmentFollows(log, after, n, m);
  }

  /** Ids that follow the log are exactly the ids of the log in between, each of them once. */
  lemma {:induction false} FollowsExactly(log: seq<nat>, c: nat, ids: seq<nat>)
    requires Follows(log, c, ids)
    ensures c <= EndOf(c, ids)
    ensures Increasing(ids)
    ensures forall id :: id in ids <==> id in log && c < id <= EndOf(c, ids)
    decreases |ids|
  {
    if ids == [] {
    } else {
      var h, rest := ids[0], ids[1..];
      FollowsExactly(log, h, rest);
      assert EndOf(c, ids) == EndOf(h, rest);
      assert forall id :: id in ids <==> id == h || id in rest;
      forall id | id in log && c < id <= EndOf(c, ids)
        ensures id in ids
      {
        if id <= h {
          var i :| 0 <= i < |log| && log[i] == id;
          assert !(c < log[i] < h);
        }
      }
      forall i, j | 0 <= i < j < |ids|
        ensures ids[i] < ids[j]
      {
        assert ids[j] == rest[j - 1] && rest[j - 1] in rest;
      }
    }
  }
}
