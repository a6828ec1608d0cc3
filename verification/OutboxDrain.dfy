/**
 * What a piece of a drain of an outbox channel does to the rows, and the two queries it makes.
 */
module OutboxDrain {
  import opened Wrappers
  import opened Collections
  import opened OutboxModel

  // ------------------------------------------------------------------ what a piece of a drain does

  ghost predicate WasTried(log: seq<Attempt>, from: nat, id: nat) {
    exists k :: from <= k < |log| && log[k].id == id
  }

  predicate DistinctFrom(log: seq<Attempt>, from: nat) {
    forall i, j :: from <= i < j < |log| ==> log[i].id != log[j].id
  }

  /** The row cannot be fetched before `floor`. */
  predicate Resting(rows: Table, id: nat, floor: int) {
    id !in rows || rows[id].unrecoverable || rows[id].due >= floor
  }

  ghost predicate Quiet(rows: Table, log: seq<Attempt>, from: nat, floor: int) {
    forall k :: from <= k < |log| ==> Resting(rows, log[k].id, floor)
  }

  /** The log grew by legal attempts, and the table is what they make of it. */
  ghost predicate Extends(rows0: Table, log0: seq<Attempt>, rows: Table, log: seq<Attempt>) {
    log0 <= log && Legal(rows0, log[|log0|..]) && rows == Replay(rows0, log[|log0|..])
  }

  /** One send: every row at most once, each of them due at the fetch, and none due again before `floor`. */
  ghost predicate SendOk(rows0: Table, log0: seq<Attempt>, rows: Table, log: seq<Attempt>, floor: int, fetched: int) {
    && Extends(rows0, log0, rows, log)
    && Quiet(rows, log, |log0|, floor)
    && DistinctFrom(log, |log0|)
    && forall k :: |log0| <= k < |log| ==> Sendable(rows0, log[k].id) && rows0[log[k].id].due <= fetched
  }

  lemma {:induction false} ReplayFrame(rows: Table, log: seq<Attempt>, id: nat)
    requires forall k :: 0 <= k < |log| ==> log[k].id != id
    ensures id in Replay(rows, log) <==> id in rows
    ensures id in rows ==> Replay(rows, log)[id] == rows[id]
  {
    if log != [] {
      ReplayFrame(rows, log[..|log| - 1], id);
    }
  }

  lemma ExtendsByOne(rows0: Table, log0: seq<Attempt>, rows: Table, log: seq<Attempt>, a: Attempt)
    requires Extends(rows0, log0, rows, log) && Sendable(rows, a.id)
    ensures Extends(rows0, log0, Attempted(rows, a), log + [a])
  {
    var news := (log + [a])[|log0|..];
    assert news == log[|log0|..] + [a];
    assert news[..|news| - 1] == log[|log0|..];
  }

  lemma UntriedIsUntouched(rows0: Table, log0: seq<Attempt>, rows: Table, log: seq<Attempt>, id: nat)
    requires Extends(rows0, log0, rows, log) && !WasTried(log, |log0|, id)
    ensures id in rows <==> id in rows0
    ensures id in rows0 ==> rows[id] == rows0[id]
  {
    ReplayFrame(rows0, log[|log0|..], id);
  }

  /** One more row of the batch. */
  lemma SendOneMore(rows0: Table, log0: seq<Attempt>, rows: Table, log: seq<Attempt>, floor: int, fetched: int, a: Attempt)
    requires SendOk(rows0, log0, rows, log, floor, fetched) && !WasTried(log, |log0|, a.id)
    requires Sendable(rows0, a.id) && rows0[a.id].due <= fetched && (a.result.Kept? ==> a.result.due >= floor)
    ensures Sendable(rows, a.id)
    ensures SendOk(rows0, log0, Attempted(rows, a), log + [a], floor, fetched)
  {
    UntriedIsUntouched(rows0, log0, rows, log, a.id);
    ExtendsByOne(rows0, log0, rows, log, a);
    assert forall k :: |log0| <= k < |log| ==> log[k].id != a.id;
  }

  lemma {:induction false} ExtendsTransitive(
    rows0: Table, log0: seq<Attempt>, rows1: Table, log1: seq<Attempt>, rows2: Table, log2: seq<Attempt>)
    requires Extends(rows0, log0, rows1, log1) && Extends(rows1, log1, rows2, log2)
    ensures Extends(rows0, log0, rows2, log2)
  {
    assert log2[|log0|..] == log1[|log0|..] + log2[|log1|..];
    ReplayConcat(rows0, log1[|log0|..], log2[|log1|..]);
  }

  /** A send of due rows, when no row tried earlier is due. */
  lemma DistinctMore(log1: seq<Attempt>, log2: seq<Attempt>, from: nat, due: set<nat>)
    requires from <= |log1| && log1 <= log2 && DistinctFrom(log1, from) && DistinctFrom(log2, |log1|)
    requires forall k :: from <= k < |log1| ==> log1[k].id !in due
    requires forall k :: |log1| <= k < |log2| ==> log2[k].id in due
    ensures DistinctFrom(log2, from)
  {
    forall i, j | from <= i < j < |log2|
      ensures log2[i].id != log2[j].id
    {
      if i < |log1| {
        assert log2[i] == log1[i];
        if j < |log1| {
          assert log2[j] == log1[j];
        }
      }
    }
  }

  lemma RestingStays(
    log0: seq<Attempt>, rows1: Table, log1: seq<Attempt>, rows2: Table, log2: seq<Attempt>,
    floor: int, later: int)
    requires log0 <= log1 && Quiet(rows1, log1, |log0|, floor)
    requires Extends(rows1, log1, rows2, log2) && Quiet(rows2, log2, |log1|, later) && floor <= later
    ensures Quiet(rows2, log2, |log0|, floor)
  {
    forall k | |log0| <= k < |log2|
      ensures Resting(rows2, log2[k].id, floor)
    {
      var id := log2[k].id;
      if WasTried(log2, |log1|, id) {
        var m :| |log1| <= m < |log2| && log2[m].id == id;
        assert Resting(rows2, log2[m].id, later);
      } else {
        assert log2[k] == log1[k];
        assert Resting(rows1, log1[k].id, floor);
        UntriedIsUntouched(rows1, log1, rows2, log2, id);
      }
    }
  }

  // ------------------------------------------------------------------ the queries

  function Due(rows: Table, region: Region, now: int): set<nat> {
    set id | id in rows && rows[id].region == region && !rows[id].unrecoverable && rows[id].due <= now
  }

  /** `order_by("attempts", "created", "pk")`. */
  predicate FirstOf(rows: Table, a: nat, b: nat)
    requires a in rows && b in rows
  {
    var x, y := rows[a], rows[b];
    || x.attempts < y.attempts
    || (x.attempts == y.attempts && (x.created < y.created || (x.created == y.created && a <= b)))
  }

  method FirstAmong(rows: Table, ids: set<nat>) returns (first: nat)
    requires ids != {} && forall id :: id in ids ==> id in rows
    ensures first in ids && forall id :: id in ids ==> FirstOf(rows, first, id)
  {
    first :| first in ids;
    var seen := {first};
    while seen != ids
      invariant seen <= ids && first in seen
      invariant forall id :: id in seen ==> FirstOf(rows, first, id)
      decreases |ids - seen|
    {
      assert ids - seen != {};
      var x :| x in ids - seen;
      if !FirstOf(rows, first, x) {
        assert forall id :: id in seen ==> FirstOf(rows, first, id) && FirstOf(rows, x, id);
        first := x;
      }
      assert ids - (seen + {x}) == ids - seen - {x};
      seen := seen + {x};
    }
  }

  /** What one fetch returns: due rows, once each, in order, up to a batch, with every row left out coming later. */
  ghost predicate IsBatch(rows: Table, due: set<nat>, batch: seq<nat>) {
    && (forall i :: 0 <= i < |batch| ==> batch[i] in due)
    && (forall id :: id in due ==> id in rows)
    && Distinct(batch)
    && (forall i, id :: 0 <= i < |batch| && id in due && id !in batch[..i] ==> FirstOf(rows, batch[i], id))
    && |batch| == (if |due| < BATCH_SIZE then |due| else BATCH_SIZE)
  }

  method Fetch(rows: Table, region: Region, now: int) returns (batch: seq<nat>)
    ensures IsBatch(rows, Due(rows, region, now), batch)
  {
    var due := Due(rows, region, now);
    var rest := due;
    batch := [];
    while rest != {} && |batch| < BATCH_SIZE
      invariant rest <= due && |batch| + |rest| == |due| && |batch| <= BATCH_SIZE
      invariant forall id :: id in rest <==> id in due && id !in batch
      invariant forall i :: 0 <= i < |batch| ==> batch[i] in due
      invariant Distinct(batch)
      invariant forall i, id :: 0 <= i < |batch| && id in due && id !in batch[..i] ==> FirstOf(rows, batch[i], id)
      decreases |rest|
    {
      var first := FirstAmong(rows, rest);
      ghost var before := batch;
      batch := batch + [first];
      assert forall i :: 0 <= i <= |before| ==> batch[..i] == before[..i];
      assert before[..|before|] == before;
      rest := rest - {first};
    }
  }

  function AllDue(rows: Table, now: int): set<nat> {
    set id | id in rows && !rows[id].unrecoverable && rows[id].due <= now
  }

  ghost predicate Oldest(rows: Table, ids: set<nat>, x: nat)
    requires forall id :: id in ids ==> id in rows
  {
    x in ids && forall y :: y in ids ==> rows[x].created <= rows[y].created
  }

  lemma {:induction false} SomeRowIsOldest(rows: Table, ids: set<nat>) returns (x: nat)
    requires ids != {} && forall id :: id in ids ==> id in rows
    ensures Oldest(rows, ids, x)
    decreases |ids|
  {
    x :| x in ids;
    if ids == {x} {
    } else {
      assert ids - {x} != {};
      var z := SomeRowIsOldest(rows, ids - {x});
      assert forall y :: y in ids ==> y == x || y in ids - {x};
      x := if rows[x].created <= rows[z].created then x else z;
    }
  }

  /** The oldest due row of every region so far, which come in the order of these rows. */
  ghost predicate InAgeOrder(rows: Table, now: int, regions: seq<Region>, firsts: seq<nat>) {
    && |firsts| == |regions|
    && (forall i :: 0 <= i < |regions| ==> Oldest(rows, Due(rows, regions[i], now), firsts[i]))
    && (forall i, j :: 0 <= i < j < |regions| ==>
          regions[i] != regions[j] && rows[firsts[i]].created <= rows[firsts[j]].created)
  }

  /** The due rows of the regions that were not listed yet. */
  function Unlisted(rows: Table, now: int, regions: seq<Region>): set<nat> {
    set id | id in AllDue(rows, now) && rows[id].region !in regions
  }

  lemma NextRegion(rows: Table, now: int, regions: seq<Region>, firsts: seq<nat>, x: nat)
    requires InAgeOrder(rows, now, regions, firsts) && Oldest(rows, Unlisted(rows, now, regions), x)
    requires forall i, id :: 0 <= i < |firsts| && id in Unlisted(rows, now, regions) ==>
               rows[firsts[i]].created <= rows[id].created
    ensures InAgeOrder(rows, now, regions + [rows[x].region], firsts + [x])
  {
    var region := rows[x].region;
    assert forall y :: y in Due(rows, region, now) ==> y in Unlisted(rows, now, regions);
    assert Oldest(rows, Due(rows, region, now), x);
  }

  /** `_pending_regions`: every region with a row that is due, once, the one with the oldest row first. */
  method PendingRegions(rows: Table, now: int) returns (regions: seq<Region>, ghost firsts: seq<nat>)
    ensures forall r :: r in regions <==> Due(rows, r, now) != {}
    ensures InAgeOrder(rows, now, regions, firsts)
  {
    var rest := AllDue(rows, now);
    regions, firsts := [], [];
    while rest != {}
      invariant rest == Unlisted(rows, now, regions)
      invariant InAgeOrder(rows, now, regions, firsts)
      invariant forall i, id :: 0 <= i < |firsts| && id in rest ==> rows[firsts[i]].created <= rows[id].created
      decreases |rest|
    {
      ghost var w := SomeRowIsOldest(rows, rest);
      var x :| x in rest && forall y :: y in rest ==> rows[x].created <= rows[y].created;
      NextRegion(rows, now, regions, firsts, x);
      ghost var before := rest;
      regions, firsts := regions + [rows[x].region], firsts + [x];
      rest := Unlisted(rows, now, regions);
      assert rest <= before - {x};
      SubsetSize(rest, before - {x});
    }
    forall r
      ensures r in regions <==> Due(rows, r, now) != {}
    {
      if id :| id in Due(rows, r, now) {
        assert id in AllDue(rows, now) && id !in rest;
      }
    }
  }

  /** A row that never failed is not kept waiting by rows that did: a batch with a failed row holds every fresh one. */
  lemma FreshRowsGoFirst(rows: Table, due: set<nat>, batch: seq<nat>, i: nat, untried: nat)
    requires IsBatch(rows, due, batch) && i < |batch| && rows[batch[i]].attempts > 0
    requires untried in due && rows[untried].attempts == 0
    ensures untried in batch
  {
  }

  lemma DueShrinks(rows0: Table, log0: seq<Attempt>, rows: Table, log: seq<Attempt>, floor: int, region: Region, now: int)
    requires SendOk(rows0, log0, rows, log, floor, now) && now < floor && |log| > |log0|
    requires forall k :: |log0| <= k < |log| ==> log[k].id in Due(rows0, region, now)
    ensures |Due(rows, region, now)| < |Due(rows0, region, now)|
  {
    var before, after := Due(rows0, region, now), Due(rows, region, now);
    var tried := log[|log0|].id;
    assert Resting(rows, tried, floor);
    forall id | id in after
      ensures id in before - {tried}
    {
      if !WasTried(log, |log0|, id) {
        UntriedIsUntouched(rows0, log0, rows, log, id);
      }
    }
    assert after <= before - {tried};
    SubsetSize(after, before - {tried});
  }

  /** A send in one region makes no row of another region due. */
  lemma OtherRegionsShrink(rows0: Table, log0: seq<Attempt>, rows: Table, log: seq<Attempt>, region: Region, now: int)
    requires Extends(rows0, log0, rows, log)
    requires forall k :: |log0| <= k < |log| ==> log[k].id in Due(rows0, region, now)
    ensures Undisturbed(rows0, rows, region)
  {
    forall id | id in rows && !rows[id].unrecoverable && rows[id].region != region
      ensures id in rows0 && rows0[id] == rows[id]
    {
      ReplayKeepsRegion(rows0, log[|log0|..], id);
      UntriedIsUntouched(rows0, log0, rows, log, id);
    }
  }

  lemma {:induction false} ReplayKeepsRegion(rows: Table, log: seq<Attempt>, id: nat)
    requires id in Replay(rows, log)
    ensures id in rows && rows[id].region == Replay(rows, log)[id].region
  {
    if log != [] {
      ReplayKeepsRegion(rows, log[..|log| - 1], id);
    }
  }

  /** The rows of the other regions that wait to be sent were there before, just as they are. */
  ghost predicate Undisturbed(rows0: Table, rows: Table, region: Region) {
    forall id :: id in rows && !rows[id].unrecoverable && rows[id].region != region ==> id in rows0 && rows0[id] == rows[id]
  }
}
