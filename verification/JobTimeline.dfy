/**
 * The concurrency chart of the job timeline (`gateway/api/domain/job_timeline.py`): the sweep over start and end
 * points, the pairwise overlaps, and the merge of the per-runner curves.
 */
module JobTimeline {
  import opened Collections
  import opened Wrappers
  import opened StableSort

  datatype Job = Job(id: nat, runner: nat, run: Option<int>, end: Option<int>)

  /** A forward running window: only these jobs are counted. */
  predicate Forward(j: Job) {
    j.run.Some? && j.end.Some? && j.run.value < j.end.value
  }

  /** A start (+1) or end (-1); `job` is the position in the list of the job it comes from. */
  datatype Point = Point(ts: int, delta: int, job: nat)

  datatype Entry = Entry(ts: int, count: int)

  // ------------------------------------------------------------------ the sweep

  function PointsOf(jobs: seq<Job>): seq<Point> {
    if jobs == [] then []
    else
      var n := |jobs| - 1;
      PointsOf(jobs[..n]) +
      if Forward(jobs[n]) then [Point(jobs[n].run.value, 1, n), Point(jobs[n].end.value, -1, n)] else []
  }

  function TimeOf(): Point -> int {
    (p: Point) => p.ts
  }

  function SortByTime(s: seq<Point>): seq<Point> {
    Sort(s, TimeOf())
  }

  function Total(s: seq<Point>): int {
    if s == [] then 0 else Total(s[..|s| - 1]) + s[|s| - 1].delta
  }

  function Accumulate(s: seq<Point>): (r: seq<Entry>)
    ensures |r| == |s|
    ensures forall k :: 0 <= k < |s| ==> r[k].ts == s[k].ts
  {
    if s == [] then [] else Accumulate(s[..|s| - 1]) + [Entry(s[|s| - 1].ts, Total(s))]
  }

  function Series(jobs: seq<Job>): seq<Entry> {
    Accumulate(SortByTime(PointsOf(jobs)))
  }

  method ConcurrencySeries(jobs: seq<Job>) returns (series: seq<Entry>)
    ensures series == Series(jobs)
  {
    var points: seq<Point> := [];
    for i := 0 to |jobs|
      invariant points == PointsOf(jobs[..i])
    {
      assert jobs[..i + 1][..i] == jobs[..i];
      if Forward(jobs[i]) {
        points := points + [Point(jobs[i].run.value, 1, i)];
        points := points + [Point(jobs[i].end.value, -1, i)];
      }
    }
    assert jobs[..|jobs|] == jobs;
    points := SortByTime(points);
    series := [];
    var running := 0;
    for i := 0 to |points|
      invariant running == Total(points[..i]) && series == Accumulate(points[..i])
    {
      assert points[..i + 1][..i] == points[..i];
      running := running + points[i].delta;
      series := series + [Entry(points[i].ts, running)];
    }
    assert points[..|points|] == points;
  }

  // ------------------------------------------------------------------ what an entry counts

  predicate UpTo(p: Point, t: int, j: int) {
    p.ts < t || (p.ts == t && p.job <= j)
  }

  predicate Less(p: Point, q: Point) {
    p.ts < q.ts || (p.ts == q.ts && p.job < q.job)
  }

  predicate Sorted(s: seq<Point>) {
    forall a, b :: 0 <= a < b < |s| ==> Less(s[a], s[b])
  }

  function SumUpTo(s: seq<Point>, t: int, j: int): int {
    if s == [] then 0
    else SumUpTo(s[..|s| - 1], t, j) + if UpTo(s[|s| - 1], t, j) then s[|s| - 1].delta else 0
  }

  lemma {:induction false} InsertSum(s: seq<Point>, x: Point, t: int, j: int)
    ensures SumUpTo(Insert(s, x, TimeOf()), t, j) == SumUpTo(s, t, j) + if UpTo(x, t, j) then x.delta else 0
  {
    var r := Insert(s, x, TimeOf());
    if s == [] || s[|s| - 1].ts <= x.ts {
      assert r[..|r| - 1] == s;
    } else {
      InsertSum(s[..|s| - 1], x, t, j);
      assert r[..|r| - 1] == Insert(s[..|s| - 1], x, TimeOf());
    }
  }

  lemma {:induction false} SortSum(s: seq<Point>, t: int, j: int)
    ensures SumUpTo(SortByTime(s), t, j) == SumUpTo(s, t, j)
  {
    if s != [] {
      SortSum(s[..|s| - 1], t, j);
      InsertSum(SortByTime(s[..|s| - 1]), s[|s| - 1], t, j);
    }
  }

  lemma {:induction false} InsertSorted(s: seq<Point>, x: Point)
    requires Sorted(s) && forall k :: 0 <= k < |s| && s[k].ts <= x.ts ==> Less(s[k], x)
    ensures Sorted(Insert(s, x, TimeOf()))
  {
    if s != [] && s[|s| - 1].ts > x.ts {
      var n := |s| - 1;
      InsertSorted(s[..n], x);
      var r := Insert(s[..n], x, TimeOf());
      InsertMembers(s[..n], x, TimeOf());
      forall k | 0 <= k < |r|
        ensures Less(r[k], s[n])
      {
        assert r[k] in multiset(r);
        assert r[k] in s[..n] || r[k] == x;
      }
    }
  }

  /** The points of the first jobs, in the order of (time, job). */
  lemma {:induction false} PointsSorted(jobs: seq<Job>)
    ensures Sorted(SortByTime(PointsOf(jobs)))
    ensures forall p :: p in PointsOf(jobs) ==> p.job < |jobs|
  {
    if jobs != [] {
      var n := |jobs| - 1;
      var before := PointsOf(jobs[..n]);
      PointsSorted(jobs[..n]);
      if Forward(jobs[n]) {
        var start, end := Point(jobs[n].run.value, 1, n), Point(jobs[n].end.value, -1, n);
        assert PointsOf(jobs) == before + [start] + [end];
        TwoMoreSorted(before, start, end, n);
      } else {
        assert PointsOf(jobs) == before;
      }
    }
  }

  lemma TwoMoreSorted(before: seq<Point>, start: Point, end: Point, n: nat)
    requires Sorted(SortByTime(before)) && forall p :: p in before ==> p.job < n
    requires start.job == n && end.job == n && start.ts < end.ts
    ensures Sorted(SortByTime(before + [start] + [end]))
    ensures forall p :: p in before + [start] + [end] ==> p.job < n + 1
  {
    AppendSorted(before, start, n);
    AppendLater(before + [start], end, start, n);
  }

  lemma AppendSorted(s: seq<Point>, x: Point, n: nat)
    requires Sorted(SortByTime(s)) && x.job == n && forall p :: p in s ==> p.job < n
    ensures Sorted(SortByTime(s + [x]))
  {
    SortAppend(s, x, TimeOf());
    var r := SortByTime(s);
    forall k | 0 <= k < |r| && r[k].ts <= x.ts
      ensures Less(r[k], x)
    {
      InBoth(s, r[k], TimeOf());
    }
    InsertSorted(r, x);
  }

  lemma AppendLater(s: seq<Point>, x: Point, start: Point, n: nat)
    requires Sorted(SortByTime(s)) && x.job == n && start.ts < x.ts
    requires forall p :: p in s ==> p.job < n || p == start
    ensures Sorted(SortByTime(s + [x]))
  {
    SortAppend(s, x, TimeOf());
    var r := SortByTime(s);
    forall k | 0 <= k < |r| && r[k].ts <= x.ts
      ensures Less(r[k], x)
    {
      InBoth(s, r[k], TimeOf());
    }
    InsertSorted(r, x);
  }

  /** Whether job `i` has started and not ended once the points up to (t, j) are processed. */
  predicate Active(job: Job, i: int, t: int, j: int) {
    && Forward(job)
    && (job.run.value < t || (job.run.value == t && i <= j))
    && !(job.end.value < t || (job.end.value == t && i <= j))
  }

  function ActiveSet(jobs: seq<Job>, t: int, j: int): set<nat> {
    set i: nat | i < |jobs| && Active(jobs[i], i, t, j)
  }

  lemma {:induction false} SumIsActive(jobs: seq<Job>, t: int, j: int)
    ensures SumUpTo(PointsOf(jobs), t, j) == |ActiveSet(jobs, t, j)|
  {
    if jobs == [] {
      assert ActiveSet(jobs, t, j) == {};
    } else {
      SumIsActive(jobs[..|jobs| - 1], t, j);
      SumGrows(jobs, t, j);
      ActiveGrows(jobs, t, j);
    }
  }

  lemma SumGrows(jobs: seq<Job>, t: int, j: int)
    requires jobs != []
    ensures var n := |jobs| - 1;
            SumUpTo(PointsOf(jobs), t, j) ==
            SumUpTo(PointsOf(jobs[..n]), t, j) + if Active(jobs[n], n, t, j) then 1 else 0
  {
    var n := |jobs| - 1;
    var before := PointsOf(jobs[..n]);
    if Forward(jobs[n]) {
      var start, end := Point(jobs[n].run.value, 1, n), Point(jobs[n].end.value, -1, n);
      SumAppend(before, start, t, j);
      SumAppend(before + [start], end, t, j);
      assert PointsOf(jobs) == before + [start] + [end];
    } else {
      assert PointsOf(jobs) == before;
    }
  }

  lemma ActiveGrows(jobs: seq<Job>, t: int, j: int)
    requires jobs != []
    ensures var n := |jobs| - 1;
            |ActiveSet(jobs, t, j)| == |ActiveSet(jobs[..n], t, j)| + if Active(jobs[n], n, t, j) then 1 else 0
  {
    var n := |jobs| - 1;
    var before, after := ActiveSet(jobs[..n], t, j), ActiveSet(jobs, t, j);
    assert forall i: nat :: i < n ==> jobs[..n][i] == jobs[i];
    if Active(jobs[n], n, t, j) {
      assert after == before + {n};
    } else {
      assert after == before;
    }
  }

  lemma SumAppend(s: seq<Point>, x: Point, t: int, j: int)
    ensures SumUpTo(s + [x], t, j) == SumUpTo(s, t, j) + if UpTo(x, t, j) then x.delta else 0
  {
    assert (s + [x])[..|s|] == s;
  }

  lemma {:induction false} SumOfAll(s: seq<Point>, t: int, j: int)
    requires forall k :: 0 <= k < |s| ==> UpTo(s[k], t, j)
    ensures SumUpTo(s, t, j) == Total(s)
  {
    if s != [] {
      SumOfAll(s[..|s| - 1], t, j);
    }
  }

  lemma {:induction false} EntryIsPrefixSum(s: seq<Point>, k: nat)
    requires Sorted(s) && k < |s|
    ensures Accumulate(s)[k].count == SumUpTo(s, s[k].ts, s[k].job)
  {
    var n := |s| - 1;
    if k == n {
      forall i | 0 <= i < |s|
        ensures UpTo(s[i], s[k].ts, s[k].job)
      {
        assert i < k ==> Less(s[i], s[k]);
      }
      SumOfAll(s, s[k].ts, s[k].job);
    } else {
      EntryIsPrefixSum(s[..n], k);
      assert Less(s[k], s[n]);
    }
  }

  /**
   * Every entry counts the jobs that are active once its point is processed, so no entry is negative, whatever the
   * timestamps.
   */
  lemma EntryCountsActiveJobs(jobs: seq<Job>, k: nat)
    requires k < |Series(jobs)|
    ensures var p := SortByTime(PointsOf(jobs))[k];
            && Series(jobs)[k].ts == p.ts && p in PointsOf(jobs)
            && Series(jobs)[k].count == |ActiveSet(jobs, p.ts, p.job)|
    ensures Series(jobs)[k].count >= 0
  {
    var s := SortByTime(PointsOf(jobs));
    PointsSorted(jobs);
    EntryIsPrefixSum(s, k);
    SortSum(PointsOf(jobs), s[k].ts, s[k].job);
    SumIsActive(jobs, s[k].ts, s[k].job);
    InBoth(PointsOf(jobs), s[k], TimeOf());
  }

  // ------------------------------------------------------------------ settled values

  /** The value of the step curve at time `t`: the last entry at or before it. */
  function SettledValue(series: seq<Entry>, t: int): int {
    if series == [] then 0
    else if series[|series| - 1].ts <= t then series[|series| - 1].count
    else SettledValue(series[..|series| - 1], t)
  }

  /** The jobs running at time `t`, on half-open windows. */
  function RunningAt(jobs: seq<Job>, t: int): set<nat> {
    set i: nat | i < |jobs| && Forward(jobs[i]) && jobs[i].run.value <= t < jobs[i].end.value
  }

  lemma {:induction false} SettledIsPrefixSum(s: seq<Point>, t: int, j: int)
    requires Sorted(s) && forall k :: 0 <= k < |s| ==> s[k].job <= j
    ensures SettledValue(Accumulate(s), t) == SumUpTo(s, t, j)
  {
    if s != [] {
      var n := |s| - 1;
      assert Accumulate(s)[..n] == Accumulate(s[..n]);
      if s[n].ts <= t {
        forall i | 0 <= i < |s|
          ensures UpTo(s[i], t, j)
        {
          assert i < n ==> Less(s[i], s[n]);
        }
        SumOfAll(s, t, j);
      } else {
        SettledIsPrefixSum(s[..n], t, j);
      }
    }
  }

  /** The chart at time `t` shows exactly how many jobs run at `t`. */
  lemma SettledIsConcurrency(jobs: seq<Job>, t: int)
    ensures SettledValue(Series(jobs), t) == |RunningAt(jobs, t)|
  {
    var s := SortByTime(PointsOf(jobs));
    PointsSorted(jobs);
    forall k | 0 <= k < |s|
      ensures s[k].job <= |jobs|
    {
      InBoth(PointsOf(jobs), s[k], TimeOf());
    }
    SettledIsPrefixSum(s, t, |jobs|);
    SortSum(PointsOf(jobs), t, |jobs|);
    SumIsActive(jobs, t, |jobs|);
    assert ActiveSet(jobs, t, |jobs|) == RunningAt(jobs, t);
  }

  lemma {:induction false} PointMembers(jobs: seq<Job>, i: nat)
    requires i < |jobs| && Forward(jobs[i])
    ensures Point(jobs[i].run.value, 1, i) in PointsOf(jobs) && Point(jobs[i].end.value, -1, i) in PointsOf(jobs)
  {
    var n := |jobs| - 1;
    if i < n {
      PointMembers(jobs[..n], i);
    }
  }

  /** The curve comes back to zero. */
  lemma SeriesEndsAtZero(jobs: seq<Job>)
    requires Series(jobs) != []
    ensures Series(jobs)[|Series(jobs)| - 1].count == 0
  {
    var s := SortByTime(PointsOf(jobs));
    var n := |s| - 1;
    PointsSorted(jobs);
    SettledIsConcurrency(jobs, s[n].ts);
    forall i: nat | i < |jobs| && Forward(jobs[i])
      ensures jobs[i].end.value <= s[n].ts
    {
      PointMembers(jobs, i);
      InBoth(PointsOf(jobs), Point(jobs[i].end.value, -1, i), TimeOf());
      var k :| 0 <= k < |s| && s[k] == Point(jobs[i].end.value, -1, i);
      assert k < n ==> Less(s[k], s[n]);
    }
    assert RunningAt(jobs, s[n].ts) == {};
  }

  // ------------------------------------------------------------------ overlaps

  predicate Overlap(a: Job, b: Job)
    requires Forward(a) && Forward(b)
  {
    a.runner == b.runner && a.run.value < b.end.value && b.run.value < a.end.value
  }

  predicate DistinctIds(jobs: seq<Job>) {
    forall i, j :: 0 <= i < j < |jobs| ==> jobs[i].id != jobs[j].id
  }

  /** What `find_overlaps` records for a pair of positions: an overlap of two different forward jobs. */
  predicate OverlapAt(jobs: seq<Job>, i: int, j: int)
    requires 0 <= i < |jobs| && 0 <= j < |jobs|
  {
    i != j && Forward(jobs[i]) && Forward(jobs[j]) && Overlap(jobs[i], jobs[j])
  }

  /** The overlaps among the pairs seen so far: all pairs with a first member before `i`, and (i, j') for j' < j. */
  predicate Seen(i: int, j: int, a: int, b: int) {
    var low, high := if a < b then a else b, if a < b then b else a;
    low < i || (low == i && high < j)
  }

  ghost predicate Recorded(running: seq<Job>, overlaps: map<nat, set<nat>>, i: int, j: int) {
    && (forall a :: 0 <= a < |running| ==> running[a].id in overlaps)
    && (forall a, b :: 0 <= a < |running| && 0 <= b < |running| ==>
          (running[b].id in overlaps[running[a].id] <==> Seen(i, j, a, b) && OverlapAt(running, a, b)))
    && (forall a, x :: 0 <= a < |running| && x in overlaps[running[a].id] ==>
          exists b :: 0 <= b < |running| && running[b].id == x)
  }

  function IdsOf(jobs: seq<Job>): set<nat> {
    set a | 0 <= a < |jobs| :: jobs[a].id
  }

  /** The two loops of `find_overlaps` over the forward jobs. */
  method RecordOverlaps(running: seq<Job>) returns (overlaps: map<nat, set<nat>>)
    requires DistinctIds(running) && forall a :: 0 <= a < |running| ==> Forward(running[a])
    ensures overlaps.Keys == IdsOf(running)
    ensures Recorded(running, overlaps, |running|, |running|)
  {
    overlaps := map id | id in IdsOf(running) :: {};
    NothingRecorded(running, overlaps);
    var i := 0;
    while i < |running|
      invariant 0 <= i <= |running|
      invariant overlaps.Keys == IdsOf(running)
      invariant Recorded(running, overlaps, i, 0)
    {
      overlaps := RecordRow(running, overlaps, i);
      i := i + 1;
    }
    SamePairs(running, overlaps, i, 0, i, i);
  }

  lemma NothingRecorded(running: seq<Job>, overlaps: map<nat, set<nat>>)
    requires forall a :: 0 <= a < |running| ==> running[a].id in overlaps && overlaps[running[a].id] == {}
    ensures Recorded(running, overlaps, 0, 0)
  {
  }

  /** What is recorded depends only on which pairs were seen. */
  lemma SamePairs(running: seq<Job>, overlaps: map<nat, set<nat>>, i: int, j: int, i': int, j': int)
    requires Recorded(running, overlaps, i, j)
    requires forall a, b :: 0 <= a < |running| && 0 <= b < |running| && a != b ==> (Seen(i, j, a, b) <==> Seen(i', j', a, b))
    ensures Recorded(running, overlaps, i', j')
  {
    forall a, b | 0 <= a < |running| && 0 <= b < |running|
      ensures running[b].id in overlaps[running[a].id] <==> Seen(i', j', a, b) && OverlapAt(running, a, b)
    {
      assert running[b].id in overlaps[running[a].id] <==> Seen(i, j, a, b) && OverlapAt(running, a, b);
    }
  }

  method RecordRow(running: seq<Job>, before: map<nat, set<nat>>, i: nat) returns (overlaps: map<nat, set<nat>>)
    requires DistinctIds(running) && forall a :: 0 <= a < |running| ==> Forward(running[a])
    requires i < |running| && Recorded(running, before, i, 0)
    ensures overlaps.Keys == before.Keys
    ensures Recorded(running, overlaps, i + 1, 0)
  {
    overlaps := before;
    var j := i + 1;
    SamePairs(running, overlaps, i, 0, i, j);
    while j < |running|
      invariant i < j <= |running|
      invariant overlaps.Keys == before.Keys
      invariant Recorded(running, overlaps, i, j)
    {
      overlaps := RecordPair(running, overlaps, i, j);
      j := j + 1;
    }
    SamePairs(running, overlaps, i, j, i + 1, 0);
  }

  method RecordPair(running: seq<Job>, before: map<nat, set<nat>>, i: nat, j: nat) returns (overlaps: map<nat, set<nat>>)
    requires DistinctIds(running) && forall a :: 0 <= a < |running| ==> Forward(running[a])
    requires i < j < |running| && Recorded(running, before, i, j)
    ensures overlaps.Keys == before.Keys
    ensures Recorded(running, overlaps, i, j + 1)
  {
    overlaps := before;
    var a, b := running[i], running[j];
    if a.runner == b.runner && a.run.value < b.end.value && b.run.value < a.end.value {
      overlaps := overlaps[a.id := overlaps[a.id] + {b.id}];
      overlaps := overlaps[b.id := overlaps[b.id] + {a.id}];
    }
    PairRecorded(running, before, overlaps, i, j);
  }

  lemma PairRecorded(running: seq<Job>, was: map<nat, set<nat>>, now: map<nat, set<nat>>, i: nat, j: nat)
    requires DistinctIds(running) && forall a :: 0 <= a < |running| ==> Forward(running[a])
    requires i < j < |running| && Recorded(running, was, i, j)
    requires now == if Overlap(running[i], running[j])
                    then was[running[i].id := was[running[i].id] + {running[j].id}]
                            [running[j].id := was[running[j].id] + {running[i].id}]
                    else was
    ensures Recorded(running, now, i, j + 1)
  {
    forall a, b | 0 <= a < |running| && 0 <= b < |running|
      ensures running[b].id in now[running[a].id] <==> Seen(i, j + 1, a, b) && OverlapAt(running, a, b)
    {
      assert running[b].id in was[running[a].id] <==> Seen(i, j, a, b) && OverlapAt(running, a, b);
    }
  }

  function ForwardOf(jobs: seq<Job>): (r: seq<Job>)
    ensures forall a :: 0 <= a < |r| ==> Forward(r[a])
  {
    if jobs == [] then []
    else ForwardOf(jobs[..|jobs| - 1]) + if Forward(jobs[|jobs| - 1]) then [jobs[|jobs| - 1]] else []
  }

  lemma {:induction false} ForwardMembers(jobs: seq<Job>, x: Job)
    ensures x in ForwardOf(jobs) <==> x in jobs && Forward(x)
  {
    if jobs != [] {
      var n := |jobs| - 1;
      ForwardMembers(jobs[..n], x);
      assert jobs == jobs[..n] + [jobs[n]];
    }
  }

  lemma {:induction false} ForwardDistinct(jobs: seq<Job>)
    requires DistinctIds(jobs)
    ensures DistinctIds(ForwardOf(jobs))
  {
    if jobs != [] {
      var n := |jobs| - 1;
      ForwardDistinct(jobs[..n]);
      var before := ForwardOf(jobs[..n]);
      forall a | 0 <= a < |before|
        ensures before[a].id != jobs[n].id
      {
        ForwardMembers(jobs[..n], before[a]);
      }
    }
  }

  /** The contract of `find_overlaps`: a job's record holds exactly the jobs it overlaps. */
  ghost predicate OverlapsOf(jobs: seq<Job>, overlaps: map<nat, set<nat>>) {
    forall i, j :: 0 <= i < |jobs| && 0 <= j < |jobs| && Forward(jobs[i]) ==>
      && jobs[i].id in overlaps
      && (jobs[j].id in overlaps[jobs[i].id] <==> OverlapAt(jobs, i, j))
  }

  method FindOverlaps(jobs: seq<Job>) returns (overlaps: map<nat, set<nat>>)
    requires DistinctIds(jobs)
    ensures OverlapsOf(jobs, overlaps)
    ensures forall id :: id in overlaps ==> exists j :: j in jobs && Forward(j) && j.id == id
  {
    var running := ForwardOf(jobs);
    ForwardDistinct(jobs);
    overlaps := RecordOverlaps(running);
    OverlapsOfAll(jobs, overlaps);
    forall id | id in overlaps
      ensures exists j :: j in jobs && Forward(j) && j.id == id
    {
      var a :| 0 <= a < |running| && running[a].id == id;
      ForwardMembers(jobs, running[a]);
    }
  }

  lemma OverlapsOfAll(jobs: seq<Job>, overlaps: map<nat, set<nat>>)
    requires DistinctIds(jobs) && Recorded(ForwardOf(jobs), overlaps, |ForwardOf(jobs)|, |ForwardOf(jobs)|)
    ensures OverlapsOf(jobs, overlaps)
  {
    forall i, j | 0 <= i < |jobs| && 0 <= j < |jobs| && Forward(jobs[i])
      ensures jobs[i].id in overlaps && (jobs[j].id in overlaps[jobs[i].id] <==> OverlapAt(jobs, i, j))
    {
      PairOverlap(jobs, overlaps, i, j);
    }
  }

  lemma PairOverlap(jobs: seq<Job>, overlaps: map<nat, set<nat>>, i: nat, j: nat)
    requires DistinctIds(jobs) && Recorded(ForwardOf(jobs), overlaps, |ForwardOf(jobs)|, |ForwardOf(jobs)|)
    requires i < |jobs| && j < |jobs| && Forward(jobs[i])
    ensures jobs[i].id in overlaps && (jobs[j].id in overlaps[jobs[i].id] <==> OverlapAt(jobs, i, j))
  {
    var running := ForwardOf(jobs);
    ForwardMembers(jobs, jobs[i]);
    ForwardMembers(jobs, jobs[j]);
    var a :| 0 <= a < |running| && running[a] == jobs[i];
    if Forward(jobs[j]) {
      var b :| 0 <= b < |running| && running[b] == jobs[j];
      assert running[b].id in overlaps[running[a].id] <==> OverlapAt(running, a, b);
      assert a == b <==> i == j;
    } else if jobs[j].id in overlaps[jobs[i].id] {
      var b :| 0 <= b < |running| && running[b].id == jobs[j].id;
      ForwardMembers(jobs, running[b]);
      assert false;
    }
  }

  // ------------------------------------------------------------------ peaks and cliques

  /** A set of jobs that overlap pairwise, as `find_overlaps` recorded it. */
  ghost predicate Clique(jobs: seq<Job>, overlaps: map<nat, set<nat>>, s: set<nat>) {
    && (forall i :: i in s ==> i < |jobs| && Forward(jobs[i]) && jobs[i].id in overlaps)
    && (forall i, j :: i in s && j in s && i != j ==> jobs[j].id in overlaps[jobs[i].id])
  }

  /** The last entry of its timestamp. */
  predicate IsSettled(series: seq<Entry>, k: nat)
    requires k < |series|
  {
    k + 1 == |series| || series[k + 1].ts != series[k].ts
  }

  /** The highest settled value of the first `n` entries. */
  function SettledPeak(series: seq<Entry>, n: nat): (r: int)
    requires n <= |series|
    ensures r >= 0
    ensures forall k :: 0 <= k < n && IsSettled(series, k) ==> series[k].count <= r
    ensures r == 0 || exists k :: 0 <= k < n && IsSettled(series, k) && series[k].count == r
  {
    if n == 0 then 0
    else
      var rest := SettledPeak(series, n - 1);
      if IsSettled(series, n - 1) && series[n - 1].count > rest then series[n - 1].count else rest
  }

  predicate InTimeOrder(series: seq<Entry>) {
    forall a, b :: 0 <= a < b < |series| ==> series[a].ts <= series[b].ts
  }

  lemma SeriesInTimeOrder(jobs: seq<Job>)
    ensures InTimeOrder(Series(jobs))
  {
    var s := SortByTime(PointsOf(jobs));
    PointsSorted(jobs);
    forall a, b | 0 <= a < b < |s|
      ensures s[a].ts <= s[b].ts
    {
      assert Less(s[a], s[b]);
    }
  }

  /** A settled value is zero or the count of a settled entry, and every settled entry is the value at its time. */
  lemma {:induction false} SettledEntry(series: seq<Entry>, t: int, n: nat) returns (k: int)
    requires InTimeOrder(series) && n <= |series| && (n < |series| ==> series[n].ts > t)
    ensures k == -1 ==> SettledValue(series[..n], t) == 0
    ensures k != -1 ==> 0 <= k < n && IsSettled(series, k) && SettledValue(series[..n], t) == series[k].count
  {
    if n == 0 {
      k := -1;
    } else if series[n - 1].ts <= t {
      k := n - 1;
    } else {
      k := SettledEntry(series, t, n - 1);
      assert series[..n][..n - 1] == series[..n - 1];
    }
  }

  lemma {:induction false} ValueAtSettledEntry(series: seq<Entry>, k: nat)
    requires InTimeOrder(series) && k < |series| && IsSettled(series, k)
    ensures SettledValue(series, series[k].ts) == series[k].count
  {
    var n := |series| - 1;
    if k < n {
      assert series[k].ts < series[n].ts by {
        assert series[k].ts <= series[k + 1].ts;
        assert k + 1 < n ==> series[k + 1].ts <= series[n].ts;
      }
      assert series[..n][k] == series[k];
      assert k + 1 < n ==> series[..n][k + 1] == series[k + 1];
      ValueAtSettledEntry(series[..n], k);
    }
  }

  lemma SettledValueBelowPeak(series: seq<Entry>, t: int)
    requires InTimeOrder(series)
    ensures SettledValue(series, t) <= SettledPeak(series, |series|)
  {
    var k := SettledEntry(series, t, |series|);
    assert series[..|series|] == series;
  }

  lemma RunningIsClique(jobs: seq<Job>, overlaps: map<nat, set<nat>>, t: int, runner: nat)
    requires OverlapsOf(jobs, overlaps) && forall i :: 0 <= i < |jobs| ==> jobs[i].runner == runner
    ensures Clique(jobs, overlaps, RunningAt(jobs, t))
  {
    var s := RunningAt(jobs, t);
    forall i, j | i in s && j in s && i != j
      ensures jobs[j].id in overlaps[jobs[i].id]
    {
      assert OverlapAt(jobs, i, j);
    }
  }

  function StartOf(j: Job): int {
    if Forward(j) then j.run.value else 0
  }

  /** The member of a set of jobs that starts last. */
  lemma {:induction false} LastToStart(jobs: seq<Job>, s: set<nat>) returns (m: nat)
    requires s != {} && forall i :: i in s ==> i < |jobs|
    ensures m in s && forall i :: i in s ==> StartOf(jobs[i]) <= StartOf(jobs[m])
    decreases |s|
  {
    m :| m in s;
    if s != {m} {
      assert s - {m} != {};
      var other := LastToStart(jobs, s - {m});
      if StartOf(jobs[m]) < StartOf(jobs[other]) {
        m := other;
      }
    }
  }

  /** Intervals that overlap pairwise share a moment: the start of the one that starts last. */
  lemma CliqueFitsSomeMoment(jobs: seq<Job>, overlaps: map<nat, set<nat>>, s: set<nat>)
    requires OverlapsOf(jobs, overlaps) && Clique(jobs, overlaps, s) && s != {}
    ensures exists t :: s <= RunningAt(jobs, t)
  {
    var m := LastToStart(jobs, s);
    forall i | i in s
      ensures i in RunningAt(jobs, jobs[m].run.value)
    {
      if i != m {
        assert OverlapAt(jobs, i, m);
      }
    }
    assert s <= RunningAt(jobs, jobs[m].run.value);
  }

  /**
   * The settled peak of a runner's curve is the size of the largest set of jobs that overlap pairwise: no such set is
   * larger, and there is one of that size.
   */
  lemma PeakIsLargestClique(jobs: seq<Job>, overlaps: map<nat, set<nat>>, runner: nat)
    requires OverlapsOf(jobs, overlaps) && forall i :: 0 <= i < |jobs| ==> jobs[i].runner == runner
    ensures forall s :: Clique(jobs, overlaps, s) ==> |s| <= SettledPeak(Series(jobs), |Series(jobs)|)
    ensures exists s :: Clique(jobs, overlaps, s) && |s| == SettledPeak(Series(jobs), |Series(jobs)|)
  {
    var series := Series(jobs);
    var peak := SettledPeak(series, |series|);
    SeriesInTimeOrder(jobs);
    forall s | Clique(jobs, overlaps, s)
      ensures |s| <= peak
    {
      if s != {} {
        CliqueFitsSomeMoment(jobs, overlaps, s);
        var t :| s <= RunningAt(jobs, t);
        SubsetSize(s, RunningAt(jobs, t));
        SettledIsConcurrency(jobs, t);
        SettledValueBelowPeak(series, t);
      }
    }
    if peak == 0 {
      assert Clique(jobs, overlaps, {});
    } else {
      var k :| 0 <= k < |series| && IsSettled(series, k) && series[k].count == peak;
      ValueAtSettledEntry(series, k);
      SettledIsConcurrency(jobs, series[k].ts);
      RunningIsClique(jobs, overlaps, series[k].ts, runner);
    }
  }

  // ------------------------------------------------------------------ entries in the middle of a tie

  /** The jobs an entry counts overlap pairwise. */
  ghost predicate EntriesCountOverlaps(jobs: seq<Job>) {
    forall k, i, j ::
      0 <= k < |Series(jobs)| && i in CountedBy(jobs, k) && j in CountedBy(jobs, k) && i != j ==> OverlapAt(jobs, i, j)
  }

  /** The jobs entry `k` counts; `EntryCountsActiveJobs` says there are as many as its value. */
  function CountedBy(jobs: seq<Job>, k: nat): set<nat> {
    var s := SortByTime(PointsOf(jobs));
    if k < |s| then ActiveSet(jobs, s[k].ts, s[k].job) else {}
  }

  /** A job that starts at the very moment another one ends, and comes before it in the list. */
  ghost predicate TouchesOutOfOrder(jobs: seq<Job>) {
    exists b, a :: 0 <= b < a < |jobs| && Forward(jobs[a]) && Forward(jobs[b]) && jobs[a].end == jobs[b].run
  }

  lemma StartEntry(jobs: seq<Job>, b: nat) returns (k: nat)
    requires b < |jobs| && Forward(jobs[b])
    ensures k < |Series(jobs)| && CountedBy(jobs, k) == ActiveSet(jobs, jobs[b].run.value, b)
  {
    var p := Point(jobs[b].run.value, 1, b);
    PointMembers(jobs, b);
    InBoth(PointsOf(jobs), p, TimeOf());
    k :| 0 <= k < |SortByTime(PointsOf(jobs))| && SortByTime(PointsOf(jobs))[k] == p;
  }

  lemma ActiveTogether(jobs: seq<Job>, i: nat, j: nat, t: int, at: int)
    requires i < |jobs| && j < |jobs| && i != j && jobs[i].runner == jobs[j].runner
    requires Active(jobs[i], i, t, at) && Active(jobs[j], j, t, at)
    requires !TouchesOutOfOrder(jobs)
    ensures OverlapAt(jobs, i, j)
  {
    if jobs[i].run.value >= jobs[j].end.value {
      assert false;
    }
    if jobs[j].run.value >= jobs[i].end.value {
      assert false;
    }
  }

  /**
   * The points are sorted by time only. So an entry counts jobs that do not overlap exactly when some job starts at the
   * moment another one ends and comes before it in the list.
   */
  lemma EntriesOvershootExactlyOnTouch(jobs: seq<Job>, runner: nat)
    requires forall i :: 0 <= i < |jobs| ==> jobs[i].runner == runner
    ensures EntriesCountOverlaps(jobs) <==> !TouchesOutOfOrder(jobs)
  {
    if TouchesOutOfOrder(jobs) {
      var b, a :| 0 <= b < a < |jobs| && Forward(jobs[a]) && Forward(jobs[b]) && jobs[a].end == jobs[b].run;
      var k := StartEntry(jobs, b);
      assert a in CountedBy(jobs, k) && b in CountedBy(jobs, k);
      assert !OverlapAt(jobs, a, b);
    } else {
      forall k, i, j | 0 <= k < |Series(jobs)| && i in CountedBy(jobs, k) && j in CountedBy(jobs, k) && i != j
        ensures OverlapAt(jobs, i, j)
      {
        var p := SortByTime(PointsOf(jobs))[k];
        ActiveTogether(jobs, i, j, p.ts, p.job);
      }
    }
  }

  /** `max` over all the entries, which the page shows as "peak overlap". */
  function RawPeak(series: seq<Entry>): (r: int)
    ensures forall k :: 0 <= k < |series| ==> series[k].count <= r
    ensures r >= 0 && (r == 0 || exists k :: 0 <= k < |series| && series[k].count == r)
  {
    if series == [] then 0
    else
      var rest := RawPeak(series[..|series| - 1]);
      if series[|series| - 1].count > rest then series[|series| - 1].count else rest
  }

  /** Job `i` starts before job `j` ends, in the order the points are processed in: by time, then by place in the list. */
  predicate StartsBeforeEnd(jobs: seq<Job>, i: nat, j: nat)
    requires i < |jobs| && j < |jobs| && Forward(jobs[i]) && Forward(jobs[j])
  {
    jobs[i].run.value < jobs[j].end.value || (jobs[i].run.value == jobs[j].end.value && i < j)
  }

  /** Jobs that overlap or touch, pairwise, in that order. */
  ghost predicate Meeting(jobs: seq<Job>, s: set<nat>) {
    && (forall i :: i in s ==> i < |jobs| && Forward(jobs[i]))
    && (forall i, j :: i in s && j in s && i != j ==> StartsBeforeEnd(jobs, i, j))
  }

  lemma EntryIsMeeting(jobs: seq<Job>, k: nat)
    requires k < |Series(jobs)|
    ensures Meeting(jobs, CountedBy(jobs, k))
  {
  }

  predicate StartsNoLater(jobs: seq<Job>, i: nat, m: nat)
    requires i < |jobs| && m < |jobs|
  {
    StartOf(jobs[i]) < StartOf(jobs[m]) || (StartOf(jobs[i]) == StartOf(jobs[m]) && i <= m)
  }

  /** The member that starts last, in that order. */
  lemma {:induction false} LastOfMeeting(jobs: seq<Job>, s: set<nat>) returns (m: nat)
    requires s != {} && forall i :: i in s ==> i < |jobs|
    ensures m in s && forall i :: i in s ==> StartsNoLater(jobs, i, m)
    decreases |s|
  {
    m :| m in s;
    if s != {m} {
      assert s - {m} != {};
      var other := LastOfMeeting(jobs, s - {m});
      assert forall i :: i in s ==> i == m || i in s - {m};
      if !StartsNoLater(jobs, other, m) {
        m := other;
      }
    }
  }

  lemma MeetingFitsSomeEntry(jobs: seq<Job>, s: set<nat>) returns (k: nat)
    requires Meeting(jobs, s) && s != {}
    ensures k < |Series(jobs)| && s <= CountedBy(jobs, k)
  {
    var m := LastOfMeeting(jobs, s);
    k := StartEntry(jobs, m);
    forall i | i in s
      ensures Active(jobs[i], i, jobs[m].run.value, m)
    {
      assert StartsNoLater(jobs, i, m);
    }
  }

  /** The highest entry of the curve is the size of the largest set of jobs that meet pairwise. */
  lemma RawPeakIsLargestMeeting(jobs: seq<Job>)
    ensures forall s :: Meeting(jobs, s) ==> |s| <= RawPeak(Series(jobs))
    ensures exists s :: Meeting(jobs, s) && |s| == RawPeak(Series(jobs))
  {
    var series := Series(jobs);
    forall s | Meeting(jobs, s)
      ensures |s| <= RawPeak(series)
    {
      if s != {} {
        var k := MeetingFitsSomeEntry(jobs, s);
        SubsetSize(s, CountedBy(jobs, k));
        EntryCountsActiveJobs(jobs, k);
        assert series[k].count <= RawPeak(series);
      }
    }
    if RawPeak(series) == 0 {
      assert Meeting(jobs, {});
    } else {
      var k :| 0 <= k < |series| && series[k].count == RawPeak(series);
      EntryCountsActiveJobs(jobs, k);
      EntryIsMeeting(jobs, k);
    }
  }

  /** The curve of a runner never shows less than its settled peak. */
  lemma SettledBelowRaw(series: seq<Entry>)
    ensures SettledPeak(series, |series|) <= RawPeak(series)
  {
  }

  /** Every set of jobs that meet pairwise is matched by one that overlap pairwise. */
  ghost predicate MeetingsAreMatched(jobs: seq<Job>, overlaps: map<nat, set<nat>>) {
    forall s :: Meeting(jobs, s) ==> exists c :: Clique(jobs, overlaps, c) && |c| >= |s|
  }

  /**
   * The highest entry of a runner's curve is its real peak exactly when no set of jobs that only touch, out of order, is
   * larger than every set that overlap.
   */
  lemma PeakShownExactlyWhen(jobs: seq<Job>, overlaps: map<nat, set<nat>>, runner: nat)
    requires OverlapsOf(jobs, overlaps) && forall i :: 0 <= i < |jobs| ==> jobs[i].runner == runner
    ensures RawPeak(Series(jobs)) == SettledPeak(Series(jobs), |Series(jobs)|) <==> MeetingsAreMatched(jobs, overlaps)
  {
    var raw, peak := RawPeak(Series(jobs)), SettledPeak(Series(jobs), |Series(jobs)|);
    RawPeakIsLargestMeeting(jobs);
    PeakIsLargestClique(jobs, overlaps, runner);
    SettledBelowRaw(Series(jobs));
    var largest :| Clique(jobs, overlaps, largest) && |largest| == peak;
    var meeting :| Meeting(jobs, meeting) && |meeting| == raw;
    if MeetingsAreMatched(jobs, overlaps) {
      var c :| Clique(jobs, overlaps, c) && |c| >= |meeting|;
    }
  }

  lemma TouchShowsTwo(jobs: seq<Job>, b: nat, a: nat)
    requires b < a < |jobs| && Forward(jobs[a]) && Forward(jobs[b]) && jobs[a].end == jobs[b].run
    ensures RawPeak(Series(jobs)) >= 2
  {
    var k := StartEntry(jobs, b);
    EntryCountsActiveJobs(jobs, k);
    SubsetSize({a, b}, CountedBy(jobs, k));
    assert Series(jobs)[k].count >= 2;
  }

  /** A job that runs after another one created later, and starts as that one ends. */
  predicate TouchingJobs(jobs: seq<Job>) {
    |jobs| == 2 && jobs[0] == Job(0, 0, Some(5), Some(9)) && jobs[1] == Job(1, 0, Some(0), Some(5))
  }

  /** The highest entry can be too high: these two never run together, and their curve shows two. */
  lemma PeakShownCanOvershoot(jobs: seq<Job>)
    requires TouchingJobs(jobs)
    ensures TouchesOutOfOrder(jobs)
    ensures forall t :: |RunningAt(jobs, t)| <= 1
    ensures RawPeak(Series(jobs)) >= 2
  {
    forall t
      ensures |RunningAt(jobs, t)| <= 1
    {
      NeverTogether(jobs, t);
    }
    assert jobs[1].end == jobs[0].run;
    TouchShowsTwo(jobs, 0, 1);
  }

  lemma NeverTogether(jobs: seq<Job>, t: int)
    requires TouchingJobs(jobs)
    ensures |RunningAt(jobs, t)| <= 1
  {
    SubsetSize(RunningAt(jobs, t), if 0 <= t < 5 then {1} else {0});
  }
}
