/**
 * The number the timeline page shows as "peak overlap": the highest entry of the runners' curves merged into one, against
 * the largest set of jobs of one runner that overlap pairwise.
 */
module TimelinePage {
  import opened Collections
  import opened Wrappers
  import opened StableSort
  import opened JobTimeline
  import opened TimelineMerge

  // ------------------------------------------------------------------ the entries of a merged curve

  lemma {:induction false} WalkEntry(events: seq<Event>, n: nat, k: nat)
    requires n > 0 && k < |events|
    ensures Walk(events, n)[k].count == Highest(CurrentAfter(events[..k + 1], n))
  {
    var before := events[..|events| - 1];
    WalkStep(events, n);
    if k < |before| {
      WalkEntry(before, n, k);
      assert before[..k + 1] == events[..k + 1];
    } else {
      assert events[..k + 1] == events;
    }
  }

  lemma WalkStep(events: seq<Event>, n: nat)
    requires n > 0 && events != []
    ensures var m := |events| - 1;
            Walk(events, n)[..m] == Walk(events[..m], n) && Walk(events, n)[m].count == Highest(CurrentAfter(events, n))
  {
  }

  /** The current value of a series is zero or one of its entries. */
  lemma {:induction false} CurrentIsAnEntry(events: seq<Event>, n: nat, i: nat) returns (k: int)
    requires i < n
    ensures k == -1 ==> CurrentAfter(events, n)[i] == 0
    ensures k != -1 ==> 0 <= k < |events| && events[k].idx == i && events[k].count == CurrentAfter(events, n)[i]
  {
    if events == [] {
      k := -1;
    } else if events[|events| - 1].idx == i {
      k := |events| - 1;
    } else {
      k := CurrentIsAnEntry(events[..|events| - 1], n, i);
    }
  }

  lemma {:induction false} TaggedMembers(series: seq<Entry>, idx: nat, e: Event)
    ensures e in Tagged(series, idx) <==> e.idx == idx && Entry(e.ts, e.count) in series
  {
    if series != [] {
      var n := |series| - 1;
      TaggedMembers(series[..n], idx, e);
      assert series == series[..n] + [series[n]];
    }
  }

  lemma {:induction false} EventMembers(list: seq<seq<Entry>>, e: Event)
    ensures e in EventsOf(list) <==> e.idx < |list| && Entry(e.ts, e.count) in list[e.idx]
  {
    if list != [] {
      var n := |list| - 1;
      EventMembers(list[..n], e);
      TaggedMembers(list[n], n, e);
    }
  }

  lemma SortedEvent(list: seq<seq<Entry>>, k: nat)
    requires k < |Sort(EventsOf(list), EventTime())|
    ensures var e := Sort(EventsOf(list), EventTime())[k]; e.idx < |list| && e.count <= RawPeak(list[e.idx])
  {
    var e := Sort(EventsOf(list), EventTime())[k];
    InBoth(EventsOf(list), e, EventTime());
    EventMembers(list, e);
    var m :| 0 <= m < |list[e.idx]| && list[e.idx][m] == Entry(e.ts, e.count);
  }

  /** No entry of the merged curve is higher than the highest entry of every curve. */
  lemma MergedEntryBelow(list: seq<seq<Entry>>, k: nat, peak: int)
    requires list != [] && k < |Merged(list)| && peak >= 0 && forall i :: 0 <= i < |list| ==> RawPeak(list[i]) <= peak
    ensures Merged(list)[k].count <= peak
  {
    var events := Sort(EventsOf(list), EventTime());
    WalkEntry(events, |list|, k);
    var current := CurrentAfter(events[..k + 1], |list|);
    var i :| 0 <= i < |current| && current[i] == Highest(current);
    var m := CurrentIsAnEntry(events[..k + 1], |list|, i);
    if m != -1 {
      SortedEvent(list, m);
    }
  }

  /** And every entry of a curve shows in it. */
  lemma EntryShows(list: seq<seq<Entry>>, i: nat, k: nat)
    requires i < |list| && k < |list[i]|
    ensures list[i][k].count <= RawPeak(Merged(list))
  {
    var e := Event(list[i][k].ts, i, list[i][k].count);
    EventMembers(list, e);
    InBoth(EventsOf(list), e, EventTime());
    var events := Sort(EventsOf(list), EventTime());
    var p :| 0 <= p < |events| && events[p] == e;
    EventShows(events, |list|, p);
    assert Merged(list)[p].count <= RawPeak(Merged(list));
  }

  lemma EventShows(events: seq<Event>, n: nat, p: nat)
    requires p < |events| && events[p].idx < n
    ensures Walk(events, n)[p].count >= events[p].count
  {
    WalkEntry(events, n, p);
    var before := events[..p + 1];
    assert before[|before| - 1] == events[p];
    assert CurrentAfter(before, n)[events[p].idx] == events[p].count;
  }

  /** The highest entry of the merged curve is the highest one of the curves it merges. */
  lemma MergedPeak(list: seq<seq<Entry>>)
    requires list != []
    ensures forall i :: 0 <= i < |list| ==> RawPeak(list[i]) <= RawPeak(Merged(list))
    ensures exists i :: 0 <= i < |list| && RawPeak(list[i]) == RawPeak(Merged(list))
  {
    forall i | 0 <= i < |list|
      ensures RawPeak(list[i]) <= RawPeak(Merged(list))
    {
      if RawPeak(list[i]) > 0 {
        var k :| 0 <= k < |list[i]| && list[i][k].count == RawPeak(list[i]);
        EntryShows(list, i, k);
      }
    }
    var best := HighestPeak(list);
    if RawPeak(Merged(list)) > 0 {
      var k :| 0 <= k < |Merged(list)| && Merged(list)[k].count == RawPeak(Merged(list));
      MergedEntryBelow(list, k, RawPeak(list[best]));
    }
    assert RawPeak(list[best]) == RawPeak(Merged(list));
  }

  lemma {:induction false} HighestPeak(list: seq<seq<Entry>>) returns (best: nat)
    requires list != []
    ensures best < |list| && forall i :: 0 <= i < |list| ==> RawPeak(list[i]) <= RawPeak(list[best])
  {
    var n := |list| - 1;
    best := n;
    if n > 0 {
      var before := HighestPeak(list[..n]);
      assert forall i :: 0 <= i < n ==> list[..n][i] == list[i];
      if RawPeak(list[before]) > RawPeak(list[n]) {
        best := before;
      }
    }
  }

  // ------------------------------------------------------------------ the page

  function OfRunner(jobs: seq<Job>, runner: nat): (r: seq<Job>)
    ensures forall i :: 0 <= i < |r| ==> r[i] in jobs && r[i].runner == runner
  {
    if jobs == [] then []
    else
      var last := jobs[|jobs| - 1];
      OfRunner(jobs[..|jobs| - 1], runner) + if last.runner == runner then [last] else []
  }

  function SeriesOf(jobs: seq<Job>, runners: seq<nat>): seq<seq<Entry>> {
    seq(|runners|, i requires 0 <= i < |runners| => Series(OfRunner(jobs, runners[i])))
  }

  /** `real_max_conc`: the jobs in the order of their creation, one curve per runner, merged. */
  function PeakShown(jobs: seq<Job>, runners: seq<nat>): int {
    RawPeak(Merged(SeriesOf(jobs, runners)))
  }

  /** The peak of one runner: its highest settled value, which is the size of its largest set of overlapping jobs. */
  function RunnerPeak(jobs: seq<Job>, runner: nat): int {
    var series := Series(OfRunner(jobs, runner));
    SettledPeak(series, |series|)
  }

  /** The largest set of jobs of one of the runners that meet pairwise. */
  lemma PageShowsLargestMeeting(jobs: seq<Job>, runners: seq<nat>)
    requires runners != []
    ensures forall i, s :: 0 <= i < |runners| && Meeting(OfRunner(jobs, runners[i]), s) ==> |s| <= PeakShown(jobs, runners)
    ensures exists i, s :: 0 <= i < |runners| && Meeting(OfRunner(jobs, runners[i]), s) && |s| == PeakShown(jobs, runners)
  {
    var list := SeriesOf(jobs, runners);
    MergedPeak(list);
    forall i, s | 0 <= i < |runners| && Meeting(OfRunner(jobs, runners[i]), s)
      ensures |s| <= PeakShown(jobs, runners)
    {
      RawPeakIsLargestMeeting(OfRunner(jobs, runners[i]));
      assert RawPeak(list[i]) <= PeakShown(jobs, runners);
    }
    var best :| 0 <= best < |list| && RawPeak(list[best]) == RawPeak(Merged(list));
    RawPeakIsLargestMeeting(OfRunner(jobs, runners[best]));
    var s :| Meeting(OfRunner(jobs, runners[best]), s) && |s| == RawPeak(list[best]);
  }

  /** The number is right: no runner's peak is higher, and some runner has it. */
  ghost predicate ShownIsReal(jobs: seq<Job>, runners: seq<nat>) {
    exists i :: 0 <= i < |runners| && RunnerPeak(jobs, runners[i]) == PeakShown(jobs, runners)
  }

  /** The number shown is never too low. */
  lemma PageNeverShowsLess(jobs: seq<Job>, runners: seq<nat>, i: nat)
    requires i < |runners|
    ensures RunnerPeak(jobs, runners[i]) <= PeakShown(jobs, runners)
  {
    var list := SeriesOf(jobs, runners);
    MergedPeak(list);
    SettledBelowRaw(list[i]);
    assert RawPeak(list[i]) <= PeakShown(jobs, runners);
  }

  lemma {:induction false} OnlyRunner(jobs: seq<Job>, runner: nat)
    requires forall i :: 0 <= i < |jobs| ==> jobs[i].runner == runner
    ensures OfRunner(jobs, runner) == jobs
  {
    if jobs != [] {
      OnlyRunner(jobs[..|jobs| - 1], runner);
    }
  }

  lemma RunnerPeakBelow(jobs: seq<Job>, runner: nat, peak: nat)
    requires OfRunner(jobs, runner) == jobs && forall t :: |RunningAt(jobs, t)| <= peak
    ensures RunnerPeak(jobs, runner) <= peak
  {
    var series := Series(jobs);
    if SettledPeak(series, |series|) > 0 {
      var k :| 0 <= k < |series| && IsSettled(series, k) && series[k].count == SettledPeak(series, |series|);
      SeriesInTimeOrder(jobs);
      ValueAtSettledEntry(series, k);
      SettledIsConcurrency(jobs, series[k].ts);
    }
  }

  lemma AloneOnThePage(jobs: seq<Job>, runner: nat)
    requires OfRunner(jobs, runner) == jobs
    ensures RawPeak(Series(jobs)) <= PeakShown(jobs, [runner])
  {
    var list := SeriesOf(jobs, [runner]);
    MergedPeak(list);
    assert list[0] == Series(jobs);
  }

  lemma PageShowsMore(jobs: seq<Job>, runner: nat)
    requires forall i :: 0 <= i < |jobs| ==> jobs[i].runner == runner
    requires RawPeak(Series(jobs)) >= 2 && forall t :: |RunningAt(jobs, t)| <= 1
    ensures PeakShown(jobs, [runner]) >= 2 && RunnerPeak(jobs, runner) <= 1 && !ShownIsReal(jobs, [runner])
  {
    OnlyRunner(jobs, runner);
    AloneOnThePage(jobs, runner);
    RunnerPeakBelow(jobs, runner, 1);
  }

  /** It can be too high: one job ends as another one, created before it, starts, and the page shows a peak of two. */
  lemma PageCanShowMore(jobs: seq<Job>)
    requires TouchingJobs(jobs)
    ensures PeakShown(jobs, [0]) >= 2 && RunnerPeak(jobs, 0) <= 1 && !ShownIsReal(jobs, [0])
  {
    PeakShownCanOvershoot(jobs);
    PageShowsMore(jobs, 0);
  }

  /** Every set of jobs of a runner that meet pairwise is matched by one, of some runner, that overlap pairwise. */
  ghost predicate AllMatched(jobs: seq<Job>, overlaps: map<nat, set<nat>>, runners: seq<nat>) {
    forall i, s :: 0 <= i < |runners| && Meeting(OfRunner(jobs, runners[i]), s) ==> Matched(jobs, overlaps, runners, |s|)
  }

  ghost predicate Matched(jobs: seq<Job>, overlaps: map<nat, set<nat>>, runners: seq<nat>, size: nat) {
    exists j, c :: 0 <= j < |runners| && Clique(OfRunner(jobs, runners[j]), overlaps, c) && |c| >= size
  }

  /**
   * The page shows the real peak exactly when no set of jobs that only touch, out of order, is larger than every set of
   * jobs of one runner that overlap, as `find_overlaps` recorded them.
   */
  lemma PageIsRightExactlyWhen(jobs: seq<Job>, overlaps: map<nat, set<nat>>, runners: seq<nat>)
    requires runners != [] && DistinctIds(jobs) && OverlapsOf(jobs, overlaps)
    ensures ShownIsReal(jobs, runners) <==> AllMatched(jobs, overlaps, runners)
  {
    if ShownIsReal(jobs, runners) {
      var i :| 0 <= i < |runners| && RunnerPeak(jobs, runners[i]) == PeakShown(jobs, runners);
      RealIsMatched(jobs, overlaps, runners, i);
    }
    if AllMatched(jobs, overlaps, runners) {
      MatchedIsReal(jobs, overlaps, runners);
    }
  }

  lemma RealIsMatched(jobs: seq<Job>, overlaps: map<nat, set<nat>>, runners: seq<nat>, i: nat)
    requires i < |runners| && DistinctIds(jobs) && OverlapsOf(jobs, overlaps)
    requires RunnerPeak(jobs, runners[i]) == PeakShown(jobs, runners)
    ensures AllMatched(jobs, overlaps, runners)
  {
    PageShowsLargestMeeting(jobs, runners);
    RunnerCliques(jobs, overlaps, runners[i]);
    var c :| Clique(OfRunner(jobs, runners[i]), overlaps, c) && |c| == PeakShown(jobs, runners);
  }

  lemma MatchedIsReal(jobs: seq<Job>, overlaps: map<nat, set<nat>>, runners: seq<nat>)
    requires runners != [] && DistinctIds(jobs) && OverlapsOf(jobs, overlaps) && AllMatched(jobs, overlaps, runners)
    ensures ShownIsReal(jobs, runners)
  {
    PageShowsLargestMeeting(jobs, runners);
    var i, s :| 0 <= i < |runners| && Meeting(OfRunner(jobs, runners[i]), s) && |s| == PeakShown(jobs, runners);
    assert Matched(jobs, overlaps, runners, |s|);
    var j, c :| 0 <= j < |runners| && Clique(OfRunner(jobs, runners[j]), overlaps, c) && |c| >= |s|;
    RunnerCliques(jobs, overlaps, runners[j]);
    PageNeverShowsLess(jobs, runners, j);
  }

  lemma RunnerCliques(jobs: seq<Job>, overlaps: map<nat, set<nat>>, runner: nat)
    requires DistinctIds(jobs) && OverlapsOf(jobs, overlaps)
    ensures forall c :: Clique(OfRunner(jobs, runner), overlaps, c) ==> |c| <= RunnerPeak(jobs, runner)
    ensures exists c :: Clique(OfRunner(jobs, runner), overlaps, c) && |c| == RunnerPeak(jobs, runner)
  {
    OverlapsOfRunner(jobs, overlaps, runner);
    PeakIsLargestClique(OfRunner(jobs, runner), overlaps, runner);
  }

  lemma {:induction false} RunnerDistinct(jobs: seq<Job>, runner: nat)
    requires DistinctIds(jobs)
    ensures DistinctIds(OfRunner(jobs, runner))
  {
    if jobs != [] {
      var n := |jobs| - 1;
      RunnerDistinct(jobs[..n], runner);
      var before := OfRunner(jobs[..n], runner);
      forall a | 0 <= a < |before|
        ensures before[a].id != jobs[n].id
      {
        var m :| 0 <= m < n && jobs[..n][m] == before[a];
        assert jobs[m].id != jobs[n].id;
      }
    }
  }

  /** What `find_overlaps` recorded for all the jobs holds for the jobs of one runner. */
  lemma OverlapsOfRunner(jobs: seq<Job>, overlaps: map<nat, set<nat>>, runner: nat)
    requires DistinctIds(jobs) && OverlapsOf(jobs, overlaps)
    ensures OverlapsOf(OfRunner(jobs, runner), overlaps)
  {
    var mine := OfRunner(jobs, runner);
    RunnerDistinct(jobs, runner);
    forall a, b | 0 <= a < |mine| && 0 <= b < |mine| && Forward(mine[a])
      ensures mine[a].id in overlaps && (mine[b].id in overlaps[mine[a].id] <==> OverlapAt(mine, a, b))
    {
      var i :| 0 <= i < |jobs| && jobs[i] == mine[a];
      var j :| 0 <= j < |jobs| && jobs[j] == mine[b];
      assert jobs[j].id in overlaps[jobs[i].id] <==> OverlapAt(jobs, i, j);
      assert a != b ==> mine[a].id != mine[b].id;
      assert i != j ==> jobs[i].id != jobs[j].id;
    }
  }
}
