/** `_merge_series_max`: several step curves combined into one, the highest of them at every moment. */
module TimelineMerge {
  import opened StableSort
  import opened JobTimeline

  datatype Event = Event(ts: int, idx: nat, count: int)

  function EventTime(): Event -> int {
    (e: Event) => e.ts
  }

  function Tagged(series: seq<Entry>, idx: nat): seq<Event> {
    if series == [] then []
    else Tagged(series[..|series| - 1], idx) + [Event(series[|series| - 1].ts, idx, series[|series| - 1].count)]
  }

  /** The entries of every series with its index, one series after the other. */
  function EventsOf(list: seq<seq<Entry>>): seq<Event> {
    if list == [] then [] else EventsOf(list[..|list| - 1]) + Tagged(list[|list| - 1], |list| - 1)
  }

  /** `current` after the events, from zeros. */
  function CurrentAfter(events: seq<Event>, n: nat): (r: seq<int>)
    ensures |r| == n
  {
    if events == [] then seq(n, _ => 0)
    else
      var e := events[|events| - 1];
      var before := CurrentAfter(events[..|events| - 1], n);
      if e.idx < n then before[e.idx := e.count] else before
  }

  function Highest(xs: seq<int>): (r: int)
    requires |xs| > 0
    ensures forall i :: 0 <= i < |xs| ==> xs[i] <= r
    ensures exists i :: 0 <= i < |xs| && xs[i] == r
  {
    if |xs| == 1 then xs[0]
    else
      var rest := Highest(xs[..|xs| - 1]);
      if xs[|xs| - 1] > rest then xs[|xs| - 1] else rest
  }

  function Walk(events: seq<Event>, n: nat): (r: seq<Entry>)
    requires n > 0
    ensures |r| == |events|
  {
    if events == [] then []
    else Walk(events[..|events| - 1], n) + [Entry(events[|events| - 1].ts, Highest(CurrentAfter(events, n)))]
  }

  function Merged(list: seq<seq<Entry>>): seq<Entry> {
    if list == [] then [] else Walk(Sort(EventsOf(list), EventTime()), |list|)
  }

  method MergeSeriesMax(list: seq<seq<Entry>>) returns (merged: seq<Entry>)
    ensures merged == Merged(list)
  {
    if list == [] {
      return [];
    }
    EventsInRange(list);
    var events := Sort(EventsOf(list), EventTime());
    var current := seq(|list|, _ => 0);
    merged := [];
    for i := 0 to |events|
      invariant current == CurrentAfter(events[..i], |list|) && merged == Walk(events[..i], |list|)
    {
      WalkNext(events, i, |list|);
      InBoth(EventsOf(list), events[i], EventTime());
      current := current[events[i].idx := events[i].count];
      merged := merged + [Entry(events[i].ts, Highest(current))];
    }
    assert events[..|events|] == events;
  }

  lemma WalkNext(events: seq<Event>, i: nat, n: nat)
    requires n > 0 && i < |events|
    ensures var e, current := events[i], CurrentAfter(events[..i], n);
            CurrentAfter(events[..i + 1], n) == if e.idx < n then current[e.idx := e.count] else current
    ensures Walk(events[..i + 1], n)
            == Walk(events[..i], n) + [Entry(events[i].ts, Highest(CurrentAfter(events[..i + 1], n)))]
  {
    assert events[..i + 1][..i] == events[..i];
  }

  lemma {:induction false} TaggedIndex(series: seq<Entry>, idx: nat)
    ensures forall e :: e in Tagged(series, idx) ==> e.idx == idx
  {
    if series != [] {
      TaggedIndex(series[..|series| - 1], idx);
    }
  }

  lemma {:induction false} EventsInRange(list: seq<seq<Entry>>)
    ensures forall e :: e in EventsOf(list) ==> e.idx < |list|
  {
    if list != [] {
      EventsInRange(list[..|list| - 1]);
      TaggedIndex(list[|list| - 1], |list| - 1);
    }
  }

  // ------------------------------------------------------------------ one series inside the events

  /** The entries of series `i` among the events. */
  function Only(events: seq<Event>, i: nat): seq<Entry> {
    if events == [] then []
    else
      var e := events[|events| - 1];
      Only(events[..|events| - 1], i) + if e.idx == i then [Entry(e.ts, e.count)] else []
  }

  lemma {:induction false} OnlyConcat(a: seq<Event>, b: seq<Event>, i: nat)
    ensures Only(a + b, i) == Only(a, i) + Only(b, i)
  {
    if b == [] {
      assert a + b == a;
    } else {
      OnlyConcat(a, b[..|b| - 1], i);
      assert (a + b)[..|a + b| - 1] == a + b[..|b| - 1];
    }
  }

  lemma {:induction false} OnlyTagged(series: seq<Entry>, idx: nat, i: nat)
    ensures Only(Tagged(series, idx), i) == if i == idx then series else []
  {
    if series != [] {
      OnlyTagged(series[..|series| - 1], idx, i);
    }
  }

  lemma {:induction false} OnlyEventsOf(list: seq<seq<Entry>>, i: nat)
    ensures Only(EventsOf(list), i) == if i < |list| then list[i] else []
  {
    if list != [] {
      var n := |list| - 1;
      OnlyEventsOf(list[..n], i);
      OnlyConcat(EventsOf(list[..n]), Tagged(list[n], n), i);
      OnlyTagged(list[n], n, i);
    }
  }

  /** An event later than all of its own series goes after them, past later events of the others. */
  lemma {:induction false} InsertOnly(s: seq<Event>, x: Event, i: nat)
    requires forall k :: 0 <= k < |s| && s[k].idx == x.idx ==> s[k].ts <= x.ts
    ensures Only(Insert(s, x, EventTime()), i) == Only(s, i) + if x.idx == i then [Entry(x.ts, x.count)] else []
  {
    var r := Insert(s, x, EventTime());
    if s == [] || s[|s| - 1].ts <= x.ts {
      assert r[..|r| - 1] == s;
    } else {
      InsertOnly(s[..|s| - 1], x, i);
      assert r[..|r| - 1] == Insert(s[..|s| - 1], x, EventTime());
    }
  }

  /** Each series is in time order within the events. */
  predicate SeriesOrdered(events: seq<Event>) {
    forall a, b :: 0 <= a < b < |events| && events[a].idx == events[b].idx ==> events[a].ts <= events[b].ts
  }

  /** The stable sort keeps every series as it was. */
  lemma {:induction false} SortOnly(s: seq<Event>, i: nat)
    requires SeriesOrdered(s)
    ensures Only(Sort(s, EventTime()), i) == Only(s, i)
  {
    if s != [] {
      var n := |s| - 1;
      SortOnly(s[..n], i);
      LastOfSeries(s);
      InsertOnly(Sort(s[..n], EventTime()), s[n], i);
    }
  }

  lemma LastOfSeries(s: seq<Event>)
    requires SeriesOrdered(s) && s != []
    ensures var n := |s| - 1;
            var sorted := Sort(s[..n], EventTime());
            forall k :: 0 <= k < |sorted| && sorted[k].idx == s[n].idx ==> sorted[k].ts <= s[n].ts
  {
    var n := |s| - 1;
    var sorted := Sort(s[..n], EventTime());
    forall k | 0 <= k < |sorted| && sorted[k].idx == s[n].idx
      ensures sorted[k].ts <= s[n].ts
    {
      InBoth(s[..n], sorted[k], EventTime());
      var m :| 0 <= m < n && s[..n][m] == sorted[k];
      assert s[m].ts <= s[n].ts;
    }
  }

  lemma {:induction false} TaggedOrdered(series: seq<Entry>, idx: nat)
    requires InTimeOrder(series)
    ensures |Tagged(series, idx)| == |series|
    ensures forall k :: 0 <= k < |series| ==> Tagged(series, idx)[k] == Event(series[k].ts, idx, series[k].count)
  {
    if series != [] {
      TaggedOrdered(series[..|series| - 1], idx);
    }
  }

  lemma {:induction false} EventsOrdered(list: seq<seq<Entry>>)
    requires forall i :: 0 <= i < |list| ==> InTimeOrder(list[i])
    ensures SeriesOrdered(EventsOf(list))
  {
    if list != [] {
      var n := |list| - 1;
      EventsOrdered(list[..n]);
      EventsInRange(list[..n]);
      TaggedOrdered(list[n], n);
      var before, added := EventsOf(list[..n]), Tagged(list[n], n);
      forall a | 0 <= a < |before|
        ensures before[a].idx < n
      {
        assert before[a] in before;
      }
    }
  }

  // ------------------------------------------------------------------ the value of the merged curve

  /** The value of every series at time `t`. */
  function ValuesAt(events: seq<Event>, n: nat, t: int): (r: seq<int>)
    ensures |r| == n
    ensures forall i :: 0 <= i < n ==> r[i] == SettledValue(Only(events, i), t)
  {
    seq(n, i requires 0 <= i < n => SettledValue(Only(events, i), t))
  }

  /** Once every event is at or before `t`, `current` is the value of every series at `t`. */
  lemma {:induction false} CurrentIsValues(events: seq<Event>, n: nat, t: int)
    requires forall k :: 0 <= k < |events| ==> events[k].ts <= t
    ensures CurrentAfter(events, n) == ValuesAt(events, n, t)
  {
    if events != [] {
      var m := |events| - 1;
      CurrentIsValues(events[..m], n, t);
      forall i | 0 <= i < n
        ensures CurrentAfter(events, n)[i] == SettledValue(Only(events, i), t)
      {
        assert CurrentAfter(events[..m], n)[i] == ValuesAt(events[..m], n, t)[i];
        if events[m].idx == i {
          var o := Only(events, i);
          assert o[|o| - 1] == Entry(events[m].ts, events[m].count);
        } else {
          assert Only(events, i) == Only(events[..m], i);
        }
      }
    }
  }

  lemma LaterEventIgnored(events: seq<Event>, n: nat, t: int)
    requires events != [] && events[|events| - 1].ts > t
    ensures ValuesAt(events, n, t) == ValuesAt(events[..|events| - 1], n, t)
  {
    var m := |events| - 1;
    forall i | 0 <= i < n
      ensures SettledValue(Only(events, i), t) == SettledValue(Only(events[..m], i), t)
    {
      var o := Only(events, i);
      if events[m].idx == i {
        assert o[..|o| - 1] == Only(events[..m], i);
      } else {
        assert o == Only(events[..m], i);
      }
    }
  }

  lemma {:induction false} WalkSettles(events: seq<Event>, n: nat, t: int)
    requires n > 0 && Ordered(events, EventTime())
    ensures SettledValue(Walk(events, n), t) == Highest(ValuesAt(events, n, t))
  {
    if events == [] {
      assert forall i :: 0 <= i < n ==> ValuesAt(events, n, t)[i] == 0;
    } else {
      var m := |events| - 1;
      var w := Walk(events, n);
      assert w[..m] == Walk(events[..m], n);
      if events[m].ts <= t {
        forall k | 0 <= k < |events|
          ensures events[k].ts <= t
        {
          assert k < m ==> EventTime()(events[k]) <= EventTime()(events[m]);
        }
        CurrentIsValues(events, n, t);
      } else {
        WalkSettles(events[..m], n, t);
        LaterEventIgnored(events, n, t);
      }
    }
  }

  /** At every moment the merged curve is the highest of the curves it merges. */
  lemma MergedIsHighest(list: seq<seq<Entry>>, t: int)
    requires list != [] && forall i :: 0 <= i < |list| ==> InTimeOrder(list[i])
    ensures forall i :: 0 <= i < |list| ==> SettledValue(list[i], t) <= SettledValue(Merged(list), t)
    ensures exists i :: 0 <= i < |list| && SettledValue(list[i], t) == SettledValue(Merged(list), t)
  {
    var events := Sort(EventsOf(list), EventTime());
    SortOrdered(EventsOf(list), EventTime());
    WalkSettles(events, |list|, t);
    EventsOrdered(list);
    forall i | 0 <= i < |list|
      ensures ValuesAt(events, |list|, t)[i] == SettledValue(list[i], t)
    {
      SortOnly(EventsOf(list), i);
      OnlyEventsOf(list, i);
    }
  }

  /** The curve of the page: at every moment, the number of jobs running on the busiest runner. */
  lemma ChartIsBusiestRunner(byRunner: seq<seq<Job>>, t: int)
    requires byRunner != []
    ensures var merged := Merged(seq(|byRunner|, i requires 0 <= i < |byRunner| => Series(byRunner[i])));
            && (forall i :: 0 <= i < |byRunner| ==> |RunningAt(byRunner[i], t)| <= SettledValue(merged, t))
            && (exists i :: 0 <= i < |byRunner| && |RunningAt(byRunner[i], t)| == SettledValue(merged, t))
  {
    var list := seq(|byRunner|, i requires 0 <= i < |byRunner| => Series(byRunner[i]));
    forall i | 0 <= i < |byRunner|
      ensures InTimeOrder(list[i]) && SettledValue(list[i], t) == |RunningAt(byRunner[i], t)|
    {
      SeriesInTimeOrder(byRunner[i]);
      SettledIsConcurrency(byRunner[i], t);
    }
    MergedIsHighest(list, t);
    var i :| 0 <= i < |list| && SettledValue(list[i], t) == SettledValue(Merged(list), t);
    assert |RunningAt(byRunner[i], t)| == SettledValue(Merged(list), t);
  }
}
