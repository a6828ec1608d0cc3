/**
 * `FreeFleetsResources` (`gateway/scheduler/tasks/free_fleets_resources.py`): which fleets a cleanup cycle deletes, what
 * it learns about the regions, and the bounded memory of the deletes that fail.
 */
module FleetCleanup {
  import opened Collections
  import opened Wrappers

  /** What the cleanup reads of a job. `held`: it has a fleet that was not deleted. */
  datatype Job = Job(project: string, region: Region, updated: int, terminal: bool, held: bool)

  type Jobs = map<nat, Job>

  const MAX_ATTEMPTS_PER_FLEET := 3
  const MAX_TRACKED_FAILURES := 500
  const UNASSIGNED_PROJECT := "unassigned"

  // ------------------------------------------------------------------ the memory of failures

  /** The two dictionaries, with the keys in the order they were put in. */
  datatype Tracking = Tracking(order: seq<nat>, counts: map<nat, nat>, givenUp: seq<nat>)

  ghost predicate TrackingOk(t: Tracking) {
    && Distinct(t.order) && Distinct(t.givenUp)
    && |t.order| <= MAX_TRACKED_FAILURES && |t.givenUp| <= MAX_TRACKED_FAILURES
    && (forall id :: id in t.counts <==> id in t.order)
    && (forall id :: id in t.counts ==> 1 <= t.counts[id] < MAX_ATTEMPTS_PER_FLEET)
    && (forall id :: id in t.order ==> id !in t.givenUp)
  }

  function Without(s: seq<nat>, id: nat): (r: seq<nat>)
    ensures forall x :: x in r <==> x in s && x != id
    ensures |r| <= |s| && (id in s ==> |r| < |s|)
    ensures Distinct(s) ==> Distinct(r)
  {
    if s == [] then []
    else if s[0] == id then Without(s[1..], id)
    else
      var rest := Without(s[1..], id);
      assert forall i :: 0 <= i < |rest| ==> rest[i] in s[1..];
      [s[0]] + rest
  }

  function Forget(t: Tracking, id: nat): Tracking {
    t.(order := Without(t.order, id), counts := t.counts - {id})
  }

  /** Room for a new key: the oldest one goes when the dictionary is full. */
  function WithRoom(s: seq<nat>): seq<nat> {
    if |s| >= MAX_TRACKED_FAILURES then s[1..] else s
  }

  function Restrict(counts: map<nat, nat>, order: seq<nat>): map<nat, nat> {
    map id | id in counts && id in order :: counts[id]
  }

  /** The count of a key goes up, or its job is given up at the limit. */
  function CountIn(order: seq<nat>, counts: map<nat, nat>, givenUp: seq<nat>, id: nat): Tracking {
    var seen := if id in counts then counts[id] else 0;
    if seen + 1 >= MAX_ATTEMPTS_PER_FLEET
    then Tracking(Without(order, id), counts - {id}, WithRoom(givenUp) + [id])
    else Tracking(order, counts[id := seen + 1], givenUp)
  }

  /** One failed attempt more on a job. */
  function CountFailure(t: Tracking, id: nat): Tracking {
    if id in t.counts then CountIn(t.order, t.counts, t.givenUp, id)
    else
      var order := WithRoom(t.order);
      CountIn(order + [id], Restrict(t.counts, order), t.givenUp, id)
  }

  /** The dictionary of counts, with a key that may be in it. */
  ghost predicate CountsOk(order: seq<nat>, counts: map<nat, nat>, givenUp: seq<nat>, id: nat) {
    && Distinct(order) && id in order && |order| <= MAX_TRACKED_FAILURES
    && (forall x :: x in counts ==> x in order && 1 <= counts[x] < MAX_ATTEMPTS_PER_FLEET)
    && (forall x :: x in order ==> x !in givenUp && (x == id || x in counts))
  }

  lemma CountInKeepsOk(order: seq<nat>, counts: map<nat, nat>, givenUp: seq<nat>, id: nat)
    requires CountsOk(order, counts, givenUp, id) && Distinct(givenUp) && |givenUp| <= MAX_TRACKED_FAILURES
    ensures TrackingOk(CountIn(order, counts, givenUp, id))
  {
  }

  lemma RoomIsOk(t: Tracking, id: nat)
    requires TrackingOk(t) && id !in t.givenUp && id !in t.counts
    ensures CountsOk(WithRoom(t.order) + [id], Restrict(t.counts, WithRoom(t.order)), t.givenUp, id)
  {
  }

  lemma CountKeepsOk(t: Tracking, id: nat)
    requires TrackingOk(t) && id !in t.givenUp
    ensures TrackingOk(CountFailure(t, id))
  {
    if id in t.counts {
      CountInKeepsOk(t.order, t.counts, t.givenUp, id);
    } else {
      RoomIsOk(t, id);
      CountInKeepsOk(WithRoom(t.order) + [id], Restrict(t.counts, WithRoom(t.order)), t.givenUp, id);
    }
  }

  lemma ForgetKeepsOk(t: Tracking, id: nat)
    requires TrackingOk(t)
    ensures TrackingOk(Forget(t, id))
  {
  }

  // ------------------------------------------------------------------ which jobs

  datatype Need = Need(project: string, needed: int)

  /** `_projects_over_quota`: what each project over its quota has to lose. */
  function ProjectsOverQuota(counts: seq<(string, nat)>, percent: int, quota: int): seq<Need> {
    if !(1 <= percent < 100) || quota < 1 || counts == [] then []
    else
      var before := ProjectsOverQuota(counts[..|counts| - 1], percent, quota);
      var (project, total) := counts[|counts| - 1];
      var threshold := quota * percent / 100;
      if project != UNASSIGNED_PROJECT && total >= threshold
      then before + [Need(project, total - threshold + 1)] else before
  }

  predicate Deletable(jobs: Jobs, paused: set<Region>, givenUp: seq<nat>, id: nat) {
    id in jobs && jobs[id].held && jobs[id].terminal && jobs[id].region !in paused && id !in givenUp
  }

  function AllDeletable(jobs: Jobs, paused: set<Region>, givenUp: seq<nat>): set<nat> {
    set id | id in jobs && Deletable(jobs, paused, givenUp, id)
  }

  function OfProject(jobs: Jobs, ids: set<nat>, project: string): set<nat> {
    set id | id in ids && id in jobs && jobs[id].project == project
  }

  function PastWindow(jobs: Jobs, ids: set<nat>, cutoff: int): set<nat> {
    set id | id in ids && id in jobs && jobs[id].updated < cutoff
  }

  function Clamp(n: int, limit: nat): nat {
    if n <= 0 then 0 else if n < limit then n else limit
  }

  /** `from.order_by("updated")[:n]`: the oldest ones, oldest first. */
  ghost predicate Oldest(jobs: Jobs, from: set<nat>, n: int, part: seq<nat>) {
    && Distinct(part)
    && (forall i :: 0 <= i < |part| ==> part[i] in from && part[i] in jobs)
    && (forall i, id :: 0 <= i < |part| && id in from && id !in part[..i] ==>
          id in jobs && jobs[part[i]].updated <= jobs[id].updated)
    && |part| == Clamp(n, |from|)
  }

  lemma {:induction false} SomeJobIsOldest(jobs: Jobs, ids: set<nat>) returns (x: nat)
    requires ids != {} && forall id :: id in ids ==> id in jobs
    ensures x in ids && forall y :: y in ids ==> jobs[x].updated <= jobs[y].updated
    decreases |ids|
  {
    x :| x in ids;
    if ids != {x} {
      assert ids - {x} != {};
      var z := SomeJobIsOldest(jobs, ids - {x});
      assert forall y :: y in ids ==> y == x || y in ids - {x};
      x := if jobs[x].updated <= jobs[z].updated then x else z;
    }
  }

  method TakeOldest(jobs: Jobs, from: set<nat>, n: int) returns (part: seq<nat>)
    requires forall id :: id in from ==> id in jobs
    ensures Oldest(jobs, from, n, part)
  {
    part := [];
    var rest := from;
    while rest != {} && |part| < n
      invariant rest <= from && |part| + |rest| == |from| && |part| <= Clamp(n, |from|)
      invariant forall id :: id in rest <==> id in from && id !in part
      invariant forall i :: 0 <= i < |part| ==> part[i] in from
      invariant Distinct(part)
      invariant forall i, id :: 0 <= i < |part| && id in from && id !in part[..i] ==>
                  jobs[part[i]].updated <= jobs[id].updated
      decreases |rest|
    {
      ghost var w := SomeJobIsOldest(jobs, rest);
      var x :| x in rest && forall y :: y in rest ==> jobs[x].updated <= jobs[y].updated;
      ghost var before := part;
      part := part + [x];
      assert forall i :: 0 <= i <= |before| ==> part[..i] == before[..i];
      assert before[..|before|] == before;
      rest := rest - {x};
    }
  }

  function Flat(parts: seq<seq<nat>>): seq<nat> {
    if parts == [] then [] else Flat(parts[..|parts| - 1]) + parts[|parts| - 1]
  }

  /** The first pass: every project in turn gives its oldest jobs, as many as it needs and the budget leaves. */
  ghost predicate QuotaParts(jobs: Jobs, ids: set<nat>, needs: seq<Need>, budget: int, parts: seq<seq<nat>>) {
    |parts| <= |needs| && forall i :: 0 <= i < |parts| ==> PartOk(jobs, ids, needs, budget, parts, i)
  }

  ghost predicate PartOk(jobs: Jobs, ids: set<nat>, needs: seq<Need>, budget: int, parts: seq<seq<nat>>, i: nat)
    requires i < |parts| <= |needs|
  {
    Oldest(jobs, OfProject(jobs, ids, needs[i].project), Share(needs[i], budget - |Flat(parts[..i])|), parts[i])
  }

  function Share(need: Need, left: int): int {
    if need.needed < left then need.needed else left
  }

  /** No job twice, only jobs that may be deleted, and no more than the budget. */
  ghost predicate BatchOk(ids: set<nat>, batch: seq<nat>, budget: int) {
    Distinct(batch) && (forall i :: 0 <= i < |batch| ==> batch[i] in ids) && (batch == [] || |batch| <= budget)
  }

  /** The projects are the keys of a dictionary, and each has something to lose. */
  predicate NeedsOk(needs: seq<Need>) {
    && (forall i, j :: 0 <= i < j < |needs| ==> needs[i].project != needs[j].project)
    && (forall i :: 0 <= i < |needs| ==> needs[i].needed >= 1)
  }

  predicate AmongProjects(needs: seq<Need>, i: nat, project: string)
    requires i <= |needs|
  {
    exists j :: 0 <= j < i && needs[j].project == project
  }

  /** A batch grows by jobs that are not in it. */
  lemma BatchGrows(ids: set<nat>, batch: seq<nat>, part: seq<nat>, budget: int)
    requires BatchOk(ids, batch, budget) && Distinct(part) && |part| <= Clamp(budget - |batch|, |part|)
    requires forall k :: 0 <= k < |part| ==> part[k] in ids && part[k] !in batch
    ensures BatchOk(ids, batch + part, budget)
  {
    forall i, j | 0 <= i < j < |batch + part|
      ensures (batch + part)[i] != (batch + part)[j]
    {
      if i < |batch| <= j {
        assert part[j - |batch|] !in batch;
      }
    }
  }

  lemma PartsGrow(jobs: Jobs, ids: set<nat>, needs: seq<Need>, budget: int, parts: seq<seq<nat>>, part: seq<nat>)
    requires |parts| < |needs| && QuotaParts(jobs, ids, needs, budget, parts)
    requires Oldest(jobs, OfProject(jobs, ids, needs[|parts|].project), Share(needs[|parts|], budget - |Flat(parts)|), part)
    ensures QuotaParts(jobs, ids, needs, budget, parts + [part])
    ensures Flat(parts + [part]) == Flat(parts) + part
  {
    var all := parts + [part];
    assert all[..|parts|] == parts;
    forall i | 0 <= i < |all|
      ensures PartOk(jobs, ids, needs, budget, all, i)
    {
      if i < |parts| {
        assert PartOk(jobs, ids, needs, budget, parts, i);
        assert all[..i] == parts[..i];
      }
    }
  }

  /** The jobs of the next project are none of the jobs taken so far. */
  lemma NewProject(jobs: Jobs, ids: set<nat>, needs: seq<Need>, i: nat, batch: seq<nat>, part: seq<nat>)
    requires NeedsOk(needs) && i < |needs|
    requires forall k :: 0 <= k < |batch| ==> batch[k] in jobs && AmongProjects(needs, i, jobs[batch[k]].project)
    requires forall k :: 0 <= k < |part| ==> part[k] in OfProject(jobs, ids, needs[i].project)
    ensures forall k :: 0 <= k < |part| ==> part[k] !in batch
    ensures forall k :: 0 <= k < |batch + part| ==>
              (batch + part)[k] in jobs && AmongProjects(needs, i + 1, jobs[(batch + part)[k]].project)
  {
    assert !AmongProjects(needs, i, needs[i].project);
    assert needs[i].project == needs[i].project && AmongProjects(needs, i + 1, needs[i].project);
  }

  /** One project of the first pass: nothing once the budget is used. */
  method TakeShare(jobs: Jobs, ids: set<nat>, need: Need, left: int) returns (part: seq<nat>)
    requires forall id :: id in ids ==> id in jobs
    ensures Oldest(jobs, OfProject(jobs, ids, need.project), Share(need, left), part)
    ensures Distinct(part) && |part| <= Clamp(left, |part|)
    ensures forall k :: 0 <= k < |part| ==> part[k] in ids && part[k] in OfProject(jobs, ids, need.project)
  {
    part := [];
    if left > 0 {
      part := TakeOldest(jobs, OfProject(jobs, ids, need.project), Share(need, left));
    }
  }

  /** The first pass of `_jobs_to_clean`. */
  method OverQuota(jobs: Jobs, ids: set<nat>, needs: seq<Need>, budget: int)
    returns (batch: seq<nat>, ghost parts: seq<seq<nat>>)
    requires NeedsOk(needs) && forall id :: id in ids ==> id in jobs
    ensures BatchOk(ids, batch, budget) && batch == Flat(parts)
    ensures QuotaParts(jobs, ids, needs, budget, parts) && |parts| == |needs|
  {
    batch, parts := [], [];
    for i := 0 to |needs|
      invariant BatchOk(ids, batch, budget) && batch == Flat(parts) && |parts| == i
      invariant QuotaParts(jobs, ids, needs, budget, parts)
      invariant forall k :: 0 <= k < |batch| ==> AmongProjects(needs, i, jobs[batch[k]].project)
    {
      var part := TakeShare(jobs, ids, needs[i], budget - |batch|);
      NewProject(jobs, ids, needs, i, batch, part);
      BatchGrows(ids, batch, part, budget);
      PartsGrow(jobs, ids, needs, budget, parts, part);
      batch, parts := batch + part, parts + [part];
    }
  }

  function Elements(batch: seq<nat>): set<nat> {
    set id | id in batch
  }

  /**
   * What a cycle selects: every listed project in turn gives its oldest jobs, as many as it needs and the budget leaves,
   * and then the oldest of the other jobs past the window take what is left of the budget.
   */
  ghost predicate IsSelection(
    jobs: Jobs, ids: set<nat>, needs: seq<Need>, budget: int, cutoff: int, batch: seq<nat>, parts: seq<seq<nat>>,
    tail: seq<nat>)
  {
    && batch == Flat(parts) + tail
    && QuotaParts(jobs, ids, needs, budget, parts) && |parts| == |needs|
    && Oldest(jobs, PastWindow(jobs, ids, cutoff) - Elements(Flat(parts)), budget - |Flat(parts)|, tail)
  }

  /** The second pass: the oldest jobs past the window that the first one did not take. */
  method TakePastWindow(jobs: Jobs, ids: set<nat>, cutoff: int, taken: seq<nat>, left: int) returns (part: seq<nat>)
    requires forall id :: id in ids ==> id in jobs
    ensures Oldest(jobs, PastWindow(jobs, ids, cutoff) - Elements(taken), left, part)
    ensures Distinct(part) && |part| <= Clamp(left, |part|)
    ensures forall k :: 0 <= k < |part| ==> part[k] in ids && part[k] !in taken
  {
    part := [];
    if left > 0 {
      part := TakeOldest(jobs, PastWindow(jobs, ids, cutoff) - Elements(taken), left);
    }
  }

  /** `_jobs_to_clean`: the projects over their quota first, then the oldest jobs past the window with what is left. */
  method JobsToClean(jobs: Jobs, needs: seq<Need>, paused: set<Region>, givenUp: seq<nat>, budget: int, cutoff: int)
    returns (batch: seq<nat>, ghost parts: seq<seq<nat>>, ghost tail: seq<nat>)
    requires NeedsOk(needs)
    ensures BatchOk(AllDeletable(jobs, paused, givenUp), batch, budget)
    ensures IsSelection(jobs, AllDeletable(jobs, paused, givenUp), needs, budget, cutoff, batch, parts, tail)
  {
    var ids := AllDeletable(jobs, paused, givenUp);
    var quota;
    quota, parts := OverQuota(jobs, ids, needs, budget);
    var rest := TakePastWindow(jobs, ids, cutoff, quota, budget - |quota|);
    tail := rest;
    BatchGrows(ids, quota, rest, budget);
    batch := quota + rest;
  }

  // ------------------------------------------------------------------ getting back under the quota

  lemma {:induction false} NeedsAreOk(counts: seq<(string, nat)>, percent: int, quota: int)
    requires forall i, j :: 0 <= i < j < |counts| ==> counts[i].0 != counts[j].0
    ensures NeedsOk(ProjectsOverQuota(counts, percent, quota))
    ensures forall k :: 0 <= k < |ProjectsOverQuota(counts, percent, quota)| ==>
              exists i :: 0 <= i < |counts| && counts[i].0 == ProjectsOverQuota(counts, percent, quota)[k].project
  {
    if 1 <= percent < 100 && quota >= 1 && counts != [] {
      var n := |counts| - 1;
      NeedsAreOk(counts[..n], percent, quota);
      assert forall i :: 0 <= i < n ==> counts[..n][i] == counts[i];
    }
  }

  /** A project is listed exactly when it has a name of its own and holds the threshold or more. */
  lemma {:induction false} ListedExactlyWhenOver(counts: seq<(string, nat)>, percent: int, quota: int, need: Need)
    requires 1 <= percent < 100 && quota >= 1
    ensures need in ProjectsOverQuota(counts, percent, quota) <==>
            && need.project != UNASSIGNED_PROJECT
            && exists i :: 0 <= i < |counts| && counts[i].0 == need.project && counts[i].1 >= quota * percent / 100 &&
                 need.needed == counts[i].1 - quota * percent / 100 + 1
  {
    if counts != [] {
      var n := |counts| - 1;
      ListedExactlyWhenOver(counts[..n], percent, quota, need);
      assert forall i :: 0 <= i < n ==> counts[..n][i] == counts[i];
    }
  }

  function Held(jobs: Jobs, project: string): set<nat> {
    set id | id in jobs && jobs[id].held && jobs[id].project == project
  }

  lemma ElementsCount(part: seq<nat>)
    requires Distinct(part)
    ensures |Elements(part)| == |part|
  {
    if part != [] {
      var n := |part| - 1;
      ElementsCount(part[..n]);
      assert Elements(part) == Elements(part[..n]) + {part[n]};
    }
  }

  /** Deleting what is needed leaves one fleet less than the threshold. */
  lemma NeededIsEnough(jobs: Jobs, project: string, threshold: nat, part: seq<nat>)
    requires Distinct(part) && forall i :: 0 <= i < |part| ==> part[i] in Held(jobs, project)
    requires |part| == |Held(jobs, project)| - threshold + 1
    ensures threshold >= 1 && |Held(jobs, project) - Elements(part)| == threshold - 1
  {
    ElementsCount(part);
    var held, gone := Held(jobs, project), Elements(part);
    assert gone <= held;
    assert held == gone + (held - gone);
  }

  /**
   * When the batch takes all that a listed project needs, what the project still holds afterwards is below the
   * threshold, whatever else of it the second pass takes.
   */
  lemma ProjectGetsUnder(
    jobs: Jobs, ids: set<nat>, needs: seq<Need>, budget: int, parts: seq<seq<nat>>, i: nat, threshold: nat)
    requires QuotaParts(jobs, ids, needs, budget, parts) && i < |parts|
    requires forall id :: id in ids ==> id in jobs && jobs[id].held
    requires needs[i].needed == |Held(jobs, needs[i].project)| - threshold + 1 >= 1
    requires needs[i].needed <= |OfProject(jobs, ids, needs[i].project)| && needs[i].needed <= budget - |Flat(parts[..i])|
    ensures threshold >= 1 && |Held(jobs, needs[i].project) - Elements(parts[i])| == threshold - 1
  {
    assert PartOk(jobs, ids, needs, budget, parts, i);
    NeededIsEnough(jobs, needs[i].project, threshold, parts[i]);
  }

  // ------------------------------------------------------------------ one cycle

  /** What became of a delete: the fleet is gone, it is not, or the region did not answer (an error to retry). */
  datatype Outcome = Gone | NotGone | Unanswered

  datatype Try = Try(id: nat, region: Region, outcome: Outcome)

  datatype Record = Record(region: Region, answered: bool)

  /** The kill signal, the budget and the deletes, at every position of the batch. */
  datatype World = World(killed: nat -> bool, late: nat -> bool, deletes: nat -> Outcome, clock: nat -> int)
  {
    function Delete(p: nat): Outcome {
      deletes(p)
    }

    /** The deletes stop here: the first one always goes unless the process is being stopped. */
    predicate Stops(p: nat) {
      killed(p) || (p > 0 && late(p))
    }
  }

  predicate HasOutcome(tries: seq<Try>, region: Region, outcome: Outcome) {
    exists k :: 0 <= k < |tries| && tries[k].region == region && tries[k].outcome == outcome
  }

  predicate WasTried(tries: seq<Try>, id: nat) {
    exists k :: 0 <= k < |tries| && tries[k].id == id
  }

  lemma HasOutcomeAppend(tries: seq<Try>, t: Try, region: Region, outcome: Outcome)
    ensures HasOutcome(tries + [t], region, outcome) <==>
            HasOutcome(tries, region, outcome) || (t.region == region && t.outcome == outcome)
  {
    var all := tries + [t];
    assert all[|tries|] == t;
    if k :| 0 <= k < |tries| && tries[k].region == region && tries[k].outcome == outcome {
      assert all[k] == tries[k];
    }
  }

  /** What one delete leaves in the memory. */
  function Noted(tracking: Tracking, t: Try): Tracking {
    match t.outcome
    case Gone => Forget(tracking, t.id)
    case NotGone => CountFailure(tracking, t.id)
    case Unanswered => tracking
  }

  /** The memory after the deletes of a cycle. */
  function Remembered(tracking: Tracking, tries: seq<Try>): Tracking {
    if tries == [] then tracking
    else Noted(Remembered(tracking, tries[..|tries| - 1]), tries[|tries| - 1])
  }

  /** A job whose fleet is gone is stamped; the others are as they were. */
  ghost predicate StampedOne(before: Job, after: Job, gone: bool) {
    if gone then after == before.(held := false, updated := after.updated) else after == before
  }

  ghost predicate WasGone(tries: seq<Try>, id: nat) {
    exists k :: 0 <= k < |tries| && tries[k].id == id && tries[k].outcome.Gone?
  }

  ghost predicate Stamped(before: Jobs, after: Jobs, tries: seq<Try>) {
    before.Keys == after.Keys && forall id :: id in before ==> StampedOne(before[id], after[id], WasGone(tries, id))
  }

  lemma StampMore(before: Jobs, middle: Jobs, tries: seq<Try>, t: Try, after: Jobs)
    requires Stamped(before, middle, tries) && !WasTried(tries, t.id) && t.id in before
    requires if t.outcome.Gone? then exists now :: after == middle[t.id := middle[t.id].(held := false, updated := now)]
             else after == middle
    ensures Stamped(before, after, tries + [t])
  {
    var all := tries + [t];
    forall id | id in before
      ensures StampedOne(before[id], after[id], WasGone(all, id))
    {
      assert all[|tries|] == t;
      assert forall k :: 0 <= k < |tries| ==> all[k] == tries[k];
      assert WasGone(all, id) <==> WasGone(tries, id) || (t.id == id && t.outcome.Gone?);
      assert StampedOne(before[id], middle[id], WasGone(tries, id));
    }
  }

  /**
   * The tries of a cycle are the positions of the batch up to a cut, in order, without those of a region that failed
   * before; after a region failed, nothing more of it is tried.
   */
  ghost predicate TriesOk(w: World, jobs: Jobs, batch: seq<nat>, cut: nat, tries: seq<Try>, at: seq<nat>) {
    && InPlace(w, jobs, batch, cut, tries, at)
    && AllCovered(jobs, batch, cut, tries, at)
    && StopsAtFailure(tries)
  }

  ghost predicate InPlace(w: World, jobs: Jobs, batch: seq<nat>, cut: nat, tries: seq<Try>, at: seq<nat>) {
    && |at| == |tries|
    && (forall i, j :: 0 <= i < j < |at| ==> at[i] < at[j])
    && (forall k :: 0 <= k < |at| ==> TryOk(w, jobs, batch, cut, tries[k], at[k]))
  }

  ghost predicate AllCovered(jobs: Jobs, batch: seq<nat>, cut: nat, tries: seq<Try>, at: seq<nat>) {
    cut <= |batch| && forall p :: 0 <= p < cut ==> PositionCovered(jobs, batch[p], p, tries, at)
  }

  ghost predicate PositionCovered(jobs: Jobs, id: nat, p: nat, tries: seq<Try>, at: seq<nat>) {
    id in jobs && (p in at || HasOutcome(tries, jobs[id].region, Unanswered))
  }

  ghost predicate StopsAtFailure(tries: seq<Try>) {
    forall i, j :: 0 <= i < j < |tries| && tries[i].outcome.Unanswered? ==> tries[j].region != tries[i].region
  }

  ghost predicate TryOk(w: World, jobs: Jobs, batch: seq<nat>, cut: nat, t: Try, p: nat) {
    p < cut <= |batch| && batch[p] in jobs && t == Try(batch[p], jobs[batch[p]].region, w.Delete(p))
  }

  lemma SkipOne(w: World, jobs: Jobs, batch: seq<nat>, cut: nat, tries: seq<Try>, at: seq<nat>)
    requires TriesOk(w, jobs, batch, cut, tries, at) && cut < |batch| && batch[cut] in jobs
    requires HasOutcome(tries, jobs[batch[cut]].region, Unanswered)
    ensures TriesOk(w, jobs, batch, cut + 1, tries, at)
  {
    assert forall k :: 0 <= k < |at| ==> TryOk(w, jobs, batch, cut, tries[k], at[k]);
  }

  lemma TryOneMore(w: World, jobs: Jobs, batch: seq<nat>, cut: nat, tries: seq<Try>, at: seq<nat>, t: Try)
    requires TriesOk(w, jobs, batch, cut, tries, at) && TryOk(w, jobs, batch, cut + 1, t, cut)
    requires !HasOutcome(tries, t.region, Unanswered)
    ensures TriesOk(w, jobs, batch, cut + 1, tries + [t], at + [cut])
  {
    assert forall k :: 0 <= k < |at| ==> TryOk(w, jobs, batch, cut, tries[k], at[k]);
    assert InPlace(w, jobs, batch, cut + 1, tries + [t], at + [cut]);
    StillCovered(jobs, batch, cut, tries, at, t);
    NothingAfterFailure(tries, t);
  }

  lemma NothingAfterFailure(tries: seq<Try>, t: Try)
    requires StopsAtFailure(tries) && !HasOutcome(tries, t.region, Unanswered)
    ensures StopsAtFailure(tries + [t])
  {
  }

  lemma StillCovered(jobs: Jobs, batch: seq<nat>, cut: nat, tries: seq<Try>, at: seq<nat>, t: Try)
    requires AllCovered(jobs, batch, cut, tries, at) && cut < |batch| && batch[cut] in jobs
    ensures AllCovered(jobs, batch, cut + 1, tries + [t], at + [cut])
  {
    forall p | 0 <= p < cut + 1
      ensures PositionCovered(jobs, batch[p], p, tries + [t], at + [cut])
    {
      if p < cut {
        assert PositionCovered(jobs, batch[p], p, tries, at);
        HasOutcomeAppend(tries, t, jobs[batch[p]].region, Unanswered);
      } else {
        assert (at + [cut])[|at|] == p;
      }
    }
  }

  /** In a batch without repetitions, what comes after the cut was not tried. */
  lemma NextIsUntried(w: World, jobs: Jobs, batch: seq<nat>, cut: nat, tries: seq<Try>, at: seq<nat>, p: nat)
    requires TriesOk(w, jobs, batch, cut, tries, at) && Distinct(batch) && cut <= p < |batch|
    ensures !WasTried(tries, batch[p])
  {
    forall k | 0 <= k < |tries|
      ensures tries[k].id != batch[p]
    {
      assert TryOk(w, jobs, batch, cut, tries[k], at[k]);
    }
  }

  /** The records made during the deletes: one failure for every region that failed. */
  ghost predicate FailuresRecorded(tries: seq<Try>, records: seq<Record>) {
    && (forall i, j :: 0 <= i < j < |records| ==> records[i].region != records[j].region)
    && (forall i :: 0 <= i < |records| ==> !records[i].answered)
    && (forall region :: Record(region, false) in records <==> HasOutcome(tries, region, Unanswered))
  }

  /** What a cycle has seen of the regions. */
  datatype Regions = Regions(failed: set<Region>, answered: set<Region>)

  ghost predicate RegionsOk(tries: seq<Try>, regions: Regions) {
    forall region ::
      && (region in regions.failed <==> HasOutcome(tries, region, Unanswered))
      && (region in regions.answered <==> HasOutcome(tries, region, Gone))
  }

  function Seen(regions: Regions, t: Try): Regions {
    match t.outcome
    case Gone => regions.(answered := regions.answered + {t.region})
    case NotGone => regions
    case Unanswered => regions.(failed := regions.failed + {t.region})
  }

  lemma SeenIsOk(tries: seq<Try>, regions: Regions, t: Try)
    requires RegionsOk(tries, regions)
    ensures RegionsOk(tries + [t], Seen(regions, t))
  {
    forall region
      ensures region in Seen(regions, t).failed <==> HasOutcome(tries + [t], region, Unanswered)
      ensures region in Seen(regions, t).answered <==> HasOutcome(tries + [t], region, Gone)
    {
      HasOutcomeAppend(tries, t, region, Unanswered);
      HasOutcomeAppend(tries, t, region, Gone);
    }
  }

  /** Each region has at most one record: a failure exactly when a delete failed, else a success when one landed. */
  ghost predicate OneRecordPerRegion(tries: seq<Try>, records: seq<Record>) {
    && (forall i, j :: 0 <= i < j < |records| ==> records[i].region != records[j].region)
    && (forall region :: Record(region, false) in records <==> HasOutcome(tries, region, Unanswered))
    && (forall region :: Record(region, true) in records <==>
          HasOutcome(tries, region, Gone) && !HasOutcome(tries, region, Unanswered))
  }

  lemma RecordOne(tries: seq<Try>, t: Try, records: seq<Record>)
    requires FailuresRecorded(tries, records) && !HasOutcome(tries, t.region, Unanswered)
    ensures FailuresRecorded(tries + [t], if t.outcome.Unanswered? then records + [Record(t.region, false)] else records)
  {
    var after := if t.outcome.Unanswered? then records + [Record(t.region, false)] else records;
    forall region
      ensures Record(region, false) in after <==> HasOutcome(tries + [t], region, Unanswered)
    {
      HasOutcomeAppend(tries, t, region, Unanswered);
    }
    forall i | 0 <= i < |records|
      ensures records[i].region != t.region
    {
      assert records[i] == Record(records[i].region, false) && records[i] in records;
    }
  }

  class Cleanup {
    const world: World
    var jobs: Jobs
    var tracking: Tracking

    ghost predicate Valid()
      reads this
    {
      TrackingOk(tracking)
    }

    constructor (world: World, jobs: Jobs)
      ensures Valid() && this.world == world && this.jobs == jobs && tracking == Tracking([], map[], [])
    {
      this.world, this.jobs, tracking := world, jobs, Tracking([], map[], []);
    }

    /** The oldest keys go until there is room for one more. */
    method MakeRoom(order0: seq<nat>, counts0: map<nat, nat>) returns (order: seq<nat>, counts: map<nat, nat>)
      requires |order0| <= MAX_TRACKED_FAILURES && Distinct(order0) && forall id :: id in counts0 <==> id in order0
      ensures order == WithRoom(order0) && counts == Restrict(counts0, order)
    {
      order, counts := order0, counts0;
      while |order| >= MAX_TRACKED_FAILURES
        invariant order == order0 || order == WithRoom(order0)
        invariant |order0| >= MAX_TRACKED_FAILURES || order == order0
        invariant counts == Restrict(counts0, order)
      {
        counts := counts - {order[0]};
        assert order == [order[0]] + order[1..];
        assert order[0] !in order[1..];
        order := order[1..];
      }
    }

    /** `_count_failure`. */
    method Count(id: nat)
      requires Valid() && id !in tracking.givenUp
      modifies this`tracking
      ensures Valid() && tracking == CountFailure(old(tracking), id)
    {
      CountKeepsOk(tracking, id);
      var order, counts := tracking.order, tracking.counts;
      if id !in counts {
        order, counts := MakeRoom(order, counts);
        order := order + [id];
      }
      tracking := Counted(order, counts, tracking.givenUp, id);
    }

    method Counted(order0: seq<nat>, counts0: map<nat, nat>, givenUp0: seq<nat>, id: nat) returns (t: Tracking)
      ensures t == CountIn(order0, counts0, givenUp0, id)
    {
      var order, counts, givenUp := order0, counts0, givenUp0;
      var failures := (if id in counts then counts[id] else 0) + 1;
      counts := counts[id := failures];
      if failures >= MAX_ATTEMPTS_PER_FLEET {
        order, counts := Without(order, id), counts - {id};
        if |givenUp| >= MAX_TRACKED_FAILURES {
          givenUp := givenUp[1..];
        }
        givenUp := givenUp + [id];
      }
      t := Tracking(order, counts, givenUp);
      assert counts0[id := failures] - {id} == counts0 - {id};
    }

    /** `_delete_and_stamp`, and the error it lets through. */
    method DeleteAndStamp(id: nat, p: nat) returns (t: Try)
      requires Valid() && id in jobs && id !in tracking.givenUp
      modifies this
      ensures t == Try(id, old(jobs)[id].region, world.Delete(p))
      ensures Valid() && tracking == Noted(old(tracking), t)
      ensures if t.outcome.Gone?
              then exists now :: jobs == old(jobs)[id := old(jobs)[id].(held := false, updated := now)]
              else jobs == old(jobs)
    {
      t := Try(id, jobs[id].region, world.Delete(p));
      match t.outcome
      case Gone =>
        jobs := jobs[id := jobs[id].(held := false, updated := world.clock(p))];
        ForgetKeepsOk(tracking, id);
        tracking := Forget(tracking, id);
      case NotGone =>
        Count(id);
      case Unanswered =>
    }

    /** The loop of `run` over the batch: each delete, its stamp or its count, and a record for a region that fails. */
    method DeleteBatch(batch: seq<nat>)
      returns (cut: nat, tries: seq<Try>, records: seq<Record>, regions: Regions, ghost at: seq<nat>)
      requires Valid() && Distinct(batch)
      requires forall i :: 0 <= i < |batch| ==> batch[i] in jobs && batch[i] !in tracking.givenUp
      modifies this
      ensures Valid() && tracking == Remembered(old(tracking), tries) && Stamped(old(jobs), jobs, tries)
      ensures TriesOk(world, old(jobs), batch, cut, tries, at)
      ensures StopsFirst(world, batch, cut)
      ensures FailuresRecorded(tries, records) && RegionsOk(tries, regions)
    {
      cut, tries, records, regions, at := 0, [], [], Regions({}, {}), [];
      while cut < |batch| && !world.Stops(cut)
        invariant Valid() && tracking == Remembered(old(tracking), tries) && Stamped(old(jobs), jobs, tries)
        invariant TriesOk(world, old(jobs), batch, cut, tries, at)
        invariant RunsTo(world, cut)
        invariant FailuresRecorded(tries, records) && RegionsOk(tries, regions)
        invariant NoneGivenUp(tracking, batch, cut)
      {
        if jobs[batch[cut]].region in regions.failed {
          SkipOne(world, old(jobs), batch, cut, tries, at);
        } else {
          tries, records, regions, at :=
            VisitJob(batch, cut, tries, records, regions, at, old(jobs), old(tracking));
        }
        cut := cut + 1;
      }
    }

    /** The end of `run`: a success for every region that answered and did not fail. */
    method RecordAnswers(ghost tries: seq<Try>, regions: Regions, failures: seq<Record>) returns (records: seq<Record>)
      requires FailuresRecorded(tries, failures) && RegionsOk(tries, regions)
      ensures OneRecordPerRegion(tries, records)
    {
      records := failures;
      var rest := regions.answered - regions.failed;
      while rest != {}
        invariant rest <= regions.answered - regions.failed
        invariant forall i, j :: 0 <= i < j < |records| ==> records[i].region != records[j].region
        invariant forall region :: Record(region, false) in records <==> region in regions.failed
        invariant forall region ::
                    Record(region, true) in records <==> region in regions.answered - regions.failed - rest
        decreases |rest|
      {
        var region :| region in rest;
        NotRecorded(records, regions.failed, regions.answered - regions.failed - rest, region);
        records := records + [Record(region, true)];
        rest := rest - {region};
      }
    }

    /** `run`: what the cycle deletes, what it writes, and what every region's breaker is told. */
    method Run(counts: seq<(string, nat)>, percent: int, quota: int, paused: set<Region>, budget: int, cutoff: int)
      returns (batch: seq<nat>, cut: nat, tries: seq<Try>, records: seq<Record>, ghost parts: seq<seq<nat>>,
               ghost tail: seq<nat>, ghost at: seq<nat>)
      requires Valid() && forall i, j :: 0 <= i < j < |counts| ==> counts[i].0 != counts[j].0
      modifies this
      ensures Valid() && tracking == Remembered(old(tracking), tries) && Stamped(old(jobs), jobs, tries)
      ensures BatchOk(AllDeletable(old(jobs), paused, old(tracking).givenUp), batch, budget)
      ensures IsSelection(old(jobs), AllDeletable(old(jobs), paused, old(tracking).givenUp),
                          ProjectsOverQuota(counts, percent, quota), budget, cutoff, batch, parts, tail)
      ensures TriesOk(world, old(jobs), batch, cut, tries, at) && StopsFirst(world, batch, cut)
      ensures OneRecordPerRegion(tries, records)
    {
      var needs := ProjectsOverQuota(counts, percent, quota);
      NeedsAreOk(counts, percent, quota);
      batch, parts, tail := JobsToClean(jobs, needs, paused, tracking.givenUp, budget, cutoff);
      assert forall i :: 0 <= i < |batch| ==> Deletable(jobs, paused, tracking.givenUp, batch[i]);
      var failures, regions;
      cut, tries, failures, regions, at := DeleteBatch(batch);
      records := RecordAnswers(tries, regions, failures);
    }

    /** One delete of the loop. */
    method VisitJob(
      batch: seq<nat>, cut: nat, tries: seq<Try>, records: seq<Record>, regions: Regions, ghost at: seq<nat>,
      ghost jobs0: Jobs, ghost tracking0: Tracking)
      returns (tries': seq<Try>, records': seq<Record>, regions': Regions, ghost at': seq<nat>)
      requires Valid() && tracking == Remembered(tracking0, tries) && Stamped(jobs0, jobs, tries)
      requires Distinct(batch) && cut < |batch| && batch[cut] in jobs && jobs[batch[cut]].region !in regions.failed
      requires TriesOk(world, jobs0, batch, cut, tries, at)
      requires FailuresRecorded(tries, records) && RegionsOk(tries, regions)
      requires NoneGivenUp(tracking, batch, cut)
      modifies this
      ensures Valid() && tracking == Remembered(tracking0, tries') && Stamped(jobs0, jobs, tries')
      ensures TriesOk(world, jobs0, batch, cut + 1, tries', at')
      ensures FailuresRecorded(tries', records') && RegionsOk(tries', regions')
      ensures NoneGivenUp(tracking, batch, cut + 1)
    {
      NextIsUntried(world, jobs0, batch, cut, tries, at, cut);
      ghost var middle := jobs;
      assert StampedOne(jobs0[batch[cut]], middle[batch[cut]], WasGone(tries, batch[cut]));
      var t := DeleteAndStamp(batch[cut], cut);
      StampMore(jobs0, middle, tries, t, jobs);
      TryOneMore(world, jobs0, batch, cut, tries, at, t);
      RecordOne(tries, t, records);
      SeenIsOk(tries, regions, t);
      RememberOne(tracking0, tries, t);
      OthersNotGivenUp(Remembered(tracking0, tries), batch, cut, t);
      tries', at', regions' := tries + [t], at + [cut], Seen(regions, t);
      records' := if t.outcome.Unanswered? then records + [Record(t.region, false)] else records;
    }
  }

  ghost predicate RunsTo(w: World, cut: nat) {
    forall p :: 0 <= p < cut ==> !w.Stops(p)
  }

  /** The deletes go on to the end of the batch, or to the first position that stops them. */
  ghost predicate StopsFirst(w: World, batch: seq<nat>, cut: nat) {
    RunsTo(w, cut) && (cut < |batch| ==> w.Stops(cut))
  }

  ghost predicate NoneGivenUp(tracking: Tracking, batch: seq<nat>, cut: nat) {
    forall i :: cut <= i < |batch| ==> batch[i] !in tracking.givenUp
  }

  lemma RememberOne(tracking: Tracking, tries: seq<Try>, t: Try)
    ensures Remembered(tracking, tries + [t]) == Noted(Remembered(tracking, tries), t)
  {
    assert (tries + [t])[..|tries|] == tries;
  }

  /** A try counts against its own job only. */
  lemma OthersNotGivenUp(tracking: Tracking, batch: seq<nat>, cut: nat, t: Try)
    requires Distinct(batch) && cut < |batch| && t.id == batch[cut] && NoneGivenUp(tracking, batch, cut)
    ensures NoneGivenUp(Noted(tracking, t), batch, cut + 1)
  {
  }

  lemma NotRecorded(records: seq<Record>, failed: set<Region>, answered: set<Region>, region: Region)
    requires forall q :: Record(q, false) in records <==> q in failed
    requires forall q :: Record(q, true) in records <==> q in answered
    requires region !in failed && region !in answered
    ensures forall i :: 0 <= i < |records| ==> records[i].region != region
  {
    forall i | 0 <= i < |records|
      ensures records[i].region != region
    {
      assert records[i] in records && records[i] == Record(records[i].region, records[i].answered);
    }
  }

  // ------------------------------------------------------------------ over a cycle

  /**
   * A project over its quota, with enough jobs that may be deleted and enough budget left, holds fewer fleets than the
   * threshold once the deletes of its share have landed.
   */
  lemma CycleGetsUnder(
    before: Jobs, after: Jobs, tries: seq<Try>, ids: set<nat>, needs: seq<Need>, budget: int, parts: seq<seq<nat>>,
    i: nat, threshold: nat)
    requires Stamped(before, after, tries)
    requires QuotaParts(before, ids, needs, budget, parts) && i < |parts|
    requires forall id :: id in ids ==> id in before && before[id].held
    requires needs[i].needed == |Held(before, needs[i].project)| - threshold + 1 >= 1
    requires needs[i].needed <= |OfProject(before, ids, needs[i].project)|
    requires needs[i].needed <= budget - |Flat(parts[..i])|
    requires forall k :: 0 <= k < |parts[i]| ==> WasGone(tries, parts[i][k])
    ensures |Held(after, needs[i].project)| < threshold
  {
    ProjectGetsUnder(before, ids, needs, budget, parts, i, threshold);
    var project := needs[i].project;
    var left := Held(before, project) - Elements(parts[i]);
    forall id | id in Held(after, project)
      ensures id in left
    {
      assert StampedOne(before[id], after[id], WasGone(tries, id));
    }
    assert left == Held(after, project) + (left - Held(after, project));
  }

  lemma NotedKeepsOk(tracking: Tracking, t: Try)
    requires TrackingOk(tracking) && t.id !in tracking.givenUp
    ensures TrackingOk(Noted(tracking, t))
    ensures forall id :: id in Noted(tracking, t).givenUp ==> id in tracking.givenUp || id == t.id
  {
    CountKeepsOk(tracking, t.id);
    ForgetKeepsOk(tracking, t.id);
  }

  /** The deletes of a cycle keep the memory in bounds, as long as no job that was given up is tried. */
  lemma {:induction false} MemoryStaysOk(tracking: Tracking, tries: seq<Try>)
    requires TrackingOk(tracking)
    requires forall i, j :: 0 <= i < j < |tries| ==> tries[i].id != tries[j].id
    requires forall k :: 0 <= k < |tries| ==> tries[k].id !in tracking.givenUp
    ensures TrackingOk(Remembered(tracking, tries))
    ensures forall id :: id in Remembered(tracking, tries).givenUp ==> id in tracking.givenUp || WasTried(tries, id)
  {
    if tries != [] {
      var n := |tries| - 1;
      MemoryStaysOk(tracking, tries[..n]);
      assert forall id :: WasTried(tries[..n], id) ==> WasTried(tries, id);
      assert !WasTried(tries[..n], tries[n].id);
      NotedKeepsOk(Remembered(tracking, tries[..n]), tries[n]);
    }
  }

  /** Three failed attempts in a row on a job that stays in the memory give it up, and no fewer. */
  lemma GivenUpExactlyAtThird(t: Tracking, id: nat)
    requires TrackingOk(t) && id !in t.givenUp
    ensures id in CountFailure(t, id).givenUp <==> id in t.counts && t.counts[id] == MAX_ATTEMPTS_PER_FLEET - 1
    ensures id !in CountFailure(t, id).givenUp ==>
              id in CountFailure(t, id).counts &&
              CountFailure(t, id).counts[id] == 1 + if id in t.counts then t.counts[id] else 0
  {
  }
}
