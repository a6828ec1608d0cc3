/**
 * What the background executor promises about whole runs: for any number of pools and threads, from an
 * initial state and under any interleaving.
 */
module ExecutorTheorems {
  import opened Collections
  import opened Wrappers
  import opened ExecutorModel
  import opened ExecutorInvariant

  /** A run that starts where `init` leaves the executor. */
  ghost predicate RunFromInit(states: seq<State>, steps: seq<Step>) {
    && IsRun(states, steps)
    && exists pools: nat, workers: nat, limit: nat :: pools > 0 && states[0] == Initial(pools, workers, limit)
  }

  lemma Reachable(states: seq<State>, steps: seq<Step>, i: nat)
    requires RunFromInit(states, steps) && i < |states|
    ensures Inv(states[i])
  {
    var pools: nat, workers: nat, limit: nat :| pools > 0 && states[0] == Initial(pools, workers, limit);
    InitialInv(pools, workers, limit);
    RunKeepsInv(states, steps, i);
  }

  // ------------------------------------------------------------------ conservation

  lemma {:induction false} LedgerPartition(tasks: seq<Task>, p: nat)
    ensures CountIf(tasks, At(p, Accepted)) ==
            CountIf(tasks, At(p, Waiting)) + CountIf(tasks, At(p, Held))
            + CountIf(tasks, At(p, Counted(Completed))) + CountIf(tasks, At(p, Counted(Failed)))
            + CountIf(tasks, At(p, Counted(Canceled))) + CountIf(tasks, At(p, Counted(Replaced)))
  {
    if tasks != [] {
      var n := |tasks| - 1;
      LedgerPartition(tasks[..n], p);
      match tasks[n].outcome
      case None =>
      case Some(Completed) =>
      case Some(Failed) =>
      case Some(Canceled) =>
      case Some(Replaced) =>
    }
  }

  lemma {:induction false} SlotPartition(threads: seq<Thread>, p: nat)
    ensures CountIf(threads, SlotOf(p)) == CountIf(threads, UncountedOf(p)) + CountIf(threads, ReleasingOf(p))
  {
    if threads != [] {
      SlotPartition(threads[..|threads| - 1], p);
    }
  }

  /**
   * Every accepted task of a pool is in exactly one of: waiting, running, or counted under one outcome. The
   * counter of a finished task goes up just before its slot is given back, so the threads in between
   * appear once on each side.
   */
  lemma Conservation(states: seq<State>, steps: seq<Step>, i: nat, p: nat)
    requires RunFromInit(states, steps) && i < |states| && p < |states[i].queues|
    ensures var s := states[i];
            TasksAt(s, p, Accepted) + CountIf(s.threads, ReleasingOf(p)) ==
            |s.queues[p]| + s.running[p]
            + s.tallies[p].completed + s.tallies[p].failed + s.tallies[p].canceled + s.tallies[p].replaced
    ensures 0 <= states[i].running[p] && Pending(states[i], p) <= states[i].limit
  {
    Reachable(states, steps, i);
    var s := states[i];
    LedgerPartition(s.tasks, p);
    SlotPartition(s.threads, p);
    assert s.tallies[p].Of(Completed) == TasksAt(s, p, Counted(Completed));
    assert s.tallies[p].Of(Failed) == TasksAt(s, p, Counted(Failed));
    assert s.tallies[p].Of(Canceled) == TasksAt(s, p, Counted(Canceled));
    assert s.tallies[p].Of(Replaced) == TasksAt(s, p, Counted(Replaced));
  }

  // ------------------------------------------------------------------ futures

  /** No Future operation of the executor finds a state it rejects, and a started task is never replaced. */
  lemma FuturesNeverRaise(states: seq<State>, steps: seq<Step>, i: nat, t: nat)
    requires RunFromInit(states, steps) && i < |states|
    ensures !states[i].raised
    ensures t < |states[i].tasks| && states[i].tasks[t].replaced ==>
              states[i].tasks[t].future != FRunning && states[i].tasks[t].future != FFinished
    ensures t < |states[i].tasks| && states[i].tasks[t].owner == NoOne ==>
              (states[i].tasks[t].future == FFinished <==>
               states[i].tasks[t].outcome in {Some(Completed), Some(Failed)})
  {
    Reachable(states, steps, i);
    if t < |states[i].tasks| {
      assert TaskOk(states[i].tasks[t]);
    }
  }

  /** What one step may do to an earlier task: its pool and key stay, and its ledger entry is written once. */
  predicate Recorded(x: Task, y: Task) {
    x.pool == y.pool && x.key == y.key && (x.outcome.Some? ==> y.outcome == x.outcome)
  }

  ghost predicate LedgerGrows(a: seq<Task>, b: seq<Task>) {
    |a| <= |b| && forall t :: 0 <= t < |a| ==> Recorded(a[t], b[t])
  }

  lemma LedgerTransitive(a: seq<Task>, b: seq<Task>, c: seq<Task>)
    requires LedgerGrows(a, b) && LedgerGrows(b, c)
    ensures LedgerGrows(a, c)
  {
    forall t | 0 <= t < |a|
      ensures Recorded(a[t], c[t])
    {
      assert Recorded(a[t], b[t]) && Recorded(b[t], c[t]);
    }
  }

  lemma {:induction false} CancelEachRecords(s: State, ts: seq<nat>)
    requires Shaped(s) && Distinct(ts)
    requires forall i :: 0 <= i < |ts| ==> ts[i] < |s.tasks| && s.tasks[ts[i]].outcome.None?
    ensures LedgerGrows(s.tasks, CancelEach(s, ts).tasks)
    decreases |ts|
  {
    if ts != [] {
      InsideLockRecords(s, ts[0]);
      var r := CancelInsideLock(s, ts[0]);
      assert forall i :: 0 <= i < |ts[1..]| ==> ts[1..][i] == ts[i + 1] && ts[i + 1] != ts[0];
      CancelEachRecords(r, ts[1..]);
      LedgerTransitive(s.tasks, r.tasks, CancelEach(r, ts[1..]).tasks);
    }
  }

  lemma InsideLockRecords(s: State, t: nat)
    requires Shaped(s) && t < |s.tasks| && s.tasks[t].outcome.None?
    ensures LedgerGrows(s.tasks, CancelInsideLock(s, t).tasks)
  {
  }

  /** The queues from `p` on hold tasks of their own pool, once each, that are not in the ledger yet. */
  ghost predicate Unrecorded(s: State, p: nat) {
    forall q :: p <= q < |s.queues| ==> QueueUnrecorded(s.tasks, s.queues[q], q)
  }

  ghost predicate QueueUnrecorded(tasks: seq<Task>, queue: seq<nat>, q: nat) {
    && Distinct(queue)
    && forall i :: 0 <= i < |queue| ==>
         queue[i] < |tasks| && tasks[queue[i]].pool == q && tasks[queue[i]].outcome.None?
  }

  lemma CoreIsUnrecorded(s: State)
    requires Core(s)
    ensures Unrecorded(s, 0)
  {
    forall q | 0 <= q < |s.queues|
      ensures QueueUnrecorded(s.tasks, s.queues[q], q)
    {
      assert QueueOk(s.tasks, s.queues[q], q);
      assert forall i :: 0 <= i < |s.queues[q]| ==> TaskOk(s.tasks[s.queues[q][i]]);
    }
  }

  /** Cancelling tasks of one pool leaves the other queues and the other tasks alone. */
  lemma {:induction false} CancelEachFrame(s: State, ts: seq<nat>, p: nat)
    requires Shaped(s) && forall i :: 0 <= i < |ts| ==> ts[i] < |s.tasks| && s.tasks[ts[i]].pool == p
    ensures forall q :: 0 <= q < |s.queues| && q != p ==> CancelEach(s, ts).queues[q] == s.queues[q]
    ensures forall u :: 0 <= u < |s.tasks| && s.tasks[u].pool != p ==> CancelEach(s, ts).tasks[u] == s.tasks[u]
    decreases |ts|
  {
    if ts != [] {
      InsideLockFrame(s, ts[0], p);
      CancelEachFrame(CancelInsideLock(s, ts[0]), ts[1..], p);
    }
  }

  lemma InsideLockFrame(s: State, t: nat, p: nat)
    requires Shaped(s) && t < |s.tasks| && s.tasks[t].pool == p
    ensures CancelInsideLock(s, t).tasks[t].pool == p
    ensures forall q :: 0 <= q < |s.queues| && q != p ==> CancelInsideLock(s, t).queues[q] == s.queues[q]
  {
  }

  lemma PoolStaysUnrecorded(s: State, p: nat)
    requires Shaped(s) && p < |s.queues| && Unrecorded(s, p)
    ensures Unrecorded(CancelEach(s, s.queues[p]), p + 1)
  {
    assert QueueUnrecorded(s.tasks, s.queues[p], p);
    CancelEachFrame(s, s.queues[p], p);
    var r := CancelEach(s, s.queues[p]);
    forall q | p + 1 <= q < |r.queues|
      ensures QueueUnrecorded(r.tasks, r.queues[q], q)
    {
      assert QueueUnrecorded(s.tasks, s.queues[q], q);
    }
  }

  lemma {:induction false} CancelPoolsRecords(s: State, p: nat)
    requires Shaped(s) && p <= |s.queues| && Unrecorded(s, p)
    ensures LedgerGrows(s.tasks, CancelPools(s, p).tasks)
    decreases |s.queues| - p
  {
    if p < |s.queues| {
      assert QueueUnrecorded(s.tasks, s.queues[p], p);
      CancelEachRecords(s, s.queues[p]);
      PoolStaysUnrecorded(s, p);
      var r := CancelEach(s, s.queues[p]);
      CancelPoolsRecords(r, p + 1);
      LedgerTransitive(s.tasks, r.tasks, CancelPools(r, p + 1).tasks);
    }
  }

  lemma SubmitRecords(s: State, p: nat, key: Option<string>, wake: Option<nat>)
    requires Inv(s) && p < |s.queues| && WakeChoice(s, wake)
    ensures LedgerGrows(s.tasks, SubmitStep(s, p, key, wake).tasks)
  {
    var index := ReplaceIndex(s, p, key);
    assert QueueOk(s.tasks, s.queues[p], p);
    if index.Some? {
      assert TaskOk(s.tasks[s.queues[p][index.value]]);
    }
  }

  lemma DiscardRecords(s: State, p: nat, key: string)
    requires Inv(s) && p < |s.queues|
    ensures LedgerGrows(s.tasks, DiscardStep(s, p, key).tasks)
  {
    var index := ReplaceIndex(s, p, Some(key));
    assert QueueOk(s.tasks, s.queues[p], p);
    if index.Some? {
      assert TaskOk(s.tasks[s.queues[p][index.value]]);
      InsideLockRecords(s, s.queues[p][index.value]);
    }
  }

  lemma ThreadRecords(s: State, step: Step)
    requires Inv(s) && Enabled(s, step)
    requires step.ThreadLocks? || step.ThreadChecks? || step.ThreadStarts? || step.ThreadRuns? || step.ThreadCounts?
             || step.ThreadReleases? || step.ThreadResolves?
    ensures LedgerGrows(s.tasks, Apply(s, step).tasks)
  {
    if step.ThreadCounts? {
      CountingRecords(s, step.thread);
    } else {
      MovesRecord(s, step);
    }
  }

  lemma CountingRecords(s: State, w: nat)
    requires Inv(s) && Enabled(s, ThreadCounts(w))
    ensures LedgerGrows(s.tasks, ThreadCountsStep(s, w).tasks)
  {
    assert HeldOk(s.tasks, s.threads[w]);
  }

  lemma MovesRecord(s: State, step: Step)
    requires Shaped(s) && Enabled(s, step)
    requires step.ThreadLocks? || step.ThreadChecks? || step.ThreadStarts? || step.ThreadRuns? || step.ThreadReleases?
             || step.ThreadResolves?
    ensures LedgerGrows(s.tasks, Apply(s, step).tasks)
  {
  }

  lemma CallbackRecords(s: State, t: nat)
    requires Inv(s) && t < |s.tasks| && s.tasks[t].callbackDue
    ensures LedgerGrows(s.tasks, ForgetRegion(s, t).tasks)
  {
    assert TaskOk(s.tasks[t]);
    assert QueueOk(s.tasks, s.queues[s.tasks[t].pool], s.tasks[t].pool);
  }

  lemma StepRecords(s: State, step: Step)
    requires Inv(s) && Enabled(s, step)
    ensures LedgerGrows(s.tasks, Apply(s, step).tasks)
  {
    match step
    case Submit(p, key, wake) => SubmitRecords(s, p, key, wake);
    case Discard(p, key) => DiscardRecords(s, p, key);
    case Shutdown =>
      CoreIsUnrecorded(s);
      CancelPoolsRecords(s.(stopping := true), 0);
    case CallbackRuns(t) => CallbackRecords(s, t);
    case ReplacerCancels(t) => ReplacerRecords(s, t);
    case ReplacerNotifies(_) => FutureRecords(s, step);
    case CallerCancels(_) => FutureRecords(s, step);
    case RemoverNotifies(_) => FutureRecords(s, step);
    case _ => ThreadRecords(s, step);
  }

  lemma ReplacerRecords(s: State, t: nat)
    requires Inv(s) && Enabled(s, ReplacerCancels(t))
    ensures LedgerGrows(s.tasks, ReplacerCancelsStep(s, t).tasks)
  {
    assert TaskOk(s.tasks[t]);
  }

  lemma FutureRecords(s: State, step: Step)
    requires Shaped(s) && Enabled(s, step)
    requires step.ReplacerNotifies? || step.CallerCancels? || step.RemoverNotifies?
    ensures LedgerGrows(s.tasks, Apply(s, step).tasks)
  {
  }

  /** A task is counted once: the ledger entry it gets is the one it has in every later state. */
  lemma {:induction false} CountedOnce(states: seq<State>, steps: seq<Step>, i: nat, j: nat)
    requires RunFromInit(states, steps) && i <= j < |states|
    ensures LedgerGrows(states[i].tasks, states[j].tasks)
  {
    if i < j {
      CountedOnce(states, steps, i, j - 1);
      NextRecords(states, steps, j - 1);
      LedgerTransitive(states[i].tasks, states[j - 1].tasks, states[j].tasks);
    }
  }

  lemma NextRecords(states: seq<State>, steps: seq<Step>, k: nat)
    requires RunFromInit(states, steps) && k < |steps|
    ensures LedgerGrows(states[k].tasks, states[k + 1].tasks)
  {
    Reachable(states, steps, k);
    assert StepAt(states, steps, k);
    StepRecords(states[k], steps[k]);
  }

  // ------------------------------------------------------------------ wake-ups

  lemma {:induction false} SomeCounted<T>(s: seq<T>, f: T -> bool) returns (i: nat)
    requires CountIf(s, f) > 0
    ensures i < |s| && f(s[i])
  {
    var n := |s| - 1;
    if f(s[n]) {
      i := n;
    } else {
      i := SomeCounted(s[..n], f);
    }
  }

  /**
   * No lost wake-up, although a replacement sends no notify: while a thread sleeps un-notified, the waiting tasks
   * are at most the notified threads that have not re-checked yet, so a waiting task always has a thread that is
   * about to take the lock for it. After a shutdown no thread sleeps un-notified.
   */
  lemma NoLostWakeup(states: seq<State>, steps: seq<Step>, i: nat)
    requires RunFromInit(states, steps) && i < |states|
    requires SomeoneAsleep(states[i].threads)
    ensures !states[i].stopping
    ensures TotalQueued(states[i].queues) <= CountIf(states[i].threads, WokenUp())
    ensures TotalQueued(states[i].queues) > 0 ==>
              exists w :: 0 <= w < |states[i].threads| && states[i].threads[w] == Sleeping(true)
                          && Enabled(states[i], ThreadLocks(w))
  {
    Reachable(states, steps, i);
    if TotalQueued(states[i].queues) > 0 {
      var w := SomeCounted(states[i].threads, WokenUp());
      assert Enabled(states[i], ThreadLocks(w));
    }
  }

  // ------------------------------------------------------------------ bounded overtaking

  /** The pool whose task this step hands to a thread. */
  function StartedPool(s: State, step: Step): Option<nat>
    requires Shaped(s)
  {
    if step.ThreadLocks? && !s.stopping then NextPool(s, |s.queues|) else None
  }

  function Starts(states: seq<State>, steps: seq<Step>, a: nat, b: nat): nat
    requires a <= b <= |steps| < |states|
    requires forall i :: 0 <= i < |states| ==> Shaped(states[i])
    decreases b - a
  {
    if a == b then 0
    else (if StartedPool(states[a], steps[a]).Some? then 1 else 0) + Starts(states, steps, a + 1, b)
  }

  /** The other pools served no later than `p`. */
  function Ahead(s: State, p: nat): set<nat>
    requires Shaped(s) && p < |s.queues|
  {
    set q: nat | q < |s.queues| && q != p && s.served[q] <= s.served[p]
  }

  lemma ServedChangesOnlyOnStart(s: State, step: Step)
    requires Inv(s) && Enabled(s, step)
    ensures |Apply(s, step).queues| == |s.queues|
    ensures StartedPool(s, step).None? ==> Apply(s, step).served == s.served
    ensures StartedPool(s, step).Some? ==>
              Apply(s, step).served == s.served[StartedPool(s, step).value := s.clock + 1]
  {
    if step.ThreadLocks? {
      LockServes(s, step.thread);
    } else {
      OthersServeNone(s, step);
    }
  }

  lemma LockServes(s: State, w: nat)
    requires Shaped(s) && w < |s.threads|
    ensures |ThreadLocksStep(s, w).queues| == |s.queues|
    ensures s.stopping || NextPool(s, |s.queues|).None? ==> ThreadLocksStep(s, w).served == s.served
    ensures !s.stopping && NextPool(s, |s.queues|).Some? ==>
              ThreadLocksStep(s, w).served == s.served[NextPool(s, |s.queues|).value := s.clock + 1]
  {
    if !s.stopping && NextPool(s, |s.queues|).Some? {
      LockTakes(s, w);
    }
  }

  lemma OthersServeNone(s: State, step: Step)
    requires Shaped(s) && Enabled(s, step) && !step.ThreadLocks?
    ensures |Apply(s, step).queues| == |s.queues| && Apply(s, step).served == s.served
  {
  }

  lemma StartLeavesFewerAhead(s: State, step: Step, p: nat)
    requires Inv(s) && Enabled(s, step) && p < |s.queues| && s.queues[p] != [] && s.running[p] == 0
    requires StartedPool(s, step) != Some(p)
    ensures |Apply(s, step).queues| == |s.queues|
    ensures |Ahead(Apply(s, step), p)| + (if StartedPool(s, step).Some? then 1 else 0) <= |Ahead(s, p)|
  {
    ServedChangesOnlyOnStart(s, step);
    var r := Apply(s, step);
    if StartedPool(s, step).Some? {
      var q := StartedPool(s, step).value;
      assert !Before(s, p, q);
      assert s.running[q] == CountIf(s.threads, SlotOf(q));
      assert q in Ahead(s, p);
      assert Ahead(r, p) == Ahead(s, p) - {q};
    } else {
      assert Ahead(r, p) == Ahead(s, p);
    }
  }

  lemma {:induction false} StartsAreAhead(states: seq<State>, steps: seq<Step>, a: nat, b: nat, p: nat)
    requires RunFromInit(states, steps) && a <= b <= |steps| && p < |states[a].queues|
    requires forall i :: a <= i <= b ==> p < |states[i].queues| && states[i].queues[p] != [] && states[i].running[p] == 0
    requires forall i :: a <= i < b ==> StartedPool(states[i], steps[i]) != Some(p)
    ensures Starts(states, steps, a, b) <= |Ahead(states[a], p)|
    decreases b - a
  {
    if a < b {
      Reachable(states, steps, a);
      assert StepAt(states, steps, a);
      StartLeavesFewerAhead(states[a], steps[a], p);
      StartsAreAhead(states, steps, a + 1, b, p);
    }
  }

  lemma {:induction false} SmallNumbers(n: nat, s: set<nat>)
    requires forall q :: q in s ==> q < n
    ensures |s| <= n
  {
    if n == 0 {
      assert s == {};
    } else {
      SmallNumbers(n - 1, s - {n - 1});
    }
  }

  /**
   * Bounded overtaking: while a pool has waiting tasks and none running, at most one task of each other pool
   * starts before one of its own, for any number of threads and any arrivals.
   */
  lemma BoundedOvertaking(states: seq<State>, steps: seq<Step>, a: nat, b: nat, p: nat)
    requires RunFromInit(states, steps) && a <= b <= |steps| && p < |states[a].queues|
    requires forall i :: a <= i <= b ==> p < |states[i].queues| && states[i].queues[p] != [] && states[i].running[p] == 0
    requires forall i :: a <= i < b ==> StartedPool(states[i], steps[i]) != Some(p)
    ensures Starts(states, steps, a, b) <= |states[a].queues| - 1
  {
    StartsAreAhead(states, steps, a, b, p);
    SmallNumbers(|states[a].queues|, Ahead(states[a], p) + {p});
  }

  // ------------------------------------------------------------------ what the callers are told

  /** `would_accept`. */
  predicate WouldAccept(s: State, p: nat, key: Option<string>)
    requires Shaped(s) && p < |s.queues|
  {
    !s.stopping && (Pending(s, p) < s.limit || (key.Some? && WaitingIndex(s.tasks, s.queues[p], key.value, 0).Some?))
  }

  /**
   * `would_accept` is exact at the instant it is read, and a replacement keeps the number of waiting tasks
   * and every other position of the queue.
   */
  lemma WouldAcceptIsExact(s: State, p: nat, key: Option<string>, wake: Option<nat>)
    requires Shaped(s) && p < |s.queues| && WakeChoice(s, wake)
    ensures var r := SubmitStep(s, p, key, wake);
            && (WouldAccept(s, p, key) <==> |r.tasks| == |s.tasks| + 1)
            && (!WouldAccept(s, p, key) ==> r == s)
            && (WouldAccept(s, p, key) && ReplaceIndex(s, p, key).Some? ==>
                  && |r.queues[p]| == |s.queues[p]| && r.threads == s.threads
                  && forall k :: 0 <= k < |s.queues[p]| ==>
                       r.queues[p][k] == if k == ReplaceIndex(s, p, key).value then |s.tasks| else s.queues[p][k])
  {
  }
}
