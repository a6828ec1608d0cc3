/**
 * The `_Cycle` object and the lock regions of `BackgroundExecutor`, updating their fields in place. Each method is
 * one `with cond` region, proved to be the step of `ExecutorModel` that the theorems about runs speak of.
 */
module ExecutorCycle {
  import opened Collections
  import opened Wrappers
  import opened ExecutorModel
  import opened ExecutorInvariant
  import opened ExecutorTheorems

  datatype PoolStatus = PoolStatus(queued: int, running: int, freeSlots: int, idleWorkers: int)

  function Sum(xs: seq<int>): int {
    if xs == [] then 0 else Sum(xs[..|xs| - 1]) + xs[|xs| - 1]
  }

  /** A thread that holds a slot of one of the first pools. */
  function SlotHolder(pools: nat): Thread -> bool {
    (th: Thread) => HasSlot(th) && th.pool < pools
  }

  lemma {:induction false} OneMorePool(threads: seq<Thread>, p: nat)
    ensures CountIf(threads, SlotHolder(p + 1)) == CountIf(threads, SlotHolder(p)) + CountIf(threads, SlotOf(p))
  {
    if threads != [] {
      OneMorePool(threads[..|threads| - 1], p);
    }
  }

  lemma {:induction false} CountIsAtMostAll<T>(s: seq<T>, f: T -> bool)
    ensures CountIf(s, f) <= |s|
  {
    if s != [] {
      CountIsAtMostAll(s[..|s| - 1], f);
    }
  }

  /** The running tasks of all the pools are the slots that threads hold, so there are at most as many as threads. */
  lemma {:induction false} RunningIsHeldSlots(s: State, n: nat)
    requires Inv(s) && n <= |s.queues|
    ensures Sum(s.running[..n]) == CountIf(s.threads, SlotHolder(n))
  {
    if n == 0 {
      assert forall i :: 0 <= i < |s.threads| ==> !SlotHolder(0)(s.threads[i]);
      CountIfNone(s.threads, SlotHolder(0));
    } else {
      RunningIsHeldSlots(s, n - 1);
      OneMorePool(s.threads, n - 1);
      assert s.running[..n][..n - 1] == s.running[..n - 1];
    }
  }

  /** What is left to cancel leads from one state to another. */
  ghost predicate Leads(s: State, p: nat, goal: State) {
    Shaped(s) && p <= |s.queues| && CancelPools(s, p) == goal
  }

  class Cycle {
    var tasks: seq<Task>
    var queues: seq<seq<nat>>
    var running: seq<int>
    var served: seq<nat>
    var clock: nat
    var stopping: bool
    var tallies: seq<Tally>
    var threads: seq<Thread>
    const limit: nat
    var raised: bool

    function Now(): State
      reads this
    {
      State(tasks, queues, running, served, clock, stopping, tallies, threads, limit, raised)
    }

    predicate Valid()
      reads this
    {
      Shaped(Now())
    }

    constructor (pools: nat, workers: nat, poolLimit: nat)
      requires pools > 0
      ensures Valid() && Now() == Initial(pools, workers, poolLimit)
    {
      tasks, queues := [], seq(pools, _ => []);
      running, served, clock := seq(pools, _ => 0), seq(pools, _ => 0), 0;
      stopping, raised := false, false;
      tallies := seq(pools, _ => Tally(0, 0, 0, 0));
      threads := seq(workers, _ => Entering);
      limit := poolLimit;
    }

    /** `waiting_index`. */
    method FindWaiting(p: nat, key: string) returns (r: Option<nat>)
      requires Valid() && p < |queues|
      ensures r == WaitingIndex(tasks, queues[p], key, 0)
    {
      for index := 0 to |queues[p]|
        invariant WaitingIndex(tasks, queues[p], key, 0) == WaitingIndex(tasks, queues[p], key, index)
      {
        if tasks[queues[p][index]].key == Some(key) {
          return Some(index);
        }
      }
      return None;
    }

    /** The new task takes the place of the waiting one with its key. */
    method Replace(p: nat, k: nat, added: Task)
      requires Valid() && p < |queues| && k < |queues[p]| && added.pool == p
      modifies this
      ensures var prior := old(queues)[p][k];
              var outcome := if IsCancelled(old(tasks)[prior].future) then Canceled else Replaced;
              var gone := old(tasks)[prior].(replaced := true, owner := ReplacerToCancel, outcome := Some(outcome));
              Now() == old(Now()).(tasks := old(tasks)[prior := gone] + [added],
                                   queues := old(queues)[p := PutAt(old(queues)[p], k, |old(tasks)|)],
                                   tallies := Count(old(Now()), p, outcome))
    {
      var prior := queues[p][k];
      queues := queues[p := PutAt(queues[p], k, |tasks|)];
      var outcome := if IsCancelled(tasks[prior].future) then Canceled else Replaced;
      tasks := tasks[prior := tasks[prior].(replaced := true, owner := ReplacerToCancel, outcome := Some(outcome))];
      tasks := tasks + [added];
      tallies := tallies[p := tallies[p].Bump(outcome)];
    }

    /** The new task goes to the end of its queue, and a sleeping thread is notified. */
    method Append(p: nat, added: Task, wake: Option<nat>)
      requires Valid() && p < |queues| && (wake.Some? ==> wake.value < |threads|)
      modifies this
      ensures Now() == Notify(old(Now()).(tasks := old(tasks) + [added],
                                          queues := old(queues)[p := old(queues)[p] + [|old(tasks)|]]), wake)
    {
      var id := |tasks|;
      tasks := tasks + [added];
      queues := queues[p := queues[p] + [id]];
      if wake.Some? {
        threads := threads[wake.value := Sleeping(true)];
      }
    }

    /** The lock region of `submit`: `enqueue` and the done callback. */
    method Enqueue(p: nat, key: Option<string>, wake: Option<nat>) returns (accepted: bool)
      requires Valid() && p < |queues| && WakeChoice(Now(), wake)
      modifies this
      ensures Valid() && Now() == SubmitStep(old(Now()), p, key, wake)
      ensures accepted == WouldAccept(old(Now()), p, key)
    {
      ghost var s := Now();
      if stopping {
        return false;
      }
      var index: Option<nat> := None;
      if key.Some? {
        index := FindWaiting(p, key.value);
      }
      var added := Task(p, key, FPending, false, false, Queue, None);
      if index.Some? {
        Replace(p, index.value, added);
        assert Now() == SubmitStep(s, p, key, wake);
        return true;
      }
      if |queues[p]| + running[p] >= limit {
        return false;
      }
      Append(p, added, wake);
      assert Now() == SubmitStep(s, p, key, wake);
      return true;
    }

    /** The lock region of `forget_if_cancelled`. */
    method ForgetIfCancelled(t: nat)
      requires Valid() && t < |tasks|
      modifies this
      ensures Valid() && Now() == ForgetRegion(old(Now()), t)
    {
      tasks := tasks[t := tasks[t].(callbackDue := false)];
      if tasks[t].replaced {
        return;
      }
      var p := tasks[t].pool;
      if t !in queues[p] {
        return;
      }
      queues := queues[p := CutAt(queues[p], IndexOf(queues[p], t))];
      tallies := tallies[p := tallies[p].Bump(Canceled)];
      tasks := tasks[t := tasks[t].(owner := Remover, outcome := Some(Canceled))];
    }

    /** `future.cancel()` while this thread holds the lock, with the callback it runs. */
    method CancelHoldingLock(t: nat)
      requires Valid() && t < |tasks|
      modifies this
      ensures Valid() && Now() == CancelInsideLock(old(Now()), t)
    {
      if tasks[t].future != FPending {
        return;
      }
      tasks := tasks[t := tasks[t].(future := FCancelled)];
      ForgetIfCancelled(t);
      if tasks[t].owner == Remover {
        match SetRunningOrNotify(tasks[t].future)
        case Some(f) => tasks := tasks[t := tasks[t].(future := f, owner := NoOne)];
        case None => raised := true;
      }
    }

    /** `discard`. */
    method DiscardWaiting(p: nat, key: string) returns (found: bool)
      requires Valid() && p < |queues|
      modifies this
      ensures Valid() && Now() == DiscardStep(old(Now()), p, key)
      ensures found == ReplaceIndex(old(Now()), p, Some(key)).Some?
    {
      var index := FindWaiting(p, key);
      if index.None? {
        return false;
      }
      CancelHoldingLock(queues[p][index.value]);
      return true;
    }

    /** The inner loop of `shutdown`, over a copy of one queue. */
    method CancelAll(copy: seq<nat>)
      requires Valid() && forall i :: 0 <= i < |copy| ==> copy[i] < |tasks|
      modifies this
      ensures Valid() && Now() == CancelEach(old(Now()), copy)
    {
      for i := 0 to |copy|
        invariant Valid() && |tasks| == |old(tasks)|
        invariant CancelEach(old(Now()), copy) == CancelEach(Now(), copy[i..])
      {
        assert copy[i..][0] == copy[i] && copy[i..][1..] == copy[i + 1..];
        CancelHoldingLock(copy[i]);
      }
    }

    method CancelQueue(p: nat, ghost goal: State)
      requires Valid() && p < |queues| && Leads(Now(), p, goal)
      modifies this
      ensures Valid() && |queues| == |old(queues)| && Leads(Now(), p + 1, goal)
    {
      ghost var before := Now();
      CancelAll(queues[p]);
      assert Now() == CancelEach(before, before.queues[p]);
    }

    /** The outer loop of `shutdown`. */
    method CancelQueues()
      requires Valid()
      modifies this
      ensures Valid() && Now() == CancelPools(old(Now()), 0)
    {
      ghost var goal := CancelPools(Now(), 0);
      for p := 0 to |queues|
        invariant Valid() && |queues| == |old(queues)| && Leads(Now(), p, goal)
      {
        CancelQueue(p, goal);
      }
    }

    /** The lock region of `shutdown`. */
    method ShutDown()
      requires Valid()
      modifies this
      ensures Valid() && Now() == ShutdownStep(old(Now()))
    {
      stopping := true;
      CancelQueues();
      NotifyAll();
    }

    /** `cond.notify_all()`. */
    method NotifyAll()
      requires Valid()
      modifies this`threads
      ensures Valid() && Now() == old(Now()).(threads := WakeAll(old(threads)))
    {
      threads := WakeAll(threads);
    }

    /** `_next_pool`: the pool with the fewest running tasks, then the one served least recently. */
    method PickPool() returns (r: Option<nat>)
      requires Valid()
      ensures r == NextPool(Now(), |queues|)
    {
      r := None;
      for p := 0 to |queues|
        invariant r == NextPool(Now(), p)
      {
        if queues[p] != [] {
          if r.None? || (running[p] < running[r.value] || (running[p] == running[r.value] && served[p] < served[r.value])) {
            r := Some(p);
          }
        }
      }
    }

    /** The lock region of `_work`. */
    method EnterLock(w: nat)
      requires Valid() && Enabled(Now(), ThreadLocks(w))
      modifies this
      ensures Valid() && Now() == ThreadLocksStep(old(Now()), w)
    {
      var next := PickPool();
      if stopping {
        threads := threads[w := Exited];
      } else if next.None? {
        threads := threads[w := Sleeping(false)];
      } else {
        var p := next.value;
        var t := queues[p][0];
        queues := queues[p := queues[p][1..]];
        running := running[p := running[p] + 1];
        clock := clock + 1;
        served := served[p := clock];
        tasks := tasks[t := tasks[t].(owner := Worker)];
        threads := threads[w := Took(p, t)];
      }
    }

    /** `_finish` before its lock: the outcome counter. */
    method CountOutcome(w: nat)
      requires Valid() && Enabled(Now(), ThreadCounts(w))
      modifies this
      ensures Valid() && Now() == ThreadCountsStep(old(Now()), w)
    {
      var Counting(p, t, o, how) := threads[w];
      tallies := tallies[p := tallies[p].Bump(o)];
      tasks := tasks[t := tasks[t].(outcome := Some(o))];
      threads := threads[w := Releasing(p, t, how)];
    }

    /** The lock region of `_finish`. */
    method ReleaseSlot(w: nat)
      requires Valid() && Enabled(Now(), ThreadReleases(w))
      modifies this
      ensures Valid() && Now() == ThreadReleasesStep(old(Now()), w)
    {
      var Releasing(p, t, how) := threads[w];
      running := running[p := running[p] - 1];
      threads := threads[w := Resolving(p, t, how)];
    }

    /** `status`. */
    method Status(p: nat) returns (r: PoolStatus)
      requires Valid() && p < |queues|
      ensures r.queued == |queues[p]| && r.running == running[p]
      ensures r.freeSlots >= 0 && r.idleWorkers >= 0
      ensures !stopping ==> (r.freeSlots > 0 <==> WouldAccept(Now(), p, None))
      ensures Inv(Now()) ==> r.queued + r.running + r.freeSlots == limit
      ensures Inv(Now()) ==> r.idleWorkers == |threads| - CountIf(threads, SlotHolder(|queues|))
    {
      var total := 0;
      for i := 0 to |running|
        invariant total == Sum(running[..i])
      {
        assert running[..i + 1][..i] == running[..i];
        total := total + running[i];
      }
      assert running[..|running|] == running;
      if Inv(Now()) {
        RunningIsHeldSlots(Now(), |queues|);
        CountIsAtMostAll(threads, SlotHolder(|queues|));
      }
      var slots, idle := limit - (|queues[p]| + running[p]), |threads| - total;
      r := PoolStatus(|queues[p]|, running[p], if slots < 0 then 0 else slots, if idle < 0 then 0 else idle);
    }
  }
}
