/**
 * Whoever waits for a task of the background executor is released: when nothing is left to do, every accepted task is
 * counted and its future resolved, shut down or not.
 */
module ExecutorLiveness {
  import opened Collections
  import opened Wrappers
  import opened ExecutorModel
  import opened ExecutorInvariant
  import opened ExecutorTheorems

  // ------------------------------------------------------------------ the invariant

  ghost predicate IsHeld(threads: seq<Thread>, t: nat) {
    exists w :: 0 <= w < |threads| && HoldsTask(threads[w]) && threads[w].task == t
  }

  /** A task handed to a worker is held by a thread. */
  ghost predicate AllHeld(tasks: seq<Task>, threads: seq<Thread>) {
    forall t :: 0 <= t < |tasks| && tasks[t].owner == Worker ==> IsHeld(threads, t)
  }

  predicate Doomed(x: Task) {
    x.owner == Queue ==> x.future != FPending
  }

  /** After a shutdown the queues hold only cancelled tasks, whose callback is about to take them out. */
  ghost predicate QueueDoomed(s: State) {
    s.stopping ==> forall t :: 0 <= t < |s.tasks| ==> Doomed(s.tasks[t])
  }

  /** A thread leaves only after a shutdown. */
  ghost predicate ExitsOk(s: State) {
    forall w :: 0 <= w < |s.threads| && s.threads[w].Exited? ==> s.stopping
  }

  ghost predicate Live(s: State) {
    AllHeld(s.tasks, s.threads) && QueueDoomed(s) && ExitsOk(s)
  }

  // ------------------------------------------------------------------ steps that keep the threads

  /** What a step without a thread does to the tasks: none is handed to a worker, and a doomed one stays so. */
  predicate Calm(x: Task, y: Task) {
    (y.owner == Worker ==> x.owner == Worker) && (Doomed(x) ==> Doomed(y))
  }

  ghost predicate AllCalm(a: seq<Task>, b: seq<Task>) {
    |a| == |b| && forall t :: 0 <= t < |a| ==> Calm(a[t], b[t])
  }

  lemma CalmKeepsLive(s: State, r: State)
    requires Live(s) && AllCalm(s.tasks, r.tasks) && r.threads == s.threads && r.stopping == s.stopping
    ensures Live(r)
  {
    forall t | 0 <= t < |r.tasks| && r.tasks[t].owner == Worker
      ensures IsHeld(r.threads, t)
    {
      assert Calm(s.tasks[t], r.tasks[t]);
    }
    if r.stopping {
      forall t | 0 <= t < |r.tasks|
        ensures Doomed(r.tasks[t])
      {
        assert Calm(s.tasks[t], r.tasks[t]) && Doomed(s.tasks[t]);
      }
    }
  }

  lemma ForgetIsCalm(s: State, t: nat)
    requires Shaped(s) && t < |s.tasks|
    ensures AllCalm(s.tasks, ForgetRegion(s, t).tasks) && ForgetRegion(s, t).stopping == s.stopping
  {
  }

  lemma NotifyIsCalm(s: State, t: nat)
    requires Shaped(s) && t < |s.tasks|
    ensures AllCalm(s.tasks, NotifyStep(s, t).tasks) && NotifyStep(s, t).stopping == s.stopping
  {
  }

  lemma CancelIsCalm(s: State, t: nat)
    requires Shaped(s) && t < |s.tasks|
    ensures AllCalm(s.tasks, CancelStep(s, t).tasks) && CancelStep(s, t).stopping == s.stopping
    ensures CancelStep(s, t).threads == s.threads
  {
  }

  lemma ReplacerIsCalm(s: State, t: nat)
    requires Shaped(s) && t < |s.tasks| && s.tasks[t].owner == ReplacerToCancel
    ensures AllCalm(s.tasks, ReplacerCancelsStep(s, t).tasks)
    ensures ReplacerCancelsStep(s, t).stopping == s.stopping && ReplacerCancelsStep(s, t).threads == s.threads
  {
  }

  lemma InsideLockIsCalm(s: State, t: nat)
    requires Shaped(s) && t < |s.tasks|
    ensures AllCalm(s.tasks, CancelInsideLock(s, t).tasks) && CancelInsideLock(s, t).stopping == s.stopping
  {
    if s.tasks[t].future == FPending {
      var cancelled := s.(tasks := s.tasks[t := s.tasks[t].(future := FCancelled)]);
      ForgetIsCalm(cancelled, t);
      NotifyIsCalm(ForgetRegion(cancelled, t), t);
      CalmTwice(s.tasks, cancelled.tasks, ForgetRegion(cancelled, t).tasks);
      CalmTwice(s.tasks, ForgetRegion(cancelled, t).tasks, NotifyStep(ForgetRegion(cancelled, t), t).tasks);
    }
  }

  lemma CalmTwice(a: seq<Task>, b: seq<Task>, c: seq<Task>)
    requires AllCalm(a, b) && AllCalm(b, c)
    ensures AllCalm(a, c)
  {
    forall t | 0 <= t < |a|
      ensures Calm(a[t], c[t])
    {
      assert Calm(a[t], b[t]) && Calm(b[t], c[t]);
    }
  }

  /** What a cancel with the lock held does to a task: its own is not pending any more, and none starts to wait. */
  predicate Cancels(x: Task, y: Task, mine: bool) {
    && y.pool == x.pool && (y.owner == Queue ==> x.owner == Queue) && (y.owner == Worker ==> x.owner == Worker)
    && (y.future == FPending ==> x.future == FPending && !mine)
  }

  lemma ForgetCancels(s: State, t: nat)
    requires Shaped(s) && t < |s.tasks| && s.tasks[t].future == FCancelled
    ensures Cancels(s.tasks[t], ForgetRegion(s, t).tasks[t], true) && ForgetRegion(s, t).tasks[t].future == FCancelled
  {
  }

  lemma NotifyCancels(s: State, t: nat)
    requires Shaped(s) && t < |s.tasks| && s.tasks[t].future == FCancelled
    ensures Cancels(s.tasks[t], NotifyStep(s, t).tasks[t], true)
  {
  }

  lemma InsideLockCancels(s: State, t: nat)
    requires Shaped(s) && t < |s.tasks|
    ensures Cancels(s.tasks[t], CancelInsideLock(s, t).tasks[t], true)
  {
    if s.tasks[t].future == FPending {
      var cancelled := s.(tasks := s.tasks[t := s.tasks[t].(future := FCancelled)]);
      ForgetCancels(cancelled, t);
      NotifyCancels(ForgetRegion(cancelled, t), t);
    }
  }

  lemma DiscardKeepsLive(s: State, p: nat, key: string)
    requires Inv(s) && Live(s) && p < |s.queues|
    ensures Live(DiscardStep(s, p, key))
  {
    var index := ReplaceIndex(s, p, Some(key));
    if index.Some? {
      InsideLockIsCalm(s, s.queues[p][index.value]);
      CalmKeepsLive(s, CancelInsideLock(s, s.queues[p][index.value]));
    }
  }

  lemma FutureStepKeepsLive(s: State, step: Step)
    requires Inv(s) && Live(s) && Enabled(s, step)
    requires step.ReplacerCancels? || step.ReplacerNotifies? || step.CallerCancels? || step.CallbackRuns?
             || step.RemoverNotifies?
    ensures Live(Apply(s, step))
  {
    match step
    case ReplacerCancels(t) => ReplacerIsCalm(s, t); CalmKeepsLive(s, ReplacerCancelsStep(s, t));
    case ReplacerNotifies(t) => NotifyIsCalm(s, t); CalmKeepsLive(s, NotifyStep(s, t));
    case RemoverNotifies(t) => NotifyIsCalm(s, t); CalmKeepsLive(s, NotifyStep(s, t));
    case CallerCancels(t) => CancelIsCalm(s, t); CalmKeepsLive(s, CancelStep(s, t));
    case CallbackRuns(t) => ForgetIsCalm(s, t); CalmKeepsLive(s, ForgetRegion(s, t));
  }

  // ------------------------------------------------------------------ submit

  lemma SubmitHandsNone(s: State, p: nat, key: Option<string>, wake: Option<nat>, t: nat)
    requires Inv(s) && p < |s.queues| && WakeChoice(s, wake)
    requires t < |SubmitStep(s, p, key, wake).tasks| && SubmitStep(s, p, key, wake).tasks[t].owner == Worker
    ensures t < |s.tasks| && s.tasks[t].owner == Worker
  {
  }

  lemma SubmitKeepsHolder(s: State, p: nat, key: Option<string>, wake: Option<nat>, w: nat)
    requires Shaped(s) && p < |s.queues| && WakeChoice(s, wake) && w < |s.threads| && HoldsTask(s.threads[w])
    ensures |SubmitStep(s, p, key, wake).threads| == |s.threads| && SubmitStep(s, p, key, wake).threads[w] == s.threads[w]
  {
  }

  lemma SubmitKeepsHeld(s: State, p: nat, key: Option<string>, wake: Option<nat>)
    requires Inv(s) && AllHeld(s.tasks, s.threads) && p < |s.queues| && WakeChoice(s, wake)
    ensures AllHeld(SubmitStep(s, p, key, wake).tasks, SubmitStep(s, p, key, wake).threads)
  {
    var r := SubmitStep(s, p, key, wake);
    forall t | 0 <= t < |r.tasks| && r.tasks[t].owner == Worker
      ensures IsHeld(r.threads, t)
    {
      SubmitHandsNone(s, p, key, wake, t);
      var w :| 0 <= w < |s.threads| && HoldsTask(s.threads[w]) && s.threads[w].task == t;
      SubmitKeepsHolder(s, p, key, wake, w);
    }
  }

  lemma SubmitKeepsLive(s: State, p: nat, key: Option<string>, wake: Option<nat>)
    requires Inv(s) && Live(s) && p < |s.queues| && WakeChoice(s, wake)
    ensures Live(SubmitStep(s, p, key, wake))
  {
    SubmitKeepsHeld(s, p, key, wake);
    if s.stopping {
      assert SubmitStep(s, p, key, wake) == s;
    }
  }

  // ------------------------------------------------------------------ shutdown

  /** What cancelling a list of tasks does to every task. */
  lemma {:induction false} CancelEachEffect(s: State, ts: seq<nat>, u: nat)
    requires Shaped(s) && u < |s.tasks| && forall i :: 0 <= i < |ts| ==> ts[i] < |s.tasks|
    ensures Cancels(s.tasks[u], CancelEach(s, ts).tasks[u], u in ts)
    decreases |ts|
  {
    if ts != [] {
      InsideLockCancels(s, ts[0]);
      CancelEachEffect(CancelInsideLock(s, ts[0]), ts[1..], u);
      assert u in ts <==> u == ts[0] || u in ts[1..];
    }
  }

  /** The waiting tasks of the first pools are cancelled. */
  ghost predicate DoomedBelow(s: State, p: nat) {
    forall t :: 0 <= t < |s.tasks| && s.tasks[t].pool < p ==> Doomed(s.tasks[t])
  }

  /** Every waiting task is in its queue. */
  ghost predicate AllListed(s: State)
    requires Shaped(s)
  {
    forall t :: 0 <= t < |s.tasks| && s.tasks[t].owner == Queue ==> t in s.queues[s.tasks[t].pool]
  }

  lemma InsideLockKeepsListed(s: State, t: nat)
    requires Shaped(s) && AllListed(s) && t < |s.tasks|
    ensures AllListed(CancelInsideLock(s, t))
  {
    var r := CancelInsideLock(s, t);
    InsideLockCancels(s, t);
    forall u | 0 <= u < |r.tasks| && r.tasks[u].owner == Queue
      ensures u in r.queues[r.tasks[u].pool]
    {
      if u != t {
        InsideLockKeepsOthers(s, t, s.tasks[u].pool, u);
      }
    }
  }

  lemma CutKeepsOthers(q: seq<nat>, k: nat, u: nat)
    requires k < |q| && u in q && u != q[k]
    ensures u in CutAt(q, k)
  {
    assert q == q[..k] + [q[k]] + q[k + 1..];
    assert CutAt(q, k) == q[..k] + q[k + 1..];
  }

  lemma ForgetKeepsOthers(s: State, t: nat, p: nat, u: nat)
    requires Shaped(s) && t < |s.tasks| && p < |s.queues| && u != t && u in s.queues[p]
    ensures u in ForgetRegion(s, t).queues[p]
  {
    if t in s.queues[p] {
      CutKeepsOthers(s.queues[p], IndexOf(s.queues[p], t), u);
    }
  }

  lemma InsideLockKeepsOthers(s: State, t: nat, p: nat, u: nat)
    requires Shaped(s) && t < |s.tasks| && p < |s.queues| && u != t && u in s.queues[p]
    ensures u in CancelInsideLock(s, t).queues[p]
  {
    if s.tasks[t].future == FPending {
      ForgetKeepsOthers(s.(tasks := s.tasks[t := s.tasks[t].(future := FCancelled)]), t, p, u);
    }
  }

  lemma {:induction false} CancelEachKeepsListed(s: State, ts: seq<nat>)
    requires Shaped(s) && AllListed(s) && forall i :: 0 <= i < |ts| ==> ts[i] < |s.tasks|
    ensures AllListed(CancelEach(s, ts))
    decreases |ts|
  {
    if ts != [] {
      InsideLockKeepsListed(s, ts[0]);
      CancelEachKeepsListed(CancelInsideLock(s, ts[0]), ts[1..]);
    }
  }

  lemma PoolIsDoomed(s: State, p: nat)
    requires Shaped(s) && AllListed(s) && p < |s.queues| && DoomedBelow(s, p)
    ensures DoomedBelow(CancelEach(s, s.queues[p]), p + 1)
  {
    var r := CancelEach(s, s.queues[p]);
    forall t | 0 <= t < |r.tasks| && r.tasks[t].pool < p + 1
      ensures Doomed(r.tasks[t])
    {
      CancelEachEffect(s, s.queues[p], t);
      if s.tasks[t].pool < p {
        assert Doomed(s.tasks[t]);
      } else if s.tasks[t].owner == Queue {
        assert t in s.queues[s.tasks[t].pool];
      }
    }
  }

  lemma {:induction false} PoolsAreDoomed(s: State, p: nat)
    requires Shaped(s) && AllListed(s) && p <= |s.queues| && DoomedBelow(s, p)
    ensures DoomedBelow(CancelPools(s, p), |s.queues|)
    decreases |s.queues| - p
  {
    if p < |s.queues| {
      PoolIsDoomed(s, p);
      CancelEachKeepsListed(s, s.queues[p]);
      PoolsAreDoomed(CancelEach(s, s.queues[p]), p + 1);
    }
  }

  lemma {:induction false} CancelPoolsHandsNone(s: State, p: nat, u: nat)
    requires Shaped(s) && p <= |s.queues| && u < |s.tasks|
    ensures CancelPools(s, p).tasks[u].owner == Worker ==> s.tasks[u].owner == Worker
    decreases |s.queues| - p
  {
    if p < |s.queues| {
      CancelEachEffect(s, s.queues[p], u);
      CancelPoolsHandsNone(CancelEach(s, s.queues[p]), p + 1, u);
    }
  }

  lemma WakeAllHolds(threads: seq<Thread>, t: nat)
    requires IsHeld(threads, t)
    ensures IsHeld(WakeAll(threads), t)
  {
    var w :| 0 <= w < |threads| && HoldsTask(threads[w]) && threads[w].task == t;
    assert WakeAll(threads)[w] == threads[w];
  }

  lemma ShutdownKeepsLive(s: State)
    requires Inv(s) && Live(s)
    ensures Live(ShutdownStep(s))
  {
    var stopped := s.(stopping := true);
    PoolsAreDoomed(stopped, 0);
    var cancelled := CancelPools(stopped, 0);
    var r := ShutdownStep(s);
    forall t | 0 <= t < |r.tasks|
      ensures Doomed(r.tasks[t])
      ensures r.tasks[t].owner == Worker ==> IsHeld(r.threads, t)
    {
      CancelPoolsHandsNone(stopped, 0, t);
      assert cancelled.tasks[t].pool < |s.queues|;
      if r.tasks[t].owner == Worker {
        WakeAllHolds(s.threads, t);
      }
    }
    StopsOnce(stopped, 0);
  }

  lemma {:induction false} StopsOnce(s: State, p: nat)
    requires Shaped(s) && p <= |s.queues|
    ensures CancelPools(s, p).stopping == s.stopping
    decreases |s.queues| - p
  {
    if p < |s.queues| {
      CancelEachStops(s, s.queues[p]);
      StopsOnce(CancelEach(s, s.queues[p]), p + 1);
    }
  }

  lemma {:induction false} CancelEachStops(s: State, ts: seq<nat>)
    requires Shaped(s) && forall i :: 0 <= i < |ts| ==> ts[i] < |s.tasks|
    ensures CancelEach(s, ts).stopping == s.stopping
    decreases |ts|
  {
    if ts != [] {
      CancelDoesNotStop(s, ts[0]);
      CancelEachStops(CancelInsideLock(s, ts[0]), ts[1..]);
    }
  }

  // ------------------------------------------------------------------ threads

  /** A thread moves on with its task, or takes one, and the other threads stay. */
  lemma HoldingMoveKeepsLive(s: State, r: State, w: nat, th: Thread)
    requires Live(s) && w < |s.threads| && r.threads == s.threads[w := th] && HoldsTask(th)
    requires HoldsTask(s.threads[w]) ==> s.threads[w].task == th.task
    requires |r.tasks| == |s.tasks| && r.stopping == s.stopping && th.task < |s.tasks|
    requires forall t :: 0 <= t < |s.tasks| && t != th.task ==> r.tasks[t] == s.tasks[t]
    requires r.tasks[th.task].owner == Worker
    ensures Live(r)
  {
    forall t | 0 <= t < |r.tasks| && r.tasks[t].owner == Worker
      ensures IsHeld(r.threads, t)
    {
      if t == th.task {
        assert r.threads[w].task == t;
      } else {
        var v :| 0 <= v < |s.threads| && HoldsTask(s.threads[v]) && s.threads[v].task == t;
        assert r.threads[v] == s.threads[v];
      }
    }
    assert Doomed(r.tasks[th.task]);
    if r.stopping {
      forall t | 0 <= t < |r.tasks|
        ensures Doomed(r.tasks[t])
      {
        assert Doomed(s.tasks[t]);
      }
    }
  }

  lemma LocksKeepsLive(s: State, w: nat)
    requires Inv(s) && Live(s) && Enabled(s, ThreadLocks(w))
    ensures Live(ThreadLocksStep(s, w))
  {
    var r := ThreadLocksStep(s, w);
    var next := NextPool(s, |s.queues|);
    if !s.stopping && next.Some? {
      LockTakes(s, w);
      HoldingMoveKeepsLive(s, r, w, Took(next.value, s.queues[next.value][0]));
    } else {
      forall t | 0 <= t < |r.tasks| && r.tasks[t].owner == Worker
        ensures IsHeld(r.threads, t)
      {
        var v :| 0 <= v < |s.threads| && HoldsTask(s.threads[v]) && s.threads[v].task == t;
        assert r.threads[v] == s.threads[v];
      }
    }
  }

  lemma WorkKeepsLive(s: State, step: Step)
    requires Inv(s) && Live(s) && Enabled(s, step)
    requires step.ThreadChecks? || step.ThreadStarts? || step.ThreadRuns? || step.ThreadCounts? || step.ThreadReleases?
    ensures Live(Apply(s, step))
  {
    var w := step.thread;
    assert HeldOk(s.tasks, s.threads[w]);
    var r := Apply(s, step);
    HoldingMoveKeepsLive(s, r, w, r.threads[w]);
  }

  lemma ResolvesKeepsLive(s: State, w: nat)
    requires Inv(s) && Live(s) && Enabled(s, ThreadResolves(w))
    ensures Live(ThreadResolvesStep(s, w))
  {
    var t := s.threads[w].task;
    assert HeldOk(s.tasks, s.threads[w]);
    var r := ThreadResolvesStep(s, w);
    assert r.tasks[t].owner == NoOne;
    forall u | 0 <= u < |r.tasks| && r.tasks[u].owner == Worker
      ensures IsHeld(r.threads, u)
    {
      var v :| 0 <= v < |s.threads| && HoldsTask(s.threads[v]) && s.threads[v].task == u;
      assert r.threads[v] == s.threads[v];
    }
    if r.stopping {
      forall u | 0 <= u < |r.tasks|
        ensures Doomed(r.tasks[u])
      {
        assert Doomed(s.tasks[u]);
      }
    }
  }

  // ------------------------------------------------------------------ every run

  lemma StepKeepsLive(s: State, step: Step)
    requires Inv(s) && Live(s) && Enabled(s, step)
    ensures Live(Apply(s, step))
  {
    match step
    case Submit(p, key, wake) => SubmitKeepsLive(s, p, key, wake);
    case Discard(p, key) => DiscardKeepsLive(s, p, key);
    case Shutdown => ShutdownKeepsLive(s);
    case ThreadLocks(w) => LocksKeepsLive(s, w);
    case ThreadResolves(w) => ResolvesKeepsLive(s, w);
    case ThreadChecks(_) => WorkKeepsLive(s, step);
    case ThreadStarts(_) => WorkKeepsLive(s, step);
    case ThreadRuns(_, _) => WorkKeepsLive(s, step);
    case ThreadCounts(_) => WorkKeepsLive(s, step);
    case ThreadReleases(_) => WorkKeepsLive(s, step);
    case _ => FutureStepKeepsLive(s, step);
  }

  lemma {:induction false} RunIsLive(states: seq<State>, steps: seq<Step>, i: nat)
    requires RunFromInit(states, steps) && i < |states|
    ensures Inv(states[i]) && Live(states[i])
  {
    Reachable(states, steps, i);
    if i > 0 {
      RunIsLive(states, steps, i - 1);
      assert StepAt(states, steps, i - 1);
      StepKeepsLive(states[i - 1], steps[i - 1]);
    }
  }

  /** Only the callers could still do something: no thread, no callback, no replacer and no remover has a step to make. */
  ghost predicate AtRest(s: State)
    requires Shaped(s)
  {
    && (forall t :: 0 <= t < |s.tasks| ==> !TaskWaits(s.tasks[t]))
    && (forall w :: 0 <= w < |s.threads| ==> Idle(s.threads[w]))
  }

  /** A callback, a replacer or a remover has a step to make on the task. */
  predicate TaskWaits(x: Task) {
    x.callbackDue || x.owner == ReplacerToCancel || x.owner == ReplacerToNotify || x.owner == Remover
  }

  /** No step of a thread is enabled. */
  predicate Idle(th: Thread) {
    th == Sleeping(false) || th.Exited?
  }

  lemma NobodyHolds(s: State, t: nat)
    requires Inv(s) && Live(s) && AtRest(s) && t < |s.tasks|
    ensures s.tasks[t].owner != Worker
  {
    assert forall w :: 0 <= w < |s.threads| ==> Idle(s.threads[w]) && !HoldsTask(s.threads[w]);
    assert !IsHeld(s.threads, t);
  }

  lemma {:induction false} NothingQueued(queues: seq<seq<nat>>, p: nat)
    requires p < |queues| && TotalQueued(queues) == 0
    ensures queues[p] == []
  {
    if p < |queues| - 1 {
      NothingQueued(queues[..|queues| - 1], p);
    }
  }

  lemma NobodyWaits(s: State, t: nat)
    requires Inv(s) && Live(s) && AtRest(s) && |s.threads| > 0 && t < |s.tasks|
    ensures s.tasks[t].owner != Queue
  {
    assert TaskOk(s.tasks[t]) && !TaskWaits(s.tasks[t]);
    if s.stopping {
      assert Doomed(s.tasks[t]);
    } else {
      assert Idle(s.threads[0]) && Unnotified(s.threads[0]);
      forall w | 0 <= w < |s.threads|
        ensures !WokenUp()(s.threads[w])
      {
        assert Idle(s.threads[w]);
      }
      CountIfNone(s.threads, WokenUp());
      NothingQueued(s.queues, s.tasks[t].pool);
    }
  }

  /** The task is counted, and its future finished or its cancellation notified. */
  predicate IsReleased(x: Task) {
    && x.outcome.Some?
    && (if x.outcome.value.Completed? || x.outcome.value.Failed? then x.future == FFinished else x.future == FNotified)
  }

  /**
   * Whoever waits is released: with at least one thread, when nothing but the callers could still move, every task that
   * was accepted is counted, and its future is finished or its cancellation notified.
   */
  lemma EveryoneIsReleased(states: seq<State>, steps: seq<Step>, i: nat, t: nat)
    requires RunFromInit(states, steps) && i < |states| && |states[i].threads| > 0
    requires AtRest(states[i]) && t < |states[i].tasks|
    ensures IsReleased(states[i].tasks[t])
  {
    RunIsLive(states, steps, i);
    var s := states[i];
    NobodyHolds(s, t);
    NobodyWaits(s, t);
    assert TaskOk(s.tasks[t]) && !TaskWaits(s.tasks[t]);
  }

  /** A future is resolved after its slot is free: `status` right after a wait already counts it. */
  lemma ResolvedAfterRelease(states: seq<State>, steps: seq<Step>, i: nat, w: nat)
    requires RunFromInit(states, steps) && i < |states| && w < |states[i].threads| && HasSlot(states[i].threads[w])
    ensures states[i].threads[w].task < |states[i].tasks|
    ensures states[i].tasks[states[i].threads[w].task].future != FFinished
  {
    Reachable(states, steps, i);
    assert HeldOk(states[i].tasks, states[i].threads[w]);
  }
}
