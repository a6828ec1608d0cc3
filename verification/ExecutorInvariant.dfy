/**
 * What every step of the background executor keeps: each accepted task has exactly one owner and is counted
 * once, no Future operation ever raises, and no wake-up is lost.
 */
module ExecutorInvariant {
  import opened Collections
  import opened Wrappers
  import opened ExecutorModel

  // ------------------------------------------------------------------ counting

  function CountIf<T>(s: seq<T>, f: T -> bool): nat {
    if s == [] then 0 else CountIf(s[..|s| - 1], f) + if f(s[|s| - 1]) then 1 else 0
  }

  lemma {:induction false} CountIfUpdate<T>(s: seq<T>, i: nat, x: T, f: T -> bool)
    requires i < |s|
    ensures CountIf(s[i := x], f) == CountIf(s, f) - (if f(s[i]) then 1 else 0) + (if f(x) then 1 else 0)
  {
    var n := |s| - 1;
    if i == n {
      assert s[i := x][..n] == s[..n];
    } else {
      CountIfUpdate(s[..n], i, x, f);
      assert s[i := x][..n] == s[..n][i := x];
    }
  }

  lemma CountIfAppend<T>(s: seq<T>, x: T, f: T -> bool)
    ensures CountIf(s + [x], f) == CountIf(s, f) + if f(x) then 1 else 0
  {
    assert (s + [x])[..|s|] == s;
  }

  /** Where a task of a pool is in the ledger. */
  datatype Place = Accepted | Waiting | Held | Counted(outcome: Outcome)

  function At(p: nat, place: Place): Task -> bool {
    (x: Task) => x.pool == p && match place
      case Accepted => true
      case Waiting => x.owner == Queue && x.outcome.None?
      case Held => x.owner != Queue && x.outcome.None?
      case Counted(o) => x.outcome == Some(o)
  }

  function TasksAt(s: State, p: nat, place: Place): nat {
    CountIf(s.tasks, At(p, place))
  }

  predicate HasSlot(th: Thread) {
    HoldsTask(th) && !th.Resolving?
  }

  predicate IsUncounted(th: Thread) {
    HasSlot(th) && !th.Releasing?
  }

  function SlotOf(p: nat): Thread -> bool {
    (th: Thread) => HasSlot(th) && th.pool == p
  }

  function UncountedOf(p: nat): Thread -> bool {
    (th: Thread) => IsUncounted(th) && th.pool == p
  }

  function ReleasingOf(p: nat): Thread -> bool {
    (th: Thread) => th.Releasing? && th.pool == p
  }

  function WokenUp(): Thread -> bool {
    (th: Thread) => th == Sleeping(true)
  }

  function TotalQueued(queues: seq<seq<nat>>): nat {
    if queues == [] then 0 else TotalQueued(queues[..|queues| - 1]) + |queues[|queues| - 1]|
  }

  lemma {:induction false} TotalQueuedUpdate(queues: seq<seq<nat>>, p: nat, q: seq<nat>)
    requires p < |queues|
    ensures TotalQueued(queues[p := q]) == TotalQueued(queues) - |queues[p]| + |q|
  {
    var n := |queues| - 1;
    if p == n {
      assert queues[p := q][..n] == queues[..n];
    } else {
      TotalQueuedUpdate(queues[..n], p, q);
      assert queues[p := q][..n] == queues[..n][p := q];
    }
  }

  lemma {:induction false} TotalQueuedZero(queues: seq<seq<nat>>)
    requires forall p :: 0 <= p < |queues| ==> queues[p] == []
    ensures TotalQueued(queues) == 0
  {
    if queues != [] {
      TotalQueuedZero(queues[..|queues| - 1]);
    }
  }

  // ------------------------------------------------------------------ the invariant

  predicate Unresolved(f: FutureState) {
    f == FPending || f == FCancelled
  }

  /** What the owner of a task says about its future and its ledger entry. */
  predicate TaskOk(x: Task) {
    && (x.callbackDue ==> IsCancelled(x.future))
    && (x.replaced ==> x.outcome == Some(Canceled) || x.outcome == Some(Replaced))
    && (match x.owner
        case Queue => Unresolved(x.future) && !x.replaced && x.outcome.None? && (x.future == FCancelled ==> x.callbackDue)
        case Worker => !x.replaced
        case ReplacerToCancel => x.replaced && Unresolved(x.future)
        case ReplacerToNotify => x.replaced && x.future == FCancelled
        case Remover => !x.replaced && x.future == FCancelled && x.outcome == Some(Canceled) && !x.callbackDue
        case NoOne =>
          if x.future == FFinished then x.outcome == Some(Completed) || x.outcome == Some(Failed)
          else x.future == FNotified && (x.outcome == Some(Canceled) || x.outcome == Some(Replaced)))
  }

  predicate ResolutionOk(f: FutureState, how: Resolution, o: Outcome) {
    match how
    case NotifyCancel => f == FCancelled && o == Canceled
    case AlreadyNotified => f == FNotified && o == Canceled
    case SetResult => f == FRunning && (o == Completed || o == Failed)
  }

  predicate HeldOk(tasks: seq<Task>, th: Thread)
    requires HoldsTask(th)
  {
    && th.task < |tasks|
    && var x := tasks[th.task];
    && x.pool == th.pool && x.owner == Worker
    && (IsUncounted(th) <==> x.outcome.None?)
    && match th
       case Took(_, _) => Unresolved(x.future)
       case Starting(_, _) => Unresolved(x.future)
       case Running(_, _) => x.future == FRunning
       case Counting(_, _, o, how) => ResolutionOk(x.future, how, o)
       case Releasing(_, _, how) => ResolutionOk(x.future, how, x.outcome.value)
       case Resolving(_, _, how) => ResolutionOk(x.future, how, x.outcome.value)
  }

  predicate SeparateKeys(a: Option<string>, b: Option<string>) {
    a.None? || b.None? || a != b
  }

  /** One queue: waiting tasks of its pool, once each, with no replace key twice. */
  ghost predicate QueueOk(tasks: seq<Task>, q: seq<nat>, p: nat) {
    && (forall i :: 0 <= i < |q| ==> q[i] < |tasks| && tasks[q[i]].pool == p && tasks[q[i]].owner == Queue)
    && Distinct(q)
    && (forall i, j :: 0 <= i < j < |q| ==> SeparateKeys(tasks[q[i]].key, tasks[q[j]].key))
  }

  /** The queues hold exactly the waiting tasks. */
  ghost predicate QueuesOk(tasks: seq<Task>, queues: seq<seq<nat>>) {
    && (forall p :: 0 <= p < |queues| ==> QueueOk(tasks, queues[p], p))
    && (forall t :: 0 <= t < |tasks| && tasks[t].owner == Queue ==>
          tasks[t].pool < |queues| && t in queues[tasks[t].pool])
  }

  ghost predicate ThreadsOk(tasks: seq<Task>, threads: seq<Thread>) {
    && (forall w :: 0 <= w < |threads| && HoldsTask(threads[w]) ==> HeldOk(tasks, threads[w]))
    && (forall v, w :: 0 <= v < w < |threads| && HoldsTask(threads[v]) && HoldsTask(threads[w]) ==>
          threads[v].task != threads[w].task)
  }

  ghost predicate TasksOk(tasks: seq<Task>) {
    forall t :: 0 <= t < |tasks| ==> TaskOk(tasks[t])
  }

  ghost predicate CountsOk(s: State)
    requires Shaped(s)
  {
    && (forall p :: 0 <= p < |s.queues| ==> |s.queues[p]| == TasksAt(s, p, Waiting))
    && (forall p :: 0 <= p < |s.queues| ==> s.running[p] == CountIf(s.threads, SlotOf(p)))
    && (forall p :: 0 <= p < |s.queues| ==> TasksAt(s, p, Held) == CountIf(s.threads, UncountedOf(p)))
    && (forall p, o :: 0 <= p < |s.queues| ==> s.tallies[p].Of(o) == TasksAt(s, p, Counted(o)))
  }

  ghost predicate LimitsOk(s: State)
    requires Shaped(s)
  {
    && (forall p :: 0 <= p < |s.queues| ==> |s.queues[p]| + s.running[p] <= s.limit)
    && (forall p :: 0 <= p < |s.queues| ==> s.served[p] <= s.clock)
  }

  /** Some thread sleeps and nothing has woken it. */
  ghost predicate SomeoneAsleep(threads: seq<Thread>) {
    exists w :: 0 <= w < |threads| && Unnotified(threads[w])
  }

  ghost predicate WakeOk(s: State) {
    SomeoneAsleep(s.threads) ==> !s.stopping && TotalQueued(s.queues) <= CountIf(s.threads, WokenUp())
  }

  /** The invariant without the wake-up clause, which the inside of `shutdown` breaks for a moment. */
  ghost predicate Core(s: State) {
    && Shaped(s)
    && TasksOk(s.tasks) && QueuesOk(s.tasks, s.queues) && ThreadsOk(s.tasks, s.threads)
    && CountsOk(s) && LimitsOk(s)
    && !s.raised
  }

  ghost predicate Inv(s: State) {
    Core(s) && WakeOk(s)
  }

  // ------------------------------------------------------------------ steps on one task

  lemma TaskCounts(s: State, t: nat, x: Task)
    requires t < |s.tasks|
    ensures forall p, place ::
              CountIf(s.tasks[t := x], At(p, place))
              == TasksAt(s, p, place) - (if At(p, place)(s.tasks[t]) then 1 else 0) + (if At(p, place)(x) then 1 else 0)
  {
    forall p, place
      ensures CountIf(s.tasks[t := x], At(p, place))
              == TasksAt(s, p, place) - (if At(p, place)(s.tasks[t]) then 1 else 0) + (if At(p, place)(x) then 1 else 0)
    {
      CountIfUpdate(s.tasks, t, x, At(p, place));
    }
  }

  /** A queue depends only on the pool, key and owner of its members. */
  lemma QueueFrame(tasks: seq<Task>, tasks': seq<Task>, q: seq<nat>, p: nat)
    requires QueueOk(tasks, q, p) && |tasks| <= |tasks'|
    requires forall i :: 0 <= i < |q| ==>
               var x, y := tasks[q[i]], tasks'[q[i]]; x.pool == y.pool && x.key == y.key && x.owner == y.owner
    ensures QueueOk(tasks', q, p)
  {
  }

  /** A change that leaves the task in its place of the ledger. */
  lemma TouchKeepsCore(s: State, t: nat, x: Task)
    requires Core(s) && t < |s.tasks|
    requires var y := s.tasks[t]; x.pool == y.pool && x.key == y.key && x.outcome == y.outcome
    requires (x.owner == Queue) == (s.tasks[t].owner == Queue)
    requires TaskOk(x)
    requires forall w :: 0 <= w < |s.threads| && HoldsTask(s.threads[w]) && s.threads[w].task == t ==>
               HeldOk(s.tasks[t := x], s.threads[w])
    ensures Core(s.(tasks := s.tasks[t := x]))
  {
    TouchKeepsCounts(s, t, x);
    TouchKeepsQueues(s.tasks, s.queues, t, x);
    forall w | 0 <= w < |s.threads| && HoldsTask(s.threads[w])
      ensures HeldOk(s.tasks[t := x], s.threads[w])
    {
      assert HeldOk(s.tasks, s.threads[w]);
    }
  }

  lemma TouchKeepsCounts(s: State, t: nat, x: Task)
    requires Shaped(s) && CountsOk(s) && t < |s.tasks|
    requires var y := s.tasks[t]; x.pool == y.pool && x.outcome == y.outcome && (x.owner == Queue) == (y.owner == Queue)
    ensures var r := s.(tasks := s.tasks[t := x]); Shaped(r) && CountsOk(r)
  {
    TaskCounts(s, t, x);
  }

  lemma TouchKeepsQueues(tasks: seq<Task>, queues: seq<seq<nat>>, t: nat, x: Task)
    requires QueuesOk(tasks, queues) && t < |tasks|
    requires x.pool == tasks[t].pool && x.key == tasks[t].key && (x.owner == Queue) == (tasks[t].owner == Queue)
    ensures QueuesOk(tasks[t := x], queues)
  {
    forall p | 0 <= p < |queues|
      ensures QueueOk(tasks[t := x], queues[p], p)
    {
      QueueFrame(tasks, tasks[t := x], queues[p], p);
    }
  }

  lemma CancelKeepsCore(s: State, t: nat)
    requires Core(s) && t < |s.tasks|
    ensures Core(CancelStep(s, t))
  {
    var (f, fired) := Cancel(s.tasks[t].future);
    TouchKeepsCore(s, t, s.tasks[t].(future := f, callbackDue := s.tasks[t].callbackDue || fired));
  }

  lemma NotifyKeepsCore(s: State, t: nat)
    requires Core(s) && t < |s.tasks|
    requires s.tasks[t].owner == Remover || s.tasks[t].owner == ReplacerToNotify
    ensures Core(NotifyStep(s, t))
  {
    TouchKeepsCore(s, t, s.tasks[t].(future := FNotified, owner := NoOne));
  }

  lemma ReplacerCancelsKeepsCore(s: State, t: nat)
    requires Core(s) && t < |s.tasks| && s.tasks[t].owner == ReplacerToCancel
    ensures Core(ReplacerCancelsStep(s, t))
    ensures ReplacerCancelsStep(s, t).queues == s.queues && ReplacerCancelsStep(s, t).threads == s.threads
  {
    var (f, fired) := Cancel(s.tasks[t].future);
    var x := s.tasks[t].(future := f, owner := ReplacerToNotify,
                         callbackDue := if fired then false else s.tasks[t].callbackDue);
    TouchKeepsCore(s, t, x);
    assert ReplacerCancelsStep(s, t).tasks == s.tasks[t := x];
    assert ReplacerCancelsStep(s, t) == s.(tasks := s.tasks[t := x]);
  }

  // ------------------------------------------------------------------ removal from a queue

  lemma CutKeepsMembers(q: seq<nat>, k: nat, u: nat)
    requires k < |q| && u in q && u != q[k]
    ensures u in CutAt(q, k)
  {
    var i :| 0 <= i < |q| && q[i] == u;
    assert CutAt(q, k)[if i < k then i else i - 1] == u;
  }

  lemma CutQueueOk(tasks: seq<Task>, q: seq<nat>, p: nat, k: nat, x: Task)
    requires QueueOk(tasks, q, p) && k < |q|
    ensures QueueOk(tasks[q[k] := x], CutAt(q, k), p)
  {
    var r := CutAt(q, k);
    assert forall i :: 0 <= i < |r| ==> r[i] != q[k];
  }

  lemma OtherQueueOk(tasks: seq<Task>, q: seq<nat>, p: nat, t: nat, x: Task)
    requires QueueOk(tasks, q, p) && t < |tasks| && tasks[t].pool != p
    ensures QueueOk(tasks[t := x], q, p)
  {
    QueueFrame(tasks, tasks[t := x], q, p);
  }

  /** Taking the `k`-th task out of a queue for an owner that is not the queue. */
  lemma RemovalKeepsQueues(tasks: seq<Task>, queues: seq<seq<nat>>, p: nat, k: nat, x: Task)
    requires QueuesOk(tasks, queues) && p < |queues| && k < |queues[p]|
    requires x.owner != Queue
    ensures QueuesOk(tasks[queues[p][k] := x], queues[p := CutAt(queues[p], k)])
  {
    var t := queues[p][k];
    assert QueueOk(tasks, queues[p], p);
    var queues' := queues[p := CutAt(queues[p], k)];
    forall p' | 0 <= p' < |queues'|
      ensures QueueOk(tasks[t := x], queues'[p'], p')
    {
      if p' == p {
        CutQueueOk(tasks, queues[p], p, k, x);
      } else {
        OtherQueueOk(tasks, queues[p'], p', t, x);
      }
    }
    forall u | 0 <= u < |tasks| && tasks[t := x][u].owner == Queue
      ensures u in queues'[tasks[u].pool]
    {
      assert u in queues[tasks[u].pool];
      if tasks[u].pool == p {
        CutKeepsMembers(queues[p], k, u);
      }
    }
  }

  /** A task no worker owns can change without any thread noticing. */
  lemma UnheldTask(s: State, t: nat, x: Task)
    requires Core(s) && t < |s.tasks| && s.tasks[t].owner != Worker
    ensures ThreadsOk(s.tasks[t := x], s.threads)
  {
    forall w | 0 <= w < |s.threads| && HoldsTask(s.threads[w])
      ensures HeldOk(s.tasks[t := x], s.threads[w])
    {
      assert HeldOk(s.tasks, s.threads[w]);
    }
  }

  /** The state after the `k`-th waiting task of pool `p` left its queue, counted as `o`. */
  function Removed(s: State, p: nat, k: nat, x: Task, o: Outcome): State
    requires Shaped(s) && p < |s.queues| && k < |s.queues[p]|
  {
    s.(tasks := s.tasks[s.queues[p][k] := x], queues := s.queues[p := CutAt(s.queues[p], k)], tallies := Count(s, p, o))
  }

  lemma RemovedCounts(s: State, p: nat, k: nat, x: Task, o: Outcome)
    requires Core(s) && p < |s.queues| && k < |s.queues[p]|
    requires var y := s.tasks[s.queues[p][k]]; y.pool == p && x.pool == p && y.owner == Queue && x.owner != Queue
    requires x.outcome == Some(o)
    ensures Shaped(Removed(s, p, k, x, o)) && CountsOk(Removed(s, p, k, x, o))
  {
    TaskCounts(s, s.queues[p][k], x);
    assert TaskOk(s.tasks[s.queues[p][k]]);
  }

  lemma RemovedKeepsCore(s: State, p: nat, k: nat, x: Task, o: Outcome)
    requires Core(s) && p < |s.queues| && k < |s.queues[p]|
    requires var y := s.tasks[s.queues[p][k]]; x.pool == y.pool && x.owner != Queue
    requires TaskOk(x) && x.outcome == Some(o)
    ensures Core(Removed(s, p, k, x, o))
    ensures TotalQueued(Removed(s, p, k, x, o).queues) <= TotalQueued(s.queues)
  {
    var t := s.queues[p][k];
    assert QueueOk(s.tasks, s.queues[p], p);
    RemovalKeepsQueues(s.tasks, s.queues, p, k, x);
    RemovedCounts(s, p, k, x, o);
    UnheldTask(s, t, x);
    assert TasksOk(s.tasks[t := x]);
    RemovedKeepsLimits(s, p, k, x, o);
    TotalQueuedUpdate(s.queues, p, CutAt(s.queues[p], k));
  }

  lemma RemovedKeepsLimits(s: State, p: nat, k: nat, x: Task, o: Outcome)
    requires Shaped(s) && LimitsOk(s) && p < |s.queues| && k < |s.queues[p]| && Shaped(Removed(s, p, k, x, o))
    ensures LimitsOk(Removed(s, p, k, x, o))
  {
  }

  lemma ForgetKeepsCore(s: State, t: nat)
    requires Core(s) && t < |s.tasks| && s.tasks[t].callbackDue
    ensures Core(ForgetRegion(s, t))
    ensures TotalQueued(ForgetRegion(s, t).queues) <= TotalQueued(s.queues)
    ensures s.tasks[t].owner == Queue ==> ForgetRegion(s, t).tasks[t].owner == Remover
  {
    var p := s.tasks[t].pool;
    assert QueueOk(s.tasks, s.queues[p], p);
    if s.tasks[t].owner == Queue {
      var k := IndexOf(s.queues[p], t);
      var x := s.tasks[t].(callbackDue := false, owner := Remover, outcome := Some(Canceled));
      RemovedKeepsCore(s, p, k, x, Canceled);
      assert ForgetRegion(s, t) == Removed(s, p, k, x, Canceled);
    } else {
      TouchKeepsCore(s, t, s.tasks[t].(callbackDue := false));
    }
  }

  /** With the lock held, cancel, callback and notify are three consecutive steps on the waiting task. */
  lemma CancelInsideLockKeepsCore(s: State, t: nat)
    requires Core(s) && t < |s.tasks| && s.tasks[t].owner == Queue
    ensures Core(CancelInsideLock(s, t))
    ensures TotalQueued(CancelInsideLock(s, t).queues) <= TotalQueued(s.queues)
  {
    if s.tasks[t].future == FPending {
      InsideLockIsThreeSteps(s, t);
      CancelKeepsCore(s, t);
      ForgetKeepsCore(CancelStep(s, t), t);
      NotifyKeepsCore(ForgetRegion(CancelStep(s, t), t), t);
    }
  }

  lemma InsideLockIsThreeSteps(s: State, t: nat)
    requires Core(s) && t < |s.tasks| && s.tasks[t].owner == Queue && s.tasks[t].future == FPending
    ensures CancelInsideLock(s, t) == NotifyStep(ForgetRegion(CancelStep(s, t), t), t)
  {
    var plain := s.(tasks := s.tasks[t := s.tasks[t].(future := FCancelled)]);
    assert t in s.queues[s.tasks[t].pool];
    assert TaskOk(s.tasks[t]);
    assert ForgetRegion(plain, t).tasks == ForgetRegion(CancelStep(s, t), t).tasks;
    assert ForgetRegion(plain, t) == ForgetRegion(CancelStep(s, t), t);
  }

  // ------------------------------------------------------------------ shutdown

  lemma {:induction false} CancelEachKeepsCore(s: State, ts: seq<nat>)
    requires Core(s) && Distinct(ts)
    requires forall i :: 0 <= i < |ts| ==> ts[i] < |s.tasks| && s.tasks[ts[i]].owner == Queue
    ensures Core(CancelEach(s, ts))
    ensures TotalQueued(CancelEach(s, ts).queues) <= TotalQueued(s.queues)
    decreases |ts|
  {
    if ts != [] {
      CancelInsideLockKeepsCore(s, ts[0]);
      var r := CancelInsideLock(s, ts[0]);
      OthersStillWait(s, ts);
      CancelEachKeepsCore(r, ts[1..]);
    }
  }

  lemma OthersStillWait(s: State, ts: seq<nat>)
    requires Shaped(s) && Distinct(ts) && ts != []
    requires forall i :: 0 <= i < |ts| ==> ts[i] < |s.tasks| && s.tasks[ts[i]].owner == Queue
    ensures var r := CancelInsideLock(s, ts[0]);
            && Distinct(ts[1..])
            && forall i :: 0 <= i < |ts[1..]| ==> ts[1..][i] < |r.tasks| && r.tasks[ts[1..][i]].owner == Queue
  {
    assert forall i :: 0 <= i < |ts[1..]| ==> ts[1..][i] == ts[i + 1] && ts[i + 1] != ts[0];
  }

  lemma CancelPoolKeepsCore(s: State, p: nat)
    requires Core(s) && p < |s.queues|
    ensures Core(CancelEach(s, s.queues[p]))
  {
    assert QueueOk(s.tasks, s.queues[p], p);
    CancelEachKeepsCore(s, s.queues[p]);
  }

  lemma {:induction false} CancelPoolsKeepsCore(s: State, p: nat)
    requires Core(s) && p <= |s.queues|
    ensures Core(CancelPools(s, p))
    decreases |s.queues| - p
  {
    if p < |s.queues| {
      CancelPoolKeepsCore(s, p);
      CancelPoolsKeepsCore(CancelEach(s, s.queues[p]), p + 1);
    }
  }

  /** Sleeping threads hold no task, so waking them changes none of the counts. */
  lemma {:induction false} WakeAllCounts(threads: seq<Thread>, p: nat)
    ensures CountIf(WakeAll(threads), SlotOf(p)) == CountIf(threads, SlotOf(p))
    ensures CountIf(WakeAll(threads), UncountedOf(p)) == CountIf(threads, UncountedOf(p))
  {
    if threads != [] {
      var n := |threads| - 1;
      WakeAllCounts(threads[..n], p);
      assert WakeAll(threads)[..n] == WakeAll(threads[..n]);
    }
  }

  lemma WakeAllKeepsCore(s: State)
    requires Core(s)
    ensures Core(s.(threads := WakeAll(s.threads)))
  {
    forall p {
      WakeAllCounts(s.threads, p);
    }
  }

  lemma ShutdownKeepsInv(s: State)
    requires Inv(s)
    ensures Inv(ShutdownStep(s))
  {
    StoppingKeepsCore(s);
    CancelPoolsKeepsCore(s.(stopping := true), 0);
    WakeAllKeepsCore(CancelPools(s.(stopping := true), 0));
    NoneAsleep(CancelPools(s.(stopping := true), 0).threads);
  }

  lemma StoppingKeepsCore(s: State)
    requires Core(s)
    ensures Core(s.(stopping := true))
  {
  }

  lemma NoneAsleep(threads: seq<Thread>)
    ensures !SomeoneAsleep(WakeAll(threads))
  {
  }

  // ------------------------------------------------------------------ submit

  lemma AppendCounts(tasks: seq<Task>, x: Task)
    ensures forall p, place ::
              CountIf(tasks + [x], At(p, place)) == CountIf(tasks, At(p, place)) + if At(p, place)(x) then 1 else 0
  {
    forall p, place {
      CountIfAppend(tasks, x, At(p, place));
    }
  }

  /** Accepting one more task changes no fact about the earlier ones. */
  lemma GrownThreads(tasks: seq<Task>, threads: seq<Thread>, x: Task)
    requires ThreadsOk(tasks, threads)
    ensures ThreadsOk(tasks + [x], threads)
  {
    forall w | 0 <= w < |threads| && HoldsTask(threads[w])
      ensures HeldOk(tasks + [x], threads[w])
    {
      assert HeldOk(tasks, threads[w]);
    }
  }

  lemma AppendKeepsQueues(tasks: seq<Task>, queues: seq<seq<nat>>, x: Task)
    requires QueuesOk(tasks, queues) && x.owner == Queue && x.pool < |queues|
    requires forall i :: 0 <= i < |queues[x.pool]| ==>
               queues[x.pool][i] < |tasks| && SeparateKeys(tasks[queues[x.pool][i]].key, x.key)
    ensures QueuesOk(tasks + [x], queues[x.pool := queues[x.pool] + [|tasks|]])
  {
    var p := x.pool;
    var queues' := queues[p := queues[p] + [|tasks|]];
    forall p' | 0 <= p' < |queues'|
      ensures QueueOk(tasks + [x], queues'[p'], p')
    {
      assert QueueOk(tasks, queues[p'], p');
      QueueFrame(tasks, tasks + [x], queues[p'], p');
    }
    forall u | 0 <= u < |tasks + [x]| && (tasks + [x])[u].owner == Queue
      ensures u in queues'[(tasks + [x])[u].pool]
    {
      if u < |tasks| {
        assert u in queues[tasks[u].pool];
      } else {
        assert queues'[p][|queues[p]|] == u;
      }
    }
  }

  lemma AppendKeepsCore(s: State, x: Task)
    requires Core(s) && x.pool < |s.queues| && TaskOk(x) && x.owner == Queue
    requires Pending(s, x.pool) < s.limit
    requires forall i :: 0 <= i < |s.queues[x.pool]| ==> SeparateKeys(s.tasks[s.queues[x.pool][i]].key, x.key)
    ensures Core(s.(tasks := s.tasks + [x], queues := s.queues[x.pool := s.queues[x.pool] + [|s.tasks|]]))
  {
    AppendCounts(s.tasks, x);
    GrownThreads(s.tasks, s.threads, x);
    AppendKeepsQueues(s.tasks, s.queues, x);
  }

  /** The new task takes the place of the one it replaces. */
  lemma SwapKeepsQueues(tasks: seq<Task>, queues: seq<seq<nat>>, p: nat, k: nat, gone: Task, x: Task)
    requires QueuesOk(tasks, queues) && p < |queues| && k < |queues[p]|
    requires gone.owner != Queue && x.owner == Queue && x.pool == p && queues[p][k] < |tasks|
    requires x.key == tasks[queues[p][k]].key
    ensures QueuesOk(tasks[queues[p][k] := gone] + [x], queues[p := PutAt(queues[p], k, |tasks|)])
  {
    var t := queues[p][k];
    var tasks' := tasks[t := gone] + [x];
    var q := PutAt(queues[p], k, |tasks|);
    assert QueueOk(tasks, queues[p], p);
    SwapQueueOk(tasks, queues[p], p, k, gone, x);
    forall p' | 0 <= p' < |queues| && p' != p
      ensures QueueOk(tasks', queues[p'], p')
    {
      assert QueueOk(tasks, queues[p'], p');
      QueueFrame(tasks, tasks', queues[p'], p');
    }
    forall u | 0 <= u < |tasks'| && tasks'[u].owner == Queue
      ensures u in queues[p := q][tasks'[u].pool]
    {
      if u < |tasks| {
        assert u in queues[tasks[u].pool];
        if tasks[u].pool == p {
          var i :| 0 <= i < |queues[p]| && queues[p][i] == u;
          assert q[i] == u;
        }
      } else {
        assert q[k] == u;
      }
    }
  }

  lemma SwapQueueOk(tasks: seq<Task>, q: seq<nat>, p: nat, k: nat, gone: Task, x: Task)
    requires QueueOk(tasks, q, p) && k < |q|
    requires x.owner == Queue && x.pool == p && x.key == tasks[q[k]].key
    ensures QueueOk(tasks[q[k] := gone] + [x], PutAt(q, k, |tasks|), p)
  {
    var tasks' := tasks[q[k] := gone] + [x];
    assert forall i :: 0 <= i < |q| && i != k ==> q[i] != q[k] && tasks'[q[i]] == tasks[q[i]];
  }

  lemma SwapCounts(s: State, p: nat, k: nat, gone: Task, x: Task, o: Outcome)
    requires Core(s) && p < |s.queues| && k < |s.queues[p]|
    requires var y := s.tasks[s.queues[p][k]]; y.pool == p && gone.pool == p && y.owner == Queue && gone.owner != Queue
    requires gone.outcome == Some(o) && x.pool == p && x.owner == Queue && x.outcome.None?
    ensures var r := Swapped(s, p, k, gone, x, o); Shaped(r) && CountsOk(r)
  {
    TaskCounts(s, s.queues[p][k], gone);
    AppendCounts(s.tasks[s.queues[p][k] := gone], x);
    assert TaskOk(s.tasks[s.queues[p][k]]);
  }

  function Swapped(s: State, p: nat, k: nat, gone: Task, x: Task, o: Outcome): State
    requires Shaped(s) && p < |s.queues| && k < |s.queues[p]|
  {
    s.(tasks := s.tasks[s.queues[p][k] := gone] + [x], queues := s.queues[p := PutAt(s.queues[p], k, |s.tasks|)],
       tallies := Count(s, p, o))
  }

  lemma SwapKeepsCore(s: State, p: nat, k: nat, gone: Task, x: Task, o: Outcome)
    requires Core(s) && p < |s.queues| && k < |s.queues[p]|
    requires var y := s.tasks[s.queues[p][k]]; gone.pool == y.pool && gone.owner != Queue && x.key == y.key
    requires TaskOk(gone) && gone.outcome == Some(o) && TaskOk(x) && x.pool == p && x.owner == Queue
    ensures Core(Swapped(s, p, k, gone, x, o))
    ensures TotalQueued(Swapped(s, p, k, gone, x, o).queues) == TotalQueued(s.queues)
  {
    assert QueueOk(s.tasks, s.queues[p], p);
    SwapKeepsQueues(s.tasks, s.queues, p, k, gone, x);
    SwapCounts(s, p, k, gone, x, o);
    SwapKeepsTasks(s, s.queues[p][k], gone, x);
    TotalQueuedUpdate(s.queues, p, PutAt(s.queues[p], k, |s.tasks|));
  }

  lemma SwapKeepsTasks(s: State, t: nat, gone: Task, x: Task)
    requires Core(s) && t < |s.tasks| && s.tasks[t].owner != Worker && TaskOk(gone) && TaskOk(x)
    ensures TasksOk(s.tasks[t := gone] + [x]) && ThreadsOk(s.tasks[t := gone] + [x], s.threads)
  {
    UnheldTask(s, t, gone);
    GrownThreads(s.tasks[t := gone], s.threads, x);
  }

  lemma CountThreads(threads: seq<Thread>, w: nat, th: Thread)
    requires w < |threads|
    ensures forall p :: CountIf(threads[w := th], SlotOf(p)) ==
                        CountIf(threads, SlotOf(p)) - (if SlotOf(p)(threads[w]) then 1 else 0) + (if SlotOf(p)(th) then 1 else 0)
    ensures forall p :: CountIf(threads[w := th], UncountedOf(p)) ==
                        CountIf(threads, UncountedOf(p)) - (if UncountedOf(p)(threads[w]) then 1 else 0)
                        + (if UncountedOf(p)(th) then 1 else 0)
    ensures CountIf(threads[w := th], WokenUp()) ==
            CountIf(threads, WokenUp()) - (if WokenUp()(threads[w]) then 1 else 0) + (if WokenUp()(th) then 1 else 0)
  {
    forall p {
      CountIfUpdate(threads, w, th, SlotOf(p));
    }
    forall p {
      CountIfUpdate(threads, w, th, UncountedOf(p));
    }
    CountIfUpdate(threads, w, th, WokenUp());
  }

  /** A thread that holds no task before and after. */
  lemma IdleMoveKeepsCore(s: State, w: nat, th: Thread)
    requires Core(s) && w < |s.threads| && !HoldsTask(s.threads[w]) && !HoldsTask(th)
    ensures Core(SetThread(s, w, th))
  {
    CountThreads(s.threads, w, th);
  }

  lemma SubmitKeepsInv(s: State, p: nat, key: Option<string>, wake: Option<nat>)
    requires Inv(s) && p < |s.queues| && WakeChoice(s, wake)
    ensures Inv(SubmitStep(s, p, key, wake))
  {
    var x := Task(p, key, FPending, false, false, Queue, None);
    var index := ReplaceIndex(s, p, key);
    if s.stopping {
    } else if index.Some? {
      var k := index.value;
      assert QueueOk(s.tasks, s.queues[p], p);
      var prior := s.tasks[s.queues[p][k]];
      assert TaskOk(prior);
      var o := if IsCancelled(prior.future) then Canceled else Replaced;
      var gone := prior.(replaced := true, owner := ReplacerToCancel, outcome := Some(o));
      SwapKeepsCore(s, p, k, gone, x, o);
    } else if Pending(s, p) < s.limit {
      AppendKeepsInv(s, x, wake);
    }
  }

  lemma AppendKeepsInv(s: State, x: Task, wake: Option<nat>)
    requires Inv(s) && !s.stopping && x.pool < |s.queues| && TaskOk(x) && x.owner == Queue
    requires Pending(s, x.pool) < s.limit && WakeChoice(s, wake)
    requires forall i :: 0 <= i < |s.queues[x.pool]| ==> SeparateKeys(s.tasks[s.queues[x.pool][i]].key, x.key)
    ensures Inv(Notify(s.(tasks := s.tasks + [x], queues := s.queues[x.pool := s.queues[x.pool] + [|s.tasks|]]), wake))
  {
    var grown := s.(tasks := s.tasks + [x], queues := s.queues[x.pool := s.queues[x.pool] + [|s.tasks|]]);
    AppendKeepsCore(s, x);
    TotalQueuedUpdate(s.queues, x.pool, s.queues[x.pool] + [|s.tasks|]);
    if wake.Some? {
      IdleMoveKeepsCore(grown, wake.value, Sleeping(true));
      CountThreads(s.threads, wake.value, Sleeping(true));
      assert SomeoneAsleep(s.threads);
    }
  }

  // ------------------------------------------------------------------ worker threads

  lemma TakeKeepsQueues(s: State, p: nat)
    requires Core(s) && p < |s.queues| && s.queues[p] != []
    ensures var t := s.queues[p][0];
            QueuesOk(s.tasks[t := s.tasks[t].(owner := Worker)], s.queues[p := s.queues[p][1..]])
  {
    var t := s.queues[p][0];
    RemovalKeepsQueues(s.tasks, s.queues, p, 0, s.tasks[t].(owner := Worker));
    assert CutAt(s.queues[p], 0) == s.queues[p][1..];
  }

  lemma TakeKeepsThreads(s: State, w: nat, p: nat)
    requires Core(s) && w < |s.threads| && !HoldsTask(s.threads[w]) && p < |s.queues| && s.queues[p] != []
    ensures var t := s.queues[p][0];
            ThreadsOk(s.tasks[t := s.tasks[t].(owner := Worker)], s.threads[w := Took(p, t)])
  {
    var t := s.queues[p][0];
    assert QueueOk(s.tasks, s.queues[p], p);
    assert TaskOk(s.tasks[t]);
    var tasks' := s.tasks[t := s.tasks[t].(owner := Worker)];
    UnheldTask(s, t, tasks'[t]);
    assert HeldOk(tasks', Took(p, t));
    forall v | 0 <= v < |s.threads| && HoldsTask(s.threads[v])
      ensures s.threads[v].task != t
    {
      assert HeldOk(s.tasks, s.threads[v]);
    }
  }

  lemma TakeCounts(s: State, w: nat, p: nat)
    requires Core(s) && w < |s.threads| && !HoldsTask(s.threads[w]) && p < |s.queues| && s.queues[p] != []
    ensures Shaped(Taken(s, w, p)) && CountsOk(Taken(s, w, p))
  {
    var t := s.queues[p][0];
    assert QueueOk(s.tasks, s.queues[p], p);
    assert TaskOk(s.tasks[t]);
    TaskCounts(s, t, s.tasks[t].(owner := Worker));
    CountThreads(s.threads, w, Took(p, t));
  }

  /** The state after thread `w` took the first task of pool `p`. */
  function Taken(s: State, w: nat, p: nat): State
    requires Shaped(s) && w < |s.threads| && p < |s.queues| && s.queues[p] != []
  {
    var t := s.queues[p][0];
    s.(tasks := s.tasks[t := s.tasks[t].(owner := Worker)],
       queues := s.queues[p := s.queues[p][1..]],
       running := s.running[p := s.running[p] + 1],
       clock := s.clock + 1,
       served := s.served[p := s.clock + 1],
       threads := s.threads[w := Took(p, t)])
  }

  lemma TakeKeepsInv(s: State, w: nat, p: nat)
    requires Inv(s) && w < |s.threads| && (s.threads[w].Entering? || s.threads[w] == Sleeping(true))
    requires p < |s.queues| && s.queues[p] != []
    ensures Inv(Taken(s, w, p))
  {
    var t := s.queues[p][0];
    assert QueueOk(s.tasks, s.queues[p], p);
    assert TaskOk(s.tasks[t]);
    TakeKeepsQueues(s, p);
    TakeKeepsThreads(s, w, p);
    TakeCounts(s, w, p);
    TakeKeepsWake(s, w, p);
  }

  lemma TakeKeepsWake(s: State, w: nat, p: nat)
    requires Inv(s) && w < |s.threads| && (s.threads[w].Entering? || s.threads[w] == Sleeping(true))
    requires p < |s.queues| && s.queues[p] != []
    ensures WakeOk(Taken(s, w, p))
  {
    var r := Taken(s, w, p);
    TotalQueuedUpdate(s.queues, p, s.queues[p][1..]);
    CountThreads(s.threads, w, Took(p, s.queues[p][0]));
    if SomeoneAsleep(r.threads) {
      var v :| 0 <= v < |r.threads| && Unnotified(r.threads[v]);
      assert Unnotified(s.threads[v]);
    }
  }

  lemma ExitKeepsInv(s: State, w: nat)
    requires Inv(s) && s.stopping && w < |s.threads| && !HoldsTask(s.threads[w])
    ensures Inv(SetThread(s, w, Exited))
  {
    IdleMoveKeepsCore(s, w, Exited);
    assert forall v :: 0 <= v < |s.threads| ==> !Unnotified(s.threads[v]);
  }

  lemma SleepKeepsInv(s: State, w: nat)
    requires Inv(s) && !s.stopping && w < |s.threads| && !HoldsTask(s.threads[w])
    requires forall p :: 0 <= p < |s.queues| ==> s.queues[p] == []
    ensures Inv(SetThread(s, w, Sleeping(false)))
  {
    IdleMoveKeepsCore(s, w, Sleeping(false));
    TotalQueuedZero(s.queues);
  }

  lemma LocksKeepsInv(s: State, w: nat)
    requires Inv(s) && Enabled(s, ThreadLocks(w))
    ensures Inv(ThreadLocksStep(s, w))
  {
    var next := NextPool(s, |s.queues|);
    if s.stopping {
      ExitKeepsInv(s, w);
    } else if next.None? {
      SleepKeepsInv(s, w);
    } else {
      TakeKeepsInv(s, w, next.value);
      LockTakes(s, w);
    }
  }

  lemma LockTakes(s: State, w: nat)
    requires Shaped(s) && w < |s.threads| && !s.stopping && NextPool(s, |s.queues|).Some?
    ensures var p := NextPool(s, |s.queues|).value; s.queues[p] != [] && ThreadLocksStep(s, w) == Taken(s, w, p)
  {
  }

  /** A move of thread `w` that keeps its task, with the task's new record. */
  function Moved(s: State, w: nat, th: Thread, x: Task): State
    requires w < |s.threads| && HoldsTask(th) && th.task < |s.tasks|
  {
    s.(tasks := s.tasks[th.task := x], threads := s.threads[w := th])
  }

  lemma MoveKeepsThreads(s: State, w: nat, th: Thread, x: Task)
    requires Core(s) && w < |s.threads| && HoldsTask(s.threads[w]) && HoldsTask(th)
    requires th.task == s.threads[w].task && HeldOk(s.tasks[th.task := x], th)
    ensures ThreadsOk(s.tasks[th.task := x], s.threads[w := th])
  {
    var tasks', threads' := s.tasks[th.task := x], s.threads[w := th];
    forall v | 0 <= v < |threads'| && HoldsTask(threads'[v])
      ensures HeldOk(tasks', threads'[v])
    {
      if v != w {
        assert HeldOk(s.tasks, s.threads[v]);
        assert s.threads[v].task != th.task;
      }
    }
  }

  lemma MoveKeepsQueues(s: State, t: nat, x: Task)
    requires Core(s) && t < |s.tasks| && s.tasks[t].owner == Worker && x.owner != Queue
    ensures QueuesOk(s.tasks[t := x], s.queues)
  {
    forall p | 0 <= p < |s.queues|
      ensures QueueOk(s.tasks[t := x], s.queues[p], p)
    {
      assert QueueOk(s.tasks, s.queues[p], p);
      QueueFrame(s.tasks, s.tasks[t := x], s.queues[p], p);
    }
  }

  /** Before the task is counted: the slot and the ledger stay as they are. */
  lemma UncountedMoveKeepsInv(s: State, w: nat, th: Thread, x: Task)
    requires Inv(s) && w < |s.threads| && IsUncounted(s.threads[w]) && IsUncounted(th)
    requires th.task == s.threads[w].task && th.pool == s.threads[w].pool
    requires th.task < |s.tasks| && HeldOk(s.tasks[th.task := x], th) && TaskOk(x)
    ensures Inv(Moved(s, w, th, x))
  {
    assert HeldOk(s.tasks, s.threads[w]);
    MoveKeepsThreads(s, w, th, x);
    MoveKeepsQueues(s, th.task, x);
    CountThreads(s.threads, w, th);
    TaskCounts(s, th.task, x);
    SleepersUnmoved(s, w, th);
  }

  lemma SleepersUnmoved(s: State, w: nat, th: Thread)
    requires w < |s.threads| && !th.Sleeping? && !s.threads[w].Sleeping?
    ensures SomeoneAsleep(s.threads[w := th]) <==> SomeoneAsleep(s.threads)
    ensures CountIf(s.threads[w := th], WokenUp()) == CountIf(s.threads, WokenUp())
  {
    CountThreads(s.threads, w, th);
    var threads' := s.threads[w := th];
    if v :| 0 <= v < |s.threads| && Unnotified(s.threads[v]) {
      assert Unnotified(threads'[v]);
    }
    if v :| 0 <= v < |s.threads| && Unnotified(threads'[v]) {
      assert Unnotified(s.threads[v]);
    }
  }

  lemma ChecksAndStartsKeepInv(s: State, step: Step)
    requires Inv(s) && Enabled(s, step) && (step.ThreadChecks? || step.ThreadStarts? || step.ThreadRuns?)
    ensures Inv(Apply(s, step))
  {
    var w := step.thread;
    var t := s.threads[w].task;
    var r := Apply(s, step);
    assert HeldOk(s.tasks, s.threads[w]);
    assert TaskOk(s.tasks[t]);
    UncountedMoveKeepsInv(s, w, r.threads[w], r.tasks[t]);
    assert r.tasks == s.tasks[t := r.tasks[t]];
    assert r == Moved(s, w, r.threads[w], r.tasks[t]);
  }

  lemma CountsStepCounts(s: State, w: nat)
    requires Core(s) && Enabled(s, ThreadCounts(w))
    ensures CountsOk(ThreadCountsStep(s, w))
  {
    var Counting(p, t, o, how) := s.threads[w];
    assert HeldOk(s.tasks, s.threads[w]);
    TaskCounts(s, t, s.tasks[t].(outcome := Some(o)));
    CountThreads(s.threads, w, Releasing(p, t, how));
    CountsStepTallies(s, w);
  }

  lemma CountsStepTallies(s: State, w: nat)
    requires Core(s) && Enabled(s, ThreadCounts(w))
    ensures var r := ThreadCountsStep(s, w);
            forall p, o :: 0 <= p < |r.queues| ==> r.tallies[p].Of(o) == TasksAt(r, p, Counted(o))
  {
    var Counting(q, t, done, how) := s.threads[w];
    assert HeldOk(s.tasks, s.threads[w]);
    var r := ThreadCountsStep(s, w);
    forall p, o | 0 <= p < |r.queues|
      ensures r.tallies[p].Of(o) == TasksAt(r, p, Counted(o))
    {
      assert s.tallies[p].Of(o) == TasksAt(s, p, Counted(o));
      CountIfUpdate(s.tasks, t, s.tasks[t].(outcome := Some(done)), At(p, Counted(o)));
    }
  }

  lemma CountsKeepsInv(s: State, w: nat)
    requires Inv(s) && Enabled(s, ThreadCounts(w))
    ensures Inv(ThreadCountsStep(s, w))
  {
    var Counting(p, t, o, how) := s.threads[w];
    var x := s.tasks[t].(outcome := Some(o));
    assert HeldOk(s.tasks, s.threads[w]);
    assert TaskOk(s.tasks[t]);
    MoveKeepsThreads(s, w, Releasing(p, t, how), x);
    MoveKeepsQueues(s, t, x);
    CountsStepCounts(s, w);
    SleepersUnmoved(s, w, Releasing(p, t, how));
  }

  lemma ReleasesKeepsInv(s: State, w: nat)
    requires Inv(s) && Enabled(s, ThreadReleases(w))
    ensures Inv(ThreadReleasesStep(s, w))
  {
    var Releasing(p, t, how) := s.threads[w];
    assert HeldOk(s.tasks, s.threads[w]);
    MoveKeepsThreads(s, w, Resolving(p, t, how), s.tasks[t]);
    assert s.tasks[t := s.tasks[t]] == s.tasks;
    CountThreads(s.threads, w, Resolving(p, t, how));
    SleepersUnmoved(s, w, Resolving(p, t, how));
  }

  lemma ResolvesKeepsInv(s: State, w: nat)
    requires Inv(s) && Enabled(s, ThreadResolves(w))
    ensures Inv(ThreadResolvesStep(s, w))
  {
    var Resolving(p, t, how) := s.threads[w];
    assert HeldOk(s.tasks, s.threads[w]);
    assert TaskOk(s.tasks[t]);
    var r := ThreadResolvesStep(s, w);
    var x := r.tasks[t];
    assert r == Left(s, w, t, x);
    LeaveKeepsInv(s, w, x);
  }

  /** Thread `w` is done with its task, whose record is then `x`. */
  function Left(s: State, w: nat, t: nat, x: Task): State
    requires w < |s.threads| && t < |s.tasks|
  {
    s.(tasks := s.tasks[t := x], threads := s.threads[w := Entering])
  }

  lemma LeaveKeepsInv(s: State, w: nat, x: Task)
    requires Inv(s) && w < |s.threads| && s.threads[w].Resolving? && s.threads[w].task < |s.tasks|
    requires var y := s.tasks[s.threads[w].task]; x.pool == y.pool && x.outcome == y.outcome && x.owner != Queue && TaskOk(x)
    ensures Inv(Left(s, w, s.threads[w].task, x))
  {
    var t := s.threads[w].task;
    assert HeldOk(s.tasks, s.threads[w]);
    LeaveKeepsThreads(s, w, x);
    MoveKeepsQueues(s, t, x);
    LeaveKeepsCounts(s, w, x);
    SleepersUnmoved(s, w, Entering);
  }

  lemma LeaveKeepsThreads(s: State, w: nat, x: Task)
    requires Core(s) && w < |s.threads| && s.threads[w].Resolving? && s.threads[w].task < |s.tasks|
    ensures ThreadsOk(s.tasks[s.threads[w].task := x], s.threads[w := Entering])
  {
    var t := s.threads[w].task;
    forall v | 0 <= v < |s.threads| && v != w && HoldsTask(s.threads[v])
      ensures HeldOk(s.tasks[t := x], s.threads[v])
    {
      assert HeldOk(s.tasks, s.threads[v]);
      assert s.threads[v].task != t;
    }
  }

  lemma LeaveKeepsCounts(s: State, w: nat, x: Task)
    requires Core(s) && w < |s.threads| && s.threads[w].Resolving? && s.threads[w].task < |s.tasks|
    requires var y := s.tasks[s.threads[w].task]; x.pool == y.pool && x.outcome == y.outcome && x.owner != Queue
    ensures var r := Left(s, w, s.threads[w].task, x); Shaped(r) && CountsOk(r)
  {
    assert HeldOk(s.tasks, s.threads[w]);
    TaskCounts(s, s.threads[w].task, x);
    CountThreads(s.threads, w, Entering);
  }

  // ------------------------------------------------------------------ every step and every run

  lemma QuietStepKeepsWake(s: State, r: State)
    requires WakeOk(s) && r.threads == s.threads && r.stopping == s.stopping
    requires TotalQueued(r.queues) <= TotalQueued(s.queues)
    ensures WakeOk(r)
  {
  }

  lemma DiscardKeepsInv(s: State, p: nat, key: string)
    requires Inv(s) && p < |s.queues|
    ensures Inv(DiscardStep(s, p, key))
  {
    var index := ReplaceIndex(s, p, Some(key));
    if index.Some? {
      assert QueueOk(s.tasks, s.queues[p], p);
      CancelInsideLockKeepsInv(s, s.queues[p][index.value]);
      assert DiscardStep(s, p, key) == CancelInsideLock(s, s.queues[p][index.value]);
    } else {
      assert DiscardStep(s, p, key) == s;
    }
  }

  lemma CancelInsideLockKeepsInv(s: State, t: nat)
    requires Inv(s) && t < |s.tasks| && s.tasks[t].owner == Queue
    ensures Inv(CancelInsideLock(s, t))
  {
    CancelInsideLockKeepsCore(s, t);
    CancelDoesNotStop(s, t);
    QuietStepKeepsWake(s, CancelInsideLock(s, t));
  }

  lemma CancelDoesNotStop(s: State, t: nat)
    requires Shaped(s) && t < |s.tasks|
    ensures CancelInsideLock(s, t).stopping == s.stopping
  {
  }

  lemma TaskStepKeepsInv(s: State, step: Step)
    requires Inv(s) && Enabled(s, step)
    requires step.ReplacerCancels? || step.ReplacerNotifies? || step.CallerCancels? || step.RemoverNotifies?
             || step.CallbackRuns?
    ensures Inv(Apply(s, step))
  {
    match step
    case ReplacerCancels(t) => ReplacerCancelsKeepsInv(s, t);
    case CallerCancels(t) => CallerCancelsKeepsInv(s, t);
    case CallbackRuns(t) => CallbackKeepsInv(s, t);
    case ReplacerNotifies(t) => NotifyKeepsInv(s, step);
    case RemoverNotifies(t) => NotifyKeepsInv(s, step);
  }

  lemma ReplacerCancelsKeepsInv(s: State, t: nat)
    requires Inv(s) && Enabled(s, ReplacerCancels(t))
    ensures Inv(ReplacerCancelsStep(s, t))
  {
    ReplacerCancelsKeepsCore(s, t);
    QuietStepKeepsWake(s, ReplacerCancelsStep(s, t));
  }

  lemma CallerCancelsKeepsInv(s: State, t: nat)
    requires Inv(s) && Enabled(s, CallerCancels(t))
    ensures Inv(CancelStep(s, t))
  {
    CancelKeepsCore(s, t);
    QuietStepKeepsWake(s, CancelStep(s, t));
  }

  lemma CallbackKeepsInv(s: State, t: nat)
    requires Inv(s) && Enabled(s, CallbackRuns(t))
    ensures Inv(ForgetRegion(s, t))
  {
    ForgetKeepsCore(s, t);
    QuietStepKeepsWake(s, ForgetRegion(s, t));
  }

  lemma NotifyKeepsInv(s: State, step: Step)
    requires Inv(s) && Enabled(s, step) && (step.ReplacerNotifies? || step.RemoverNotifies?)
    ensures Inv(NotifyStep(s, step.task))
  {
    NotifyKeepsCore(s, step.task);
    QuietStepKeepsWake(s, NotifyStep(s, step.task));
  }

  lemma StepKeepsInv(s: State, step: Step)
    requires Inv(s) && Enabled(s, step)
    ensures Inv(Apply(s, step))
  {
    match step
    case Submit(p, key, wake) => SubmitKeepsInv(s, p, key, wake);
    case Shutdown => ShutdownKeepsInv(s);
    case Discard(p, key) => DiscardKeepsInv(s, p, key);
    case ThreadLocks(w) => LocksKeepsInv(s, w);
    case ThreadCounts(w) => CountsKeepsInv(s, w);
    case ThreadReleases(w) => ReleasesKeepsInv(s, w);
    case ThreadResolves(w) => ResolvesKeepsInv(s, w);
    case ThreadChecks(w) => ChecksAndStartsKeepInv(s, step);
    case ThreadStarts(w) => ChecksAndStartsKeepInv(s, step);
    case ThreadRuns(w, ok) => ChecksAndStartsKeepInv(s, step);
    case _ => TaskStepKeepsInv(s, step);
  }

  lemma {:induction false} CountIfNone<T>(s: seq<T>, f: T -> bool)
    requires forall i :: 0 <= i < |s| ==> !f(s[i])
    ensures CountIf(s, f) == 0
  {
    if s != [] {
      CountIfNone(s[..|s| - 1], f);
    }
  }

  lemma InitialInv(pools: nat, workers: nat, limit: nat)
    requires pools > 0
    ensures Inv(Initial(pools, workers, limit))
  {
    var s := Initial(pools, workers, limit);
    forall p {
      CountIfNone(s.threads, SlotOf(p));
    }
    forall p {
      CountIfNone(s.threads, UncountedOf(p));
    }
  }

  lemma {:induction false} RunKeepsInv(states: seq<State>, steps: seq<Step>, i: nat)
    requires IsRun(states, steps) && Inv(states[0]) && i < |states|
    ensures Inv(states[i])
  {
    if i > 0 {
      RunKeepsInv(states, steps, i - 1);
      assert StepAt(states, steps, i - 1);
      StepKeepsInv(states[i - 1], steps[i - 1]);
    }
  }
}
