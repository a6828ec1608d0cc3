/**
 * The background executor of `gateway/core/services/background_executor.py` as a step system.
 *
 * Every `with cond` region is one step and every `Future` operation made outside the lock is a step of
 * its own, so a run of `Step`s is any interleaving of submitters, cancelling callers, worker threads,
 * `discard` and `shutdown`. The pools are numbered in the order of the `BackgroundPool` enum.
 */
module ExecutorModel {
  import opened Collections
  import opened Wrappers

  /** The states of `concurrent.futures.Future`. `FNotified` is CANCELLED_AND_NOTIFIED. */
  datatype FutureState = FPending | FRunning | FCancelled | FNotified | FFinished

  datatype Outcome = Completed | Failed | Canceled | Replaced

  /** The thread that owes the task its next operation: the queue stands for any worker or remover to come. */
  datatype Owner = Queue | Worker | ReplacerToCancel | ReplacerToNotify | Remover | NoOne

  /**
   * A task accepted by `submit`. `callbackDue` says that the thread whose `cancel()` took effect has not
   * entered the lock of `forget_if_cancelled` yet. `outcome` is the ledger: how the task was counted.
   */
  datatype Task = Task(
    pool: nat, key: Option<string>, future: FutureState, replaced: bool,
    callbackDue: bool, owner: Owner, outcome: Option<Outcome>)

  /** How a worker resolves the future once the slot is free. */
  datatype Resolution = NotifyCancel | SetResult | AlreadyNotified

  /** Where a worker thread is in `_work`, `_execute` and `_finish`. */
  datatype Thread =
    | Entering
    | Sleeping(notified: bool)
    | Took(pool: nat, task: nat)
    | Starting(pool: nat, task: nat)
    | Running(pool: nat, task: nat)
    | Counting(pool: nat, task: nat, outcome: Outcome, resolution: Resolution)
    | Releasing(pool: nat, task: nat, resolution: Resolution)
    | Resolving(pool: nat, task: nat, resolution: Resolution)
    | Exited

  /** `background_executor_tasks_total` of one pool. */
  datatype Tally = Tally(completed: nat, failed: nat, canceled: nat, replaced: nat) {
    function Bump(o: Outcome): Tally {
      match o
      case Completed => this.(completed := completed + 1)
      case Failed => this.(failed := failed + 1)
      case Canceled => this.(canceled := canceled + 1)
      case Replaced => this.(replaced := replaced + 1)
    }

    function Of(o: Outcome): nat {
      match o
      case Completed => completed
      case Failed => failed
      case Canceled => canceled
      case Replaced => replaced
    }
  }

  /** One `_Cycle`. `raised` is set when a Future operation found a state it rejects with an exception. */
  datatype State = State(
    tasks: seq<Task>, queues: seq<seq<nat>>, running: seq<int>, served: seq<nat>, clock: nat,
    stopping: bool, tallies: seq<Tally>, threads: seq<Thread>, limit: nat, raised: bool)

  // ------------------------------------------------------------------ Future operations

  predicate IsCancelled(f: FutureState) {
    f == FCancelled || f == FNotified
  }

  /** `Future.cancel()`: the new state and whether this call is the one that runs the callbacks. */
  function Cancel(f: FutureState): (FutureState, bool) {
    if f == FPending then (FCancelled, true) else (f, false)
  }

  /** `set_running_or_notify_cancel()`: raises unless the future is pending or cancelled and not notified. */
  function SetRunningOrNotify(f: FutureState): Option<FutureState> {
    match f
    case FPending => Some(FRunning)
    case FCancelled => Some(FNotified)
    case _ => None
  }

  /** `set_result` and `set_exception` raise on a cancelled or finished future. */
  function SetOutcome(f: FutureState): Option<FutureState> {
    if f == FPending || f == FRunning then Some(FFinished) else None
  }

  // ------------------------------------------------------------------ shape

  predicate HoldsTask(th: Thread) {
    !th.Entering? && !th.Sleeping? && !th.Exited?
  }

  predicate Shaped(s: State) {
    && |s.queues| > 0
    && |s.running| == |s.queues| && |s.served| == |s.queues| && |s.tallies| == |s.queues|
    && (forall p, i :: 0 <= p < |s.queues| && 0 <= i < |s.queues[p]| ==> s.queues[p][i] < |s.tasks|)
    && (forall t :: 0 <= t < |s.tasks| ==> s.tasks[t].pool < |s.queues|)
    && (forall w :: 0 <= w < |s.threads| && HoldsTask(s.threads[w]) ==>
          s.threads[w].task < |s.tasks| && s.threads[w].pool < |s.queues|)
  }

  function Initial(pools: nat, workers: nat, limit: nat): (s: State)
    requires pools > 0
    ensures Shaped(s)
  {
    State([], seq(pools, _ => []), seq(pools, _ => 0), seq(pools, _ => 0), 0, false,
          seq(pools, _ => Tally(0, 0, 0, 0)), seq(workers, _ => Entering), limit, false)
  }

  // ------------------------------------------------------------------ queries

  function Pending(s: State, p: nat): int
    requires p < |s.queues| && |s.running| == |s.queues|
  {
    |s.queues[p]| + s.running[p]
  }

  /** `waiting_index` from position `from`: the first task of the queue waiting under `key`. */
  function WaitingIndex(tasks: seq<Task>, q: seq<nat>, key: string, from: nat): (r: Option<nat>)
    requires from <= |q|
    requires forall i :: 0 <= i < |q| ==> q[i] < |tasks|
    ensures r.None? ==> forall i :: from <= i < |q| ==> tasks[q[i]].key != Some(key)
    ensures r.Some? ==> from <= r.value < |q| && tasks[q[r.value]].key == Some(key)
    ensures r.Some? ==> forall i :: from <= i < r.value ==> tasks[q[i]].key != Some(key)
    decreases |q| - from
  {
    if from == |q| then None
    else if tasks[q[from]].key == Some(key) then Some(from)
    else WaitingIndex(tasks, q, key, from + 1)
  }

  /** The position the task with this optional key would replace. */
  function ReplaceIndex(s: State, p: nat, key: Option<string>): (r: Option<nat>)
    requires Shaped(s) && p < |s.queues|
    ensures r.Some? ==> r.value < |s.queues[p]|
  {
    if key.None? then None else WaitingIndex(s.tasks, s.queues[p], key.value, 0)
  }

  /** The lexicographic order `_next_pool` minimises. */
  predicate Before(s: State, p: nat, q: nat)
    requires Shaped(s) && p < |s.queues| && q < |s.queues|
  {
    s.running[p] < s.running[q] || (s.running[p] == s.running[q] && s.served[p] < s.served[q])
  }

  /** `min` over the first `k` pools with waiting tasks: the first of the minimal ones, as Python's `min`. */
  function NextPool(s: State, k: nat): (r: Option<nat>)
    requires Shaped(s) && k <= |s.queues|
    ensures r.None? <==> forall p :: 0 <= p < k ==> s.queues[p] == []
    ensures r.Some? ==> r.value < k && s.queues[r.value] != []
    ensures r.Some? ==> forall p :: 0 <= p < k && s.queues[p] != [] ==> !Before(s, p, r.value)
  {
    if k == 0 then None
    else
      var best := NextPool(s, k - 1);
      if s.queues[k - 1] == [] then best
      else if best.None? || Before(s, k - 1, best.value) then Some(k - 1)
      else best
  }

  predicate Unnotified(th: Thread) {
    th == Sleeping(false)
  }

  // ------------------------------------------------------------------ steps

  datatype Step =
    | Submit(pool: nat, key: Option<string>, wake: Option<nat>)
    | ReplacerCancels(task: nat)
    | ReplacerNotifies(task: nat)
    | CallerCancels(task: nat)
    | CallbackRuns(task: nat)
    | RemoverNotifies(task: nat)
    | Discard(pool: nat, waitingKey: string)
    | Shutdown
    | ThreadLocks(thread: nat)
    | ThreadChecks(thread: nat)
    | ThreadStarts(thread: nat)
    | ThreadRuns(thread: nat, ok: bool)
    | ThreadCounts(thread: nat)
    | ThreadReleases(thread: nat)
    | ThreadResolves(thread: nat)

  /** `cond.notify()` wakes one sleeping thread if there is one: the environment chooses which. */
  predicate WakeChoice(s: State, wake: Option<nat>) {
    if wake.Some? then wake.value < |s.threads| && Unnotified(s.threads[wake.value])
    else forall w :: 0 <= w < |s.threads| ==> !Unnotified(s.threads[w])
  }

  predicate Enabled(s: State, step: Step)
    requires Shaped(s)
  {
    match step
    case Submit(p, key, wake) => p < |s.queues| && WakeChoice(s, wake)
    case ReplacerCancels(t) => t < |s.tasks| && s.tasks[t].owner == ReplacerToCancel
    case ReplacerNotifies(t) => t < |s.tasks| && s.tasks[t].owner == ReplacerToNotify
    case CallerCancels(t) => t < |s.tasks|
    case CallbackRuns(t) => t < |s.tasks| && s.tasks[t].callbackDue
    case RemoverNotifies(t) => t < |s.tasks| && s.tasks[t].owner == Remover
    case Discard(p, key) => p < |s.queues|
    case Shutdown => !s.stopping
    case ThreadLocks(w) => w < |s.threads| && (s.threads[w].Entering? || s.threads[w] == Sleeping(true))
    case ThreadChecks(w) => w < |s.threads| && s.threads[w].Took?
    case ThreadStarts(w) => w < |s.threads| && s.threads[w].Starting?
    case ThreadRuns(w, ok) => w < |s.threads| && s.threads[w].Running?
    case ThreadCounts(w) => w < |s.threads| && s.threads[w].Counting?
    case ThreadReleases(w) => w < |s.threads| && s.threads[w].Releasing?
    case ThreadResolves(w) => w < |s.threads| && s.threads[w].Resolving?
  }

  /** `deque.remove` cuts the first occurrence out. */
  function CutAt(q: seq<nat>, k: nat): (r: seq<nat>)
    requires k < |q|
    ensures |r| == |q| - 1
    ensures forall i :: 0 <= i < |r| ==> r[i] == q[if i < k then i else i + 1]
  {
    q[..k] + q[k + 1..]
  }

  function PutAt(q: seq<nat>, k: nat, t: nat): seq<nat>
    requires k < |q|
  {
    q[k := t]
  }

  function Count(s: State, p: nat, o: Outcome): seq<Tally>
    requires p < |s.tallies|
  {
    s.tallies[p := s.tallies[p].Bump(o)]
  }

  function Notify(s: State, wake: Option<nat>): State
    requires wake.Some? ==> wake.value < |s.threads|
  {
    if wake.None? then s else s.(threads := s.threads[wake.value := Sleeping(true)])
  }

  /** `enqueue` and the `add_done_callback` of `submit`, in one lock region. */
  function SubmitStep(s: State, p: nat, key: Option<string>, wake: Option<nat>): (r: State)
    requires Shaped(s) && p < |s.queues| && WakeChoice(s, wake)
    ensures Shaped(r)
  {
    var added := Task(p, key, FPending, false, false, Queue, None);
    var id := |s.tasks|;
    var index := ReplaceIndex(s, p, key);
    if s.stopping then s
    else if index.Some? then
      var prior := s.queues[p][index.value];
      var outcome := if IsCancelled(s.tasks[prior].future) then Canceled else Replaced;
      var gone := s.tasks[prior].(replaced := true, owner := ReplacerToCancel, outcome := Some(outcome));
      s.(tasks := s.tasks[prior := gone] + [added],
         queues := s.queues[p := PutAt(s.queues[p], index.value, id)],
         tallies := Count(s, p, outcome))
    else if Pending(s, p) >= s.limit then s
    else
      Notify(s.(tasks := s.tasks + [added], queues := s.queues[p := s.queues[p] + [id]]), wake)
  }

  /** The lock region of `forget_if_cancelled`: remove and count the task, unless it was replaced or taken. */
  function ForgetRegion(s: State, t: nat): (r: State)
    requires Shaped(s) && t < |s.tasks|
    ensures Shaped(r)
    ensures |r.tasks| == |s.tasks| && r.threads == s.threads && |r.queues| == |s.queues|
    ensures forall u :: 0 <= u < |s.tasks| && u != t ==> r.tasks[u] == s.tasks[u]
    ensures r.served == s.served && r.running == s.running && r.clock == s.clock
  {
    var task := s.tasks[t].(callbackDue := false);
    var p := task.pool;
    if task.replaced || t !in s.queues[p] then s.(tasks := s.tasks[t := task])
    else
      s.(tasks := s.tasks[t := task.(owner := Remover, outcome := Some(Canceled))],
         queues := s.queues[p := CutAt(s.queues[p], IndexOf(s.queues[p], t))],
         tallies := Count(s, p, Canceled))
  }

  /** `future.cancel()` by a thread that does not hold the lock: the callback is left for a later step. */
  function CancelStep(s: State, t: nat): (r: State)
    requires Shaped(s) && t < |s.tasks|
    ensures Shaped(r)
  {
    var (f, fired) := Cancel(s.tasks[t].future);
    s.(tasks := s.tasks[t := s.tasks[t].(future := f, callbackDue := s.tasks[t].callbackDue || fired)])
  }

  /** `set_running_or_notify_cancel()` on a task whose owner then has nothing left to do. */
  function NotifyStep(s: State, t: nat): (r: State)
    requires Shaped(s) && t < |s.tasks|
    ensures Shaped(r)
    ensures |r.tasks| == |s.tasks| && r.threads == s.threads && r.queues == s.queues
    ensures forall u :: 0 <= u < |s.tasks| && u != t ==> r.tasks[u] == s.tasks[u]
    ensures r.served == s.served && r.running == s.running && r.clock == s.clock
  {
    match SetRunningOrNotify(s.tasks[t].future)
    case Some(f) => s.(tasks := s.tasks[t := s.tasks[t].(future := f, owner := NoOne)])
    case None => s.(raised := true)
  }

  /**
   * `replaced.future.cancel()` in `submit`. When it takes effect its callback runs in the same thread,
   * and the replacer then goes on to notify.
   */
  function ReplacerCancelsStep(s: State, t: nat): (r: State)
    requires Shaped(s) && t < |s.tasks|
    ensures Shaped(r)
  {
    var (f, fired) := Cancel(s.tasks[t].future);
    var cancelled := s.(tasks := s.tasks[t := s.tasks[t].(future := f, owner := ReplacerToNotify)]);
    if fired then ForgetRegion(cancelled, t) else cancelled
  }

  /**
   * `future.cancel()` with the lock held, as `discard` and `shutdown` do: the lock is re-entrant, so when
   * the cancel takes effect the callback removes, counts and notifies the task before the region ends.
   */
  function CancelInsideLock(s: State, t: nat): (r: State)
    requires Shaped(s) && t < |s.tasks|
    ensures Shaped(r)
    ensures |r.tasks| == |s.tasks| && r.threads == s.threads && |r.queues| == |s.queues|
    ensures forall u :: 0 <= u < |s.tasks| && u != t ==> r.tasks[u] == s.tasks[u]
    ensures r.served == s.served && r.running == s.running && r.clock == s.clock
  {
    var (f, fired) := Cancel(s.tasks[t].future);
    if !fired then s
    else
      var forgotten := ForgetRegion(s.(tasks := s.tasks[t := s.tasks[t].(future := f)]), t);
      if forgotten.tasks[t].owner == Remover then NotifyStep(forgotten, t) else forgotten
  }

  function DiscardStep(s: State, p: nat, key: string): (r: State)
    requires Shaped(s) && p < |s.queues|
    ensures Shaped(r)
  {
    var index := ReplaceIndex(s, p, Some(key));
    if index.None? then s else CancelInsideLock(s, s.queues[p][index.value])
  }

  /** The inner loop of `shutdown` over a copy of one queue. */
  function CancelEach(s: State, ts: seq<nat>): (r: State)
    requires Shaped(s) && forall i :: 0 <= i < |ts| ==> ts[i] < |s.tasks|
    ensures Shaped(r)
    ensures |r.tasks| == |s.tasks| && r.threads == s.threads && |r.queues| == |s.queues|
    ensures r.served == s.served && r.running == s.running && r.clock == s.clock
    decreases |ts|
  {
    if ts == [] then s else CancelEach(CancelInsideLock(s, ts[0]), ts[1..])
  }

  /** The outer loop of `shutdown` over the pools from `p` on. */
  function CancelPools(s: State, p: nat): (r: State)
    requires Shaped(s) && p <= |s.queues|
    ensures Shaped(r)
    ensures |r.tasks| == |s.tasks| && r.threads == s.threads && |r.queues| == |s.queues|
    ensures r.served == s.served && r.running == s.running && r.clock == s.clock
    decreases |s.queues| - p
  {
    if p == |s.queues| then s else CancelPools(CancelEach(s, s.queues[p]), p + 1)
  }

  function WakeAll(threads: seq<Thread>): (r: seq<Thread>)
    ensures |r| == |threads|
    ensures forall w :: 0 <= w < |r| ==> r[w] == if threads[w].Sleeping? then Sleeping(true) else threads[w]
  {
    seq(|threads|, w requires 0 <= w < |threads| =>
      if threads[w].Sleeping? then Sleeping(true) else threads[w])
  }

  function ShutdownStep(s: State): (r: State)
    requires Shaped(s)
    ensures Shaped(r)
  {
    var cancelled := CancelPools(s.(stopping := true), 0);
    cancelled.(threads := WakeAll(cancelled.threads))
  }

  function SetThread(s: State, w: nat, th: Thread): State
    requires w < |s.threads|
  {
    s.(threads := s.threads[w := th])
  }

  /** The lock region of `_work`: leave, go to sleep, or take the first task of the pool `_next_pool` picks. */
  function ThreadLocksStep(s: State, w: nat): (r: State)
    requires Shaped(s) && w < |s.threads|
    ensures Shaped(r)
  {
    var next := NextPool(s, |s.queues|);
    if s.stopping then SetThread(s, w, Exited)
    else if next.None? then SetThread(s, w, Sleeping(false))
    else
      var p := next.value;
      var t := s.queues[p][0];
      var taken := s.(tasks := s.tasks[t := s.tasks[t].(owner := Worker)],
                      queues := s.queues[p := s.queues[p][1..]],
                      running := s.running[p := s.running[p] + 1],
                      clock := s.clock + 1,
                      served := s.served[p := s.clock + 1]);
      SetThread(taken, w, Took(p, t))
  }

  function ThreadChecksStep(s: State, w: nat): (r: State)
    requires Shaped(s) && w < |s.threads| && s.threads[w].Took?
    ensures Shaped(r)
  {
    var Took(p, t) := s.threads[w];
    SetThread(s, w, if IsCancelled(s.tasks[t].future) then Counting(p, t, Canceled, NotifyCancel) else Starting(p, t))
  }

  /** A raise here would leave `_execute` before anything is counted; the thread would go on to its next task. */
  function ThreadStartsStep(s: State, w: nat): (r: State)
    requires Shaped(s) && w < |s.threads| && s.threads[w].Starting?
    ensures Shaped(r)
  {
    var Starting(p, t) := s.threads[w];
    match SetRunningOrNotify(s.tasks[t].future)
    case None => SetThread(s.(raised := true), w, Entering)
    case Some(f) =>
      SetThread(s.(tasks := s.tasks[t := s.tasks[t].(future := f)]), w,
                if f == FRunning then Running(p, t) else Counting(p, t, Canceled, AlreadyNotified))
  }

  /** `_TASKS...inc()` of `_finish`, before the lock. */
  function ThreadCountsStep(s: State, w: nat): (r: State)
    requires Shaped(s) && w < |s.threads| && s.threads[w].Counting?
    ensures Shaped(r)
  {
    var Counting(p, t, o, how) := s.threads[w];
    SetThread(s.(tasks := s.tasks[t := s.tasks[t].(outcome := Some(o))], tallies := Count(s, p, o)),
              w, Releasing(p, t, how))
  }

  /** The lock region of `_finish`. */
  function ThreadReleasesStep(s: State, w: nat): (r: State)
    requires Shaped(s) && w < |s.threads| && s.threads[w].Releasing?
    ensures Shaped(r)
  {
    var Releasing(p, t, how) := s.threads[w];
    SetThread(s.(running := s.running[p := s.running[p] - 1]), w, Resolving(p, t, how))
  }

  function ThreadResolvesStep(s: State, w: nat): (r: State)
    requires Shaped(s) && w < |s.threads| && s.threads[w].Resolving?
    ensures Shaped(r)
  {
    var Resolving(p, t, how) := s.threads[w];
    var task := s.tasks[t];
    var f := match how
      case NotifyCancel => SetRunningOrNotify(task.future)
      case SetResult => SetOutcome(task.future)
      case AlreadyNotified => Some(task.future);
    match f
    case None => SetThread(s.(raised := true), w, Entering)
    case Some(g) => SetThread(s.(tasks := s.tasks[t := task.(future := g, owner := NoOne)]), w, Entering)
  }

  function Apply(s: State, step: Step): (r: State)
    requires Shaped(s) && Enabled(s, step)
    ensures Shaped(r)
  {
    match step
    case Submit(p, key, wake) => SubmitStep(s, p, key, wake)
    case ReplacerCancels(t) => ReplacerCancelsStep(s, t)
    case ReplacerNotifies(t) => NotifyStep(s, t)
    case CallerCancels(t) => CancelStep(s, t)
    case CallbackRuns(t) => ForgetRegion(s, t)
    case RemoverNotifies(t) => NotifyStep(s, t)
    case Discard(p, key) => DiscardStep(s, p, key)
    case Shutdown => ShutdownStep(s)
    case ThreadLocks(w) => ThreadLocksStep(s, w)
    case ThreadChecks(w) => ThreadChecksStep(s, w)
    case ThreadStarts(w) => ThreadStartsStep(s, w)
    case ThreadRuns(w, ok) =>
      var Running(p, t) := s.threads[w];
      SetThread(s, w, Counting(p, t, if ok then Completed else Failed, SetResult))
    case ThreadCounts(w) => ThreadCountsStep(s, w)
    case ThreadReleases(w) => ThreadReleasesStep(s, w)
    case ThreadResolves(w) => ThreadResolvesStep(s, w)
  }

  /** A run: `states[i + 1]` is `states[i]` after the enabled step `steps[i]`. */
  ghost predicate IsRun(states: seq<State>, steps: seq<Step>) {
    && |states| == |steps| + 1
    && (forall i :: 0 <= i < |states| ==> Shaped(states[i]))
    && (forall i :: 0 <= i < |steps| ==> StepAt(states, steps, i))
  }

  ghost predicate StepAt(states: seq<State>, steps: seq<Step>, i: nat)
    requires |states| == |steps| + 1 && i < |steps|
  {
    Shaped(states[i]) && Enabled(states[i], steps[i]) && states[i + 1] == Apply(states[i], steps[i])
  }
}
