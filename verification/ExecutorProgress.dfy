/**
 * The background executor comes to rest: while the callers make no step, the threads, callbacks, replacers and removers
 * have a bounded number of steps to make, and when they are made everyone who waits is released.
 */
module ExecutorProgress {
  import opened Collections
  import opened Wrappers
  import opened ExecutorModel
  import opened ExecutorInvariant
  import opened ExecutorTheorems
  import opened ExecutorLiveness

  /** A step the executor makes by itself, once the callers have done what they do. */
  predicate Internal(step: Step) {
    !step.Submit? && !step.CallerCancels? && !step.Discard? && !step.Shutdown?
  }

  // ------------------------------------------------------------------ the measure

  /** How many steps a thread makes at most before it sleeps or leaves. */
  function ThreadWeight(th: Thread): nat {
    match th
    case Exited => 0
    case Sleeping(notified) => if notified then 1 else 0
    case Entering => 1
    case Resolving(_, _, _) => 2
    case Releasing(_, _, _) => 3
    case Counting(_, _, _, _) => 4
    case Running(_, _) => 5
    case Starting(_, _) => 6
    case Took(_, _) => 7
  }

  /** A waiting task weighs what it adds to the thread that takes it. */
  function OwnerWeight(owner: Owner): nat {
    match owner
    case Queue => 7
    case ReplacerToCancel => 2
    case ReplacerToNotify => 1
    case Remover => 1
    case Worker => 0
    case NoOne => 0
  }

  function TaskWeight(x: Task): nat {
    OwnerWeight(x.owner) + if x.callbackDue then 1 else 0
  }

  function Total<T>(xs: seq<T>, weight: T -> nat): nat {
    if xs == [] then 0 else Total(xs[..|xs| - 1], weight) + weight(xs[|xs| - 1])
  }

  lemma {:induction false} TotalUpdate<T>(xs: seq<T>, i: nat, x: T, weight: T -> nat)
    requires i < |xs|
    ensures Total(xs[i := x], weight) == Total(xs, weight) - weight(xs[i]) + weight(x)
  {
    var n := |xs| - 1;
    if i == n {
      assert xs[i := x][..n] == xs[..n];
    } else {
      assert xs[i := x][..n] == xs[..n][i := x];
      TotalUpdate(xs[..n], i, x, weight);
    }
  }

  lemma {:induction false} TotalAtMost<T>(xs: seq<T>, weight: T -> nat, most: nat)
    requires forall x :: weight(x) <= most
    ensures Total(xs, weight) <= most * |xs|
  {
    if xs != [] {
      TotalAtMost(xs[..|xs| - 1], weight, most);
    }
  }

  /** What the executor has left to do. */
  function Measure(s: State): nat {
    Total(s.tasks, TaskWeight) + Total(s.threads, ThreadWeight)
  }

  lemma MeasureIsBounded(s: State)
    ensures Measure(s) <= 8 * |s.tasks| + 7 * |s.threads|
  {
    TotalAtMost(s.tasks, TaskWeight, 8);
    TotalAtMost(s.threads, ThreadWeight, 7);
  }

  // ------------------------------------------------------------------ every internal step lowers it

  lemma TaskMoveLowers(s: State, r: State, t: nat)
    requires t < |s.tasks| && |r.tasks| == |s.tasks| && r.threads == s.threads
    requires r.tasks == s.tasks[t := r.tasks[t]] && TaskWeight(r.tasks[t]) < TaskWeight(s.tasks[t])
    ensures Measure(r) < Measure(s)
  {
    TotalUpdate(s.tasks, t, r.tasks[t], TaskWeight);
  }

  lemma ThreadMoveLowers(s: State, r: State, w: nat)
    requires w < |s.threads| && |r.threads| == |s.threads| && r.tasks == s.tasks
    requires r.threads == s.threads[w := r.threads[w]] && ThreadWeight(r.threads[w]) < ThreadWeight(s.threads[w])
    ensures Measure(r) < Measure(s)
  {
    TotalUpdate(s.threads, w, r.threads[w], ThreadWeight);
  }

  lemma BothMoveLowers(s: State, r: State, t: nat, w: nat)
    requires t < |s.tasks| && |r.tasks| == |s.tasks| && r.tasks == s.tasks[t := r.tasks[t]]
    requires w < |s.threads| && |r.threads| == |s.threads| && r.threads == s.threads[w := r.threads[w]]
    requires TaskWeight(r.tasks[t]) + ThreadWeight(r.threads[w]) < TaskWeight(s.tasks[t]) + ThreadWeight(s.threads[w])
    ensures Measure(r) < Measure(s)
  {
    TotalUpdate(s.tasks, t, r.tasks[t], TaskWeight);
    TotalUpdate(s.threads, w, r.threads[w], ThreadWeight);
  }

  /** The taken task weighs seven less and its thread six more. */
  lemma TakeLowers(s: State, w: nat, p: nat)
    requires Inv(s) && Enabled(s, ThreadLocks(w)) && p < |s.queues| && s.queues[p] != []
    ensures Measure(Taken(s, w, p)) < Measure(s)
  {
    assert QueueOk(s.tasks, s.queues[p], p);
    BothMoveLowers(s, Taken(s, w, p), s.queues[p][0], w);
  }

  lemma LocksLowers(s: State, w: nat)
    requires Inv(s) && Enabled(s, ThreadLocks(w))
    ensures Measure(ThreadLocksStep(s, w)) < Measure(s)
  {
    var next := NextPool(s, |s.queues|);
    if !s.stopping && next.Some? {
      LockTakes(s, w);
      TakeLowers(s, w, next.value);
    } else {
      ThreadMoveLowers(s, ThreadLocksStep(s, w), w);
    }
  }

  /** A thread moves on with its task as it is. */
  lemma WorkLowers(s: State, step: Step)
    requires Shaped(s) && Enabled(s, step) && (step.ThreadChecks? || step.ThreadRuns? || step.ThreadReleases?)
    ensures Measure(Apply(s, step)) < Measure(s)
  {
    ThreadMoveLowers(s, Apply(s, step), step.thread);
  }

  lemma StartsLowers(s: State, w: nat)
    requires Shaped(s) && Enabled(s, ThreadStarts(w))
    ensures Measure(ThreadStartsStep(s, w)) < Measure(s)
  {
    BothMoveLowers(s, ThreadStartsStep(s, w), s.threads[w].task, w);
  }

  lemma CountsLowers(s: State, w: nat)
    requires Shaped(s) && Enabled(s, ThreadCounts(w))
    ensures Measure(ThreadCountsStep(s, w)) < Measure(s)
  {
    BothMoveLowers(s, ThreadCountsStep(s, w), s.threads[w].task, w);
  }

  lemma ResolvesLowers(s: State, w: nat)
    requires Inv(s) && Enabled(s, ThreadResolves(w))
    ensures Measure(ThreadResolvesStep(s, w)) < Measure(s)
  {
    assert HeldOk(s.tasks, s.threads[w]);
    BothMoveLowers(s, ThreadResolvesStep(s, w), s.threads[w].task, w);
  }

  lemma CallbackLowers(s: State, t: nat)
    requires Inv(s) && t < |s.tasks| && s.tasks[t].callbackDue
    ensures Measure(ForgetRegion(s, t)) < Measure(s)
  {
    var p := s.tasks[t].pool;
    if t in s.queues[p] {
      assert QueueOk(s.tasks, s.queues[p], p);
      assert s.tasks[t].owner == Queue;
    }
    TaskMoveLowers(s, ForgetRegion(s, t), t);
  }

  lemma NotifyLowers(s: State, t: nat)
    requires Inv(s) && t < |s.tasks| && (s.tasks[t].owner == ReplacerToNotify || s.tasks[t].owner == Remover)
    ensures Measure(NotifyStep(s, t)) < Measure(s)
  {
    assert TaskOk(s.tasks[t]);
    TaskMoveLowers(s, NotifyStep(s, t), t);
  }

  lemma ReplacerLowers(s: State, t: nat)
    requires Inv(s) && t < |s.tasks| && s.tasks[t].owner == ReplacerToCancel
    ensures Measure(ReplacerCancelsStep(s, t)) < Measure(s)
  {
    TaskMoveLowers(s, ReplacerCancelsStep(s, t), t);
  }

  lemma InternalStepLowers(s: State, step: Step)
    requires Inv(s) && Enabled(s, step) && Internal(step)
    ensures Measure(Apply(s, step)) < Measure(s)
  {
    match step
    case ThreadLocks(w) => LocksLowers(s, w);
    case ThreadStarts(w) => StartsLowers(s, w);
    case ThreadCounts(w) => CountsLowers(s, w);
    case ThreadResolves(w) => ResolvesLowers(s, w);
    case CallbackRuns(t) => CallbackLowers(s, t);
    case ReplacerCancels(t) => ReplacerLowers(s, t);
    case ReplacerNotifies(t) => NotifyLowers(s, t);
    case RemoverNotifies(t) => NotifyLowers(s, t);
    case _ => WorkLowers(s, step);
  }

  // ------------------------------------------------------------------ rest

  /** Where it is not at rest, the executor has a step to make. */
  lemma StepLeft(s: State) returns (step: Step)
    requires Shaped(s) && !AtRest(s)
    ensures Internal(step) && Enabled(s, step)
  {
    if w: nat :| w < |s.threads| && !Idle(s.threads[w]) {
      match s.threads[w] {
        case Took(_, _) => step := ThreadChecks(w);
        case Starting(_, _) => step := ThreadStarts(w);
        case Running(_, _) => step := ThreadRuns(w, true);
        case Counting(_, _, _, _) => step := ThreadCounts(w);
        case Releasing(_, _, _) => step := ThreadReleases(w);
        case Resolving(_, _, _) => step := ThreadResolves(w);
        case _ => step := ThreadLocks(w);
      }
    } else {
      var t :| 0 <= t < |s.tasks| && TaskWaits(s.tasks[t]);
      var x := s.tasks[t];
      step := if x.callbackDue then CallbackRuns(t)
              else if x.owner == ReplacerToCancel then ReplacerCancels(t)
              else if x.owner == ReplacerToNotify then ReplacerNotifies(t)
              else RemoverNotifies(t);
    }
  }

  /** Rest is where the executor has no step of its own left. */
  lemma AtRestExactlyWhen(s: State)
    requires Shaped(s)
    ensures AtRest(s) <==> forall step :: Internal(step) ==> !Enabled(s, step)
  {
    if !AtRest(s) {
      var step := StepLeft(s);
    }
  }

  ghost predicate CallersPause(steps: seq<Step>, a: nat, b: nat) {
    forall i :: a <= i < b && i < |steps| ==> Internal(steps[i])
  }

  /** While the callers make no step, the executor makes no more steps than its measure says, however it is scheduled. */
  lemma {:induction false} PauseIsBounded(states: seq<State>, steps: seq<Step>, a: nat, b: nat)
    requires RunFromInit(states, steps) && a <= b < |states| && CallersPause(steps, a, b)
    ensures b - a + Measure(states[b]) <= Measure(states[a])
  {
    if a < b {
      PauseIsBounded(states, steps, a, b - 1);
      Reachable(states, steps, b - 1);
      assert StepAt(states, steps, b - 1);
      InternalStepLowers(states[b - 1], steps[b - 1]);
    }
  }

  lemma RunGrows(states: seq<State>, steps: seq<Step>, step: Step) returns (longer: seq<State>)
    requires RunFromInit(states, steps) && Enabled(states[|steps|], step)
    ensures longer == states + [Apply(states[|steps|], step)] && RunFromInit(longer, steps + [step])
  {
    longer := states + [Apply(states[|steps|], step)];
    var all := steps + [step];
    forall i | 0 <= i < |all|
      ensures StepAt(longer, all, i)
    {
      if i < |steps| {
        assert StepAt(states, steps, i);
      }
    }
  }

  /** And from every reachable state it can come to rest by itself. */
  lemma {:induction false} RestIsReached(states: seq<State>, steps: seq<Step>) returns (allStates: seq<State>, all: seq<Step>)
    requires RunFromInit(states, steps)
    ensures RunFromInit(allStates, all) && states <= allStates && steps <= all && CallersPause(all, |steps|, |all|)
    ensures |all| - |steps| <= Measure(states[|steps|]) && AtRest(allStates[|all|])
    decreases Measure(states[|steps|])
  {
    var s := states[|steps|];
    if AtRest(s) {
      return states, steps;
    }
    var step := StepLeft(s);
    var longer := RunGrows(states, steps, step);
    Reachable(states, steps, |steps|);
    InternalStepLowers(s, step);
    allStates, all := RestIsReached(longer, steps + [step]);
    assert all[|steps|] == step;
  }

  /**
   * Once the callers pause, a wait ends: after at most `Measure` steps the executor has none left, and then every
   * accepted task is counted and its future resolved.
   */
  lemma WaitEnds(states: seq<State>, steps: seq<Step>, a: nat, b: nat, t: nat)
    requires RunFromInit(states, steps) && a <= b < |states| && CallersPause(steps, a, b)
    requires |states[b].threads| > 0 && t < |states[b].tasks|
    ensures b - a <= Measure(states[a])
    ensures IsReleased(states[b].tasks[t]) || exists step :: Internal(step) && Enabled(states[b], step)
    ensures b - a == Measure(states[a]) ==> IsReleased(states[b].tasks[t])
  {
    PauseIsBounded(states, steps, a, b);
    if AtRest(states[b]) {
      EveryoneIsReleased(states, steps, b, t);
    } else {
      var step := StepLeft(states[b]);
      Reachable(states, steps, b);
      InternalStepLowers(states[b], step);
    }
  }
}
