/**
 * `CircuitBreaker` of `gateway/scheduler/tasks/circuit_breaker.py` against its history of calls. Times are readings of
 * the monotonic clock.
 */
module CircuitBreaker {
  import opened Wrappers

  /** The two fields of the breaker. */
  datatype Breaker = Breaker(failures: nat, openedAt: Option<int>)

  const CLOSED := Breaker(0, None)

  /** `is_open`: the answer, and the state after the lazy reset. */
  function Check(b: Breaker, now: int, pause: int): (bool, Breaker) {
    if b.openedAt.None? then (false, b)
    else if now - b.openedAt.value >= pause then (false, CLOSED)
    else (true, b)
  }

  predicate IsOpen(b: Breaker, now: int, pause: int) {
    Check(b, now, pause).0
  }

  function RecordSuccess(b: Breaker): Breaker {
    b.(failures := 0)
  }

  function RecordFailure(b: Breaker, now: int, threshold: int): Breaker {
    var counted := b.(failures := b.failures + 1);
    if counted.failures >= threshold && b.openedAt.None? then counted.(openedAt := Some(now)) else counted
  }

  /** One breaker per region: only the breaker of this region may differ. */
  ghost predicate SameBut(before: map<Region, Breaker>, after: map<Region, Breaker>, region: Region) {
    forall r :: r in before && r != region ==> r in after && after[r] == before[r]
  }

  /** The object, with its threshold and pause read from the Config entries on every use. */
  class BreakerObject {
    var failures: nat
    var openedAt: Option<int>

    constructor ()
      ensures Now() == CLOSED
    {
      failures, openedAt := 0, None;
    }

    function Now(): Breaker
      reads this
    {
      Breaker(failures, openedAt)
    }

    method Open(now: int, pause: int) returns (open: bool)
      modifies this
      ensures open == IsOpen(old(Now()), now, pause)
      ensures Now() == Check(old(Now()), now, pause).1
      ensures !open ==> openedAt.None?
    {
      if openedAt.None? {
        return false;
      }
      if now - openedAt.value >= pause {
        failures, openedAt := 0, None;
        return false;
      }
      return true;
    }

    method Success()
      modifies this
      ensures Now() == RecordSuccess(old(Now()))
    {
      failures := 0;
    }

    method Failure(now: int, threshold: int)
      modifies this
      ensures Now() == RecordFailure(old(Now()), now, threshold)
    {
      failures := failures + 1;
      if failures >= threshold && openedAt.None? {
        openedAt := Some(now);
      }
    }
  }

  // ------------------------------------------------------------------ histories

  /** One use of the breaker at a moment: an `is_open`, or the record of a call. */
  datatype Use = Asked(at: int) | Succeeded(at: int) | Failed(at: int)

  /** The Config entries, constant over the history. */
  datatype Config = Config(threshold: int, pause: int)

  function Run(uses: seq<Use>, config: Config): Breaker {
    if uses == [] then CLOSED
    else
      var before := Run(uses[..|uses| - 1], config);
      match uses[|uses| - 1]
      case Asked(t) => Check(before, t, config.pause).1
      case Succeeded(_) => RecordSuccess(before)
      case Failed(t) => RecordFailure(before, t, config.threshold)
  }

  /** Time does not go back, and a record follows an `is_open` that answered no. */
  predicate InOrder(uses: seq<Use>, config: Config, i: nat)
    requires i < |uses|
  {
    && (i > 0 ==> uses[i - 1].at <= uses[i].at)
    && (|| uses[i].Asked?
        || (i > 0 && uses[i - 1].Asked? && !IsOpen(Run(uses[..i - 1], config), uses[i - 1].at, config.pause)))
  }

  ghost predicate Disciplined(uses: seq<Use>, config: Config) {
    forall i :: 0 <= i < |uses| ==> InOrder(uses, config, i)
  }

  /** The failures in a row since the last success or the last completed streak. It reads the records only. */
  function Streak(uses: seq<Use>, config: Config): nat {
    if uses == [] then 0
    else
      var before := Streak(uses[..|uses| - 1], config);
      match uses[|uses| - 1]
      case Asked(_) => before
      case Succeeded(_) => 0
      case Failed(_) => if before + 1 >= config.threshold then 0 else before + 1
  }

  /** When the latest streak of `threshold` failures was completed. */
  function LastTrip(uses: seq<Use>, config: Config): Option<int> {
    if uses == [] then None
    else
      var before := uses[..|uses| - 1];
      match uses[|uses| - 1]
      case Failed(t) => if Streak(before, config) + 1 >= config.threshold then Some(t) else LastTrip(before, config)
      case _ => LastTrip(before, config)
  }

  /** A streak was completed less than the pause ago. */
  predicate Pausing(uses: seq<Use>, config: Config, now: int) {
    var trip := LastTrip(uses, config);
    trip.Some? && now - trip.value < config.pause
  }

  predicate NotAfter(uses: seq<Use>, t: int) {
    uses == [] || uses[|uses| - 1].at <= t
  }

  /** What the fields of the breaker say about its history. */
  ghost predicate Tracks(b: Breaker, uses: seq<Use>, config: Config) {
    match b.openedAt
    case Some(t) => LastTrip(uses, config) == Some(t) && Streak(uses, config) == 0
    case None =>
      && b.failures == Streak(uses, config)
      && forall t :: NotAfter(uses, t) ==> !Pausing(uses, config, t)
  }

  lemma DisciplinedPrefix(uses: seq<Use>, config: Config)
    requires Disciplined(uses, config) && uses != []
    ensures Disciplined(uses[..|uses| - 1], config)
  {
    var p := uses[..|uses| - 1];
    forall i | 0 <= i < |p|
      ensures InOrder(p, config, i)
    {
      assert InOrder(uses, config, i);
      assert i > 0 ==> p[..i - 1] == uses[..i - 1];
    }
  }

  /** A record finds the breaker closed: the check right before it either found it so or reset it. */
  lemma RecordFindsItClosed(uses: seq<Use>, config: Config)
    requires Disciplined(uses, config) && uses != [] && !uses[|uses| - 1].Asked?
    ensures Run(uses[..|uses| - 1], config).openedAt.None?
  {
    var n := |uses| - 1;
    var before := uses[..n];
    assert InOrder(uses, config, n);
    assert before[..n - 1] == uses[..n - 1];
    assert before[n - 1] == uses[n - 1];
  }

  lemma {:induction false} RunTracks(uses: seq<Use>, config: Config)
    requires Disciplined(uses, config)
    ensures Tracks(Run(uses, config), uses, config)
  {
    if uses != [] {
      var n := |uses| - 1;
      var before := uses[..n];
      DisciplinedPrefix(uses, config);
      RunTracks(before, config);
      if !uses[n].Asked? {
        RecordFindsItClosed(uses, config);
      }
      assert InOrder(uses, config, n);
      assert forall t :: NotAfter(uses, t) ==> NotAfter(before, t);
    }
  }

  /**
   * The breaker is open at a moment exactly when a streak of failures was completed less than the pause ago, for every
   * threshold and pause.
   */
  lemma OpenExactlyWhilePausing(uses: seq<Use>, config: Config, now: int)
    requires Disciplined(uses, config) && NotAfter(uses, now)
    ensures IsOpen(Run(uses, config), now, config.pause) <==> Pausing(uses, config, now)
  {
    RunTracks(uses, config);
  }

  /** No call leaves during a pause: the check a record follows was made after every pause was over. */
  lemma NoCallDuringPause(uses: seq<Use>, config: Config, i: nat)
    requires Disciplined(uses, config) && i < |uses| && !uses[i].Asked?
    ensures i > 0 && !Pausing(uses[..i - 1], config, uses[i - 1].at)
  {
    assert InOrder(uses, config, i);
    var before := uses[..i - 1];
    PrefixDisciplined(uses, config, i - 1);
    assert InOrder(uses, config, i - 1);
    assert NotAfter(before, uses[i - 1].at);
    OpenExactlyWhilePausing(before, config, uses[i - 1].at);
  }

  lemma {:induction false} PrefixDisciplined(uses: seq<Use>, config: Config, k: nat)
    requires Disciplined(uses, config) && k <= |uses|
    ensures Disciplined(uses[..k], config)
    decreases |uses| - k
  {
    if k == |uses| {
      assert uses[..k] == uses;
    } else {
      PrefixDisciplined(uses, config, k + 1);
      DisciplinedPrefix(uses[..k + 1], config);
      assert uses[..k + 1][..k] == uses[..k];
    }
  }

  function Records(uses: seq<Use>): seq<Use> {
    if uses == [] then []
    else Records(uses[..|uses| - 1]) + if uses[|uses| - 1].Asked? then [] else [uses[|uses| - 1]]
  }

  lemma {:induction false} ChecksDoNotCount(uses: seq<Use>, config: Config)
    ensures Streak(Records(uses), config) == Streak(uses, config)
    ensures LastTrip(Records(uses), config) == LastTrip(uses, config)
  {
    if uses != [] {
      var n := |uses| - 1;
      ChecksDoNotCount(uses[..n], config);
      if uses[n].Asked? {
        assert Records(uses) == Records(uses[..n]);
      } else {
        assert Records(uses)[..|Records(uses)| - 1] == Records(uses[..n]);
      }
    }
  }

  /** The lazy reset cannot be observed: histories with the same records answer the same, however often they were asked. */
  lemma LazyResetIsUnobservable(a: seq<Use>, b: seq<Use>, config: Config, now: int)
    requires Disciplined(a, config) && Disciplined(b, config) && Records(a) == Records(b)
    requires NotAfter(a, now) && NotAfter(b, now)
    ensures IsOpen(Run(a, config), now, config.pause) <==> IsOpen(Run(b, config), now, config.pause)
  {
    OpenExactlyWhilePausing(a, config, now);
    OpenExactlyWhilePausing(b, config, now);
    ChecksDoNotCount(a, config);
    ChecksDoNotCount(b, config);
  }

  // ------------------------------------------------------------------ keeping a history

  /** The last use was an `is_open` that answered no: a call may leave, and its outcome may be recorded. */
  ghost predicate Cleared(uses: seq<Use>, config: Config) {
    && uses != []
    && uses[|uses| - 1].Asked?
    && !IsOpen(Run(uses[..|uses| - 1], config), uses[|uses| - 1].at, config.pause)
  }

  /** The breaker is what a disciplined history makes of it. */
  ghost predicate Follows(b: Breaker, uses: seq<Use>, config: Config, now: int) {
    b == Run(uses, config) && Disciplined(uses, config) && NotAfter(uses, now)
  }

  lemma DisciplinedAppend(uses: seq<Use>, config: Config, use: Use)
    requires Disciplined(uses, config) && NotAfter(uses, use.at)
    requires use.Asked? || Cleared(uses, config)
    ensures Disciplined(uses + [use], config)
  {
    var all, n := uses + [use], |uses|;
    forall i | 0 <= i < |all|
      ensures InOrder(all, config, i)
    {
      if i < n {
        assert InOrder(uses, config, i);
      }
      assert i > 0 ==> all[..i - 1] == uses[..i - 1];
    }
  }

  lemma AskedFollows(b: Breaker, uses: seq<Use>, config: Config, now: int, later: int)
    requires Follows(b, uses, config, now) && now <= later
    ensures Follows(Check(b, now, config.pause).1, uses + [Asked(now)], config, later)
    ensures !IsOpen(b, now, config.pause) ==> Cleared(uses + [Asked(now)], config)
  {
    DisciplinedAppend(uses, config, Asked(now));
    assert (uses + [Asked(now)])[..|uses|] == uses;
  }

  lemma RecordFollows(b: Breaker, uses: seq<Use>, config: Config, use: Use, now: int)
    requires Follows(b, uses, config, use.at) && Cleared(uses, config) && !use.Asked? && use.at <= now
    ensures Follows(Run(uses + [use], config), uses + [use], config, now)
    ensures Run(uses + [use], config) ==
            if use.Succeeded? then RecordSuccess(b) else RecordFailure(b, use.at, config.threshold)
  {
    DisciplinedAppend(uses, config, use);
    assert (uses + [use])[..|uses|] == uses;
  }
}
