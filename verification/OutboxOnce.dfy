/**
 * How often one drain tries a row: exactly when it is at most once, for every clock, table, sender and Config.
 */
module OutboxOnce {
  import opened Collections
  import opened Wrappers
  import opened OutboxModel
  import opened OutboxDrain
  import opened OutboxSteps
  import opened OutboxSends
  import opened OutboxPaths
  import opened OutboxBreakers
  import opened CircuitBreaker

  /** Rows are sent one by one, and the first failure in a region pauses it for the rest of the drain. */
  predicate Tripping(settings: Settings) {
    !settings.batches && settings.breaker.threshold <= 1 && settings.breaker.pause >= settings.budget
  }

  /**
   * The Config entries let a drain try a row at most once, when a query comes at most `lag` after the check before it:
   * no budget at all, or a first wait that outlasts the last query. With rows sent one by one there is a check between
   * the query and every send, so the lag does not matter.
   */
  predicate Harmless(settings: Settings, lag: nat) {
    || settings.budget <= 0
    || (if settings.batches then FirstWait(settings) >= settings.budget + lag
        else FirstWait(settings) >= settings.budget || Tripping(settings))
  }

  // ------------------------------------------------------------------ rows whose region is paused

  predicate TrippedSince(breakers: map<Region, Breaker>, region: Region, began: int) {
    region in breakers && breakers[region].openedAt.Some? && breakers[region].openedAt.value >= began
  }

  /** The row is gone, parked, or its region was paused during the drain. */
  predicate Spent(c: Channel, began: int, id: nat) {
    id !in c.rows || c.rows[id].unrecoverable || TrippedSince(c.breakers, c.rows[id].region, began)
  }

  ghost predicate SpentFrom(c: Channel, began: int, from: nat) {
    forall k :: from <= k < |c.log| ==> Spent(c, began, c.log[k].id)
  }

  /** Once the budget is spent nothing more is tried; until then every tried row is spent. */
  ghost predicate AllSpent(w: World, plan: Plan, c: Channel, from: nat) {
    w.Clock(c.ticks) >= plan.deadline || SpentFrom(c, plan.began, from)
  }

  /** A pause does not end before the budget does. */
  lemma AsksKeepsSpent(w: World, settings: Settings, plan: Plan, c: Channel, region: Region, from: nat)
    requires Steady(w) && Tripping(settings) && plan.deadline == plan.began + settings.budget
    requires AllSpent(w, plan, c, from)
    ensures AllSpent(w, plan, Asks(w, settings, c, region).1, from)
  {
    var asked := Asks(w, settings, c, region).1;
    assert w.Clock(c.ticks) <= w.Clock(asked.ticks);
    if w.Clock(asked.ticks) < plan.deadline {
      forall k | from <= k < |asked.log|
        ensures Spent(asked, plan.began, asked.log[k].id)
      {
        assert Spent(c, plan.began, c.log[k].id);
      }
    }
  }

  lemma LaterKeepsSpent(w: World, plan: Plan, c: Channel, from: nat)
    requires Steady(w) && AllSpent(w, plan, c, from)
    ensures AllSpent(w, plan, Read(c), from)
  {
    assert w.Clock(c.ticks) <= w.Clock(c.ticks + 1);
    if w.Clock(c.ticks + 1) < plan.deadline {
      forall k | from <= k < |Read(c).log|
        ensures Spent(Read(c), plan.began, Read(c).log[k].id)
      {
        assert Spent(c, plan.began, c.log[k].id);
      }
    }
  }

  lemma GoesOnKeepsSpent(w: World, settings: Settings, plan: Plan, c: Channel, region: Region, from: nat)
    requires Steady(w) && Tripping(settings) && plan.deadline == plan.began + settings.budget
    requires AllSpent(w, plan, c, from)
    ensures var (go, r) := GoesOn(w, settings, c, region, plan.deadline);
            AllSpent(w, plan, r, from) && (go ==> r.breakers[region].openedAt.None?)
  {
    AsksKeepsSpent(w, settings, plan, c, region, from);
    LaterKeepsSpent(w, plan, Asks(w, settings, c, region).1, from);
  }

  /** A row that fails pauses its region. */
  lemma SendsRowKeepsSpent(w: World, settings: Settings, plan: Plan, c: Channel, id: nat, region: Region, from: nat)
    requires Steady(w) && Tripping(settings) && AllSpent(w, plan, c, from) && plan.began <= w.Clock(c.ticks)
    requires id in c.rows && c.rows[id].region == region && from <= |c.log|
    requires BreakerOf(c, region).openedAt.None?
    ensures AllSpent(w, plan, SendsRow(w, settings, c, id, region), from)
  {
    SendsRowDoes(w, settings, c, id, region);
    var r := SendsRow(w, settings, c, id, region);
    assert w.Clock(c.ticks) <= w.Clock(r.ticks);
    if w.Clock(r.ticks) < plan.deadline {
      forall k | from <= k < |r.log|
        ensures Spent(r, plan.began, r.log[k].id)
      {
        if r.log[k].id != id {
          assert r.log[k] == c.log[k];
          assert Spent(c, plan.began, c.log[k].id);
        }
      }
    }
  }

  lemma NextRowKeepsSpent(
    w: World, settings: Settings, plan: Plan, c: Channel, s: Sending, id: nat, region: Region, from: nat)
    requires Steady(w) && Tripping(settings) && plan.deadline == plan.began + settings.budget
    requires AllSpent(w, plan, s.channel, from) && plan.began <= w.Clock(c.ticks) && from <= |c.log|
    requires Next(w, c, s, id, region)
    ensures AllSpent(w, plan, NextRow(w, settings, s, id, region, plan.deadline).channel, from)
  {
    if !s.stopped {
      GoesOnKeepsSpent(w, settings, plan, s.channel, region, from);
      GoesOnKeeps(w, settings, s.channel, region, plan.deadline);
      var (go, checked) := GoesOn(w, settings, s.channel, region, plan.deadline);
      assert w.Clock(s.channel.ticks) <= w.Clock(checked.ticks);
      if go {
        SendsRowKeepsSpent(w, settings, plan, checked, id, region, from);
      }
    }
  }

  lemma SendsUpToKeepsSpent(
    w: World, settings: Settings, plan: Plan, c: Channel, batch: seq<nat>, region: Region, from: nat, q: int)
    requires Steady(w) && Tripping(settings) && plan.deadline == plan.began + settings.budget
    requires AllSpent(w, plan, c, from) && plan.began <= w.Clock(c.ticks) && from <= |c.log|
    requires Fetched(c.rows, batch, q) && forall j :: 0 <= j < |batch| ==> c.rows[batch[j]].region == region
    ensures AllSpent(w, plan, SendsUpTo(w, settings, c, batch, region, plan.deadline, |batch|).channel, from)
  {
    var all := seq(|batch| + 1, j requires 0 <= j <= |batch| => SendsUpTo(w, settings, c, batch, region, plan.deadline, j));
    forall j | 0 <= j < |batch|
      ensures StepsTo(w, settings, plan, c, all[j], all[j + 1], batch[j], region)
    {
      NextIsThere(w, settings, c, batch, region, plan.deadline, j, q);
    }
    SpentAlong(w, settings, plan, c, batch, region, all, |batch|, from);
  }

  ghost predicate StepsTo(
    w: World, settings: Settings, plan: Plan, c: Channel, s: Sending, r: Sending, id: nat, region: Region)
  {
    Next(w, c, s, id, region) && r == NextRow(w, settings, s, id, region, plan.deadline)
  }

  lemma {:induction false} SpentAlong(
    w: World, settings: Settings, plan: Plan, c: Channel, batch: seq<nat>, region: Region, all: seq<Sending>, i: nat,
    from: nat)
    requires Steady(w) && Tripping(settings) && plan.deadline == plan.began + settings.budget
    requires AllSpent(w, plan, c, from) && plan.began <= w.Clock(c.ticks) && from <= |c.log|
    requires |all| == |batch| + 1 && all[0] == Sending(false, c) && i <= |batch|
    requires forall j :: 0 <= j < |batch| ==> StepsTo(w, settings, plan, c, all[j], all[j + 1], batch[j], region)
    ensures AllSpent(w, plan, all[i].channel, from)
  {
    if i > 0 {
      SpentAlong(w, settings, plan, c, batch, region, all, i - 1, from);
      assert StepsTo(w, settings, plan, c, all[i - 1], all[i], batch[i - 1], region);
      NextRowKeepsSpent(w, settings, plan, c, all[i - 1], batch[i - 1], region, from);
    }
  }

  /** A send from `c` under way, with a row of the region to come. */
  ghost predicate Next(w: World, c: Channel, s: Sending, id: nat, region: Region) {
    && (!s.stopped ==> id in s.channel.rows && s.channel.rows[id].region == region)
    && w.Clock(c.ticks) <= w.Clock(s.channel.ticks) && |c.log| <= |s.channel.log|
  }

  lemma NextIsThere(
    w: World, settings: Settings, c: Channel, batch: seq<nat>, region: Region, deadline: int, i: nat, q: int)
    requires Steady(w) && i < |batch| && Fetched(c.rows, batch, q) && c.rows[batch[i]].region == region
    ensures Next(w, c, SendsUpTo(w, settings, c, batch, region, deadline, i), batch[i], region)
  {
    var s := SendsUpTo(w, settings, c, batch, region, deadline, i);
    var floor := w.Clock(c.ticks) + FirstWait(settings);
    SendsUpToDone(w, settings, c, batch, region, deadline, i, floor, q);
    if !s.stopped {
      StillThere(w, c, s.channel, batch, i, region, floor, q);
    }
    assert w.Clock(c.ticks) <= w.Clock(s.channel.ticks);
  }

  /** The next row of the batch is as it was fetched. */
  lemma StillThere(w: World, c: Channel, d: Channel, batch: seq<nat>, m: nat, region: Region, floor: int, q: int)
    requires SentSome(w, c, d, batch, m, region, floor, q) && m < |batch| && Fetched(c.rows, batch, q)
    ensures batch[m] in d.rows && d.rows[batch[m]] == c.rows[batch[m]]
  {
    assert !WasTried(d.log, |c.log|, batch[m]) by {
      assert forall k :: |c.log| <= k < |d.log| ==> TriedInTurn(w, c, d.log[k], batch, k);
    }
    UntriedIsUntouched(c.rows, c.log, d.rows, d.log, batch[m]);
  }

  // ------------------------------------------------------------------ at most once

  ghost predicate OnceSoFar(w: World, settings: Settings, plan: Plan, c0: Channel, c: Channel) {
    && Drained(w, settings, plan, c0, c)
    && DistinctFrom(c.log, |c0.log|)
    && (Tripping(settings) ==> AllSpent(w, plan, c, |c0.log|))
  }

  /** With rows sent one by one, a send that tries something has a check after the query. */
  lemma TriedBeforeDeadline(
    w: World, settings: Settings, c: Channel, batch: seq<nat>, region: Region, deadline: int)
    requires Steady(w) && c.ticks > 0 && !settings.batches && batch != []
    requires |Sends(w, settings, c, batch, region, deadline).log| > |c.log|
    ensures QueryTime(w, c) < deadline
  {
    assert SendsUpTo(w, settings, c, batch, region, deadline, 0) == Sending(false, c);
    GoesOnKeeps(w, settings, c, region, deadline);
    var (open, asked) := Asks(w, settings, c, region);
    if SendsUpTo(w, settings, c, batch, region, deadline, 1).stopped {
      StoppedStays(w, settings, c, batch, region, deadline, 1, |batch|);
      assert false;
    } else {
      assert QueryInPlace(w, c.ticks - 1);
      assert w.Clock(c.ticks) <= w.Clock(asked.ticks);
    }
  }

  /** The query of a send that tries something comes before any row tried earlier is due again. */
  lemma QueryBeforeFloor(
    w: World, settings: Settings, lag: nat, plan: Plan, c: Channel, batch: seq<nat>, region: Region)
    requires Steady(w) && Prompt(w, lag) && Harmless(settings, lag) && !Tripping(settings)
    requires plan.deadline == plan.began + settings.budget && plan.began <= w.Clock(c.ticks)
    requires batch != []
    requires var (go, checked) := GoesOn(w, settings, c, region, plan.deadline);
             go && |Sends(w, settings, checked, batch, region, plan.deadline).log| > |checked.log|
    ensures QueryTime(w, GoesOn(w, settings, c, region, plan.deadline).1) < Floor(settings, plan)
  {
    var checked := GoesOn(w, settings, c, region, plan.deadline).1;
    var check := checked.ticks - 1;
    assert w.Clock(c.ticks) <= w.Clock(check) < plan.deadline;
    if settings.batches {
      assert w.Query(check) - w.Clock(check) <= lag;
    } else {
      TriedBeforeDeadline(w, settings, checked, batch, region, plan.deadline);
    }
  }

  /** A row tried before is not due in a region that the breaker lets through, when a failure pauses its region. */
  lemma SpentIsNotDue(w: World, settings: Settings, plan: Plan, c: Channel, region: Region, from: nat, k: nat, q: int)
    requires Steady(w) && Tripping(settings) && plan.deadline == plan.began + settings.budget
    requires AllSpent(w, plan, c, from) && from <= k < |c.log| && GoesOn(w, settings, c, region, plan.deadline).0
    ensures c.log[k].id !in Due(c.rows, region, q)
  {
    assert w.Clock(c.ticks) <= w.Clock(c.ticks + 1) < plan.deadline;
    assert Spent(c, plan.began, c.log[k].id);
  }

  /** No row that was tried before is in the batch of a send that tries something. */
  lemma TriedIsNotDue(
    w: World, settings: Settings, lag: nat, plan: Plan, c0: Channel, c: Channel, batch: seq<nat>, region: Region, k: nat)
    requires Steady(w) && Prompt(w, lag) && Harmless(settings, lag) && IsPlan(w, settings, c0, plan)
    requires OnceSoFar(w, settings, plan, c0, c) && |c0.log| <= k < |c.log| && batch != []
    requires var (go, checked) := GoesOn(w, settings, c, region, plan.deadline);
             go && |Sends(w, settings, checked, batch, region, plan.deadline).log| > |checked.log|
    ensures var checked := GoesOn(w, settings, c, region, plan.deadline).1;
            c.log[k].id !in Due(checked.rows, region, QueryTime(w, checked))
  {
    GoesOnKeeps(w, settings, c, region, plan.deadline);
    var checked := GoesOn(w, settings, c, region, plan.deadline).1;
    if Tripping(settings) {
      SpentIsNotDue(w, settings, plan, c, region, |c0.log|, k, QueryTime(w, checked));
    } else {
      BeganBefore(w, settings, plan, c0, c);
      QueryBeforeFloor(w, settings, lag, plan, c, batch, region);
      assert Resting(c.rows, c.log[k].id, Floor(settings, plan));
    }
  }

  /** The rows a turn tries are new. */
  lemma TurnTriesNewRows(
    w: World, settings: Settings, lag: nat, plan: Plan, c0: Channel, c: Channel, batch: seq<nat>, region: Region)
    requires Steady(w) && Prompt(w, lag) && Harmless(settings, lag) && IsPlan(w, settings, c0, plan)
    requires OnceSoFar(w, settings, plan, c0, c) && GoesOn(w, settings, c, region, plan.deadline).0 && batch != []
    requires var checked := GoesOn(w, settings, c, region, plan.deadline).1;
             IsBatch(checked.rows, Due(checked.rows, region, QueryTime(w, checked)), batch)
    ensures var checked := GoesOn(w, settings, c, region, plan.deadline).1;
            DistinctFrom(Sends(w, settings, checked, batch, region, plan.deadline).log, |c0.log|)
  {
    var checked := GoesOn(w, settings, c, region, plan.deadline).1;
    GoesOnKeeps(w, settings, c, region, plan.deadline);
    BeganBefore(w, settings, plan, c0, checked);
    TurnSends(w, settings, plan, checked, batch, region, Floor(settings, plan));
    var r := Sends(w, settings, checked, batch, region, plan.deadline);
    if |r.log| > |checked.log| {
      forall k | |c0.log| <= k < |c.log|
        ensures c.log[k].id !in Due(checked.rows, region, QueryTime(w, checked))
      {
        TriedIsNotDue(w, settings, lag, plan, c0, c, batch, region, k);
      }
      DistinctMore(checked.log, r.log, |c0.log|, Due(checked.rows, region, QueryTime(w, checked)));
    } else {
      assert r.log == checked.log;
    }
  }

  lemma TurnKeepsSpent(
    w: World, settings: Settings, plan: Plan, c0: Channel, c: Channel, batch: seq<nat>, region: Region)
    requires Steady(w) && Tripping(settings) && IsPlan(w, settings, c0, plan)
    requires c0.ticks < c.ticks && c0.log <= c.log && AllSpent(w, plan, c, |c0.log|)
    requires var checked := GoesOn(w, settings, c, region, plan.deadline).1;
             IsBatch(checked.rows, Due(checked.rows, region, QueryTime(w, checked)), batch)
    ensures var checked := GoesOn(w, settings, c, region, plan.deadline).1;
            AllSpent(w, plan, Sends(w, settings, checked, batch, region, plan.deadline), |c0.log|)
  {
    var checked := GoesOn(w, settings, c, region, plan.deadline).1;
    GoesOnKeeps(w, settings, c, region, plan.deadline);
    GoesOnKeepsSpent(w, settings, plan, c, region, |c0.log|);
    BeganBefore(w, settings, plan, c0, checked);
    assert Fetched(checked.rows, batch, QueryTime(w, checked));
    assert forall j :: 0 <= j < |batch| ==> checked.rows[batch[j]].region == region;
    SendsUpToKeepsSpent(w, settings, plan, checked, batch, region, |c0.log|, QueryTime(w, checked));
  }

  lemma TurnKeepsOnce(
    w: World, settings: Settings, lag: nat, plan: Plan, c0: Channel, i: nat, c: Channel, next: Stage)
    requires Steady(w) && Prompt(w, lag) && Harmless(settings, lag) && IsPlan(w, settings, c0, plan)
    requires OnceSoFar(w, settings, plan, c0, c) && Turns(w, settings, plan, i, c, next)
    ensures OnceSoFar(w, settings, plan, c0, next.channel)
  {
    TurnKeepsDrained(w, settings, plan, c0, i, c, next);
    var region := plan.regions[i];
    var (go, checked) := GoesOn(w, settings, c, region, plan.deadline);
    GoesOnKeeps(w, settings, c, region, plan.deadline);
    if Tripping(settings) {
      GoesOnKeepsSpent(w, settings, plan, c, region, |c0.log|);
    }
    if next.place.Inside? {
      var batch :| IsBatch(checked.rows, Due(checked.rows, region, QueryTime(w, checked)), batch) &&
        next == AfterTurn(w, settings, plan, i, c, batch);
      TurnTriesNewRows(w, settings, lag, plan, c0, c, batch, region);
      if Tripping(settings) {
        TurnKeepsSpent(w, settings, plan, c0, c, batch, region);
      }
    }
  }

  lemma VisitKeepsOnce(w: World, settings: Settings, plan: Plan, c0: Channel, i: nat, c: Channel)
    requires Steady(w) && IsPlan(w, settings, c0, plan) && OnceSoFar(w, settings, plan, c0, c)
    ensures OnceSoFar(w, settings, plan, c0, Visits(w, settings, plan, i, c).channel)
  {
    VisitKeeps(w, settings, plan, i, c);
    QuietMoveKeepsDrained(w, settings, plan, c0, c, Visits(w, settings, plan, i, c).channel);
    if Tripping(settings) {
      LaterKeepsSpent(w, plan, c, |c0.log|);
      if i < |plan.regions| {
        AsksKeepsSpent(w, settings, plan, Read(c), plan.regions[i], |c0.log|);
      }
    }
  }

  lemma {:induction false} PathTriesOnce(
    w: World, settings: Settings, lag: nat, plan: Plan, c0: Channel, path: seq<Stage>, k: nat)
    requires Steady(w) && Prompt(w, lag) && Harmless(settings, lag)
    requires IsPath(w, settings, plan, c0, path) && k < |path|
    ensures OnceSoFar(w, settings, plan, c0, path[k].channel)
  {
    if k == 0 {
      StartIsDrained(w, settings, plan, c0);
    } else {
      PathTriesOnce(w, settings, lag, plan, c0, path, k - 1);
      assert MoveAt(w, settings, plan, path, k);
      if Inserts(path[k - 1], path[k]) {
        InsertsKeepsOnce(w, settings, plan, c0, path[k - 1], path[k]);
      } else {
        MoveKeepsOnce(w, settings, lag, plan, c0, path[k - 1], path[k]);
      }
    }
  }

  lemma MoveKeepsOnce(w: World, settings: Settings, lag: nat, plan: Plan, c0: Channel, s: Stage, next: Stage)
    requires Steady(w) && Prompt(w, lag) && Harmless(settings, lag) && IsPlan(w, settings, c0, plan)
    requires OnceSoFar(w, settings, plan, c0, s.channel) && Move(w, settings, plan, s, next)
    ensures OnceSoFar(w, settings, plan, c0, next.channel)
  {
    match s.place
    case Before(i) => VisitKeepsOnce(w, settings, plan, c0, i, s.channel);
    case Inside(i) => TurnKeepsOnce(w, settings, lag, plan, c0, i, s.channel, next);
  }

  lemma InsertsKeepsOnce(w: World, settings: Settings, plan: Plan, c0: Channel, s: Stage, next: Stage)
    requires OnceSoFar(w, settings, plan, c0, s.channel) && Inserts(s, next)
    ensures OnceSoFar(w, settings, plan, c0, next.channel)
  {
    InsertsKeepsDrained(w, settings, plan, c0, s, next);
    var id, row := InsertedRow(s, next);
    if Tripping(settings) && w.Clock(s.channel.ticks) < plan.deadline {
      forall k | |c0.log| <= k < |next.channel.log|
        ensures Spent(next.channel, plan.began, next.channel.log[k].id)
      {
        assert Spent(s.channel, plan.began, s.channel.log[k].id);
      }
    }
  }

  // ------------------------------------------------------------------ and twice otherwise

  /** A clock that stands at 0, then just before the deadline, then past every query. */
  function Jumps(first: nat, second: nat, budget: int, lag: nat): nat -> int {
    (n: nat) => if n <= first then 0 else if n <= second then budget - 1 else budget + lag
  }

  /** Queries are made at the reading before them, except the one after reading `second`. */
  function LateQuery(first: nat, second: nat, budget: int, lag: nat): nat -> int {
    (n: nat) => if n == second then budget - 1 + lag else Jumps(first, second, budget, lag)(n)
  }

  function Never(): nat -> bool {
    (n: nat) => false
  }

  function OnlySecond(): nat -> set<nat> {
    (n: nat) => {1}
  }

  function AlwaysRetryable(): nat -> Answer {
    (n: nat) => Retryable
  }

  /** A process that is held up twice: before the second check of its budget, and between that check and the query. */
  function SlowWorld(first: nat, second: nat, budget: int, lag: nat): World {
    World(Jumps(first, second, budget, lag), LateQuery(first, second, budget, lag), Never(), OnlySecond(),
          AlwaysRetryable())
  }

  lemma SlowWorldIsSteady(first: nat, second: nat, budget: int, lag: nat)
    requires first < second && budget >= 1
    ensures Steady(SlowWorld(first, second, budget, lag)) && Prompt(SlowWorld(first, second, budget, lag), lag)
  {
  }

  function FreshRow(created: int): Row {
    Row(None, created, 0, 0, false)
  }

  /** One new row, and a second one when rows are sent in batches. */
  function NewRows(batches: bool): Table {
    if batches then map[0 := FreshRow(0), 1 := FreshRow(1)] else map[0 := FreshRow(0)]
  }

  function NewBatch(batches: bool): seq<nat> {
    if batches then [0, 1] else [0]
  }

  function FreshChannel(batches: bool): Channel {
    Channel(NewRows(batches), map[], map[], [], [], 0)
  }

  function SlowPlan(budget: int): Plan {
    Plan(0, budget, 0, [None])
  }

  lemma NewRowsAreDue(batches: bool)
    ensures IsBatch(NewRows(batches), Due(NewRows(batches), None, 0), NewBatch(batches))
    ensures Pending(NewRows(batches), 0, [None])
  {
    var rows := NewRows(batches);
    var due := Due(rows, None, 0);
    assert due == if batches then {0, 1} else {0};
    assert batches ==> [0, 1][..1] == [0] && FirstOf(rows, 0, 1);
    assert forall r :: r != None ==> Due(rows, r, 0) == {};
    assert 0 in due && Oldest(rows, due, 0);
    assert InAgeOrder(rows, 0, [None], [0]);
  }

  /** The checks of a region whose breaker does not hold it back, at a moment before the deadline. */
  lemma ChecksPass(w: World, settings: Settings, c: Channel, deadline: int)
    requires !w.Killed(c.ticks + 1) && w.Clock(c.ticks + 1) < deadline
    requires !IsOpen(BreakerOf(c, None), w.Clock(c.ticks), settings.breaker.pause)
    ensures var (go, r) := GoesOn(w, settings, c, None, deadline);
            && go && r.rows == c.rows && r.log == c.log && r.sent == c.sent && r.ticks == c.ticks + 2
            && BreakerOf(r, None).openedAt.None?
            && (BreakerOf(c, None).openedAt.None? ==> BreakerOf(r, None).failures == BreakerOf(c, None).failures)
  {
  }

  /** A send that tries the first row at 0 and keeps it for the first wait, and lets the checks pass later. */
  ghost predicate KeptFirst(settings: Settings, c: Channel, ticks: nat) {
    && c.rows == map[0 := FreshRow(0).(attempts := 1, due := FirstWait(settings))]
    && |c.log| >= 1 && c.log[0].id == 0
    && c.ticks == ticks
    && !IsOpen(BreakerOf(c, None), settings.budget - 1, settings.breaker.pause)
  }

  lemma FirstBatch(settings: Settings, lag: nat, c: Channel)
    requires settings.batches && settings.budget >= 1
    requires c.rows == NewRows(true) && c.log == [] && c.sent == [] && c.ticks == 5 && BreakerOf(c, None).openedAt.None?
    ensures KeptFirst(settings, SendsBatch(SlowWorld(6, 8, settings.budget, lag), settings, c, [0, 1], None), 7)
  {
    var w := SlowWorld(6, 8, settings.budget, lag);
    SendsBatchWrites(w, settings, c, [0, 1], None);
    var attempts := BatchAttempts(settings, c.rows, w.Delivery(0), 0, w.Clock(6), [0, 1]);
    assert attempts == [Attempt(0, Kept(FirstWait(settings)), 0), Attempt(1, Confirmed, 0)];
    assert attempts == [attempts[0]] + [attempts[1]];
    ReplayConcat(c.rows, [attempts[0]], [attempts[1]]);
    ReplayOne(c.rows, attempts[0]);
    ReplayOne(Attempted(c.rows, attempts[0]), attempts[1]);
    assert SomeDelivered([0, 1], w.Delivery(0)) by {
      assert [0, 1][1] in w.Delivery(0);
    }
  }

  lemma FirstRowAlone(settings: Settings, lag: nat, c: Channel)
    requires !settings.batches && settings.budget >= 1 && !Tripping(settings)
    requires c.rows == NewRows(false) && c.log == [] && c.sent == [] && c.ticks == 5
    requires BreakerOf(c, None) == CLOSED
    ensures var w := SlowWorld(8, 12, settings.budget, lag);
            KeptFirst(settings, SendsUpTo(w, settings, c, [0], None, settings.budget, 1).channel, 9)
  {
    var w := SlowWorld(8, 12, settings.budget, lag);
    ChecksPass(w, settings, c, settings.budget);
    var (go, checked) := GoesOn(w, settings, c, None, settings.budget);
    SlowWorldIsSteady(8, 12, settings.budget, lag);
    SendsRowDoes(w, settings, checked, 0, None);
    assert SendsUpTo(w, settings, c, [0], None, settings.budget, 0) == Sending(false, c);
  }

  /** The world in which these Config entries let a row be tried twice. */
  function BadWorld(settings: Settings, lag: nat): World {
    if settings.batches then SlowWorld(6, 8, settings.budget, lag) else SlowWorld(8, 12, settings.budget, lag)
  }

  /** The first turn: the row is tried at 0 and kept for the first wait. */
  lemma FirstTurn(settings: Settings, lag: nat) returns (entered: Stage, next: Stage)
    requires !Harmless(settings, lag)
    ensures var w, plan := BadWorld(settings, lag), SlowPlan(settings.budget);
            && Move(w, settings, plan, Stage(Before(0), Read(FreshChannel(settings.batches))), entered)
            && Move(w, settings, plan, entered, next)
            && next.place == Inside(0)
            && KeptFirst(settings, next.channel, if settings.batches then 7 else 9)
  {
    var w, plan := BadWorld(settings, lag), SlowPlan(settings.budget);
    var c := FreshChannel(settings.batches);
    entered := Visits(w, settings, plan, 0, Read(c));
    ChecksPass(w, settings, entered.channel, settings.budget);
    var checked := GoesOn(w, settings, entered.channel, None, settings.budget).1;
    var batch := NewBatch(settings.batches);
    NewRowsAreDue(settings.batches);
    assert QueryTime(w, checked) == 0;
    next := Stage(Inside(0), Sends(w, settings, checked, batch, None, settings.budget));
    if settings.batches {
      FirstBatch(settings, lag, checked);
    } else {
      FirstRowAlone(settings, lag, checked);
    }
  }

  /** The second turn: the query finds the row due again, and it is tried again. */
  lemma SecondTurn(settings: Settings, lag: nat, c: Channel) returns (next: Stage)
    requires !Harmless(settings, lag) && KeptFirst(settings, c, if settings.batches then 7 else 9)
    ensures Move(BadWorld(settings, lag), settings, SlowPlan(settings.budget), Stage(Inside(0), c), next)
    ensures next.place == Inside(0) && !DistinctFrom(next.channel.log, 0)
    ensures next.channel.ticks > if settings.batches then 8 else 12
  {
    var w, plan := BadWorld(settings, lag), SlowPlan(settings.budget);
    ChecksPass(w, settings, c, settings.budget);
    var checked := GoesOn(w, settings, c, None, settings.budget).1;
    assert Due(checked.rows, None, QueryTime(w, checked)) == {0};
    assert IsBatch(checked.rows, {0}, [0]);
    next := Stage(Inside(0), Sends(w, settings, checked, [0], None, settings.budget));
    SecondSend(settings, lag, checked);
    assert next.channel.log[0].id == next.channel.log[|c.log|].id;
  }

  lemma SecondSend(settings: Settings, lag: nat, c: Channel)
    requires settings.budget >= 1 && c.ticks == (if settings.batches then 9 else 11) && BreakerOf(c, None).openedAt.None?
    ensures var r := Sends(BadWorld(settings, lag), settings, c, [0], None, settings.budget);
            c.log < r.log && r.log[|c.log|].id == 0 && r.ticks > if settings.batches then 8 else 12
  {
    var w := BadWorld(settings, lag);
    SlowWorldIsSteady(if settings.batches then 6 else 8, if settings.batches then 8 else 12, settings.budget, lag);
    if settings.batches {
      SendsBatchWrites(w, settings, c, [0], None);
    } else {
      ChecksPass(w, settings, c, settings.budget);
      var sending := GoesOn(w, settings, c, None, settings.budget).1;
      SendsRowDoes(w, settings, sending, 0, None);
      assert SendsUpTo(w, settings, c, [0], None, settings.budget, 0) == Sending(false, c);
      assert SendsUpTo(w, settings, c, [0], None, settings.budget, 1) ==
             Sending(false, SendsRow(w, settings, sending, 0, None));
    }
  }

  /** After the deadline the drain ends. */
  lemma DrainEnds(settings: Settings, lag: nat, c: Channel) returns (left: Stage, over: Stage)
    requires c.ticks > if settings.batches then 8 else 12
    ensures var w, plan := BadWorld(settings, lag), SlowPlan(settings.budget);
            && Move(w, settings, plan, Stage(Inside(0), c), left) && Move(w, settings, plan, left, over)
            && over.place.Over? && over.channel.log == c.log
  {
    var w, plan := BadWorld(settings, lag), SlowPlan(settings.budget);
    GoesOnKeeps(w, settings, c, None, settings.budget);
    left := Stage(Before(1), GoesOn(w, settings, c, None, settings.budget).1);
    over := Visits(w, settings, plan, 1, left.channel);
  }

  lemma BadStart(settings: Settings, lag: nat)
    requires settings.budget >= 1
    ensures Steady(BadWorld(settings, lag)) && Prompt(BadWorld(settings, lag), lag)
    ensures IsPlan(BadWorld(settings, lag), settings, FreshChannel(settings.batches), SlowPlan(settings.budget))
  {
    SlowWorldIsSteady(if settings.batches then 6 else 8, if settings.batches then 8 else 12, settings.budget, lag);
    NewRowsAreDue(settings.batches);
  }

  lemma OneTurn(settings: Settings, lag: nat) returns (path: seq<Stage>)
    requires !Harmless(settings, lag)
    ensures IsPath(BadWorld(settings, lag), settings, SlowPlan(settings.budget), FreshChannel(settings.batches), path)
    ensures var last := path[|path| - 1];
            last == Stage(Inside(0), last.channel) && KeptFirst(settings, last.channel, if settings.batches then 7 else 9)
  {
    var w, plan, c0 := BadWorld(settings, lag), SlowPlan(settings.budget), FreshChannel(settings.batches);
    BadStart(settings, lag);
    var entered, first := FirstTurn(settings, lag);
    PathStarts(w, settings, plan, c0);
    path := [Stage(Before(0), Read(c0))];
    PathGoesOn(w, settings, plan, c0, path, entered);
    path := path + [entered];
    PathGoesOn(w, settings, plan, c0, path, first);
    path := path + [first];
  }

  lemma TwoTurns(settings: Settings, lag: nat) returns (path: seq<Stage>)
    requires !Harmless(settings, lag)
    ensures IsPath(BadWorld(settings, lag), settings, SlowPlan(settings.budget), FreshChannel(settings.batches), path)
    ensures var last := path[|path| - 1];
            && last == Stage(Inside(0), last.channel) && !DistinctFrom(last.channel.log, 0)
            && last.channel.ticks > if settings.batches then 8 else 12
  {
    path := OneTurn(settings, lag);
    var next := SecondTurn(settings, lag, path[|path| - 1].channel);
    PathGoesOn(BadWorld(settings, lag), settings, SlowPlan(settings.budget), FreshChannel(settings.batches), path, next);
    path := path + [next];
  }

  /** A whole drain, of a prompt process, that tries a row twice. */
  lemma SomeDrainRepeats(settings: Settings, lag: nat) returns (w: World, plan: Plan, c0: Channel, path: seq<Stage>)
    requires !Harmless(settings, lag)
    ensures Steady(w) && Prompt(w, lag) && IsDrain(w, settings, plan, c0, path)
    ensures !DistinctFrom(path[|path| - 1].channel.log, |c0.log|)
  {
    BadStart(settings, lag);
    w, plan, c0 := BadWorld(settings, lag), SlowPlan(settings.budget), FreshChannel(settings.batches);
    path := TwoTurns(settings, lag);
    var left, over := DrainEnds(settings, lag, path[|path| - 1].channel);
    PathGoesOn(w, settings, plan, c0, path, left);
    path := path + [left];
    PathGoesOn(w, settings, plan, c0, path, over);
    path := path + [over];
  }

  /** Every drain of every prompt process tries every row at most once. */
  ghost predicate TriesOnce(settings: Settings, lag: nat) {
    forall w, plan, c0, path: seq<Stage> :: Steady(w) && Prompt(w, lag) && IsDrain(w, settings, plan, c0, path) ==>
      DistinctFrom(path[|path| - 1].channel.log, |c0.log|)
  }

  /** Exactly when one drain makes at most one attempt per row: a condition on the Config entries alone. */
  lemma TriesOnceExactlyWhen(settings: Settings, lag: nat)
    ensures TriesOnce(settings, lag) <==> Harmless(settings, lag)
  {
    if Harmless(settings, lag) {
      forall w, plan, c0, path: seq<Stage> | Steady(w) && Prompt(w, lag) && IsDrain(w, settings, plan, c0, path)
        ensures DistinctFrom(path[|path| - 1].channel.log, |c0.log|)
      {
        PathTriesOnce(w, settings, lag, plan, c0, path, |path| - 1);
      }
    } else {
      var w, plan, c0, path := SomeDrainRepeats(settings, lag);
      assert !DistinctFrom(path[|path| - 1].channel.log, |c0.log|);
    }
  }
}
