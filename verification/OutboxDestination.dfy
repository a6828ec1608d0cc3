/**
 * `Destination` (`gateway/scheduler/tasks/outbox_destination.py`), updating its rows and its breakers in place. Each
 * method is proved to be the step of `OutboxSteps` that the theorems about drains speak of.
 */
module OutboxDestination {
  import opened Collections
  import opened Wrappers
  import opened OutboxModel
  import opened OutboxDrain
  import opened OutboxSteps
  import opened OutboxBreakers
  import opened CircuitBreaker

  class Destination {
    const world: World
    const settings: Settings
    var rows: Table
    var breakers: map<Region, Breaker>
    /** Every attempt and every call to the sender so far, and how many times the clock was read. */
    var log: seq<Attempt>
    var sent: seq<seq<nat>>
    var ticks: nat
    /** What every breaker was asked and told. */
    ghost var uses: map<Region, seq<Use>>

    ghost function Now(): Channel
      reads this
    {
      Channel(rows, breakers, uses, log, sent, ticks)
    }

    constructor (world: World, settings: Settings, rows: Table)
      ensures this.world == world && this.settings == settings
      ensures Now() == Channel(rows, map[], map[], [], [], 0)
    {
      this.world, this.settings, this.rows := world, settings, rows;
      breakers, uses, log, sent, ticks := map[], map[], [], [], 0;
    }

    method ReadClock() returns (t: int)
      modifies this`ticks
      ensures t == world.Clock(old(ticks)) && Now() == Read(old(Now()))
    {
      t := world.Clock(ticks);
      ticks := ticks + 1;
    }

    /** `get_breaker(region).is_open`, with the breaker made on demand. */
    method AskBreaker(region: Region) returns (open: bool)
      modifies this`ticks, this`breakers, this`uses
      ensures (open, Now()) == Asks(world, settings, old(Now()), region)
    {
      ghost var history := UsesOf(Now(), region);
      var b := if region in breakers then breakers[region] else CLOSED;
      var now := ReadClock();
      var (answer, after) := Check(b, now, settings.breaker.pause);
      open := answer;
      breakers := breakers[region := after];
      uses := uses[region := history + [Asked(now)]];
    }

    /** `record_success` and `record_failure`. */
    method Tell(region: Region, success: bool)
      modifies this`ticks, this`breakers, this`uses
      ensures Now() == Tells(world, settings, old(Now()), region, success)
    {
      ghost var history := UsesOf(Now(), region);
      var b := if region in breakers then breakers[region] else CLOSED;
      var now := ReadClock();
      if success {
        breakers := breakers[region := RecordSuccess(b)];
        uses := uses[region := history + [Succeeded(now)]];
      } else {
        breakers := breakers[region := RecordFailure(b, now, settings.breaker.threshold)];
        uses := uses[region := history + [Failed(now)]];
      }
    }

    /** `_should_continue_draining`. */
    method ShouldContinue(deadline: int) returns (go: bool)
      modifies this`ticks
      ensures go == Continues(world, old(Now()), deadline) && Now() == Read(old(Now()))
    {
      var killed := world.Killed(ticks);
      var now := ReadClock();
      go := !killed && now < deadline;
    }

    /** The two checks before every batch and before every row. */
    method MayGoOn(region: Region, deadline: int) returns (go: bool)
      modifies this`ticks, this`breakers, this`uses
      ensures (go, Now()) == GoesOn(world, settings, old(Now()), region, deadline)
    {
      var open := AskBreaker(region);
      if open {
        return false;
      }
      go := ShouldContinue(deadline);
    }

    /** What the sender answered, written to the row. */
    method Note(a: Attempt)
      modifies this`rows, this`log
      ensures Now() == Noted(old(Now()), [a]) && rows == Attempted(old(rows), a)
    {
      ReplayOne(rows, a);
      rows := Attempted(rows, a);
      log := log + [a];
    }

    /** `_send_batch`: one round trip and one record, then the confirmed rows are deleted and the others wait. */
    method SendBatch(batch: seq<nat>, region: Region)
      modifies this
      ensures Now() == SendsBatch(world, settings, old(Now()), batch, region)
    {
      var send, was := |sent|, rows;
      var delivered := world.Delivery(send);
      sent := sent + [batch];
      Tell(region, exists i :: 0 <= i < |batch| && batch[i] in delivered);
      var now := ReadClock();
      ghost var told := Now();
      ghost var attempts := BatchAttempts(settings, was, delivered, send, now, batch);
      for i := 0 to |batch|
        invariant Now() == Noted(told, attempts[..i])
      {
        var id := batch[i];
        assert attempts[i] == BatchAttempt(settings, was, delivered, send, now, id);
        NotedMore(told, attempts, i);
        if id in delivered {
          Note(Attempt(id, Confirmed, send));
        } else {
          Note(Attempt(id, KeptAt(settings, was, id, now), send));
        }
      }
      assert attempts[..|batch|] == attempts;
    }

    /** One `send` of `_send_one_by_one`, its answer recorded and written. */
    method SendRow(id: nat, region: Region)
      modifies this
      ensures Now() == SendsRow(world, settings, old(Now()), id, region)
    {
      var send := |sent|;
      sent := sent + [[id]];
      match world.AnswerOf(send)
      case Delivered =>
        Tell(region, true);
        Note(Attempt(id, Confirmed, send));
      case Retryable =>
        Tell(region, false);
        var now := ReadClock();
        Note(Attempt(id, KeptAt(settings, rows, id, now), send));
      case Permanent =>
        Note(Attempt(id, Parked, send));
    }

    /** The checks before a row, and its send. */
    method TryRow(id: nat, region: Region, deadline: int) returns (stopped: bool)
      modifies this
      ensures Sending(stopped, Now()) == NextRow(world, settings, Sending(false, old(Now())), id, region, deadline)
    {
      var go := MayGoOn(region, deadline);
      if go {
        SendRow(id, region);
      }
      stopped := !go;
    }

    /** `_send_one_by_one`. */
    method SendOneByOne(batch: seq<nat>, region: Region, deadline: int)
      modifies this
      ensures Now() == SendsUpTo(world, settings, old(Now()), batch, region, deadline, |batch|).channel
    {
      ghost var c := Now();
      for i := 0 to |batch|
        invariant SendsUpTo(world, settings, c, batch, region, deadline, i) == Sending(false, Now())
      {
        ghost var before := Now();
        var stopped := TryRow(batch[i], region, deadline);
        RowTried(world, settings, c, batch, region, deadline, i, before, Sending(stopped, Now()));
        if stopped {
          return;
        }
      }
    }

    method Send(batch: seq<nat>, region: Region, deadline: int)
      modifies this
      ensures Now() == Sends(world, settings, old(Now()), batch, region, deadline)
    {
      if settings.batches {
        SendBatch(batch, region);
      } else {
        SendOneByOne(batch, region, deadline);
      }
    }

    /** One turn of the region loop: the checks, the query and the send. While time stands still it leaves fewer rows due. */
    method Turn(i: nat, region: Region, deadline: int, ghost plan: Plan) returns (more: bool)
      requires Steady(world) && i < |plan.regions| && region == plan.regions[i] && deadline == plan.deadline
      modifies this
      ensures Move(world, settings, plan, Stage(Inside(i), old(Now())), Stage(if more then Inside(i) else Before(i + 1), Now()))
      ensures more ==> Left(old(Now()), Now(), region, deadline)
    {
      ghost var c := Now();
      var go := MayGoOn(region, deadline);
      var batch := [];
      if go {
        batch := Fetch(rows, region, world.Query(ticks - 1));
      }
      TurnIsMove(world, settings, plan, i, c, batch);
      more := batch != [];
      if more {
        TurnShrinks(world, settings, c, batch, region, deadline);
        Send(batch, region, deadline);
      }
    }

    /** There was time left, and some of it was used or fewer rows are due, unless the kill signal came. */
    ghost predicate Left(c: Channel, r: Channel, region: Region, deadline: int) {
      && !world.Killed(c.ticks) && world.Clock(c.ticks) < deadline
      && world.Clock(c.ticks) <= world.Clock(r.ticks)
      && (!world.Killed(r.ticks) && world.Clock(r.ticks) == world.Clock(c.ticks) ==>
            |Due(r.rows, region, world.Clock(r.ticks))| < |Due(c.rows, region, world.Clock(c.ticks))|)
    }

    /** `_drain_region`: the loop of the `i`-th region goes on until a check stops it or nothing is due. */
    method DrainRegion(i: nat, region: Region, deadline: int, ghost plan: Plan, ghost c0: Channel, ghost before: seq<Stage>)
      returns (ghost path: seq<Stage>)
      requires Steady(world) && i < |plan.regions| && region == plan.regions[i] && deadline == plan.deadline
      requires IsPath(world, settings, plan, c0, before) && before[|before| - 1] == Stage(Inside(i), Now())
      modifies this
      ensures IsPath(world, settings, plan, c0, path) && path[|path| - 1] == Stage(Before(i + 1), Now())
    {
      path := before;
      var more := true;
      while more
        invariant IsPath(world, settings, plan, c0, path)
        invariant path[|path| - 1] == Stage(if more then Inside(i) else Before(i + 1), Now())
        decreases more, if world.Killed(ticks) then 0 else 1, deadline - world.Clock(ticks),
                  |Due(rows, region, world.Clock(ticks))|
      {
        more := Turn(i, region, deadline, plan);
        ghost var next := Stage(if more then Inside(i) else Before(i + 1), Now());
        PathGoesOn(world, settings, plan, c0, path, next);
        path := path + [next];
      }
    }

    /** The loop of `_drain` over the regions. */
    method VisitRegions(regions: seq<Region>, deadline: int, ghost plan: Plan, ghost c0: Channel)
      returns (ghost path: seq<Stage>)
      requires Steady(world) && regions == plan.regions && deadline == plan.deadline
      requires IsPlan(world, settings, c0, plan) && Now() == Read(c0)
      modifies this
      ensures IsDrain(world, settings, plan, c0, path) && path[|path| - 1].channel == Now()
    {
      PathStarts(world, settings, plan, c0);
      path := [Stage(Before(0), Now())];
      for i := 0 to |regions|
        invariant IsPath(world, settings, plan, c0, path) && path[|path| - 1] == Stage(Before(i), Now())
      {
        ghost var next := Visits(world, settings, plan, i, Now());
        PathGoesOn(world, settings, plan, c0, path, next);
        path := path + [next];
        var go := ShouldContinue(deadline);
        if !go {
          return;
        }
        var open := AskBreaker(regions[i]);
        if !open {
          path := DrainRegion(i, regions[i], deadline, plan, c0, path);
        }
      }
      ghost var over := Stage(Over, Now());
      PathGoesOn(world, settings, plan, c0, path, over);
      path := path + [over];
    }

    /** `_drain`: what it does is a drain of the step system, and it ends for every clock, kill signal and sender. */
    method Drain() returns (ghost plan: Plan, ghost path: seq<Stage>)
      requires Steady(world)
      modifies this
      ensures IsDrain(world, settings, plan, old(Now()), path) && path[|path| - 1].channel == Now()
    {
      ghost var c0 := Now();
      var began := ReadClock();
      var deadline := began + settings.budget;
      var now := world.Query(ticks - 1);
      var regions, firsts := PendingRegions(rows, now);
      plan := Plan(began, deadline, now, regions);
      path := VisitRegions(regions, deadline, plan, c0);
    }
  }

  /** One more row of a send, which is the last one tried if it stopped. */
  lemma RowTried(
    w: World, settings: Settings, c: Channel, batch: seq<nat>, region: Region, deadline: int, i: nat, before: Channel,
    after: Sending)
    requires i < |batch| && SendsUpTo(w, settings, c, batch, region, deadline, i) == Sending(false, before)
    requires after == NextRow(w, settings, Sending(false, before), batch[i], region, deadline)
    ensures SendsUpTo(w, settings, c, batch, region, deadline, i + 1) == after
    ensures after.stopped ==> SendsUpTo(w, settings, c, batch, region, deadline, |batch|) == after
  {
    if after.stopped {
      StoppedStays(w, settings, c, batch, region, deadline, i + 1, |batch|);
    }
  }

  lemma NotedMore(c: Channel, attempts: seq<Attempt>, i: nat)
    requires i < |attempts|
    ensures Noted(Noted(c, attempts[..i]), [attempts[i]]) == Noted(c, attempts[..i + 1])
  {
    assert attempts[..i + 1] == attempts[..i] + [attempts[i]];
    ReplayConcat(c.rows, attempts[..i], [attempts[i]]);
  }
}
