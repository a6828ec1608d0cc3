/**
 * The breakers of a drain against their histories, and the progress that every turn of the region loop makes.
 */
module OutboxBreakers {
  import opened Collections
  import opened Wrappers
  import opened OutboxModel
  import opened OutboxDrain
  import opened OutboxSteps
  import opened OutboxSends
  import opened OutboxPaths
  import opened CircuitBreaker

  /** Every breaker is what a disciplined history made of it. */
  ghost predicate BreakersOk(w: World, settings: Settings, c: Channel) {
    && c.breakers.Keys == c.uses.Keys
    && forall r :: r in c.breakers ==> Follows(c.breakers[r], c.uses[r], settings.breaker, w.Clock(c.ticks))
  }

  lemma NextKeepsBreakers(w: World, settings: Settings, c: Channel, region: Region, b: Breaker, use: Use)
    requires Steady(w) && BreakersOk(w, settings, c)
    requires Follows(b, UsesOf(c, region) + [use], settings.breaker, w.Clock(c.ticks))
    ensures BreakersOk(w, settings, WithBreaker(c, region, b, use))
  {
    var r := WithBreaker(c, region, b, use);
    LaterKeepsBreakers(w, settings, c, Read(c));
    assert w.Clock(c.ticks) <= w.Clock(r.ticks);
  }

  /** Time passes. */
  lemma LaterKeepsBreakers(w: World, settings: Settings, c: Channel, r: Channel)
    requires Steady(w) && BreakersOk(w, settings, c)
    requires r.breakers == c.breakers && r.uses == c.uses && c.ticks <= r.ticks
    ensures BreakersOk(w, settings, r)
  {
    assert w.Clock(c.ticks) <= w.Clock(r.ticks);
    forall region | region in r.breakers
      ensures Follows(r.breakers[region], r.uses[region], settings.breaker, w.Clock(r.ticks))
    {
      assert Follows(c.breakers[region], c.uses[region], settings.breaker, w.Clock(c.ticks));
    }
  }

  lemma BreakerFollows(w: World, settings: Settings, c: Channel, region: Region)
    requires BreakersOk(w, settings, c)
    ensures Follows(BreakerOf(c, region), UsesOf(c, region), settings.breaker, w.Clock(c.ticks))
  {
  }

  lemma AsksKeepsBreakers(w: World, settings: Settings, c: Channel, region: Region)
    requires Steady(w) && BreakersOk(w, settings, c)
    ensures var (open, asked) := Asks(w, settings, c, region);
            && BreakersOk(w, settings, asked)
            && (open <==> Pausing(UsesOf(c, region), settings.breaker, w.Clock(c.ticks)))
            && (!open ==> Cleared(UsesOf(asked, region), settings.breaker))
  {
    var now := w.Clock(c.ticks);
    BreakerFollows(w, settings, c, region);
    AskedFollows(BreakerOf(c, region), UsesOf(c, region), settings.breaker, now, now);
    OpenExactlyWhilePausing(UsesOf(c, region), settings.breaker, now);
    NextKeepsBreakers(w, settings, c, region, Check(BreakerOf(c, region), now, settings.breaker.pause).1, Asked(now));
  }

  lemma TellsKeepsBreakers(w: World, settings: Settings, c: Channel, region: Region, success: bool)
    requires Steady(w) && BreakersOk(w, settings, c) && Cleared(UsesOf(c, region), settings.breaker)
    ensures BreakersOk(w, settings, Tells(w, settings, c, region, success))
  {
    var now := w.Clock(c.ticks);
    var use := if success then Succeeded(now) else Failed(now);
    BreakerFollows(w, settings, c, region);
    RecordFollows(BreakerOf(c, region), UsesOf(c, region), settings.breaker, use, now);
    NextKeepsBreakers(w, settings, c, region, Run(UsesOf(c, region) + [use], settings.breaker), use);
  }

  /** A call leaves only outside the pauses of its region: no streak of failures was completed less than the pause ago. */
  lemma CallsLeaveOutsidePauses(w: World, settings: Settings, c: Channel, region: Region, deadline: int)
    requires Steady(w) && BreakersOk(w, settings, c)
    ensures var (go, checked) := GoesOn(w, settings, c, region, deadline);
            && BreakersOk(w, settings, checked)
            && (go ==> !Pausing(UsesOf(c, region), settings.breaker, w.Clock(c.ticks)))
            && (go ==> Cleared(UsesOf(checked, region), settings.breaker))
  {
    AsksKeepsBreakers(w, settings, c, region);
    var (open, asked) := Asks(w, settings, c, region);
    LaterKeepsBreakers(w, settings, asked, Read(asked));
  }

  lemma SendsBatchKeepsBreakers(w: World, settings: Settings, c: Channel, batch: seq<nat>, region: Region)
    requires Steady(w) && BreakersOk(w, settings, c) && Cleared(UsesOf(c, region), settings.breaker)
    ensures BreakersOk(w, settings, SendsBatch(w, settings, c, batch, region))
  {
    var calling := c.(sent := c.sent + [batch]);
    var success := SomeDelivered(batch, w.Delivery(|c.sent|));
    LaterKeepsBreakers(w, settings, c, calling);
    TellsKeepsBreakers(w, settings, calling, region, success);
    LaterKeepsBreakers(w, settings, Tells(w, settings, calling, region, success),
                       SendsBatch(w, settings, c, batch, region));
  }

  lemma SendsRowKeepsBreakers(w: World, settings: Settings, c: Channel, id: nat, region: Region)
    requires Steady(w) && BreakersOk(w, settings, c) && Cleared(UsesOf(c, region), settings.breaker)
    ensures BreakersOk(w, settings, SendsRow(w, settings, c, id, region))
  {
    var calling := c.(sent := c.sent + [[id]]);
    var r := SendsRow(w, settings, c, id, region);
    LaterKeepsBreakers(w, settings, c, calling);
    match w.AnswerOf(|c.sent|)
    case Delivered =>
      TellsKeepsBreakers(w, settings, calling, region, true);
      LaterKeepsBreakers(w, settings, Tells(w, settings, calling, region, true), r);
    case Permanent =>
      LaterKeepsBreakers(w, settings, calling, r);
    case Retryable =>
      TellsKeepsBreakers(w, settings, calling, region, false);
      LaterKeepsBreakers(w, settings, Tells(w, settings, calling, region, false), r);
  }

  lemma {:induction false} SendsUpToKeepsBreakers(
    w: World, settings: Settings, c: Channel, batch: seq<nat>, region: Region, deadline: int, i: nat)
    requires Steady(w) && BreakersOk(w, settings, c) && i <= |batch|
    ensures BreakersOk(w, settings, SendsUpTo(w, settings, c, batch, region, deadline, i).channel)
  {
    if i > 0 {
      SendsUpToKeepsBreakers(w, settings, c, batch, region, deadline, i - 1);
      NextRowKeepsBreakers(w, settings, SendsUpTo(w, settings, c, batch, region, deadline, i - 1), batch[i - 1], region,
                           deadline);
    }
  }

  lemma NextRowKeepsBreakers(w: World, settings: Settings, s: Sending, id: nat, region: Region, deadline: int)
    requires Steady(w) && BreakersOk(w, settings, s.channel)
    ensures BreakersOk(w, settings, NextRow(w, settings, s, id, region, deadline).channel)
  {
    CallsLeaveOutsidePauses(w, settings, s.channel, region, deadline);
    var (go, checked) := GoesOn(w, settings, s.channel, region, deadline);
    if go {
      SendsRowKeepsBreakers(w, settings, checked, id, region);
    }
  }

  lemma MoveKeepsBreakers(w: World, settings: Settings, plan: Plan, s: Stage, next: Stage)
    requires Steady(w) && BreakersOk(w, settings, s.channel) && Move(w, settings, plan, s, next)
    ensures BreakersOk(w, settings, next.channel)
  {
    match s.place
    case Before(i) =>
      LaterKeepsBreakers(w, settings, s.channel, Read(s.channel));
      if i < |plan.regions| {
        AsksKeepsBreakers(w, settings, Read(s.channel), plan.regions[i]);
      }
    case Inside(i) =>
      TurnKeepsBreakers(w, settings, plan, i, s.channel, next);
  }

  lemma TurnKeepsBreakers(w: World, settings: Settings, plan: Plan, i: nat, c: Channel, next: Stage)
    requires Steady(w) && BreakersOk(w, settings, c) && Turns(w, settings, plan, i, c, next)
    ensures BreakersOk(w, settings, next.channel)
  {
    var region := plan.regions[i];
    CallsLeaveOutsidePauses(w, settings, c, region, plan.deadline);
    var (go, checked) := GoesOn(w, settings, c, region, plan.deadline);
    if next.place.Inside? {
      var batch :| IsBatch(checked.rows, Due(checked.rows, region, QueryTime(w, checked)), batch) &&
        next == AfterTurn(w, settings, plan, i, c, batch);
      if settings.batches {
        SendsBatchKeepsBreakers(w, settings, checked, batch, region);
      } else {
        SendsUpToKeepsBreakers(w, settings, checked, batch, region, plan.deadline, |batch|);
      }
    }
  }

  lemma {:induction false} PathKeepsBreakers(
    w: World, settings: Settings, plan: Plan, c0: Channel, path: seq<Stage>, k: nat)
    requires Steady(w) && BreakersOk(w, settings, c0) && IsPath(w, settings, plan, c0, path) && k < |path|
    ensures BreakersOk(w, settings, path[k].channel)
  {
    if k == 0 {
      LaterKeepsBreakers(w, settings, c0, Read(c0));
    } else {
      PathKeepsBreakers(w, settings, plan, c0, path, k - 1);
      assert MoveAt(w, settings, plan, path, k);
      if Inserts(path[k - 1], path[k]) {
        var id, row := InsertedRow(path[k - 1], path[k]);
        LaterKeepsBreakers(w, settings, path[k - 1].channel, path[k].channel);
      } else {
        MoveKeepsBreakers(w, settings, plan, path[k - 1], path[k]);
      }
    }
  }

  // ------------------------------------------------------------------ progress

  lemma {:induction false} StoppedStays(
    w: World, settings: Settings, c: Channel, batch: seq<nat>, region: Region, deadline: int, i: nat, j: nat)
    requires i <= j <= |batch| && SendsUpTo(w, settings, c, batch, region, deadline, i).stopped
    ensures SendsUpTo(w, settings, c, batch, region, deadline, j) == SendsUpTo(w, settings, c, batch, region, deadline, i)
  {
    if i < j {
      StoppedStays(w, settings, c, batch, region, deadline, i, j - 1);
    }
  }

  lemma {:induction false} TriedMore(
    w: World, settings: Settings, c: Channel, batch: seq<nat>, region: Region, deadline: int, i: nat, j: nat)
    requires i <= j <= |batch|
    ensures TriedUpTo(w, settings, c, batch, region, deadline, i) <= TriedUpTo(w, settings, c, batch, region, deadline, j)
  {
    if i < j {
      TriedMore(w, settings, c, batch, region, deadline, i, j - 1);
      assert TriedUpTo(w, settings, c, batch, region, deadline, j - 1) <=
             TriedUpTo(w, settings, c, batch, region, deadline, j);
    }
  }

  /** A send that the checks let through tries a row, unless the drain is over before the first one. */
  lemma SendMakesProgress(
    w: World, settings: Settings, c: Channel, batch: seq<nat>, region: Region, deadline: int, q: int)
    requires Steady(w) && Fetched(c.rows, batch, q) && batch != [] && BreakerOf(c, region).openedAt.None?
    ensures var r := Sends(w, settings, c, batch, region, deadline);
            |r.log| > |c.log| || Ended(w, r, deadline)
  {
    var floor := w.Clock(c.ticks) + FirstWait(settings);
    if settings.batches {
      SendsBatchDone(w, settings, c, batch, region, floor, q);
    } else {
      var n := |batch|;
      SendsUpToDone(w, settings, c, batch, region, deadline, n, floor, q);
      FirstRow(w, settings, c, batch, region, deadline);
      if SendsUpTo(w, settings, c, batch, region, deadline, 1).stopped {
        StoppedStays(w, settings, c, batch, region, deadline, 1, n);
      } else {
        TriedMore(w, settings, c, batch, region, deadline, 1, n);
      }
    }
  }

  /** The first row of a batch: it is sent, or the drain is over. */
  lemma FirstRow(w: World, settings: Settings, c: Channel, batch: seq<nat>, region: Region, deadline: int)
    requires Steady(w) && batch != [] && BreakerOf(c, region).openedAt.None?
    ensures var s := SendsUpTo(w, settings, c, batch, region, deadline, 1);
            s.stopped ==> Ended(w, s.channel, deadline)
  {
    assert SendsUpTo(w, settings, c, batch, region, deadline, 0) == Sending(false, c);
    var (open, asked) := Asks(w, settings, c, region);
    if !Continues(w, asked, deadline) {
      EndedStays(w, asked, Read(asked), deadline);
    }
  }

  /** While time stands still, a send leaves fewer rows due. */
  lemma SendShrinks(w: World, settings: Settings, c: Channel, batch: seq<nat>, region: Region, deadline: int, now: int)
    requires Steady(w) && c.ticks > 0 && batch != [] && BreakerOf(c, region).openedAt.None? && now < deadline
    requires IsBatch(c.rows, Due(c.rows, region, now), batch) && w.Clock(c.ticks) == now
    ensures var r := Sends(w, settings, c, batch, region, deadline);
            !w.Killed(r.ticks) && w.Clock(r.ticks) == now ==> |Due(r.rows, region, now)| < |Due(c.rows, region, now)|
  {
    var r := Sends(w, settings, c, batch, region, deadline);
    var floor := now + FirstWait(settings);
    assert Fetched(c.rows, batch, now);
    SendsDone(w, settings, c, batch, region, deadline, floor, now);
    if !w.Killed(r.ticks) && w.Clock(r.ticks) == now {
      SendMakesProgress(w, settings, c, batch, region, deadline, now);
      WaitsGrow(settings, 1);
      DueShrinks(c.rows, c.log, r.rows, r.log, floor, region, now);
    }
  }

  /**
   * Why the region loop ends, for every wait and every budget: a turn that goes on has budget left, and unless time
   * passes or the kill signal comes it leaves fewer rows due.
   */
  lemma TurnShrinks(w: World, settings: Settings, c: Channel, batch: seq<nat>, region: Region, deadline: int)
    requires Steady(w) && batch != [] && GoesOn(w, settings, c, region, deadline).0
    requires var checked := GoesOn(w, settings, c, region, deadline).1;
             IsBatch(checked.rows, Due(checked.rows, region, QueryTime(w, checked)), batch)
    ensures !w.Killed(c.ticks) && w.Clock(c.ticks) < deadline
    ensures var r := Sends(w, settings, GoesOn(w, settings, c, region, deadline).1, batch, region, deadline);
            && w.Clock(c.ticks) <= w.Clock(r.ticks)
            && (!w.Killed(r.ticks) && w.Clock(r.ticks) == w.Clock(c.ticks) ==>
                  |Due(r.rows, region, w.Clock(r.ticks))| < |Due(c.rows, region, w.Clock(c.ticks))|)
  {
    var checked := GoesOn(w, settings, c, region, deadline).1;
    GoesOnKeeps(w, settings, c, region, deadline);
    var q := QueryTime(w, checked);
    var r := Sends(w, settings, checked, batch, region, deadline);
    assert w.Clock(c.ticks) <= w.Clock(checked.ticks - 1) < deadline;
    assert QueryInPlace(w, checked.ticks - 1);
    SendsDone(w, settings, checked, batch, region, deadline, w.Clock(checked.ticks) + FirstWait(settings), q);
    assert w.Clock(checked.ticks) <= w.Clock(r.ticks);
    if w.Clock(r.ticks) == w.Clock(c.ticks) {
      SendShrinks(w, settings, checked, batch, region, deadline, q);
    }
  }
}
