/**
 * What every drain keeps, move by move: its attempts are legal and heard from the sender, the rows it tried rest, the
 * regions it is done with are settled, and the breakers follow their histories.
 */
module OutboxPaths {
  import opened Collections
  import opened Wrappers
  import opened OutboxModel
  import opened OutboxDrain
  import opened OutboxSteps
  import opened OutboxSends
  import opened CircuitBreaker

  // ------------------------------------------------------------------ attempts

  /** The earliest moment a row that fails in the drain can be due again. */
  function Floor(settings: Settings, plan: Plan): int {
    plan.began + FirstWait(settings)
  }

  ghost predicate Drained(w: World, settings: Settings, plan: Plan, c0: Channel, c: Channel) {
    && c0.log <= c.log
    && Quiet(c.rows, c.log, |c0.log|, Floor(settings, plan))
    && c0.sent <= c.sent
    && Heard(w, settings.batches, c.log, |c0.log|, c.sent, |c0.sent|)
    && c0.ticks < c.ticks
  }

  lemma StartIsDrained(w: World, settings: Settings, plan: Plan, c0: Channel)
    ensures Drained(w, settings, plan, c0, Read(c0))
  {
  }

  /** A piece of a drain that tries nothing. */
  lemma QuietMoveKeepsDrained(w: World, settings: Settings, plan: Plan, c0: Channel, c: Channel, r: Channel)
    requires Drained(w, settings, plan, c0, c)
    requires r.rows == c.rows && r.log == c.log && r.sent == c.sent && c.ticks <= r.ticks
    ensures Drained(w, settings, plan, c0, r)
  {
  }

  lemma SendKeepsDrained(
    w: World, settings: Settings, plan: Plan, c0: Channel, c: Channel, r: Channel, batch: seq<nat>, region: Region, q: int)
    requires Drained(w, settings, plan, c0, c)
    requires SendDone(w, settings.batches, c, r, batch, region, Floor(settings, plan), q)
    ensures Drained(w, settings, plan, c0, r)
  {
    var floor := Floor(settings, plan);
    RestingStays(c0.log, c.rows, c.log, r.rows, r.log, floor, floor);
    HeardMore(w, settings.batches, c.log, c.sent, r.log, r.sent, |c0.log|, |c0.sent|);
  }

  /** The batch of a query and what its send does, for a channel that passed the checks. */
  lemma TurnSends(
    w: World, settings: Settings, plan: Plan, c: Channel, batch: seq<nat>, region: Region, floor: int)
    requires Steady(w) && floor <= w.Clock(c.ticks) + FirstWait(settings)
    requires IsBatch(c.rows, Due(c.rows, region, QueryTime(w, c)), batch)
    ensures Fetched(c.rows, batch, QueryTime(w, c))
    ensures SendDone(w, settings.batches, c, Sends(w, settings, c, batch, region, plan.deadline), batch, region, floor,
                     QueryTime(w, c))
  {
    SendsDone(w, settings, c, batch, region, plan.deadline, floor, QueryTime(w, c));
  }

  lemma VisitKeeps(w: World, settings: Settings, plan: Plan, i: nat, c: Channel)
    ensures var r := Visits(w, settings, plan, i, c).channel;
            r.rows == c.rows && r.log == c.log && r.sent == c.sent && c.ticks <= r.ticks
  {
  }

  lemma BeganBefore(w: World, settings: Settings, plan: Plan, c0: Channel, c: Channel)
    requires Steady(w) && IsPlan(w, settings, c0, plan) && c0.ticks < c.ticks
    ensures plan.began <= plan.moment <= w.Clock(c.ticks)
    ensures c0.ticks + 1 < c.ticks ==> plan.moment <= QueryTime(w, c)
  {
    assert QueryInPlace(w, c0.ticks) && QueryInPlace(w, c.ticks - 1);
    assert w.Clock(c0.ticks + 1) <= w.Clock(c.ticks);
  }

  lemma MoveKeepsDrained(w: World, settings: Settings, plan: Plan, c0: Channel, s: Stage, next: Stage)
    requires Steady(w) && IsPlan(w, settings, c0, plan) && Move(w, settings, plan, s, next)
    requires Drained(w, settings, plan, c0, s.channel)
    ensures Drained(w, settings, plan, c0, next.channel)
  {
    match s.place
    case Before(i) =>
      VisitKeeps(w, settings, plan, i, s.channel);
      QuietMoveKeepsDrained(w, settings, plan, c0, s.channel, next.channel);
    case Inside(i) =>
      TurnKeepsDrained(w, settings, plan, c0, i, s.channel, next);
  }

  lemma TurnKeepsDrained(w: World, settings: Settings, plan: Plan, c0: Channel, i: nat, c: Channel, next: Stage)
    requires Steady(w) && IsPlan(w, settings, c0, plan) && Turns(w, settings, plan, i, c, next)
    requires Drained(w, settings, plan, c0, c)
    ensures Drained(w, settings, plan, c0, next.channel)
  {
    var region := plan.regions[i];
    var (go, checked) := GoesOn(w, settings, c, region, plan.deadline);
    GoesOnKeeps(w, settings, c, region, plan.deadline);
    QuietMoveKeepsDrained(w, settings, plan, c0, c, checked);
    if next.place.Inside? {
      var batch :| IsBatch(checked.rows, Due(checked.rows, region, QueryTime(w, checked)), batch) &&
        next == AfterTurn(w, settings, plan, i, c, batch);
      BeganBefore(w, settings, plan, c0, checked);
      TurnSends(w, settings, plan, checked, batch, region, Floor(settings, plan));
      SendKeepsDrained(w, settings, plan, c0, checked, next.channel, batch, region, QueryTime(w, checked));
    }
  }

  /** A new row is none of the rows that were tried. */
  lemma InsertKeepsDrained(w: World, settings: Settings, plan: Plan, c0: Channel, c: Channel, id: nat, row: Row)
    requires Drained(w, settings, plan, c0, c) && IsNew(c, id)
    ensures Drained(w, settings, plan, c0, WithRow(c, id, row))
  {
    forall k | |c0.log| <= k < |c.log|
      ensures Resting(WithRow(c, id, row).rows, c.log[k].id, Floor(settings, plan))
    {
      assert Resting(c.rows, c.log[k].id, Floor(settings, plan));
    }
  }

  lemma InsertedRow(s: Stage, next: Stage) returns (id: nat, row: Row)
    requires Inserts(s, next)
    ensures IsNew(s.channel, id) && !row.unrecoverable
    ensures next.place == s.place && next.channel == WithRow(s.channel, id, row)
    ensures next.channel.rows == s.channel.rows[id := row]
  {
    id, row :| IsNew(s.channel, id) && !row.unrecoverable && next == Stage(s.place, WithRow(s.channel, id, row));
    var c := WithRow(s.channel, id, row);
    assert next == Stage(s.place, c);
    assert next.channel == c;
  }

  lemma InsertsKeepsDrained(w: World, settings: Settings, plan: Plan, c0: Channel, s: Stage, next: Stage)
    requires Drained(w, settings, plan, c0, s.channel) && Inserts(s, next)
    ensures Drained(w, settings, plan, c0, next.channel)
  {
    var id, row := InsertedRow(s, next);
    InsertKeepsDrained(w, settings, plan, c0, s.channel, id, row);
  }

  /** Everywhere in a drain each attempt is on a row of its own call, written as answered, and the rows it tried rest. */
  lemma {:induction false} PathIsDrained(
    w: World, settings: Settings, plan: Plan, c0: Channel, path: seq<Stage>, k: nat)
    requires Steady(w) && IsPath(w, settings, plan, c0, path) && k < |path|
    ensures Drained(w, settings, plan, c0, path[k].channel)
  {
    if k == 0 {
      StartIsDrained(w, settings, plan, c0);
    } else {
      PathIsDrained(w, settings, plan, c0, path, k - 1);
      assert MoveAt(w, settings, plan, path, k);
      if Inserts(path[k - 1], path[k]) {
        InsertsKeepsDrained(w, settings, plan, c0, path[k - 1], path[k]);
      } else {
        MoveKeepsDrained(w, settings, plan, c0, path[k - 1], path[k]);
      }
    }
  }

  // ------------------------------------------------------------------ the table

  /** The rows that came in between two tables. */
  function Added(before: Table, after: Table): Table {
    map id | id in after && id !in before :: after[id]
  }

  /** The rows inserted in the first `k` steps of a drain. */
  function InsertedUpTo(path: seq<Stage>, k: nat): Table
    requires k < |path|
  {
    if k == 0 then map[]
    else InsertedUpTo(path, k - 1) + Added(path[k - 1].channel.rows, path[k].channel.rows)
  }

  /** A move of the drain: legal attempts, and the table is what they make of it. */
  lemma MoveExtends(w: World, settings: Settings, plan: Plan, s: Stage, next: Stage)
    requires Steady(w) && Move(w, settings, plan, s, next)
    ensures Extends(s.channel.rows, s.channel.log, next.channel.rows, next.channel.log)
    ensures s.channel.sent <= next.channel.sent && s.channel.ticks <= next.channel.ticks
    ensures Heard(w, settings.batches, next.channel.log, |s.channel.log|, next.channel.sent, |s.channel.sent|)
  {
    assert s.channel.log[|s.channel.log|..] == [];
    match s.place
    case Before(i) => VisitKeeps(w, settings, plan, i, s.channel);
    case Inside(i) => TurnExtends(w, settings, plan, i, s.channel, next);
  }

  lemma TurnExtends(w: World, settings: Settings, plan: Plan, i: nat, c: Channel, next: Stage)
    requires Steady(w) && Turns(w, settings, plan, i, c, next) && Extends(c.rows, c.log, c.rows, c.log)
    ensures Extends(c.rows, c.log, next.channel.rows, next.channel.log)
    ensures c.sent <= next.channel.sent && c.ticks <= next.channel.ticks
    ensures Heard(w, settings.batches, next.channel.log, |c.log|, next.channel.sent, |c.sent|)
  {
    var region := plan.regions[i];
    var (go, checked) := GoesOn(w, settings, c, region, plan.deadline);
    GoesOnKeeps(w, settings, c, region, plan.deadline);
    if next.place.Inside? {
      var batch :| IsBatch(checked.rows, Due(checked.rows, region, QueryTime(w, checked)), batch) &&
        next == AfterTurn(w, settings, plan, i, c, batch);
      TurnSends(w, settings, plan, checked, batch, region, w.Clock(checked.ticks) + FirstWait(settings));
    }
  }

  lemma MoveAddsNothing(rows0: Table, log0: seq<Attempt>, rows: Table, log: seq<Attempt>)
    requires Extends(rows0, log0, rows, log)
    ensures Added(rows0, rows) == map[]
  {
    forall id | id in rows
      ensures id in rows0
    {
      ReplayKeepsRegion(rows0, log[|log0|..], id);
    }
  }

  /** A row that comes in during a drain might as well have been there from the start. */
  lemma InsertExtends(rows0: Table, log0: seq<Attempt>, c: Channel, id: nat, row: Row)
    requires Extends(rows0, log0, c.rows, c.log) && IsNew(c, id)
    ensures id !in rows0 && Extends(rows0[id := row], log0, c.rows[id := row], c.log)
  {
    UntriedIsUntouched(rows0, log0, c.rows, c.log, id);
    ReplayInsert(rows0, c.log[|log0|..], id, row);
  }

  lemma {:induction false} ReplayInsert(rows: Table, log: seq<Attempt>, id: nat, row: Row)
    requires id !in rows && forall k :: 0 <= k < |log| ==> log[k].id != id
    ensures Replay(rows[id := row], log) == Replay(rows, log)[id := row]
    ensures Legal(rows[id := row], log) <==> Legal(rows, log)
  {
    if log != [] {
      ReplayInsert(rows, log[..|log| - 1], id, row);
    }
  }

  lemma InsertsExtends(c0: Channel, rows0: Table, s: Stage, next: Stage)
    requires Extends(rows0, c0.log, s.channel.rows, s.channel.log) && Inserts(s, next)
    ensures Extends(rows0 + Added(s.channel.rows, next.channel.rows), c0.log, next.channel.rows, next.channel.log)
  {
    var id, row := InsertedRow(s, next);
    InsertExtends(rows0, c0.log, s.channel, id, row);
    AddedOne(s.channel.rows, id, row);
    assert rows0 + map[id := row] == rows0[id := row];
  }

  lemma AddedOne(rows: Table, id: nat, row: Row)
    requires id !in rows
    ensures Added(rows, rows[id := row]) == map[id := row]
  {
    var added := Added(rows, rows[id := row]);
    assert forall x :: x in added <==> x == id;
    assert added[id] == row;
  }

  lemma MovesExtends(
    w: World, settings: Settings, plan: Plan, c0: Channel, rows0: Table, s: Stage, next: Stage)
    requires Steady(w) && Extends(rows0, c0.log, s.channel.rows, s.channel.log) && Move(w, settings, plan, s, next)
    ensures Extends(rows0 + Added(s.channel.rows, next.channel.rows), c0.log, next.channel.rows, next.channel.log)
  {
    var c, r := s.channel, next.channel;
    MoveExtends(w, settings, plan, s, next);
    MoveAddsNothing(c.rows, c.log, r.rows, r.log);
    ExtendsTransitive(rows0, c0.log, c.rows, c.log, r.rows, r.log);
    assert rows0 + map[] == rows0;
  }

  /** Everywhere in a drain the attempts are legal, and the table is what they make of the rows, the new ones included. */
  lemma {:induction false} PathReplays(w: World, settings: Settings, plan: Plan, c0: Channel, path: seq<Stage>, k: nat)
    requires Steady(w) && IsPath(w, settings, plan, c0, path) && k < |path|
    ensures Extends(c0.rows + InsertedUpTo(path, k), c0.log, path[k].channel.rows, path[k].channel.log)
  {
    if k == 0 {
      assert c0.log[|c0.log|..] == [] && c0.rows + map[] == c0.rows;
    } else {
      PathReplays(w, settings, plan, c0, path, k - 1);
      assert MoveAt(w, settings, plan, path, k);
      NextReplays(w, settings, plan, c0, InsertedUpTo(path, k - 1), path[k - 1], path[k]);
    }
  }

  lemma NextReplays(w: World, settings: Settings, plan: Plan, c0: Channel, inserted: Table, s: Stage, next: Stage)
    requires Steady(w) && (Move(w, settings, plan, s, next) || Inserts(s, next))
    requires Extends(c0.rows + inserted, c0.log, s.channel.rows, s.channel.log)
    ensures Extends(c0.rows + (inserted + Added(s.channel.rows, next.channel.rows)), c0.log,
                    next.channel.rows, next.channel.log)
  {
    var added := Added(s.channel.rows, next.channel.rows);
    if Inserts(s, next) {
      InsertsExtends(c0, c0.rows + inserted, s, next);
    } else {
      MovesExtends(w, settings, plan, c0, c0.rows + inserted, s, next);
    }
    TablesAssociate(c0.rows, inserted, added);
  }

  lemma TablesAssociate(a: Table, b: Table, c: Table)
    ensures a + (b + c) == a + b + c
  {
  }

  // ------------------------------------------------------------------ regions

  /** The kill signal was received or the budget is spent. */
  predicate Ended(w: World, c: Channel, deadline: int) {
    w.Killed(c.ticks) || w.Clock(c.ticks) >= deadline
  }

  /** Nothing is left to do for a region: its breaker is open, or none of the rows that were due is due any more. */
  ghost predicate Settled(rows0: Table, c: Channel, region: Region, moment: int) {
    region in c.breakers &&
    (c.breakers[region].openedAt.Some? || Due(rows0, region, moment) !! Due(c.rows, region, moment))
  }

  ghost predicate SettledUpTo(rows0: Table, c: Channel, plan: Plan, n: nat) {
    forall j :: 0 <= j < n && j < |plan.regions| ==> Settled(rows0, c, plan.regions[j], plan.moment)
  }

  /** How many regions the drain is done with. */
  function Passed(plan: Plan, place: Place): nat {
    match place
    case Before(i) => i
    case Inside(i) => i
    case Over => |plan.regions|
  }

  lemma EndedStays(w: World, c: Channel, r: Channel, deadline: int)
    requires Steady(w) && Ended(w, c, deadline) && c.ticks <= r.ticks
    ensures Ended(w, r, deadline)
  {
    assert w.Clock(c.ticks) <= w.Clock(r.ticks);
  }

  /** A step for one region leaves the others as settled as they were. */
  lemma OthersStaySettled(rows0: Table, c: Channel, r: Channel, plan: Plan, i: nat)
    requires i < |plan.regions| && forall j, k :: 0 <= j < k < |plan.regions| ==> plan.regions[j] != plan.regions[k]
    requires SettledUpTo(rows0, c, plan, i) && SameBut(c.breakers, r.breakers, plan.regions[i])
    requires Undisturbed(c.rows, r.rows, plan.regions[i])
    ensures SettledUpTo(rows0, r, plan, i)
  {
    forall j | 0 <= j < i && j < |plan.regions|
      ensures Settled(rows0, r, plan.regions[j], plan.moment)
    {
      assert Settled(rows0, c, plan.regions[j], plan.moment);
      assert plan.regions[j] != plan.regions[i];
      assert Due(r.rows, plan.regions[j], plan.moment) <= Due(c.rows, plan.regions[j], plan.moment);
    }
  }

  lemma CheckSettles(w: World, settings: Settings, rows0: Table, c: Channel, region: Region, deadline: int, moment: int)
    requires Steady(w)
    ensures var (go, r) := GoesOn(w, settings, c, region, deadline);
            !go ==> Settled(rows0, r, region, moment) || Ended(w, r, deadline)
  {
    var (open, asked) := Asks(w, settings, c, region);
    if !open && !Continues(w, asked, deadline) {
      EndedStays(w, asked, Read(asked), deadline);
    }
  }

  lemma VisitKeepsSettled(w: World, settings: Settings, plan: Plan, rows0: Table, i: nat, c: Channel)
    requires Ended(w, c, plan.deadline) || SettledUpTo(rows0, c, plan, i)
    requires Steady(w) && forall j, k :: 0 <= j < k < |plan.regions| ==> plan.regions[j] != plan.regions[k]
    ensures var next := Visits(w, settings, plan, i, c);
            Ended(w, next.channel, plan.deadline) || SettledUpTo(rows0, next.channel, plan, Passed(plan, next.place))
  {
    var next := Visits(w, settings, plan, i, c);
    if Ended(w, c, plan.deadline) {
      EndedStays(w, c, next.channel, plan.deadline);
    } else if i < |plan.regions| {
      OthersStaySettled(rows0, c, next.channel, plan, i);
    }
  }

  lemma TurnKeepsSettled(w: World, settings: Settings, plan: Plan, c0: Channel, i: nat, c: Channel, next: Stage)
    requires Steady(w) && IsPlan(w, settings, c0, plan) && Turns(w, settings, plan, i, c, next) && c0.ticks < c.ticks
    requires Ended(w, c, plan.deadline) || SettledUpTo(c0.rows, c, plan, i)
    ensures Ended(w, next.channel, plan.deadline) || SettledUpTo(c0.rows, next.channel, plan, Passed(plan, next.place))
  {
    var region, rows0 := plan.regions[i], c0.rows;
    var (go, checked) := GoesOn(w, settings, c, region, plan.deadline);
    GoesOnKeeps(w, settings, c, region, plan.deadline);
    CheckSettles(w, settings, rows0, c, region, plan.deadline, plan.moment);
    RegionsDiffer(w, settings, c0, plan);
    if Ended(w, c, plan.deadline) {
      EndedStays(w, c, checked, plan.deadline);
    } else {
      OthersStaySettled(rows0, c, checked, plan, i);
    }
    if go {
      var batch :| IsBatch(checked.rows, Due(checked.rows, region, QueryTime(w, checked)), batch) &&
        next == AfterTurn(w, settings, plan, i, c, batch);
      BeganBefore(w, settings, plan, c0, checked);
      if batch == [] {
        assert Due(checked.rows, region, QueryTime(w, checked)) == {};
        assert Due(checked.rows, region, plan.moment) <= Due(checked.rows, region, QueryTime(w, checked));
      } else {
        SendKeepsSettled(w, settings, plan, rows0, i, checked, batch);
      }
    }
  }

  lemma SendKeepsSettled(
    w: World, settings: Settings, plan: Plan, rows0: Table, i: nat, c: Channel, batch: seq<nat>)
    requires Steady(w) && i < |plan.regions|
    requires forall j, k :: 0 <= j < k < |plan.regions| ==> plan.regions[j] != plan.regions[k]
    requires IsBatch(c.rows, Due(c.rows, plan.regions[i], QueryTime(w, c)), batch)
    requires Ended(w, c, plan.deadline) || SettledUpTo(rows0, c, plan, i)
    ensures var r := Sends(w, settings, c, batch, plan.regions[i], plan.deadline);
            Ended(w, r, plan.deadline) || SettledUpTo(rows0, r, plan, i)
  {
    var region := plan.regions[i];
    var r := Sends(w, settings, c, batch, region, plan.deadline);
    TurnSends(w, settings, plan, c, batch, region, w.Clock(c.ticks) + FirstWait(settings));
    if Ended(w, c, plan.deadline) {
      EndedStays(w, c, r, plan.deadline);
    } else {
      OtherRegionsShrink(c.rows, c.log, r.rows, r.log, region, QueryTime(w, c));
      OthersStaySettled(rows0, c, r, plan, i);
    }
  }

  lemma RegionsDiffer(w: World, settings: Settings, c0: Channel, plan: Plan)
    requires IsPlan(w, settings, c0, plan)
    ensures forall j, k :: 0 <= j < k < |plan.regions| ==> plan.regions[j] != plan.regions[k]
  {
    var firsts :| InAgeOrder(c0.rows, plan.moment, plan.regions, firsts);
  }

  lemma {:induction false} PathSettles(w: World, settings: Settings, plan: Plan, c0: Channel, path: seq<Stage>, k: nat)
    requires Steady(w) && IsPath(w, settings, plan, c0, path) && k < |path|
    ensures Ended(w, path[k].channel, plan.deadline) || SettledUpTo(c0.rows, path[k].channel, plan, Passed(plan, path[k].place))
  {
    if k > 0 {
      PathSettles(w, settings, plan, c0, path, k - 1);
      PathIsDrained(w, settings, plan, c0, path, k - 1);
      assert MoveAt(w, settings, plan, path, k);
      if Inserts(path[k - 1], path[k]) {
        PathReplays(w, settings, plan, c0, path, k - 1);
        InsertsKeepsSettled(w, plan, c0, InsertedUpTo(path, k - 1), path[k - 1], path[k]);
      } else {
        MoveKeepsSettled(w, settings, plan, c0, path[k - 1], path[k]);
      }
    }
  }

  lemma MoveKeepsSettled(w: World, settings: Settings, plan: Plan, c0: Channel, s: Stage, next: Stage)
    requires Steady(w) && IsPlan(w, settings, c0, plan) && Move(w, settings, plan, s, next) && c0.ticks < s.channel.ticks
    requires Ended(w, s.channel, plan.deadline) || SettledUpTo(c0.rows, s.channel, plan, Passed(plan, s.place))
    ensures Ended(w, next.channel, plan.deadline) || SettledUpTo(c0.rows, next.channel, plan, Passed(plan, next.place))
  {
    match s.place
    case Before(i) =>
      RegionsDiffer(w, settings, c0, plan);
      VisitKeepsSettled(w, settings, plan, c0.rows, i, s.channel);
    case Inside(i) =>
      TurnKeepsSettled(w, settings, plan, c0, i, s.channel, next);
  }

  /** A new row is none of the rows the drain started with. */
  lemma InsertsKeepsSettled(w: World, plan: Plan, c0: Channel, inserted: Table, s: Stage, next: Stage)
    requires Extends(c0.rows + inserted, c0.log, s.channel.rows, s.channel.log) && Inserts(s, next)
    requires Ended(w, s.channel, plan.deadline) || SettledUpTo(c0.rows, s.channel, plan, Passed(plan, s.place))
    ensures Ended(w, next.channel, plan.deadline) || SettledUpTo(c0.rows, next.channel, plan, Passed(plan, next.place))
  {
    var id, row := InsertedRow(s, next);
    InsertExtends(c0.rows + inserted, c0.log, s.channel, id, row);
    if !Ended(w, s.channel, plan.deadline) {
      forall j | 0 <= j < Passed(plan, s.place) && j < |plan.regions|
        ensures Settled(c0.rows, next.channel, plan.regions[j], plan.moment)
      {
        var region := plan.regions[j];
        assert Settled(c0.rows, s.channel, region, plan.moment);
        assert Due(next.channel.rows, region, plan.moment) <= Due(s.channel.rows, region, plan.moment) + {id};
        assert id !in Due(c0.rows, region, plan.moment);
      }
    }
  }

  /**
   * A drain that neither the kill signal nor the budget ended leaves nothing undone: every region that had rows due at
   * its first query has its breaker open, or none of those rows due any more.
   */
  lemma DrainSettlesEveryRegion(w: World, settings: Settings, plan: Plan, c0: Channel, path: seq<Stage>, region: Region)
    requires Steady(w) && IsDrain(w, settings, plan, c0, path) && Due(c0.rows, region, plan.moment) != {}
    ensures var last := path[|path| - 1].channel;
            Ended(w, last, plan.deadline) || Settled(c0.rows, last, region, plan.moment)
  {
    PathSettles(w, settings, plan, c0, path, |path| - 1);
    assert region in plan.regions;
  }
}
