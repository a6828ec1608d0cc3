/**
 * One drain of an outbox channel as a sequence of moves on values (`Destination` in
 * `gateway/scheduler/tasks/outbox_destination.py`), against any clock, any kill signal and any answers of the sender.
 */
module OutboxSteps {
  import opened Collections
  import opened Wrappers
  import opened OutboxModel
  import opened OutboxDrain
  import opened CircuitBreaker

  datatype Answer = Delivered | Retryable | Permanent

  /**
   * The environment: the n-th reading of the clock and of the kill signal, the moment of a query made after the n-th
   * reading and before the next one, the keys the n-th `send_batch` confirms, and the answer of the n-th `send`.
   */
  datatype World = World(
    clock: nat -> int, query: nat -> int, killed: nat -> bool, confirms: nat -> set<nat>, answers: nat -> Answer)
  {
    function Clock(n: nat): int {
      clock(n)
    }

    function Query(n: nat): int {
      query(n)
    }

    function Killed(n: nat): bool {
      killed(n)
    }

    function Delivery(n: nat): set<nat> {
      confirms(n)
    }

    function AnswerOf(n: nat): Answer {
      answers(n)
    }
  }

  /** Time does not go back, and a kill signal stays received. */
  ghost predicate Steady(w: World) {
    && (forall i: nat, j: nat :: i <= j ==> w.Clock(i) <= w.Clock(j))
    && (forall n: nat :: QueryInPlace(w, n))
    && (forall i: nat, j: nat :: i <= j && w.Killed(i) ==> w.Killed(j))
  }

  ghost predicate QueryInPlace(w: World, n: nat) {
    w.Clock(n) <= w.Query(n) <= w.Clock(n + 1)
  }

  /** A query comes at most `lag` after the reading of the clock before it. */
  ghost predicate Prompt(w: World, lag: nat) {
    forall n: nat :: w.Query(n) - w.Clock(n) <= lag
  }

  /** The Config entries, and which kind of sender the channel has. The budget is in microseconds. */
  datatype Settings = Settings(breaker: Config, base: int, cap: int, budget: int, batches: bool)

  /** How long a row waits after its `attempts`-th failure, in microseconds. */
  function WaitAfter(settings: Settings, attempts: nat): int
    requires attempts >= 1
  {
    Wait(settings.base, settings.cap, attempts) * SECOND
  }

  function FirstWait(settings: Settings): int {
    WaitAfter(settings, 1)
  }

  /**
   * The state of the destination: the rows, the breakers with what each of them was asked and told, every attempt and
   * every call to the sender so far, and how many times the clock was read.
   */
  datatype Channel = Channel(
    rows: Table, breakers: map<Region, Breaker>, uses: map<Region, seq<Use>>, log: seq<Attempt>, sent: seq<seq<nat>>,
    ticks: nat)

  // ------------------------------------------------------------------ the breaker and the checks

  function BreakerOf(c: Channel, region: Region): Breaker {
    if region in c.breakers then c.breakers[region] else CLOSED
  }

  function UsesOf(c: Channel, region: Region): seq<Use> {
    if region in c.uses then c.uses[region] else []
  }

  function WithBreaker(c: Channel, region: Region, b: Breaker, use: Use): Channel {
    c.(breakers := c.breakers[region := b], uses := c.uses[region := UsesOf(c, region) + [use]], ticks := c.ticks + 1)
  }

  /** `get_breaker(region).is_open`. */
  function Asks(w: World, settings: Settings, c: Channel, region: Region): (bool, Channel) {
    var now, b := w.Clock(c.ticks), BreakerOf(c, region);
    (IsOpen(b, now, settings.breaker.pause),
     WithBreaker(c, region, Check(b, now, settings.breaker.pause).1, Asked(now)))
  }

  /** `record_success` and `record_failure`. */
  function Tells(w: World, settings: Settings, c: Channel, region: Region, success: bool): Channel {
    var now, b := w.Clock(c.ticks), BreakerOf(c, region);
    if success then WithBreaker(c, region, RecordSuccess(b), Succeeded(now))
    else WithBreaker(c, region, RecordFailure(b, now, settings.breaker.threshold), Failed(now))
  }

  /** `_should_continue_draining`. */
  predicate Continues(w: World, c: Channel, deadline: int) {
    !w.Killed(c.ticks) && w.Clock(c.ticks) < deadline
  }

  function Read(c: Channel): Channel {
    c.(ticks := c.ticks + 1)
  }

  /** The two checks before every batch and before every row: the breaker, then the kill signal and the budget. */
  function GoesOn(w: World, settings: Settings, c: Channel, region: Region, deadline: int): (bool, Channel) {
    var (open, asked) := Asks(w, settings, c, region);
    if open then (false, asked) else (Continues(w, asked, deadline), Read(asked))
  }

  // ------------------------------------------------------------------ sends

  function AttemptsOn(rows: Table, id: nat): nat {
    if id in rows then rows[id].attempts else 0
  }

  /** `_keep_for_retry` on one row, at a moment. */
  function KeptAt(settings: Settings, rows: Table, id: nat, now: int): Fate {
    Kept(now + WaitAfter(settings, AttemptsOn(rows, id) + 1))
  }

  function Noted(c: Channel, attempts: seq<Attempt>): Channel {
    c.(rows := Replay(c.rows, attempts), log := c.log + attempts)
  }

  /** What `_send_batch` writes: a confirmed row is deleted and another one waits. */
  function BatchAttempt(settings: Settings, rows: Table, delivered: set<nat>, send: nat, now: int, id: nat): Attempt {
    Attempt(id, if id in delivered then Confirmed else KeptAt(settings, rows, id, now), send)
  }

  function BatchAttempts(settings: Settings, rows: Table, delivered: set<nat>, send: nat, now: int, batch: seq<nat>)
    : seq<Attempt>
  {
    seq(|batch|, i requires 0 <= i < |batch| => BatchAttempt(settings, rows, delivered, send, now, batch[i]))
  }

  predicate SomeDelivered(batch: seq<nat>, delivered: set<nat>) {
    exists i :: 0 <= i < |batch| && batch[i] in delivered
  }

  /** `_send_batch`: one call, one record, and one attempt on every row. */
  function SendsBatch(w: World, settings: Settings, c: Channel, batch: seq<nat>, region: Region): Channel {
    var send := |c.sent|;
    var delivered := w.Delivery(send);
    var told := Tells(w, settings, c.(sent := c.sent + [batch]), region, SomeDelivered(batch, delivered));
    Noted(Read(told), BatchAttempts(settings, c.rows, delivered, send, w.Clock(told.ticks), batch))
  }

  /** One `send` of `_send_one_by_one`, with its answer recorded and written. */
  function SendsRow(w: World, settings: Settings, c: Channel, id: nat, region: Region): Channel {
    var send := |c.sent|;
    var calling := c.(sent := c.sent + [[id]]);
    match w.AnswerOf(send)
    case Delivered => Noted(Tells(w, settings, calling, region, true), [Attempt(id, Confirmed, send)])
    case Permanent => Noted(calling, [Attempt(id, Parked, send)])
    case Retryable =>
      var told := Tells(w, settings, calling, region, false);
      Noted(Read(told), [Attempt(id, KeptAt(settings, c.rows, id, w.Clock(told.ticks)), send)])
  }

  datatype Sending = Sending(stopped: bool, channel: Channel)

  /** `_send_one_by_one` up to the first `i` rows of the batch. */
  function SendsUpTo(
    w: World, settings: Settings, c: Channel, batch: seq<nat>, region: Region, deadline: int, i: nat): Sending
    requires i <= |batch|
  {
    if i == 0 then Sending(false, c)
    else
      NextRow(w, settings, SendsUpTo(w, settings, c, batch, region, deadline, i - 1), batch[i - 1], region, deadline)
  }

  /** The checks before a row, and its send. */
  function NextRow(w: World, settings: Settings, s: Sending, id: nat, region: Region, deadline: int): Sending {
    if s.stopped then s
    else
      var (go, checked) := GoesOn(w, settings, s.channel, region, deadline);
      if !go then Sending(true, checked) else Sending(false, SendsRow(w, settings, checked, id, region))
  }

  function Sends(w: World, settings: Settings, c: Channel, batch: seq<nat>, region: Region, deadline: int): Channel {
    if settings.batches then SendsBatch(w, settings, c, batch, region)
    else SendsUpTo(w, settings, c, batch, region, deadline, |batch|).channel
  }

  // ------------------------------------------------------------------ the drain

  /** Where a drain is: about to visit the `i`-th region, in the loop of the `i`-th region, or over. */
  datatype Place = Before(i: nat) | Inside(i: nat) | Over

  datatype Stage = Stage(place: Place, channel: Channel)

  /** What a drain fixes when it starts: its deadline, and the regions with rows due at its first query. */
  datatype Plan = Plan(began: int, deadline: int, moment: int, regions: seq<Region>)

  /** `_pending_regions`: every region with a row that is due, once, the one with the oldest row first. */
  ghost predicate Pending(rows: Table, now: int, regions: seq<Region>) {
    && (forall r :: r in regions <==> Due(rows, r, now) != {})
    && exists firsts :: InAgeOrder(rows, now, regions, firsts)
  }

  ghost predicate IsPlan(w: World, settings: Settings, c: Channel, plan: Plan) {
    && plan.began == w.Clock(c.ticks)
    && plan.deadline == plan.began + settings.budget
    && plan.moment == w.Query(c.ticks)
    && Pending(c.rows, plan.moment, plan.regions)
  }

  /** The next region of `_drain`: the drain ends, or the region is skipped or entered. */
  function Visits(w: World, settings: Settings, plan: Plan, i: nat, c: Channel): Stage {
    if i >= |plan.regions| then Stage(Over, c)
    else if !Continues(w, c, plan.deadline) then Stage(Over, Read(c))
    else
      var (open, asked) := Asks(w, settings, Read(c), plan.regions[i]);
      Stage(if open then Before(i + 1) else Inside(i), asked)
  }

  /** The moment of a query: after the last reading of the clock. */
  function QueryTime(w: World, c: Channel): int {
    w.Query(if c.ticks == 0 then 0 else c.ticks - 1)
  }

  /** One turn of the loop of `_drain_region`: it ends, or a batch of the rows due now is sent. */
  ghost predicate Turns(w: World, settings: Settings, plan: Plan, i: nat, c: Channel, next: Stage) {
    && i < |plan.regions|
    && var (go, checked) := GoesOn(w, settings, c, plan.regions[i], plan.deadline);
    if !go then next == Stage(Before(i + 1), checked)
    else
      exists batch ::
        && IsBatch(checked.rows, Due(checked.rows, plan.regions[i], QueryTime(w, checked)), batch)
        && next == AfterTurn(w, settings, plan, i, c, batch)
  }

  /** What a turn that fetched this batch makes of the drain. */
  function AfterTurn(w: World, settings: Settings, plan: Plan, i: nat, c: Channel, batch: seq<nat>): Stage
    requires i < |plan.regions|
  {
    var checked := GoesOn(w, settings, c, plan.regions[i], plan.deadline).1;
    if batch == [] then Stage(Before(i + 1), checked)
    else Stage(Inside(i), Sends(w, settings, checked, batch, plan.regions[i], plan.deadline))
  }

  lemma TurnIsMove(w: World, settings: Settings, plan: Plan, i: nat, c: Channel, batch: seq<nat>)
    requires i < |plan.regions|
    requires var (go, checked) := GoesOn(w, settings, c, plan.regions[i], plan.deadline);
             if go then IsBatch(checked.rows, Due(checked.rows, plan.regions[i], QueryTime(w, checked)), batch)
             else batch == []
    ensures Move(w, settings, plan, Stage(Inside(i), c), AfterTurn(w, settings, plan, i, c, batch))
  {
  }

  ghost predicate Move(w: World, settings: Settings, plan: Plan, s: Stage, next: Stage) {
    match s.place
    case Before(i) => next == Visits(w, settings, plan, i, s.channel)
    case Inside(i) => Turns(w, settings, plan, i, s.channel, next)
    case Over => false
  }

  /** A key that is in no row and was never tried: keys are not reused. */
  ghost predicate IsNew(c: Channel, id: nat) {
    id !in c.rows && forall k :: 0 <= k < |c.log| ==> c.log[k].id != id
  }

  function WithRow(c: Channel, id: nat, row: Row): Channel {
    c.(rows := c.rows[id := row])
  }

  /** The gateway inserts a row while the drain is between two moves. */
  ghost predicate Inserts(s: Stage, next: Stage) {
    exists id, row: Row ::
      IsNew(s.channel, id) && !row.unrecoverable && next == Stage(s.place, WithRow(s.channel, id, row))
  }

  /** A drain under way: moves from the start of the plan, and rows inserted in between. */
  ghost predicate IsPath(w: World, settings: Settings, plan: Plan, c: Channel, path: seq<Stage>) {
    && path != []
    && IsPlan(w, settings, c, plan)
    && path[0] == Stage(Before(0), Read(c))
    && forall k :: 0 < k < |path| ==> MoveAt(w, settings, plan, path, k)
  }

  ghost predicate MoveAt(w: World, settings: Settings, plan: Plan, path: seq<Stage>, k: nat)
    requires 0 < k < |path|
  {
    Move(w, settings, plan, path[k - 1], path[k]) || Inserts(path[k - 1], path[k])
  }

  lemma PathStarts(w: World, settings: Settings, plan: Plan, c: Channel)
    requires IsPlan(w, settings, c, plan)
    ensures IsPath(w, settings, plan, c, [Stage(Before(0), Read(c))])
  {
  }

  lemma PathGoesOn(w: World, settings: Settings, plan: Plan, c: Channel, path: seq<Stage>, next: Stage)
    requires IsPath(w, settings, plan, c, path) && Move(w, settings, plan, path[|path| - 1], next)
    ensures IsPath(w, settings, plan, c, path + [next])
  {
    var all := path + [next];
    forall k | 0 < k < |all|
      ensures MoveAt(w, settings, plan, all, k)
    {
      if k < |path| {
        assert MoveAt(w, settings, plan, path, k);
      }
    }
  }

  /** `_drain`, from its first reading of the clock to its end. */
  ghost predicate IsDrain(w: World, settings: Settings, plan: Plan, c: Channel, path: seq<Stage>) {
    IsPath(w, settings, plan, c, path) && path[|path| - 1].place.Over?
  }
}
