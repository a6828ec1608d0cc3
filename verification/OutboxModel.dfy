/**
 * The rows of one outbox channel and what a delivery attempt does to them
 * (`gateway/scheduler/tasks/outbox_destination.py`). Times are in microseconds.
 */
module OutboxModel {
  import opened Collections
  import opened Wrappers

  datatype Row = Row(region: Region, created: int, attempts: nat, due: int, unrecoverable: bool)

  type Table = map<nat, Row>

  /** How an attempt on a row ended: confirmed and deleted, kept for a later try, or parked for good. */
  datatype Fate = Confirmed | Kept(due: int) | Parked

  /** `send` is the number of the call to the sender that carried the row. */
  datatype Attempt = Attempt(id: nat, result: Fate, send: nat)

  // ------------------------------------------------------------------ the wait before the next try

  const MIN_RETRY_WAIT_SECONDS := 1
  const MAX_RETRY_DOUBLINGS := 30
  const MAX_RETRY_WAIT_SECONDS := 24 * 3600
  const SECOND := 1_000_000
  const BATCH_SIZE := 100

  function Pow2(n: nat): (r: nat)
    ensures r >= 1
  {
    if n == 0 then 1 else 2 * Pow2(n - 1)
  }

  /** The wait in seconds of a row that has failed `attempts` times, for any integer in the two Config entries. */
  function Wait(base: int, cap: int, attempts: nat): int
    requires attempts >= 1
  {
    var doubled := base * Pow2(Min(attempts - 1, MAX_RETRY_DOUBLINGS));
    var capped := Min(Min(doubled, cap), MAX_RETRY_WAIT_SECONDS);
    if capped < MIN_RETRY_WAIT_SECONDS then MIN_RETRY_WAIT_SECONDS else capped
  }

  lemma {:induction false} Pow2Grows(m: nat, n: nat)
    requires m <= n
    ensures Pow2(m) <= Pow2(n)
  {
    if m < n {
      Pow2Grows(m, n - 1);
    }
  }

  lemma ScaleGrows(base: int, x: nat, y: nat)
    requires x <= y && base >= 0
    ensures base * x <= base * y
  {
  }

  lemma NegativeStaysBelow(base: int, x: nat)
    requires base < 0 && x >= 1
    ensures base * x < 0
  {
  }

  /** The wait is between a second and a day, and it never shrinks as attempts grow, whatever the Config entries say. */
  lemma WaitIsBoundedAndGrows(base: int, cap: int, m: nat, n: nat)
    requires 1 <= m <= n
    ensures 1 <= Wait(base, cap, m) <= Wait(base, cap, n) <= 86400
  {
    var x, y := Min(m - 1, MAX_RETRY_DOUBLINGS), Min(n - 1, MAX_RETRY_DOUBLINGS);
    Pow2Grows(x, y);
    if base >= 0 {
      ScaleGrows(base, Pow2(x), Pow2(y));
    } else {
      NegativeStaysBelow(base, Pow2(x));
      NegativeStaysBelow(base, Pow2(y));
    }
  }

  // ------------------------------------------------------------------ attempts on a table

  predicate Sendable(rows: Table, id: nat) {
    id in rows && !rows[id].unrecoverable
  }

  function Attempted(rows: Table, a: Attempt): Table {
    if a.id !in rows then rows
    else
      var row := rows[a.id];
      match a.result
      case Confirmed => rows - {a.id}
      case Kept(due) => rows[a.id := row.(attempts := row.attempts + 1, due := due)]
      case Parked => rows[a.id := row.(attempts := row.attempts + 1, unrecoverable := true)]
  }

  function Replay(rows: Table, log: seq<Attempt>): Table {
    if log == [] then rows else Attempted(Replay(rows, log[..|log| - 1]), log[|log| - 1])
  }

  /** Every attempt is on a row that is there and not parked. */
  predicate Legal(rows: Table, log: seq<Attempt>) {
    if log == [] then true
    else
      var before := log[..|log| - 1];
      Legal(rows, before) && Sendable(Replay(rows, before), log[|log| - 1].id)
  }

  lemma {:induction false} ReplayConcat(rows: Table, a: seq<Attempt>, b: seq<Attempt>)
    ensures Replay(rows, a + b) == Replay(Replay(rows, a), b)
    ensures Legal(rows, a + b) <==> Legal(rows, a) && Legal(Replay(rows, a), b)
  {
    if b == [] {
      assert a + b == a;
    } else {
      var n := |b| - 1;
      ReplayConcat(rows, a, b[..n]);
      assert (a + b)[..|a + b| - 1] == a + b[..n];
    }
  }

  // ------------------------------------------------------------------ conservation over any run

  /** What happens to a channel over time: rows are inserted by the transitions and tried by the drains. */
  datatype Event = Inserted(id: nat, row: Row) | Tried(attempt: Attempt)

  function TableAfter(events: seq<Event>): Table {
    if events == [] then map[]
    else
      var before := TableAfter(events[..|events| - 1]);
      match events[|events| - 1]
      case Inserted(id, row) => before[id := row]
      case Tried(a) => Attempted(before, a)
  }

  predicate WasInserted(events: seq<Event>, id: nat) {
    exists i :: 0 <= i < |events| && AddsRow(events[i], id)
  }

  predicate AddsRow(event: Event, id: nat) {
    event.Inserted? && event.id == id
  }

  function Confirmations(events: seq<Event>, id: nat): nat {
    if events == [] then 0
    else
      Confirmations(events[..|events| - 1], id) +
      if Confirms(events[|events| - 1], id) then 1 else 0
  }

  predicate Confirms(event: Event, id: nat) {
    event.Tried? && IsConfirmation(event.attempt, id)
  }

  predicate IsConfirmation(a: Attempt, id: nat) {
    a.id == id && a.result.Confirmed?
  }

  ghost predicate StepOk(events: seq<Event>, i: nat)
    requires i < |events|
  {
    match events[i]
    case Inserted(id, row) => !WasInserted(events[..i], id) && !row.unrecoverable
    case Tried(a) => Sendable(TableAfter(events[..i]), a.id)
  }

  /** A run: keys are never reused, rows are not parked when they are inserted, and only sendable rows are tried. */
  ghost predicate IsRun(events: seq<Event>) {
    forall i :: 0 <= i < |events| ==> StepOk(events, i)
  }

  lemma PrefixRun(events: seq<Event>, k: nat)
    requires IsRun(events) && k <= |events|
    ensures IsRun(events[..k])
  {
    forall i | 0 <= i < k
      ensures StepOk(events[..k], i)
    {
      assert StepOk(events, i);
      assert events[..k][..i] == events[..i];
    }
  }

  lemma InsertedAppend(events: seq<Event>, id: nat)
    requires events != []
    ensures var n := |events| - 1;
            WasInserted(events, id) <==> WasInserted(events[..n], id) || AddsRow(events[n], id)
  {
    var n := |events| - 1;
    if i :| 0 <= i < n && AddsRow(events[i], id) {
      assert events[..n][i] == events[i];
    }
  }

  /**
   * No row is lost and none is delivered twice: a row that was inserted is either still in the table, parked or pending,
   * with no confirmation ever, or it is gone with exactly one confirmation.
   */
  lemma {:induction false} EveryRowHasOneFate(events: seq<Event>, id: nat)
    requires IsRun(events)
    ensures Confirmations(events, id) <= 1
    ensures WasInserted(events, id) <==> (id in TableAfter(events) || Confirmations(events, id) == 1)
    ensures id in TableAfter(events) ==> Confirmations(events, id) == 0
  {
    if events != [] {
      var n := |events| - 1;
      PrefixRun(events, n);
      assert StepOk(events, n);
      EveryRowHasOneFate(events[..n], id);
      InsertedAppend(events, id);
      match events[n]
      case Inserted(other, row) =>
      case Tried(a) =>
    }
  }

  predicate IsParked(rows: Table, id: nat) {
    id in rows && rows[id].unrecoverable
  }

  lemma ParkedStep(events: seq<Event>, id: nat, k: nat)
    requires IsRun(events) && k < |events| && IsParked(TableAfter(events[..k]), id)
    ensures id in TableAfter(events[..k + 1]) && TableAfter(events[..k + 1])[id] == TableAfter(events[..k])[id]
    ensures events[k].Tried? ==> events[k].attempt.id != id
  {
    assert events[..k + 1][..k] == events[..k];
    assert StepOk(events, k);
    PrefixRun(events, k);
    EveryRowHasOneFate(events[..k], id);
  }

  /** A parked row stays as it is: it is never tried again, changed or deleted. */
  lemma {:induction false} ParkedForGood(events: seq<Event>, id: nat, i: nat, j: nat)
    requires IsRun(events) && i <= j <= |events| && IsParked(TableAfter(events[..i]), id)
    ensures id in TableAfter(events[..j]) && TableAfter(events[..j])[id] == TableAfter(events[..i])[id]
    ensures forall k :: i <= k < j && events[k].Tried? ==> events[k].attempt.id != id
    decreases j - i
  {
    if i < j {
      ParkedForGood(events, id, i, j - 1);
      ParkedStep(events, id, j - 1);
    }
  }

  function AsEvents(log: seq<Attempt>): seq<Event> {
    seq(|log|, i requires 0 <= i < |log| => Tried(log[i]))
  }

  /** A drain extends a run: its log is legal on the table it starts from. */
  lemma {:induction false} DrainExtendsRun(events: seq<Event>, log: seq<Attempt>)
    requires IsRun(events) && Legal(TableAfter(events), log)
    ensures IsRun(events + AsEvents(log))
    ensures TableAfter(events + AsEvents(log)) == Replay(TableAfter(events), log)
  {
    if log == [] {
      assert events + AsEvents(log) == events;
    } else {
      var n := |log| - 1;
      DrainExtendsRun(events, log[..n]);
      var before := events + AsEvents(log[..n]);
      assert events + AsEvents(log) == before + [Tried(log[n])];
      ExtendRun(before, log[n]);
    }
  }

  lemma ExtendRun(events: seq<Event>, a: Attempt)
    requires IsRun(events) && Sendable(TableAfter(events), a.id)
    ensures IsRun(events + [Tried(a)])
    ensures TableAfter(events + [Tried(a)]) == Attempted(TableAfter(events), a)
  {
    var all := events + [Tried(a)];
    assert all[..|events|] == events;
    forall i | 0 <= i < |all|
      ensures StepOk(all, i)
    {
      if i < |events| {
        assert StepOk(events, i);
        assert all[..i] == events[..i];
      }
    }
  }

  lemma ReplayOne(rows: Table, a: Attempt)
    ensures Replay(rows, [a]) == Attempted(rows, a)
    ensures Legal(rows, [a]) <==> Sendable(rows, a.id)
  {
    assert [a][..0] == [];
    assert Replay(rows, []) == rows && Legal(rows, []);
  }
}
