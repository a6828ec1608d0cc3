/**
 * The life of an outbox channel: the gateway inserts rows at any time, drains come, go and die, and the other channels of
 * the destination use its breakers and its sender in between. What became of a row is what the sender answered to the
 * calls that carried it.
 */
module OutboxLife {
  import opened Collections
  import opened Wrappers
  import opened OutboxModel
  import opened OutboxDrain
  import opened OutboxSteps
  import opened OutboxSends
  import opened OutboxPaths

  /** A drain of the channel is under way, or none is. */
  datatype Phase = Idle | Draining(plan: Plan, place: Place)

  datatype State = State(channel: Channel, phase: Phase)

  datatype Step = Insert(id: nat, row: Row) | Begin(plan: Plan) | Advance | End | Elsewhere

  /**
   * What the rest of the process leaves of a channel: its rows and its attempts. The breakers may be any, since the other
   * channels use them too and a new process knows of none, the clock was read, and the sender carried other rows.
   */
  ghost predicate LeftAlone(c: Channel, r: Channel) {
    && r.rows == c.rows && r.log == c.log && c.ticks <= r.ticks
    && c.sent <= r.sent && forall s :: |c.sent| <= s < |r.sent| ==> r.sent[s] == []
  }

  /** One step. A drain ends after its last move, or wherever its process dies between two of them. */
  ghost predicate Follows(w: World, settings: Settings, s: State, step: Step, r: State) {
    match step
    case Insert(id, row) => IsNew(s.channel, id) && !row.unrecoverable && r == State(WithRow(s.channel, id, row), s.phase)
    case Begin(plan) =>
      s.phase.Idle? && IsPlan(w, settings, s.channel, plan) && r == State(Read(s.channel), Draining(plan, Before(0)))
    case Advance =>
      && s.phase.Draining? && r.phase.Draining? && r.phase.plan == s.phase.plan
      && Move(w, settings, s.phase.plan, Stage(s.phase.place, s.channel), Stage(r.phase.place, r.channel))
    case End => s.phase.Draining? && r == State(s.channel, Idle)
    case Elsewhere => s.phase.Idle? && r.phase.Idle? && LeftAlone(s.channel, r.channel)
  }

  ghost predicate StepAt(w: World, settings: Settings, states: seq<State>, steps: seq<Step>, i: nat)
    requires |states| == |steps| + 1 && i < |steps|
  {
    Follows(w, settings, states[i], steps[i], states[i + 1])
  }

  /** The channel from its creation on. */
  ghost predicate IsLife(w: World, settings: Settings, states: seq<State>, steps: seq<Step>) {
    && |states| == |steps| + 1
    && states[0].channel.rows == map[] && states[0].channel.log == [] && states[0].channel.sent == []
    && forall i :: 0 <= i < |steps| ==> StepAt(w, settings, states, steps, i)
  }

  predicate Puts(step: Step, id: nat) {
    step.Insert? && step.id == id
  }

  ghost predicate WasPut(steps: seq<Step>, n: nat, id: nat)
    requires n <= |steps|
  {
    exists i :: 0 <= i < n && Puts(steps[i], id)
  }

  lemma PutAppend(steps: seq<Step>, i: nat, id: nat)
    requires i < |steps|
    ensures WasPut(steps, i + 1, id) <==> WasPut(steps, i, id) || Puts(steps[i], id)
  {
  }

  // ------------------------------------------------------------------ attempts in a run

  /** The attempts of a run but for its last event. */
  lemma TriesOfLast(events: seq<Event>)
    requires events != []
    ensures var n := |events| - 1;
            var before, tries := TriesOf(events[..n]), TriesOf(events);
            && before <= tries && (!events[n].Tried? ==> tries == before)
            && (events[n].Tried? ==> |tries| == |before| + 1 && tries[|before|] == events[n].attempt)
  {
  }

  lemma {:induction false} SomeConfirmation(events: seq<Event>, id: nat) returns (k: nat)
    requires Confirmations(events, id) > 0
    ensures k < |TriesOf(events)| && IsConfirmation(TriesOf(events)[k], id)
  {
    var n := |events| - 1;
    TriesOfLast(events);
    if Confirms(events[n], id) {
      k := |TriesOf(events[..n])|;
    } else {
      k := SomeConfirmation(events[..n], id);
    }
  }

  lemma {:induction false} IsCounted(events: seq<Event>, id: nat, k: nat)
    requires k < |TriesOf(events)| && IsConfirmation(TriesOf(events)[k], id)
    ensures Confirmations(events, id) >= 1
  {
    TriesOfLast(events);
    if k < |TriesOf(events[..|events| - 1])| {
      IsCounted(events[..|events| - 1], id, k);
    }
  }

  /** Two confirmed attempts are two confirmations. */
  lemma {:induction false} TwoConfirmations(events: seq<Event>, id: nat, j: nat, k: nat)
    requires j < k < |TriesOf(events)|
    requires IsConfirmation(TriesOf(events)[j], id) && IsConfirmation(TriesOf(events)[k], id)
    ensures Confirmations(events, id) >= 2
  {
    var before := events[..|events| - 1];
    TriesOfLast(events);
    if k < |TriesOf(before)| {
      TwoConfirmations(before, id, j, k);
    } else {
      IsCounted(before, id, j);
    }
  }

  predicate IsRejection(a: Attempt, id: nat) {
    a.id == id && a.result.Parked?
  }

  ghost predicate SomeRejection(log: seq<Attempt>, id: nat) {
    exists k :: 0 <= k < |log| && IsRejection(log[k], id)
  }

  /** A row is parked exactly when an attempt on it was rejected. */
  lemma {:induction false} ParkedByRejection(events: seq<Event>, id: nat)
    requires IsRun(events)
    ensures IsParked(TableAfter(events), id) <==> SomeRejection(TriesOf(events), id)
  {
    if events != [] {
      var n := |events| - 1;
      PrefixRun(events, n);
      assert OutboxModel.StepOk(events, n);
      ParkedByRejection(events[..n], id);
      EveryRowHasOneFate(events[..n], id);
      var before, tries := TriesOf(events[..n]), TriesOf(events);
      assert forall m :: 0 <= m < |before| ==> tries[m] == before[m];
      if events[n].Tried? {
        assert tries[|before|] == events[n].attempt;
      }
      if k :| 0 <= k < |before| && IsRejection(before[k], id) {
        assert IsRejection(tries[k], id);
      }
    }
  }

  // ------------------------------------------------------------------ a life is a run of events

  function TriesOf(events: seq<Event>): seq<Attempt> {
    if events == [] then []
    else
      var last := events[|events| - 1];
      TriesOf(events[..|events| - 1]) + if last.Tried? then [last.attempt] else []
  }

  lemma {:induction false} TriesOfConcat(events: seq<Event>, log: seq<Attempt>)
    ensures TriesOf(events + AsEvents(log)) == TriesOf(events) + log
  {
    if log == [] {
      assert events + AsEvents(log) == events;
    } else {
      var n := |log| - 1;
      TriesOfConcat(events, log[..n]);
      var all := events + AsEvents(log);
      assert all[..|all| - 1] == events + AsEvents(log[..n]);
      assert log == log[..n] + [log[n]];
    }
  }

  lemma {:induction false} InsertedConcat(events: seq<Event>, log: seq<Attempt>, id: nat)
    ensures WasInserted(events + AsEvents(log), id) <==> WasInserted(events, id)
  {
    var all := events + AsEvents(log);
    if i :| 0 <= i < |events| && AddsRow(events[i], id) {
      assert all[i] == events[i];
    }
    if i :| 0 <= i < |all| && AddsRow(all[i], id) {
      assert i < |events|;
    }
  }

  /** What a step adds to the events of the channel. */
  function EventsIn(s: State, step: Step, r: State): seq<Event> {
    match step
    case Insert(id, row) => [Inserted(id, row)]
    case Advance => if |s.channel.log| <= |r.channel.log| then AsEvents(r.channel.log[|s.channel.log|..]) else []
    case _ => []
  }

  function EventsOf(states: seq<State>, steps: seq<Step>, i: nat): seq<Event>
    requires |states| == |steps| + 1 && i < |states|
  {
    if i == 0 then [] else EventsOf(states, steps, i - 1) + EventsIn(states[i - 1], steps[i - 1], states[i])
  }

  /** A run of events with the rows and the attempts of the channel. */
  ghost predicate Runs(events: seq<Event>, c: Channel) {
    IsRun(events) && TableAfter(events) == c.rows && TriesOf(events) == c.log
  }

  /** A key that is in no row and was never tried was never inserted. */
  lemma NewWasNotInserted(events: seq<Event>, c: Channel, id: nat)
    requires Runs(events, c) && IsNew(c, id)
    ensures !WasInserted(events, id)
  {
    EveryRowHasOneFate(events, id);
    if Confirmations(events, id) > 0 {
      var k := SomeConfirmation(events, id);
    }
  }

  lemma InsertRuns(events: seq<Event>, c: Channel, id: nat, row: Row)
    requires Runs(events, c) && IsNew(c, id) && !row.unrecoverable
    ensures Runs(events + [Inserted(id, row)], WithRow(c, id, row))
  {
    var all := events + [Inserted(id, row)];
    NewWasNotInserted(events, c, id);
    assert all[..|events|] == events && all[|events|] == Inserted(id, row);
    forall k | 0 <= k < |all|
      ensures OutboxModel.StepOk(all, k)
    {
      if k < |events| {
        assert OutboxModel.StepOk(events, k);
        assert all[..k] == events[..k];
      }
    }
  }

  lemma AttemptsRun(events: seq<Event>, c: Channel, r: Channel)
    requires Runs(events, c) && Extends(c.rows, c.log, r.rows, r.log)
    ensures Runs(events + AsEvents(r.log[|c.log|..]), r)
  {
    var news := r.log[|c.log|..];
    DrainExtendsRun(events, news);
    TriesOfConcat(events, news);
    assert c.log + news == r.log;
  }

  lemma StepRuns(w: World, settings: Settings, events: seq<Event>, s: State, step: Step, r: State)
    requires Steady(w) && Runs(events, s.channel) && Follows(w, settings, s, step, r)
    ensures Runs(events + EventsIn(s, step, r), r.channel)
  {
    match step
    case Insert(id, row) =>
      InsertRuns(events, s.channel, id, row);
    case Advance =>
      MoveExtends(w, settings, s.phase.plan, Stage(s.phase.place, s.channel), Stage(r.phase.place, r.channel));
      AttemptsRun(events, s.channel, r.channel);
    case _ =>
      assert events + [] == events;
  }

  lemma {:induction false} LifeRuns(w: World, settings: Settings, states: seq<State>, steps: seq<Step>, i: nat)
    requires Steady(w) && IsLife(w, settings, states, steps) && i < |states|
    ensures Runs(EventsOf(states, steps, i), states[i].channel)
  {
    if i > 0 {
      LifeRuns(w, settings, states, steps, i - 1);
      assert StepAt(w, settings, states, steps, i - 1);
      StepRuns(w, settings, EventsOf(states, steps, i - 1), states[i - 1], steps[i - 1], states[i]);
    }
  }

  /** The events tell the same insertions as the steps. */
  lemma {:induction false} LifeInserts(states: seq<State>, steps: seq<Step>, i: nat, id: nat)
    requires |states| == |steps| + 1 && i < |states|
    ensures WasInserted(EventsOf(states, steps, i), id) <==> WasPut(steps, i, id)
  {
    if i > 0 {
      LifeInserts(states, steps, i - 1, id);
      PutAppend(steps, i - 1, id);
      var before, all := EventsOf(states, steps, i - 1), EventsOf(states, steps, i);
      StepInserts(before, all, states[i - 1], steps[i - 1], states[i], id);
    }
  }

  lemma StepInserts(events: seq<Event>, all: seq<Event>, s: State, step: Step, r: State, id: nat)
    requires all == events + EventsIn(s, step, r)
    ensures WasInserted(all, id) <==> WasInserted(events, id) || Puts(step, id)
  {
    match step
    case Insert(other, row) =>
      InsertedAppend(all, id);
      assert all[..|all| - 1] == events;
    case Advance =>
      if |s.channel.log| <= |r.channel.log| {
        InsertedConcat(events, r.channel.log[|s.channel.log|..], id);
      } else {
        assert events + [] == events;
      }
    case _ =>
      assert events + [] == events;
  }

  // ------------------------------------------------------------------ every attempt in a life is heard

  ghost predicate HeardAll(w: World, batches: bool, c: Channel) {
    Heard(w, batches, c.log, 0, c.sent, 0)
  }

  lemma MoveIsHeard(w: World, settings: Settings, plan: Plan, s: Stage, next: Stage)
    requires Steady(w) && HeardAll(w, settings.batches, s.channel) && Move(w, settings, plan, s, next)
    ensures HeardAll(w, settings.batches, next.channel)
  {
    MoveExtends(w, settings, plan, s, next);
    HeardMore(w, settings.batches, s.channel.log, s.channel.sent, next.channel.log, next.channel.sent, 0, 0);
  }

  /** Calls that carry no row of the channel say nothing about it. */
  lemma OtherCallsAreHeard(w: World, batches: bool, c: Channel, r: Channel)
    requires HeardAll(w, batches, c) && LeftAlone(c, r)
    ensures HeardAll(w, batches, r)
  {
    assert Heard(w, batches, r.log, |c.log|, r.sent, |c.sent|);
    HeardMore(w, batches, c.log, c.sent, r.log, r.sent, 0, 0);
  }

  lemma StepIsHeard(w: World, settings: Settings, s: State, step: Step, r: State)
    requires Steady(w) && HeardAll(w, settings.batches, s.channel) && Follows(w, settings, s, step, r)
    ensures HeardAll(w, settings.batches, r.channel)
  {
    match step
    case Advance =>
      MoveIsHeard(w, settings, s.phase.plan, Stage(s.phase.place, s.channel), Stage(r.phase.place, r.channel));
    case Elsewhere => OtherCallsAreHeard(w, settings.batches, s.channel, r.channel);
    case _ =>
  }

  lemma {:induction false} LifeIsHeard(w: World, settings: Settings, states: seq<State>, steps: seq<Step>, i: nat)
    requires Steady(w) && IsLife(w, settings, states, steps) && i < |states|
    ensures HeardAll(w, settings.batches, states[i].channel)
  {
    if i > 0 {
      LifeIsHeard(w, settings, states, steps, i - 1);
      assert StepAt(w, settings, states, steps, i - 1);
      StepIsHeard(w, settings, states[i - 1], steps[i - 1], states[i]);
    }
  }

  // ------------------------------------------------------------------ what became of a row

  /** The calls that carried the row and were answered with its delivery. */
  function ConfirmingCalls(w: World, batches: bool, sent: seq<seq<nat>>, id: nat): set<nat> {
    set s: nat | s < |sent| && id in sent[s] && Delivers(w, batches, s, id)
  }

  ghost predicate WasRejected(w: World, batches: bool, sent: seq<seq<nat>>, id: nat) {
    exists s: nat :: s < |sent| && id in sent[s] && Rejects(w, batches, s)
  }

  /** The attempt that wrote down the answer to a call, for a row it carried. */
  lemma AttemptOfCall(w: World, batches: bool, log: seq<Attempt>, sent: seq<seq<nat>>, s: nat, id: nat) returns (k: nat)
    requires Heard(w, batches, log, 0, sent, 0) && s < |sent| && id in sent[s]
    ensures k < |log| && log[k].send == s && log[k].id == id
    ensures log[k].result.Confirmed? <==> Delivers(w, batches, s, id)
    ensures log[k].result.Parked? <==> Rejects(w, batches, s)
  {
    var i :| 0 <= i < |sent[s]| && sent[s][i] == id;
    assert WasNoted(log, 0, s, sent[s][i]);
    k :| 0 <= k < |log| && log[k].send == s && log[k].id == id;
    assert Said(w, batches, sent, log[k]);
  }

  lemma ConfirmingCallIsConfirmation(
    w: World, batches: bool, log: seq<Attempt>, sent: seq<seq<nat>>, id: nat, s: nat) returns (k: nat)
    requires Heard(w, batches, log, 0, sent, 0) && s in ConfirmingCalls(w, batches, sent, id)
    ensures k < |log| && IsConfirmation(log[k], id) && log[k].send == s
  {
    k := AttemptOfCall(w, batches, log, sent, s, id);
  }

  lemma ConfirmationIsConfirmingCall(w: World, batches: bool, log: seq<Attempt>, sent: seq<seq<nat>>, id: nat, k: nat)
    requires Heard(w, batches, log, 0, sent, 0) && k < |log| && IsConfirmation(log[k], id)
    ensures log[k].send in ConfirmingCalls(w, batches, sent, id)
  {
    assert Said(w, batches, sent, log[k]);
  }

  predicate AtMostOne(s: set<nat>) {
    forall x, y :: x in s && y in s ==> x == y
  }

  /** The confirming calls of a row are its confirmations. */
  lemma CallsAreConfirmations(
    w: World, batches: bool, events: seq<Event>, sent: seq<seq<nat>>, id: nat)
    requires Heard(w, batches, TriesOf(events), 0, sent, 0) && Confirmations(events, id) <= 1
    ensures ConfirmingCalls(w, batches, sent, id) == {} <==> Confirmations(events, id) == 0
    ensures AtMostOne(ConfirmingCalls(w, batches, sent, id))
  {
    var calls := ConfirmingCalls(w, batches, sent, id);
    if Confirmations(events, id) > 0 {
      var k := SomeConfirmation(events, id);
      ConfirmationIsConfirmingCall(w, batches, TriesOf(events), sent, id, k);
    }
    forall s, t | s in calls && t in calls
      ensures s == t && Confirmations(events, id) > 0
    {
      var j := ConfirmingCallIsConfirmation(w, batches, TriesOf(events), sent, id, s);
      var k := ConfirmingCallIsConfirmation(w, batches, TriesOf(events), sent, id, t);
      IsCounted(events, id, j);
      if j < k {
        TwoConfirmations(events, id, j, k);
      } else if k < j {
        TwoConfirmations(events, id, k, j);
      }
    }
    if calls != {} {
      var s :| s in calls;
      var k := ConfirmingCallIsConfirmation(w, batches, TriesOf(events), sent, id, s);
      IsCounted(events, id, k);
    }
  }

  /**
   * No row is lost and none is delivered twice: an inserted row is gone exactly when the sender answered one of the
   * calls that carried it with its delivery, and there is at most one such call, whatever the sender, the clock, the
   * kills, the other channels and the restarts, and whenever rows come in.
   */
  lemma GoneExactlyWhenConfirmed(
    w: World, settings: Settings, states: seq<State>, steps: seq<Step>, i: nat, id: nat)
    requires Steady(w) && IsLife(w, settings, states, steps) && i < |states| && WasPut(steps, i, id)
    ensures id !in states[i].channel.rows <==> ConfirmingCalls(w, settings.batches, states[i].channel.sent, id) != {}
    ensures AtMostOne(ConfirmingCalls(w, settings.batches, states[i].channel.sent, id))
  {
    LifeRuns(w, settings, states, steps, i);
    LifeInserts(states, steps, i, id);
    LifeIsHeard(w, settings, states, steps, i);
    RunFate(w, settings.batches, EventsOf(states, steps, i), states[i].channel, id);
  }

  lemma RunFate(w: World, batches: bool, events: seq<Event>, c: Channel, id: nat)
    requires Runs(events, c) && HeardAll(w, batches, c) && WasInserted(events, id)
    ensures id !in c.rows <==> ConfirmingCalls(w, batches, c.sent, id) != {}
    ensures AtMostOne(ConfirmingCalls(w, batches, c.sent, id))
  {
    EveryRowHasOneFate(events, id);
    CallsAreConfirmations(w, batches, events, c.sent, id);
  }

  /** A row is parked exactly when the sender rejected it for good in a call that carried it. */
  lemma ParkedExactlyWhenRejected(
    w: World, settings: Settings, states: seq<State>, steps: seq<Step>, i: nat, id: nat)
    requires Steady(w) && IsLife(w, settings, states, steps) && i < |states|
    ensures IsParked(states[i].channel.rows, id) <==> WasRejected(w, settings.batches, states[i].channel.sent, id)
  {
    LifeRuns(w, settings, states, steps, i);
    LifeIsHeard(w, settings, states, steps, i);
    ParkedByRejection(EventsOf(states, steps, i), id);
    RejectionsAreCalls(w, settings.batches, states[i].channel.log, states[i].channel.sent, id);
  }

  /** The rejected attempts on a row are the calls that rejected it. */
  lemma RejectionsAreCalls(w: World, batches: bool, log: seq<Attempt>, sent: seq<seq<nat>>, id: nat)
    requires Heard(w, batches, log, 0, sent, 0)
    ensures SomeRejection(log, id) <==> WasRejected(w, batches, sent, id)
  {
    if SomeRejection(log, id) {
      var k :| 0 <= k < |log| && IsRejection(log[k], id);
      assert Said(w, batches, sent, log[k]);
    }
    if s: nat :| s < |sent| && id in sent[s] && Rejects(w, batches, s) {
      var k := AttemptOfCall(w, batches, log, sent, s, id);
      assert IsRejection(log[k], id);
    }
  }
}
