/**
 * What one send of a drain does: which rows it tries, what it writes for each of them, and what the breaker is told.
 */
module OutboxSends {
  import opened Collections
  import opened Wrappers
  import opened OutboxModel
  import opened OutboxDrain
  import opened OutboxSteps
  import opened CircuitBreaker

  // ------------------------------------------------------------------ calls and attempts

  /** The sender's answer to its `send`-th call confirms the delivery of a row it carried. */
  predicate Delivers(w: World, batches: bool, send: nat, id: nat) {
    if batches then id in w.Delivery(send) else w.AnswerOf(send).Delivered?
  }

  /** The sender's answer says that this row can never be delivered. */
  predicate Rejects(w: World, batches: bool, send: nat) {
    !batches && w.AnswerOf(send).Permanent?
  }

  /** The attempt is on a row that its own call carried, and is written as the answer to that call says. */
  predicate Said(w: World, batches: bool, sent: seq<seq<nat>>, a: Attempt) {
    && a.send < |sent|
    && a.id in sent[a.send]
    && (a.result.Confirmed? <==> Delivers(w, batches, a.send, a.id))
    && (a.result.Parked? <==> Rejects(w, batches, a.send))
  }

  ghost predicate WasNoted(log: seq<Attempt>, from: nat, send: nat, id: nat) {
    exists k :: from <= k < |log| && log[k].send == send && log[k].id == id
  }

  /** The attempts from a place on are the rows of the calls from a place on, one attempt for each, as answered. */
  ghost predicate Heard(w: World, batches: bool, log: seq<Attempt>, from: nat, sent: seq<seq<nat>>, first: nat) {
    && (forall k :: from <= k < |log| ==> first <= log[k].send && Said(w, batches, sent, log[k]))
    && (forall s, i :: first <= s < |sent| && 0 <= i < |sent[s]| ==> WasNoted(log, from, s, sent[s][i]))
    && (forall j, k :: from <= j < k < |log| ==> log[j].send != log[k].send || log[j].id != log[k].id)
  }

  lemma HeardMore(
    w: World, batches: bool, log1: seq<Attempt>, sent1: seq<seq<nat>>, log2: seq<Attempt>, sent2: seq<seq<nat>>,
    from: nat, first: nat)
    requires from <= |log1| && log1 <= log2 && first <= |sent1| && sent1 <= sent2
    requires Heard(w, batches, log1, from, sent1, first) && Heard(w, batches, log2, |log1|, sent2, |sent1|)
    ensures Heard(w, batches, log2, from, sent2, first)
  {
    forall k | from <= k < |log2|
      ensures first <= log2[k].send && Said(w, batches, sent2, log2[k])
      ensures k < |log1| ==> log2[k] == log1[k] && log2[k].send < |sent1|
    {
      if k < |log1| {
        assert log2[k] == log1[k] && Said(w, batches, sent1, log1[k]);
        assert sent2[log1[k].send] == sent1[log1[k].send];
      }
    }
    forall s, i | first <= s < |sent2| && 0 <= i < |sent2[s]|
      ensures WasNoted(log2, from, s, sent2[s][i])
    {
      if s < |sent1| {
        assert sent2[s] == sent1[s] && WasNoted(log1, from, s, sent1[s][i]);
        var k :| from <= k < |log1| && log1[k].send == s && log1[k].id == sent1[s][i];
        assert log2[k] == log1[k];
      } else {
        assert WasNoted(log2, |log1|, s, sent2[s][i]);
      }
    }
    assert forall k :: |log1| <= k < |log2| ==> |sent1| <= log2[k].send;
    assert forall j, k :: from <= j < k < |log1| ==> log2[j] == log1[j] && log2[k] == log1[k];
  }

  // ------------------------------------------------------------------ what a send keeps

  /** The fetched rows: there, not parked, and due at the query. */
  ghost predicate Fetched(rows: Table, batch: seq<nat>, q: int) {
    Distinct(batch) && forall i :: 0 <= i < |batch| ==> Sendable(rows, batch[i]) && rows[batch[i]].due <= q
  }

  /** A send from `c` to `r`. A row it keeps is not due before `floor`. */
  ghost predicate SendDone(
    w: World, batches: bool, c: Channel, r: Channel, batch: seq<nat>, region: Region, floor: int, q: int)
  {
    && SendOk(c.rows, c.log, r.rows, r.log, floor, q)
    && (forall k :: |c.log| <= k < |r.log| ==> r.log[k].id in batch)
    && c.sent <= r.sent
    && Heard(w, batches, r.log, |c.log|, r.sent, |c.sent|)
    && SameBut(c.breakers, r.breakers, region)
    && c.ticks <= r.ticks
  }

  lemma WaitsGrow(settings: Settings, n: nat)
    requires n >= 1
    ensures SECOND <= FirstWait(settings) <= WaitAfter(settings, n)
  {
    WaitIsBoundedAndGrows(settings.base, settings.cap, 1, n);
  }

  // ------------------------------------------------------------------ in batches

  /** The attempt on a row of the `send`-th call: as confirmed, and not due before `floor` if it is kept. */
  predicate NotedAs(w: World, send: nat, a: Attempt, id: nat, floor: int) {
    && a.id == id && a.send == send && !a.result.Parked?
    && (a.result.Confirmed? <==> id in w.Delivery(send))
    && (a.result.Kept? ==> a.result.due >= floor)
  }

  predicate BatchNoted(w: World, send: nat, attempts: seq<Attempt>, batch: seq<nat>, floor: int) {
    |attempts| == |batch| && forall k :: 0 <= k < |batch| ==> NotedAs(w, send, attempts[k], batch[k], floor)
  }

  /** One attempt after the other. */
  lemma {:induction false} NotesInOrder(
    w: World, send: nat, rows: Table, log: seq<Attempt>, attempts: seq<Attempt>, batch: seq<nat>, i: nat, floor: int, q: int)
    requires Fetched(rows, batch, q) && BatchNoted(w, send, attempts, batch, floor) && i <= |batch|
    ensures SendOk(rows, log, Replay(rows, attempts[..i]), log + attempts[..i], floor, q)
  {
    if i == 0 {
      assert log + attempts[..0] == log;
      assert log[|log|..] == [];
    } else {
      NotesInOrder(w, send, rows, log, attempts, batch, i - 1, floor, q);
      var so := attempts[..i - 1];
      var a := attempts[i - 1];
      assert attempts[..i] == so + [a] && attempts[..i][..i - 1] == so;
      assert log + attempts[..i] == log + so + [a];
      assert NotedAs(w, send, a, batch[i - 1], floor);
      assert !WasTried(log + so, |log|, a.id) by {
        assert forall k :: |log| <= k < |log + so| ==> NotedAs(w, send, (log + so)[k], batch[k - |log|], floor);
      }
      SendOneMore(rows, log, Replay(rows, so), log + so, floor, q, a);
    }
  }

  lemma BatchHeard(
    w: World, log: seq<Attempt>, attempts: seq<Attempt>, sent: seq<seq<nat>>, batch: seq<nat>, floor: int)
    requires Distinct(batch) && BatchNoted(w, |sent|, attempts, batch, floor)
    ensures Heard(w, true, log + attempts, |log|, sent + [batch], |sent|)
    ensures forall k :: |log| <= k < |log + attempts| ==> (log + attempts)[k].id in batch
  {
    var all, calls := log + attempts, sent + [batch];
    assert calls[|sent|] == batch;
    forall k | |log| <= k < |all|
      ensures Said(w, true, calls, all[k]) && all[k].id == batch[k - |log|]
    {
      assert all[k] == attempts[k - |log|] && NotedAs(w, |sent|, all[k], batch[k - |log|], floor);
    }
    forall s, i | |sent| <= s < |calls| && 0 <= i < |calls[s]|
      ensures WasNoted(all, |log|, s, calls[s][i])
    {
      assert all[|log| + i] == attempts[i] && NotedAs(w, |sent|, attempts[i], batch[i], floor);
    }
  }

  lemma BatchAttemptsNoted(
    w: World, settings: Settings, rows: Table, send: nat, now: int, batch: seq<nat>, floor: int)
    requires floor <= now + FirstWait(settings)
    ensures BatchNoted(w, send, BatchAttempts(settings, rows, w.Delivery(send), send, now, batch), batch, floor)
  {
    forall k | 0 <= k < |batch|
      ensures NotedAs(w, send, BatchAttempt(settings, rows, w.Delivery(send), send, now, batch[k]), batch[k], floor)
    {
      WaitsGrow(settings, AttemptsOn(rows, batch[k]) + 1);
    }
  }

  lemma SendsBatchDone(
    w: World, settings: Settings, c: Channel, batch: seq<nat>, region: Region, floor: int, q: int)
    requires Steady(w) && Fetched(c.rows, batch, q) && floor <= w.Clock(c.ticks) + FirstWait(settings)
    ensures SendDone(w, true, c, SendsBatch(w, settings, c, batch, region), batch, region, floor, q)
    ensures |SendsBatch(w, settings, c, batch, region).log| == |c.log| + |batch|
  {
    var send, now := |c.sent|, w.Clock(c.ticks + 1);
    var attempts := BatchAttempts(settings, c.rows, w.Delivery(send), send, now, batch);
    assert now >= w.Clock(c.ticks);
    BatchAttemptsNoted(w, settings, c.rows, send, now, batch, floor);
    SendsBatchWrites(w, settings, c, batch, region);
    BatchWritten(w, c, SendsBatch(w, settings, c, batch, region), attempts, batch, region, floor, q);
  }

  lemma BatchWritten(
    w: World, c: Channel, r: Channel, attempts: seq<Attempt>, batch: seq<nat>, region: Region, floor: int, q: int)
    requires Fetched(c.rows, batch, q) && BatchNoted(w, |c.sent|, attempts, batch, floor)
    requires r.rows == Replay(c.rows, attempts) && r.log == c.log + attempts && r.sent == c.sent + [batch]
    requires SameBut(c.breakers, r.breakers, region) && c.ticks <= r.ticks
    ensures SendDone(w, true, c, r, batch, region, floor, q)
  {
    NotesInOrder(w, |c.sent|, c.rows, c.log, attempts, batch, |batch|, floor, q);
    assert attempts[..|batch|] == attempts;
    BatchHeard(w, c.log, attempts, c.sent, batch, floor);
  }

  lemma SendsBatchWrites(w: World, settings: Settings, c: Channel, batch: seq<nat>, region: Region)
    ensures var send, r := |c.sent|, SendsBatch(w, settings, c, batch, region);
            var attempts := BatchAttempts(settings, c.rows, w.Delivery(send), send, w.Clock(c.ticks + 1), batch);
            && r.rows == Replay(c.rows, attempts) && r.log == c.log + attempts && r.sent == c.sent + [batch]
            && r.ticks == c.ticks + 2 && SameBut(c.breakers, r.breakers, region)
  {
  }

  // ------------------------------------------------------------------ one by one

  /** The first `m` rows of the batch were tried in order, each in a call of its own. */
  ghost predicate InTurn(w: World, c: Channel, r: Channel, batch: seq<nat>, m: nat) {
    && m <= |batch|
    && c.log <= r.log && |r.log| == |c.log| + m
    && c.sent <= r.sent && |r.sent| == |c.sent| + m
    && (forall k :: |c.log| <= k < |r.log| ==> TriedInTurn(w, c, r.log[k], batch, k))
    && (forall s :: |c.sent| <= s < |r.sent| ==> r.sent[s] == [batch[s - |c.sent|]])
  }

  predicate TriedInTurn(w: World, c: Channel, a: Attempt, batch: seq<nat>, k: nat) {
    && |c.log| <= k < |c.log| + |batch|
    && a.id == batch[k - |c.log|]
    && a.send == |c.sent| + k - |c.log|
    && (a.result.Confirmed? <==> w.AnswerOf(a.send).Delivered?)
    && (a.result.Parked? <==> w.AnswerOf(a.send).Permanent?)
  }

  lemma InTurnIsHeard(w: World, c: Channel, r: Channel, batch: seq<nat>, m: nat)
    requires InTurn(w, c, r, batch, m)
    ensures Heard(w, false, r.log, |c.log|, r.sent, |c.sent|)
    ensures forall k :: |c.log| <= k < |r.log| ==> r.log[k].id in batch
  {
    forall k | |c.log| <= k < |r.log|
      ensures |c.sent| <= r.log[k].send && Said(w, false, r.sent, r.log[k])
      ensures r.log[k].send == |c.sent| + k - |c.log| && r.log[k].id in batch
    {
      assert TriedInTurn(w, c, r.log[k], batch, k);
      assert r.sent[r.log[k].send] == [batch[k - |c.log|]];
    }
    forall s, i | |c.sent| <= s < |r.sent| && 0 <= i < |r.sent[s]|
      ensures WasNoted(r.log, |c.log|, s, r.sent[s][i])
    {
      var k := |c.log| + s - |c.sent|;
      assert TriedInTurn(w, c, r.log[k], batch, k);
    }
  }

  /** The attempt that `SendsRow` writes. */
  function RowAttempt(w: World, settings: Settings, c: Channel, id: nat): Attempt {
    var send := |c.sent|;
    Attempt(id,
            match w.AnswerOf(send)
            case Delivered => Confirmed
            case Permanent => Parked
            case Retryable => KeptAt(settings, c.rows, id, w.Clock(c.ticks + 1)),
            send)
  }

  lemma SendsRowDoes(w: World, settings: Settings, c: Channel, id: nat, region: Region)
    requires Steady(w)
    ensures var r, a := SendsRow(w, settings, c, id, region), RowAttempt(w, settings, c, id);
            && r.rows == Attempted(c.rows, a) && r.log == c.log + [a] && r.sent == c.sent + [[id]]
            && c.ticks <= r.ticks && SameBut(c.breakers, r.breakers, region)
            && (a.result.Kept? ==> a.result.due >= w.Clock(c.ticks) + FirstWait(settings))
  {
    ReplayOne(c.rows, RowAttempt(w, settings, c, id));
    WaitsGrow(settings, AttemptsOn(c.rows, id) + 1);
    assert w.Clock(c.ticks) <= w.Clock(c.ticks + 1);
  }

  lemma GoesOnKeeps(w: World, settings: Settings, c: Channel, region: Region, deadline: int)
    ensures var r := GoesOn(w, settings, c, region, deadline).1;
            && r.rows == c.rows && r.log == c.log && r.sent == c.sent && c.ticks < r.ticks
            && SameBut(c.breakers, r.breakers, region) && region in r.breakers
  {
  }

  lemma InTurnMore(w: World, settings: Settings, c: Channel, d: Channel, batch: seq<nat>, m: nat, region: Region)
    requires Steady(w) && InTurn(w, c, d, batch, m) && m < |batch|
    ensures InTurn(w, c, SendsRow(w, settings, d, batch[m], region), batch, m + 1)
  {
    SendsRowDoes(w, settings, d, batch[m], region);
    var r := SendsRow(w, settings, d, batch[m], region);
    forall k | |c.log| <= k < |r.log|
      ensures TriedInTurn(w, c, r.log[k], batch, k)
    {
      if k < |d.log| {
        assert TriedInTurn(w, c, d.log[k], batch, k);
      }
    }
  }

  /** What a send has done after `m` rows. */
  ghost predicate SentSome(
    w: World, c: Channel, d: Channel, batch: seq<nat>, m: nat, region: Region, floor: int, q: int)
  {
    && InTurn(w, c, d, batch, m)
    && SendOk(c.rows, c.log, d.rows, d.log, floor, q)
    && SameBut(c.breakers, d.breakers, region) && c.ticks <= d.ticks
  }

  /** One more row of the batch, after the checks let it through. */
  lemma RowDone(
    w: World, settings: Settings, c: Channel, d: Channel, batch: seq<nat>, m: nat, region: Region, floor: int, q: int)
    requires Steady(w) && Fetched(c.rows, batch, q) && floor <= w.Clock(c.ticks) + FirstWait(settings)
    requires SentSome(w, c, d, batch, m, region, floor, q) && m < |batch|
    ensures SentSome(w, c, SendsRow(w, settings, d, batch[m], region), batch, m + 1, region, floor, q)
  {
    SendsRowDoes(w, settings, d, batch[m], region);
    assert w.Clock(c.ticks) <= w.Clock(d.ticks);
    assert !WasTried(d.log, |c.log|, batch[m]) by {
      assert forall k :: |c.log| <= k < |d.log| ==> TriedInTurn(w, c, d.log[k], batch, k);
    }
    SendOneMore(c.rows, c.log, d.rows, d.log, floor, q, RowAttempt(w, settings, d, batch[m]));
    InTurnMore(w, settings, c, d, batch, m, region);
  }

  lemma NextRowDone(
    w: World, settings: Settings, c: Channel, s: Sending, batch: seq<nat>, m: nat, region: Region, deadline: int,
    floor: int, q: int)
    requires Steady(w) && Fetched(c.rows, batch, q) && floor <= w.Clock(c.ticks) + FirstWait(settings)
    requires SentSome(w, c, s.channel, batch, m, region, floor, q) && m < |batch| && !s.stopped
    ensures var r := NextRow(w, settings, s, batch[m], region, deadline);
            SentSome(w, c, r.channel, batch, if r.stopped then m else m + 1, region, floor, q)
  {
    GoesOnKeeps(w, settings, s.channel, region, deadline);
    var (go, checked) := GoesOn(w, settings, s.channel, region, deadline);
    assert SentSome(w, c, checked, batch, m, region, floor, q);
    if go {
      RowDone(w, settings, c, checked, batch, m, region, floor, q);
    }
  }

  /** How many rows the first `i` steps of a send tried: all of them unless it stopped. */
  function TriedUpTo(
    w: World, settings: Settings, c: Channel, batch: seq<nat>, region: Region, deadline: int, i: nat): (m: nat)
    requires i <= |batch|
    ensures m <= i && (!SendsUpTo(w, settings, c, batch, region, deadline, i).stopped ==> m == i)
  {
    if i == 0 then 0
    else
      TriedUpTo(w, settings, c, batch, region, deadline, i - 1) +
      if SendsUpTo(w, settings, c, batch, region, deadline, i).stopped then 0 else 1
  }

  /** What the first `i` rows of the batch leave: a first part of them was tried. */
  lemma {:induction false} SendsUpToDone(
    w: World, settings: Settings, c: Channel, batch: seq<nat>, region: Region, deadline: int, i: nat, floor: int, q: int)
    requires Steady(w) && i <= |batch| && Fetched(c.rows, batch, q) && floor <= w.Clock(c.ticks) + FirstWait(settings)
    ensures SentSome(w, c, SendsUpTo(w, settings, c, batch, region, deadline, i).channel, batch,
                     TriedUpTo(w, settings, c, batch, region, deadline, i), region, floor, q)
  {
    if i == 0 {
      assert c.log[|c.log|..] == [];
    } else {
      SendsUpToDone(w, settings, c, batch, region, deadline, i - 1, floor, q);
      var before := SendsUpTo(w, settings, c, batch, region, deadline, i - 1);
      if !before.stopped {
        NextRowDone(w, settings, c, before, batch, i - 1, region, deadline, floor, q);
      }
    }
  }

  /** Either kind of send. */
  lemma SendsDone(
    w: World, settings: Settings, c: Channel, batch: seq<nat>, region: Region, deadline: int, floor: int, q: int)
    requires Steady(w) && Fetched(c.rows, batch, q) && floor <= w.Clock(c.ticks) + FirstWait(settings)
    ensures SendDone(w, settings.batches, c, Sends(w, settings, c, batch, region, deadline), batch, region, floor, q)
  {
    if settings.batches {
      SendsBatchDone(w, settings, c, batch, region, floor, q);
    } else {
      SendsUpToDone(w, settings, c, batch, region, deadline, |batch|, floor, q);
      InTurnIsHeard(w, c, Sends(w, settings, c, batch, region, deadline), batch,
                    TriedUpTo(w, settings, c, batch, region, deadline, |batch|));
    }
  }
}
