/**
 * `BlockedAccountEventsService` (`gateway/core/services/blocked_account_events.py`): every event upserts or deletes one
 * row of the blocked table, and deliveries can be repeated.
 */
module BlockedAccountEvents {
  import opened Wrappers
  import opened Crn
  import opened BlockedResources

  /** A value of the event's payload, as far as it is told apart. */
  datatype Value = Null | Text(text: string) | Boolean(flag: bool) | Other

  type Payload = map<string, Value>

  datatype Error =
    | UnknownTopic
    | NotText(field: string)
    | TooLong(field: string)
    | Missing(fields: seq<string>)
    | NotBoolean

  const FIELDS := ["account_id", "plan_id", "subscription_id"]
  const MAX_LENGTH := 255

  /** What an event asks for: its row in the table, or out of it. */
  datatype Update = Update(row: Row, deleted: bool)

  function Get(payload: Payload, field: string): Value {
    if field in payload then payload[field] else Null
  }

  // ------------------------------------------------------------------ reading an event

  /** The value of a field, with the account prefix gone. */
  function Stripped(payload: Payload, i: nat): Value
    requires i < |FIELDS|
  {
    var value := Get(payload, FIELDS[i]);
    if i == 0 && value.Text? then Text(WithoutPrefix(value.text)) else value
  }

  predicate IsMissing(payload: Payload, i: nat)
    requires i < |FIELDS|
  {
    Stripped(payload, i) == Null || Stripped(payload, i) == Text("")
  }

  predicate IsStorable(payload: Payload, i: nat)
    requires i < |FIELDS|
  {
    var value := Stripped(payload, i);
    value.Text? && 0 < |value.text| <= MAX_LENGTH
  }

  predicate IsFlag(value: Value) {
    value.Null? || value.Boolean?
  }

  /** The fields that are missing among the first `n`. */
  function MissingAmong(payload: Payload, n: nat): seq<string>
    requires n <= |FIELDS|
  {
    if n == 0 then []
    else MissingAmong(payload, n - 1) + if IsMissing(payload, n - 1) then [FIELDS[n - 1]] else []
  }

  lemma {:induction false} NoneMissing(payload: Payload, n: nat)
    requires n <= |FIELDS|
    ensures MissingAmong(payload, n) == [] <==> forall i :: 0 <= i < n ==> !IsMissing(payload, i)
  {
    if n > 0 {
      NoneMissing(payload, n - 1);
    }
  }

  /** The event can be handled. */
  predicate IsValid(payload: Payload) {
    && (forall i :: 0 <= i < |FIELDS| ==> IsStorable(payload, i))
    && IsFlag(Get(payload, "deleted"))
  }

  /** What a valid event says of its resource. */
  function UpdateOf(payload: Payload, reason: string, region: string): Update
    requires IsValid(payload)
  {
    assert IsStorable(payload, 0) && IsStorable(payload, 1) && IsStorable(payload, 2);
    Update(
      Row(Some(Stripped(payload, 0).text), Some(Stripped(payload, 1).text), Some(Stripped(payload, 2).text),
          reason, region),
      Get(payload, "deleted") == Boolean(true))
  }

  /** Why an event is refused: the first field that is not text or too long, or else what is missing, or else the flag. */
  predicate Explains(payload: Payload, error: Error) {
    match error
    case UnknownTopic => false
    case NotText(field) =>
      exists i :: 0 <= i < |FIELDS| && FIELDS[i] == field && !IsMissing(payload, i) && !Stripped(payload, i).Text? &&
        Unobjectionable(payload, i)
    case TooLong(field) =>
      exists i :: 0 <= i < |FIELDS| && FIELDS[i] == field && Stripped(payload, i).Text? &&
        |Stripped(payload, i).text| > MAX_LENGTH && Unobjectionable(payload, i)
    case Missing(fields) => fields != [] && fields == MissingAmong(payload, |FIELDS|) && Unobjectionable(payload, |FIELDS|)
    case NotBoolean =>
      (forall i :: 0 <= i < |FIELDS| ==> IsStorable(payload, i)) && !IsFlag(Get(payload, "deleted"))
  }

  /** The first fields are each missing or storable. */
  predicate Unobjectionable(payload: Payload, n: nat)
    requires n <= |FIELDS|
  {
    forall i :: 0 <= i < n ==> IsMissing(payload, i) || IsStorable(payload, i)
  }

  /** `_parse_event`: it reads exactly the valid events, and refuses each of the others for its reason. */
  method ParseEvent(payload: Payload) returns (r: Result<(seq<string>, bool), Error>)
    ensures r.Ok? <==> IsValid(payload)
    ensures r.Ok? ==>
              && |r.value.0| == 3
              && (forall i :: 0 <= i < 3 ==> Stripped(payload, i) == Text(r.value.0[i]))
              && r.value.1 == (Get(payload, "deleted") == Boolean(true))
    ensures r.Err? ==> Explains(payload, r.error)
  {
    var columns, missing := [], [];
    for i := 0 to |FIELDS|
      invariant Unobjectionable(payload, i)
      invariant missing == MissingAmong(payload, i)
      invariant missing == [] ==> |columns| == i && forall j :: 0 <= j < i ==> Stripped(payload, j) == Text(columns[j])
    {
      var value := Stripped(payload, i);
      if value == Null || value == Text("") {
        missing := missing + [FIELDS[i]];
      } else if !value.Text? {
        assert !IsStorable(payload, i);
        return Err(NotText(FIELDS[i]));
      } else if |value.text| > MAX_LENGTH {
        assert !IsStorable(payload, i);
        return Err(TooLong(FIELDS[i]));
      } else {
        columns := columns + [value.text];
      }
    }
    NoneMissing(payload, |FIELDS|);
    assert forall i :: 0 <= i < |FIELDS| && IsMissing(payload, i) ==> !IsStorable(payload, i);
    if missing != [] {
      return Err(Missing(missing));
    }
    var deleted := Get(payload, "deleted");
    if !IsFlag(deleted) {
      return Err(NotBoolean);
    }
    return Ok((columns, deleted == Boolean(true)));
  }

  /** The table after an update: applying it is setting whether its row is there. */
  function Applied(table: set<Row>, update: Update): set<Row> {
    if update.deleted then table - {update.row} else table + {update.row}
  }

  class Service {
    /** The reason of each topic consumed. */
    const reasons: map<string, string>
    var table: set<Row>

    constructor (reasons: map<string, string>, table: set<Row>)
      ensures this.reasons == reasons && this.table == table
    {
      this.reasons, this.table := reasons, table;
    }

    /** `handle`: an event that cannot be handled changes nothing. */
    method Handle(payload: Payload, region: string, topic: string) returns (r: Result<Update, Error>)
      modifies this
      ensures r.Ok? <==> topic in reasons && IsValid(payload)
      ensures r.Ok? ==> r.value == UpdateOf(payload, reasons[topic], region) && table == Applied(old(table), r.value)
      ensures r.Err? ==> table == old(table)
      ensures r.Err? ==> if topic !in reasons then r.error == UnknownTopic else Explains(payload, r.error)
    {
      if topic !in reasons {
        return Err(UnknownTopic);
      }
      var parsed := ParseEvent(payload);
      if parsed.Err? {
        return Err(parsed.error);
      }
      var (columns, deleted) := parsed.value;
      var row := Row(Some(columns[0]), Some(columns[1]), Some(columns[2]), reasons[topic], region);
      if deleted {
        table := table - {row};
      } else if row !in table {
        table := table + {row};
      }
      r := Ok(Update(row, deleted));
    }
  }

  // ------------------------------------------------------------------ logs of events

  function TableAfter(table: set<Row>, log: seq<Update>): set<Row> {
    if log == [] then table else Applied(TableAfter(table, log[..|log| - 1]), log[|log| - 1])
  }

  /** What the log says last of a row: blocked or not, or nothing. */
  function LastWord(log: seq<Update>, row: Row): Option<bool> {
    if log == [] then None
    else
      var last := log[|log| - 1];
      if last.row == row then Some(!last.deleted) else LastWord(log[..|log| - 1], row)
  }

  /** The table mirrors the log: a row is there when the last word on it says so, or when it was there and no word was said. */
  lemma {:induction false} TableMirrorsLog(table: set<Row>, log: seq<Update>, row: Row)
    ensures row in TableAfter(table, log) <==>
            if LastWord(log, row).Some? then LastWord(log, row).value else row in table
  {
    if log != [] {
      TableMirrorsLog(table, log[..|log| - 1], row);
    }
  }

  lemma {:induction false} LastWordOfSuffix(log: seq<Update>, k: nat, row: Row)
    requires k <= |log|
    ensures LastWord(log[k..], row).Some? ==> LastWord(log, row) == LastWord(log[k..], row)
  {
    if k < |log| {
      var n := |log| - 1;
      assert log[k..][..n - k] == log[..n][k..];
      LastWordOfSuffix(log[..n], k, row);
    }
  }

  /** Replay safety: a consumer that goes back to any place of the log and reads on to its end changes nothing. */
  lemma ReplayChangesNothing(table: set<Row>, log: seq<Update>, k: nat)
    requires k <= |log|
    ensures TableAfter(TableAfter(table, log), log[k..]) == TableAfter(table, log)
  {
    var after := TableAfter(table, log);
    forall row
      ensures row in TableAfter(after, log[k..]) <==> row in after
    {
      TableMirrorsLog(table, log, row);
      TableMirrorsLog(after, log[k..], row);
      LastWordOfSuffix(log, k, row);
    }
  }

  /** The updates of one row, in order. */
  function Of(log: seq<Update>, row: Row): seq<Update> {
    if log == [] then []
    else
      var last := log[|log| - 1];
      Of(log[..|log| - 1], row) + if last.row == row then [last] else []
  }

  lemma {:induction false} LastWordIsOwn(log: seq<Update>, row: Row)
    ensures LastWord(log, row) ==
            if Of(log, row) == [] then None else Some(!Of(log, row)[|Of(log, row)| - 1].deleted)
  {
    if log != [] {
      LastWordIsOwn(log[..|log| - 1], row);
    }
  }

  /** Only the order of the events of the same row matters: the others commute, however the partitions are interleaved. */
  lemma OrderOfOthersIsFree(table: set<Row>, a: seq<Update>, b: seq<Update>)
    requires forall row :: Of(a, row) == Of(b, row)
    ensures TableAfter(table, a) == TableAfter(table, b)
  {
    forall row
      ensures row in TableAfter(table, a) <==> row in TableAfter(table, b)
    {
      assert Of(a, row) == Of(b, row);
      LastWordIsOwn(a, row);
      LastWordIsOwn(b, row);
      TableMirrorsLog(table, a, row);
      TableMirrorsLog(table, b, row);
    }
  }

  lemma {:induction false} OfConcat(a: seq<Update>, b: seq<Update>, row: Row)
    ensures Of(a + b, row) == Of(a, row) + Of(b, row)
  {
    if b == [] {
      assert a + b == a;
    } else {
      OfConcat(a, b[..|b| - 1], row);
      assert (a + b)[..|a + b| - 1] == a + b[..|b| - 1];
    }
  }

  /** Two neighbours of different rows may be exchanged anywhere in a log. */
  lemma NeighboursCommute(table: set<Row>, before: seq<Update>, x: Update, y: Update, after: seq<Update>)
    requires x.row != y.row
    ensures TableAfter(table, before + [x] + [y] + after) == TableAfter(table, before + [y] + [x] + after)
  {
    forall row
      ensures Of(before + [x] + [y] + after, row) == Of(before + [y] + [x] + after, row)
    {
      OfConcat(before + [x] + [y], after, row);
      OfConcat(before + [y] + [x], after, row);
      OfConcat(before + [x], [y], row);
      OfConcat(before + [y], [x], row);
      OfConcat(before, [x], row);
      OfConcat(before, [y], row);
    }
    OrderOfOthersIsFree(table, before + [x] + [y] + after, before + [y] + [x] + after);
  }

  /**
   * A resource is blocked, when regions are not compared, as long as the last word on some reason and region of it is a
   * block: an unblock lifts only its own.
   */
  lemma BlockedWhileSomeRowIs(
    log: seq<Update>, account: Option<string>, plan: Option<string>, subscription: Option<string>, region: Option<string>)
    ensures Blocks(TableAfter({}, log), Settings(true, false), account, plan, subscription, region) <==>
            exists reason, at ::
              LastWord(log, Row(account, plan, subscription, reason, at)) == Some(true)
  {
    var table := TableAfter({}, log);
    if Blocks(table, Settings(true, false), account, plan, subscription, region) {
      var row :| row in table && SameResource(row, account, plan, subscription);
      TableMirrorsLog({}, log, row);
      assert row == Row(account, plan, subscription, row.reason, row.region);
    }
    if reason, at :| LastWord(log, Row(account, plan, subscription, reason, at)) == Some(true) {
      TableMirrorsLog({}, log, Row(account, plan, subscription, reason, at));
      assert SameResource(Row(account, plan, subscription, reason, at), account, plan, subscription);
    }
  }
}
