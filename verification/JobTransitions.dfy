/**
 * `JobTransitionService` of `gateway/core/services/job_transitions.py`: the status of a job, its events, and the
 * outbox and mirror rows written in the same transaction. `outbox` holds every row ever created for the job.
 */
module JobTransitions {
  import opened Wrappers

  datatype Status = QUEUED | PENDING | RUNNING | STOPPING | SUCCEEDED | FAILED | STOPPED

  predicate Terminal(st: Status) {
    st == SUCCEEDED || st == FAILED || st == STOPPED
  }

  /** `VALID_TRANSITIONS`. */
  predicate ValidTransition(from: Status, to: Status) {
    match from
    case QUEUED => to in {PENDING, FAILED, STOPPED, STOPPING}
    case PENDING => to in {SUCCEEDED, FAILED, STOPPED, STOPPING, RUNNING}
    case RUNNING => to in {SUCCEEDED, FAILED, STOPPED, STOPPING}
    case STOPPING => to in {SUCCEEDED, FAILED, STOPPED}
    case _ => false
  }

  /** The fields of a job that no transition changes. */
  datatype JobInfo = JobInfo(fleets: bool, filler: bool, hasCrn: bool, hasProvider: bool, hasSize: bool)

  /** What one call finds around it: whether the job still has its program, and whether the database answers. */
  datatype Call = Call(programDeleted: bool, databaseFails: bool)

  predicate UsageBillable(info: JobInfo) {
    info.fleets && !info.filler && info.hasCrn
  }

  predicate FeeBillable(info: JobInfo, call: Call) {
    info.fleets && !info.filler && info.hasCrn && !call.programDeleted && info.hasProvider
  }

  /** The labels of the Runtime API. */
  datatype WorkloadStatus = WQueued | WPending | WRunning | WStopping | WCompleted | WFailed | WCancelled

  function WorkloadStatusOf(st: Status): WorkloadStatus {
    match st
    case QUEUED => WQueued
    case PENDING => WPending
    case RUNNING => WRunning
    case STOPPING => WStopping
    case SUCCEEDED => WCompleted
    case FAILED => WFailed
    case STOPPED => WCancelled
  }

  datatype OutboxRow = JobUsage | LicenseFee | Workload(status: WorkloadStatus)

  datatype Event = StatusEvent(status: Status) | SubmitFailed | FleetLeftRunning(fleet: nat)

  datatype Db = Db(status: Status, fleet: Option<nat>, events: seq<Event>, outbox: seq<OutboxRow>, mirror: bool)

  datatype Refusal = InvalidTransition | FleetAppeared | PayloadRejected | DatabaseError

  type Attempted = Result<Db, Refusal>

  /** `JobEvent.objects.first_running_at(job.id) is not None`. */
  predicate Ran(db: Db) {
    StatusEvent(RUNNING) in db.events
  }

  function ChangeStatus(db: Db, to: Status): Attempted {
    if ValidTransition(db.status, to)
    then Ok(db.(events := db.events + [StatusEvent(to)], status := to))
    else Err(InvalidTransition)
  }

  function EnqueueWorkload(info: JobInfo, db: Db, call: Call): Attempted {
    if !db.mirror then Ok(db)
    else if !info.hasCrn || call.programDeleted then Err(PayloadRejected)
    else Ok(db.(outbox := db.outbox + [Workload(WorkloadStatusOf(db.status))], mirror := false))
  }

  function EnqueueFee(info: JobInfo, db: Db): Db {
    if info.hasSize then db.(outbox := db.outbox + [LicenseFee]) else db
  }

  /** The billing rows of a job that a `to_*` method ends. */
  function Bill(info: JobInfo, db: Db, call: Call): Db {
    if !UsageBillable(info) then db
    else
      var used := db.(outbox := db.outbox + [JobUsage]);
      if (db.status == SUCCEEDED || Ran(db)) && FeeBillable(info, call) then EnqueueFee(info, used) else used
  }

  /** The rest of `to_succeeded` and `to_stopped_or_failed` once the status is written. */
  function Settle(info: JobInfo, db: Db, call: Call): Attempted {
    EnqueueWorkload(info, Bill(info, db, call), call)
  }

  /** The last transaction of `stop`: it ends the job only while the row still has the fleet the caller saw. */
  function StopDirectly(info: JobInfo, db: Db, copyFleet: Option<nat>, call: Call): Attempted {
    if db.fleet != copyFleet then Err(FleetAppeared)
    else
      match ChangeStatus(db, STOPPED)
      case Err(e) => Err(e)
      case Ok(stopped) => EnqueueWorkload(info, stopped, call)
  }

  /** One transaction on the row of the job. */
  datatype Transition =
    | QueuedToPending
    | PendingToRunning
    | MarkStopping
    | StopDirect(copyFleet: Option<nat>)
    | ToTerminal(status: Status)
    | RecordFleet(fleet: nat)
    | AddError(event: Event)

  predicate Callable(tr: Transition) {
    (tr.ToTerminal? ==> Terminal(tr.status)) && (tr.AddError? ==> !tr.event.StatusEvent?)
  }

  function Attempt(info: JobInfo, db: Db, tr: Transition, call: Call): Attempted {
    match tr
    case QueuedToPending => ChangeStatus(db, PENDING)
    case PendingToRunning => ChangeStatus(db, RUNNING)
    case MarkStopping => ChangeStatus(db, STOPPING)
    case StopDirect(copyFleet) => StopDirectly(info, db, copyFleet, call)
    case ToTerminal(status) =>
      (match ChangeStatus(db, status)
       case Err(e) => Err(e)
       case Ok(ended) => Settle(info, ended, call))
    case RecordFleet(f) => Ok(db.(fleet := Some(f)))
    case AddError(event) => Ok(db.(events := db.events + [event]))
  }

  /** `transaction.atomic`: everything of the attempt, or nothing. */
  function Transact(info: JobInfo, db: Db, tr: Transition, call: Call): Db {
    if call.databaseFails then db
    else
      match Attempt(info, db, tr, call)
      case Ok(after) => after
      case Err(_) => db
  }

  // ------------------------------------------------------------------ what every transaction keeps

  function Rows(outbox: seq<OutboxRow>, row: OutboxRow): nat {
    multiset(outbox)[row]
  }

  function StatusEvents(events: seq<Event>, st: Status): nat {
    multiset(events)[StatusEvent(st)]
  }

  /** A job as the gateway creates it. */
  predicate Created(db: Db) {
    && db.status == QUEUED && db.outbox == []
    && forall e :: e in db.events ==> e.StatusEvent? ==> e.status == QUEUED
  }

  predicate WorkloadRow(row: OutboxRow) {
    row.Workload?
  }

  /** The workload rows ever created are the ones a job mirrored at creation owes in its status. */
  ghost predicate MirrorOk(db: Db, mirrored: bool) {
    if Terminal(db.status) then
      && !db.mirror
      && (forall row :: row in db.outbox && WorkloadRow(row) ==> mirrored && row == Workload(WorkloadStatusOf(db.status)))
      && Rows(db.outbox, Workload(WorkloadStatusOf(db.status))) == (if mirrored then 1 else 0)
    else
      db.mirror == mirrored && db.outbox == []
  }

  /** RUNNING comes after PENDING, which comes after QUEUED, and the ends come once. */
  ghost predicate EventsOk(db: Db) {
    && (db.status == QUEUED ==> StatusEvents(db.events, PENDING) == 0)
    && (db.status == QUEUED || db.status == PENDING ==> StatusEvents(db.events, RUNNING) == 0)
    && StatusEvents(db.events, PENDING) <= 1 && StatusEvents(db.events, RUNNING) <= 1
    && StatusEvents(db.events, SUCCEEDED) + StatusEvents(db.events, FAILED) + StatusEvents(db.events, STOPPED)
       == (if Terminal(db.status) then 1 else 0)
  }

  ghost predicate BillingOk(db: Db) {
    Rows(db.outbox, JobUsage) <= 1 && Rows(db.outbox, LicenseFee) <= Rows(db.outbox, JobUsage)
  }

  ghost predicate DbInv(db: Db, mirrored: bool) {
    MirrorOk(db, mirrored) && EventsOk(db) && BillingOk(db)
  }

  lemma CreatedInv(db: Db)
    requires Created(db)
    ensures DbInv(db, db.mirror)
  {
  }

  lemma ChangeStatusKeepsEvents(db: Db, to: Status)
    requires EventsOk(db) && ChangeStatus(db, to).Ok?
    ensures EventsOk(ChangeStatus(db, to).value)
  {
  }

  /** A terminal status is written once, with everything it owes. */
  lemma SettleRows(info: JobInfo, db: Db, call: Call, mirrored: bool)
    requires Terminal(db.status) && db.outbox == [] && db.mirror == mirrored && Settle(info, db, call).Ok?
    ensures var after := Settle(info, db, call).value;
            && MirrorOk(after, mirrored) && BillingOk(after) && after.events == db.events && after.status == db.status
            && Rows(after.outbox, JobUsage) == (if UsageBillable(info) then 1 else 0)
            && Rows(after.outbox, LicenseFee) ==
               (if FeeBillable(info, call) && info.hasSize && (db.status == SUCCEEDED || Ran(db)) then 1 else 0)
  {
    BillRows(info, db, call);
    WorkloadRows(info, Bill(info, db, call), call);
  }

  lemma BillRows(info: JobInfo, db: Db, call: Call)
    requires db.outbox == []
    ensures var after := Bill(info, db, call);
            && after.events == db.events && after.status == db.status && after.mirror == db.mirror
            && (forall row :: row in after.outbox ==> !WorkloadRow(row))
            && Rows(after.outbox, JobUsage) == (if UsageBillable(info) then 1 else 0)
            && Rows(after.outbox, LicenseFee) ==
               (if FeeBillable(info, call) && info.hasSize && (db.status == SUCCEEDED || Ran(db)) then 1 else 0)
  {
  }

  lemma WorkloadRows(info: JobInfo, db: Db, call: Call)
    requires Terminal(db.status) && EnqueueWorkload(info, db, call).Ok?
    requires forall row :: row in db.outbox ==> !WorkloadRow(row)
    ensures var after := EnqueueWorkload(info, db, call).value;
            && MirrorOk(after, db.mirror) && after.events == db.events && after.status == db.status
            && Rows(after.outbox, JobUsage) == Rows(db.outbox, JobUsage)
            && Rows(after.outbox, LicenseFee) == Rows(db.outbox, LicenseFee)
  {
    var row := Workload(WorkloadStatusOf(db.status));
    assert row !in db.outbox && row !in multiset(db.outbox);
  }

  lemma ActiveMoveKeepsInv(db: Db, to: Status, mirrored: bool)
    requires DbInv(db, mirrored) && !Terminal(to) && ChangeStatus(db, to).Ok?
    ensures DbInv(ChangeStatus(db, to).value, mirrored)
  {
    ChangeStatusKeepsEvents(db, to);
  }

  lemma StopDirectKeepsInv(info: JobInfo, db: Db, copyFleet: Option<nat>, call: Call, mirrored: bool)
    requires DbInv(db, mirrored) && StopDirectly(info, db, copyFleet, call).Ok?
    ensures DbInv(StopDirectly(info, db, copyFleet, call).value, mirrored)
  {
    ChangeStatusKeepsEvents(db, STOPPED);
  }

  lemma ToTerminalKeepsInv(info: JobInfo, db: Db, status: Status, call: Call, mirrored: bool)
    requires DbInv(db, mirrored) && Terminal(status) && Attempt(info, db, ToTerminal(status), call).Ok?
    ensures DbInv(Attempt(info, db, ToTerminal(status), call).value, mirrored)
  {
    ChangeStatusKeepsEvents(db, status);
    SettleRows(info, ChangeStatus(db, status).value, call, mirrored);
  }

  lemma ErrorEventKeepsInv(db: Db, event: Event, mirrored: bool)
    requires DbInv(db, mirrored) && !event.StatusEvent?
    ensures DbInv(db.(events := db.events + [event]), mirrored)
  {
  }

  lemma AttemptKeepsInv(info: JobInfo, db: Db, tr: Transition, call: Call, mirrored: bool)
    requires DbInv(db, mirrored) && Callable(tr) && Attempt(info, db, tr, call).Ok?
    ensures DbInv(Attempt(info, db, tr, call).value, mirrored)
  {
    match tr
    case QueuedToPending => ActiveMoveKeepsInv(db, PENDING, mirrored);
    case PendingToRunning => ActiveMoveKeepsInv(db, RUNNING, mirrored);
    case MarkStopping => ActiveMoveKeepsInv(db, STOPPING, mirrored);
    case StopDirect(copyFleet) => StopDirectKeepsInv(info, db, copyFleet, call, mirrored);
    case ToTerminal(status) => ToTerminalKeepsInv(info, db, status, call, mirrored);
    case RecordFleet(_) =>
    case AddError(event) => ErrorEventKeepsInv(db, event, mirrored);
  }

  lemma TransactKeepsInv(info: JobInfo, db: Db, tr: Transition, call: Call, mirrored: bool)
    requires DbInv(db, mirrored) && Callable(tr)
    ensures DbInv(Transact(info, db, tr, call), mirrored)
  {
    if !call.databaseFails && Attempt(info, db, tr, call).Ok? {
      AttemptKeepsInv(info, db, tr, call, mirrored);
    }
  }

  // ------------------------------------------------------------------ runs

  datatype Step = Step(transition: Transition, call: Call)

  /** Any sequence of transactions, whatever stale copy each of them was decided on. */
  ghost predicate IsRun(info: JobInfo, dbs: seq<Db>, steps: seq<Step>) {
    && |dbs| == |steps| + 1 && Created(dbs[0])
    && forall i :: 0 <= i < |steps| ==>
         Callable(steps[i].transition) && dbs[i + 1] == Transact(info, dbs[i], steps[i].transition, steps[i].call)
  }

  lemma {:induction false} RunInv(info: JobInfo, dbs: seq<Db>, steps: seq<Step>, i: nat)
    requires IsRun(info, dbs, steps) && i < |dbs|
    ensures DbInv(dbs[i], dbs[0].mirror)
  {
    if i == 0 {
      CreatedInv(dbs[0]);
    } else {
      RunInv(info, dbs, steps, i - 1);
      TransactKeepsInv(info, dbs[i - 1], steps[i - 1].transition, steps[i - 1].call, dbs[0].mirror);
    }
  }

  /** Terminal statuses are absorbing, and the outbox of an ended job never changes again. */
  lemma {:induction false} TerminalIsAbsorbing(info: JobInfo, dbs: seq<Db>, steps: seq<Step>, i: nat, j: nat)
    requires IsRun(info, dbs, steps) && i <= j < |dbs| && Terminal(dbs[i].status)
    ensures dbs[j].status == dbs[i].status && dbs[j].outbox == dbs[i].outbox && dbs[j].mirror == dbs[i].mirror
  {
    if i < j {
      TerminalIsAbsorbing(info, dbs, steps, i, j - 1);
    }
  }

  /** In every reachable state a job has at most one usage row, one fee row, one RUNNING and one terminal event. */
  lemma BilledAtMostOnce(info: JobInfo, dbs: seq<Db>, steps: seq<Step>, i: nat)
    requires IsRun(info, dbs, steps) && i < |dbs|
    ensures Rows(dbs[i].outbox, JobUsage) <= 1 && Rows(dbs[i].outbox, LicenseFee) <= 1
    ensures StatusEvents(dbs[i].events, RUNNING) <= 1
    ensures StatusEvents(dbs[i].events, SUCCEEDED) + StatusEvents(dbs[i].events, FAILED)
            + StatusEvents(dbs[i].events, STOPPED) <= 1
    ensures !Terminal(dbs[i].status) ==> dbs[i].outbox == []
  {
    RunInv(info, dbs, steps, i);
  }

  /**
   * A job mirrored at creation is, in every reachable state, either active with its mirror row and no workload row
   * ever created, or ended with the mirror row gone and exactly one workload row, which carries its final status.
   * A job that was not mirrored never gets a workload row.
   */
  lemma MirrorIsExclusive(info: JobInfo, dbs: seq<Db>, steps: seq<Step>, i: nat)
    requires IsRun(info, dbs, steps) && i < |dbs|
    ensures dbs[i].mirror <==> dbs[0].mirror && !Terminal(dbs[i].status)
    ensures forall row :: row in dbs[i].outbox && row.Workload? ==>
              dbs[0].mirror && Terminal(dbs[i].status) && row.status == WorkloadStatusOf(dbs[i].status)
    ensures Rows(dbs[i].outbox, Workload(WorkloadStatusOf(dbs[i].status))) ==
            (if dbs[0].mirror && Terminal(dbs[i].status) then 1 else 0)
  {
    RunInv(info, dbs, steps, i);
    forall row | row in dbs[i].outbox && row.Workload?
      ensures dbs[0].mirror && Terminal(dbs[i].status) && row.status == WorkloadStatusOf(dbs[i].status)
    {
      assert WorkloadRow(row);
    }
  }

  /** The step that ended the job: the status was active before it and is terminal after it. */
  ghost predicate EndsAt(dbs: seq<Db>, i: nat) {
    i + 1 < |dbs| && !Terminal(dbs[i].status) && Terminal(dbs[i + 1].status)
  }

  lemma EndingStep(info: JobInfo, dbs: seq<Db>, steps: seq<Step>, i: nat)
    requires IsRun(info, dbs, steps) && EndsAt(dbs, i)
    ensures steps[i].transition.StopDirect? || steps[i].transition.ToTerminal?
    ensures var end := steps[i];
            Rows(dbs[i + 1].outbox, JobUsage) ==
            (if end.transition.ToTerminal? && UsageBillable(info) then 1 else 0)
    ensures var end := steps[i];
            Rows(dbs[i + 1].outbox, LicenseFee) ==
            (if end.transition.ToTerminal? && FeeBillable(info, end.call) && info.hasSize
                && (dbs[i + 1].status == SUCCEEDED || Ran(dbs[i])) then 1 else 0)
  {
    RunInv(info, dbs, steps, i);
    EndingRows(info, dbs[i], steps[i].transition, steps[i].call, dbs[0].mirror);
  }

  /** The transactions that end a job, and the billing rows each of them writes. */
  lemma EndingRows(info: JobInfo, db: Db, tr: Transition, call: Call, mirrored: bool)
    requires DbInv(db, mirrored) && Callable(tr) && !Terminal(db.status)
    requires Terminal(Transact(info, db, tr, call).status)
    ensures tr.StopDirect? || tr.ToTerminal?
    ensures var r := Transact(info, db, tr, call);
            && Rows(r.outbox, JobUsage) == (if tr.ToTerminal? && UsageBillable(info) then 1 else 0)
            && Rows(r.outbox, LicenseFee) ==
               (if tr.ToTerminal? && FeeBillable(info, call) && info.hasSize && (r.status == SUCCEEDED || Ran(db))
                then 1 else 0)
  {
    if tr.ToTerminal? {
      SettleRows(info, ChangeStatus(db, tr.status).value, call, mirrored);
    }
  }

  /**
   * What an ended job is billed, from the step that ended it on. A `to_*` method bills a billable job exactly once,
   * and its fee exactly when the function has a provider and a size and the job succeeded or ran.
   * The direct end of `stop` bills nothing.
   */
  lemma BilledExactly(info: JobInfo, dbs: seq<Db>, steps: seq<Step>, i: nat, j: nat)
    requires IsRun(info, dbs, steps) && EndsAt(dbs, i) && i < j < |dbs|
    ensures Rows(dbs[j].outbox, JobUsage) == 1 <==> steps[i].transition.ToTerminal? && UsageBillable(info)
    ensures Rows(dbs[j].outbox, LicenseFee) == 1 <==>
              && steps[i].transition.ToTerminal? && FeeBillable(info, steps[i].call) && info.hasSize
              && (dbs[j].status == SUCCEEDED || Ran(dbs[i]))
    ensures Rows(dbs[j].outbox, JobUsage) <= 1 && Rows(dbs[j].outbox, LicenseFee) <= 1
  {
    EndingStep(info, dbs, steps, i);
    TerminalIsAbsorbing(info, dbs, steps, i + 1, j);
  }

  /**
   * specs/OUTBOX.md promises a usage event for every billable job that ends, "even a job cancelled while still
   * queued". The direct end of `stop` does not write one: a billable job stopped before its fleet exists.
   */
  lemma StoppedWhileQueuedIsNotBilled()
    ensures exists info: JobInfo, dbs: seq<Db>, steps: seq<Step> ::
              && IsRun(info, dbs, steps) && UsageBillable(info)
              && |dbs| == 2 && dbs[1].status == STOPPED && Rows(dbs[1].outbox, JobUsage) == 0
  {
    var info := JobInfo(true, false, true, true, true);
    var start := Db(QUEUED, None, [StatusEvent(QUEUED)], [], false);
    var step := Step(StopDirect(None), Call(false, false));
    var dbs := [start, Transact(info, start, step.transition, step.call)];
    assert IsRun(info, dbs, [step]);
  }

  /** When the promise of specs/OUTBOX.md holds: exactly when the job is not ended by the direct end of `stop`. */
  lemma UsageOwedToEveryEndedJob(info: JobInfo, dbs: seq<Db>, steps: seq<Step>, i: nat, j: nat)
    requires IsRun(info, dbs, steps) && UsageBillable(info) && EndsAt(dbs, i) && i < j < |dbs|
    ensures Rows(dbs[j].outbox, JobUsage) == 1 <==> !steps[i].transition.StopDirect?
  {
    EndingStep(info, dbs, steps, i);
    BilledExactly(info, dbs, steps, i, j);
  }
}
