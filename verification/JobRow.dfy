/**
 * The transition methods on a row updated in place: each one writes its fields one after the other inside a
 * transaction and puts them back when something raises. A caller's copy of the job is an object of its own, which a
 * rolled-back transaction does not restore.
 */
module JobRow {
  import opened Wrappers
  import opened JobTransitions

  /** The in-memory job of one caller. */
  class JobCopy {
    var status: Status
    var fleet: Option<nat>

    constructor (row: Row)
      ensures status == row.status && fleet == row.fleet
    {
      status, fleet := row.status, row.fleet;
    }
  }

  class Row {
    const info: JobInfo
    var status: Status
    var fleet: Option<nat>
    var events: seq<Event>
    var outbox: seq<OutboxRow>
    var mirror: bool

    constructor (info: JobInfo, mirrored: bool)
      ensures this.info == info && Created(Now()) && mirror == mirrored && fleet == None
    {
      this.info := info;
      status, fleet, events, outbox, mirror := QUEUED, None, [StatusEvent(QUEUED)], [], mirrored;
    }

    function Now(): Db
      reads this
    {
      Db(status, fleet, events, outbox, mirror)
    }

    method Restore(saved: Db)
      modifies this
      ensures Now() == saved
    {
      status, fleet, events, outbox, mirror := saved.status, saved.fleet, saved.events, saved.outbox, saved.mirror;
    }

    /** `_change_status`: the status is read again from the row, whatever the copy says. */
    method ChangeStatus(copy: JobCopy, to: Status) returns (refused: Option<Refusal>)
      modifies this, copy
      ensures refused.None? <==> ValidTransition(old(status), to)
      ensures refused.None? ==> JobTransitions.ChangeStatus(old(Now()), to) == Ok(Now()) && copy.status == to
      ensures refused.Some? ==> refused.value == InvalidTransition && Now() == old(Now()) && copy.status == old(copy.status)
      ensures copy.fleet == old(copy.fleet)
    {
      if !ValidTransition(status, to) {
        return Some(InvalidTransition);
      }
      events := events + [StatusEvent(to)];
      status := to;
      copy.status := to;
      return None;
    }

    /** `_enqueue_workload`. */
    method EnqueueWorkload(call: Call) returns (refused: Option<Refusal>)
      modifies this
      ensures refused.None? ==> JobTransitions.EnqueueWorkload(info, old(Now()), call) == Ok(Now())
      ensures refused.Some? ==> JobTransitions.EnqueueWorkload(info, old(Now()), call) == Err(refused.value)
    {
      if mirror {
        if !info.hasCrn || call.programDeleted {
          return Some(PayloadRejected);
        }
        outbox := outbox + [Workload(WorkloadStatusOf(status))];
        mirror := false;
      }
      return None;
    }

    /** `to_succeeded`, `to_failed` and `to_stopped`. */
    method ToTerminal(copy: JobCopy, to: Status, call: Call) returns (refused: Option<Refusal>)
      requires Terminal(to)
      modifies this, copy
      ensures Now() == Transact(info, old(Now()), JobTransitions.ToTerminal(to), call)
      ensures refused.None? ==> Now().status == to && copy.status == to
      ensures refused.Some? ==> Now() == old(Now())
      ensures copy.status == if ValidTransition(old(status), to) then to else old(copy.status)
      ensures copy.fleet == old(copy.fleet)
    {
      var saved := Now();
      refused := ChangeStatus(copy, to);
      if refused.Some? {
        return;
      }
      if UsageBillable(info) {
        var ran := StatusEvent(RUNNING) in events;
        outbox := outbox + [JobUsage];
        if (to == SUCCEEDED || ran) && FeeBillable(info, call) && info.hasSize {
          outbox := outbox + [LicenseFee];
        }
      }
      refused := EnqueueWorkload(call);
      if refused.None? && call.databaseFails {
        refused := Some(DatabaseError);
      }
      if refused.Some? {
        Restore(saved);
      }
    }

    /** The transaction that ends the job in `stop`: on a fleet it did not know, the copy adopts it and asks again. */
    method StopDirectly(copy: JobCopy, call: Call) returns (refused: Option<Refusal>)
      modifies this, copy
      ensures Now() == Transact(info, old(Now()), StopDirect(old(copy.fleet)), call)
      ensures refused == Some(FleetAppeared) <==> old(fleet) != old(copy.fleet)
      ensures refused == Some(FleetAppeared) ==> copy.fleet == old(fleet) && copy.status == old(copy.status)
      ensures refused != Some(FleetAppeared) ==> copy.fleet == old(copy.fleet)
      ensures refused.None? ==> status == STOPPED && fleet == copy.fleet
      ensures refused.Some? ==> Now() == old(Now())
    {
      var saved := Now();
      if fleet != copy.fleet {
        copy.fleet := fleet;
        return Some(FleetAppeared);
      }
      refused := ChangeStatus(copy, STOPPED);
      if refused.Some? {
        return;
      }
      refused := EnqueueWorkload(call);
      if refused.None? && call.databaseFails {
        refused := Some(DatabaseError);
      }
      if refused.Some? {
        Restore(saved);
      }
    }

    /** `queued_to_pending`, `pending_to_running`, and the STOPPING write of `stop`. */
    method Advance(copy: JobCopy, tr: Transition, call: Call) returns (refused: Option<Refusal>)
      requires tr.QueuedToPending? || tr.PendingToRunning? || tr.MarkStopping?
      modifies this, copy
      ensures Now() == Transact(info, old(Now()), tr, call)
      ensures refused.Some? ==> Now() == old(Now())
      ensures refused.None? ==> copy.status == status
      ensures copy.fleet == old(copy.fleet)
    {
      var saved := Now();
      refused := ChangeStatus(copy, if tr.QueuedToPending? then PENDING else if tr.PendingToRunning? then RUNNING else STOPPING);
      if refused.None? && call.databaseFails {
        Restore(saved);
        refused := Some(DatabaseError);
      }
    }

    /** `job.update_fields({"fleet_id": ...})`, outside any transition. */
    method RecordFleet(copy: JobCopy, f: nat)
      modifies this, copy
      ensures Now() == Transact(info, old(Now()), JobTransitions.RecordFleet(f), Call(false, false))
      ensures copy.fleet == Some(f) && copy.status == old(copy.status)
    {
      copy.fleet := Some(f);
      fleet := Some(f);
    }
  }
}
