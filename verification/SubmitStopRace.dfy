/**
 * One submitter and any number of stoppers on the same Fleets job (`FleetsJobSubmitter.submit`,
 * `JobTransitionService.stop`). Every actor decides on a copy it read earlier; every transaction and every call to
 * Code Engine is one step, so a run is any interleaving. Fleets are numbered in the order they are created.
 */
module SubmitStopRace {
  import opened Wrappers
  import opened JobTransitions

  /** What `runner.stop()` answers. */
  datatype CancelAnswer = InFlight | NothingToCancel | Raised

  datatype Asker = Submitter | Stopper

  datatype CancelRecord = CancelRecord(fleet: nat, asker: Asker, answer: CancelAnswer)

  /** How a submit that created a fleet ended. */
  datatype Ending = MovedToPending | CancelledOrphan

  /** Where the submitter is. It is one process, so it has at most one submit under way. */
  datatype Submit =
    | Idle
    | Creating
    | Recording(fleet: nat)
    | Moving(fleet: nat)
    | Orphaned(fleet: nat)
    | Reporting(fleet: nat)
    | Done(fleet: nat, ending: Ending)

  /** Where a stopper is, with the fleet of its copy. */
  datatype Stop =
    | Asking(copyFleet: Option<nat>)
    | Writing(copyFleet: Option<nat>)
    | Deciding(copyFleet: Option<nat>)
    | Finished

  /** `endedDirectly` remembers that a stopper committed STOPPED itself. */
  datatype System = System(
    db: Db, fleets: nat, cancels: seq<CancelRecord>, submit: Submit, stops: seq<Stop>, endedDirectly: bool)

  datatype SubmitAnswer = FleetCreated | Retryable | Refused

  datatype Step =
    | SubmitStarts
    | RunnerSubmits(created: SubmitAnswer, call: Call)
    | FleetRecorded
    | SubmitMoves
    | OrphanCancelled(answer: CancelAnswer)
    | LeftRunningReported
    | StopperArrives
    | StopperAsks(stop: nat, answer: CancelAnswer)
    | StopperWrites(stop: nat, call: Call)
    | StopperEnds(stop: nat, call: Call)
    | OtherTransition(transition: Transition, call: Call)

  /** The poller and the tasks: they start no submit and record no fleet. */
  predicate IsOther(tr: Transition) {
    tr.PendingToRunning? || (tr.ToTerminal? && Terminal(tr.status))
  }

  predicate Enabled(s: System, step: Step) {
    match step
    case SubmitStarts => s.submit.Idle? && s.db.status == QUEUED
    case RunnerSubmits(_, _) => s.submit.Creating?
    case FleetRecorded => s.submit.Recording?
    case SubmitMoves => s.submit.Moving?
    case OrphanCancelled(_) => s.submit.Orphaned?
    case LeftRunningReported => s.submit.Reporting?
    case StopperArrives => true
    case StopperAsks(k, _) => k < |s.stops| && s.stops[k].Asking?
    case StopperWrites(k, _) => k < |s.stops| && s.stops[k].Writing?
    case StopperEnds(k, _) => k < |s.stops| && s.stops[k].Deciding?
    case OtherTransition(tr, _) => IsOther(tr)
  }

  /** `runner.submit()`; a refusal is recorded and fails the job if it is still active. */
  function RunnerSubmitsStep(info: JobInfo, s: System, answer: SubmitAnswer, call: Call): System {
    match answer
    case FleetCreated => s.(fleets := s.fleets + 1, submit := Recording(s.fleets))
    case Retryable => s.(submit := Idle)
    case Refused =>
      var noted := Transact(info, s.db, AddError(SubmitFailed), call);
      s.(db := Transact(info, noted, ToTerminal(FAILED), call), submit := Idle)
  }

  /** `queued_to_pending` of the submit; on a row that left QUEUED the fleet is an orphan to cancel. */
  function SubmitMovesStep(info: JobInfo, s: System): System
    requires s.submit.Moving?
  {
    match Attempt(info, s.db, QueuedToPending, Call(false, false))
    case Ok(db) => s.(db := db, submit := Done(s.submit.fleet, MovedToPending))
    case Err(_) => s.(submit := Orphaned(s.submit.fleet))
  }

  function OrphanCancelledStep(s: System, answer: CancelAnswer): System
    requires s.submit.Orphaned?
  {
    var f := s.submit.fleet;
    s.(cancels := s.cancels + [CancelRecord(f, Submitter, answer)],
       submit := if answer == Raised then Reporting(f) else Done(f, CancelledOrphan))
  }

  function LeftRunningStep(info: JobInfo, s: System): System
    requires s.submit.Reporting?
  {
    s.(db := Transact(info, s.db, AddError(FleetLeftRunning(s.submit.fleet)), Call(false, false)),
       submit := Done(s.submit.fleet, CancelledOrphan))
  }

  /** `job.fleet_id and runner.stop()`. */
  function StopperAsksStep(s: System, k: nat, answer: CancelAnswer): System
    requires k < |s.stops| && s.stops[k].Asking?
  {
    var copy := s.stops[k].copyFleet;
    if copy.None? then s.(stops := s.stops[k := Deciding(copy)])
    else
      s.(cancels := s.cancels + [CancelRecord(copy.value, Stopper, answer)],
         stops := s.stops[k := match answer
                               case InFlight => Writing(copy)
                               case NothingToCancel => Deciding(copy)
                               case Raised => Asking(copy)])
  }

  function StopperEndsStep(info: JobInfo, s: System, k: nat, call: Call): System
    requires k < |s.stops| && s.stops[k].Deciding?
  {
    var copy := s.stops[k].copyFleet;
    if call.databaseFails then s.(stops := s.stops[k := Finished])
    else
      match Attempt(info, s.db, StopDirect(copy), call)
      case Ok(db) => s.(db := db, stops := s.stops[k := Finished], endedDirectly := true)
      case Err(FleetAppeared) => s.(stops := s.stops[k := Asking(s.db.fleet)])
      case Err(_) => s.(stops := s.stops[k := Finished])
  }

  function Apply(info: JobInfo, s: System, step: Step): System
    requires Enabled(s, step)
  {
    match step
    case SubmitStarts => s.(submit := Creating)
    case RunnerSubmits(answer, call) => RunnerSubmitsStep(info, s, answer, call)
    case FleetRecorded =>
      s.(db := Transact(info, s.db, RecordFleet(s.submit.fleet), Call(false, false)), submit := Moving(s.submit.fleet))
    case SubmitMoves => SubmitMovesStep(info, s)
    case OrphanCancelled(answer) => OrphanCancelledStep(s, answer)
    case LeftRunningReported => LeftRunningStep(info, s)
    case StopperArrives => s.(stops := s.stops + [Asking(s.db.fleet)])
    case StopperAsks(k, answer) => StopperAsksStep(s, k, answer)
    case StopperWrites(k, call) =>
      s.(db := Transact(info, s.db, MarkStopping, call), stops := s.stops[k := Finished])
    case StopperEnds(k, call) => StopperEndsStep(info, s, k, call)
    case OtherTransition(tr, call) => s.(db := Transact(info, s.db, tr, call))
  }

  // ------------------------------------------------------------------ the invariant

  /** Someone asked Code Engine to cancel this fleet. */
  ghost predicate CancelIssued(s: System, f: nat) {
    exists r :: r in s.cancels && r.fleet == f
  }

  ghost predicate FoundNothing(s: System, f: nat) {
    exists r :: r in s.cancels && r.fleet == f && r.answer == NothingToCancel
  }

  ghost predicate OwnCancelIssued(s: System, f: nat) {
    exists r :: r in s.cancels && r.fleet == f && r.asker == Submitter
                && (r.answer == Raised ==> FleetLeftRunning(f) in s.db.events)
  }

  predicate HasRecorded(submit: Submit) {
    submit.Moving? || submit.Orphaned? || submit.Reporting? || submit.Done?
  }

  predicate LeftQueue(s: System) {
    s.db.status != QUEUED
  }

  ghost predicate SubmitOk(s: System) {
    && (s.db.fleet.Some? <==> HasRecorded(s.submit))
    && (HasRecorded(s.submit) ==> s.db.fleet == Some(s.submit.fleet))
    && (StatusEvent(PENDING) in s.db.events ==> s.submit.Done? && s.submit.ending == MovedToPending)
    && (s.submit.Orphaned? || s.submit.Reporting? || s.submit.Done? ==> LeftQueue(s))
    && (s.submit.Recording? || HasRecorded(s.submit) ==> s.fleets == 1 && s.submit.fleet == 0)
    && (s.submit.Idle? || s.submit.Creating? ==> s.fleets == 0)
    && match s.submit
       case Reporting(f) => exists r :: r in s.cancels && r.fleet == f && r.asker == Submitter && r.answer == Raised
       case Done(f, MovedToPending) => StatusEvent(PENDING) in s.db.events
       case Done(f, CancelledOrphan) => OwnCancelIssued(s, f)
       case _ => true
  }

  ghost predicate StopsOk(s: System) {
    forall k :: 0 <= k < |s.stops| && s.stops[k].Deciding? && s.stops[k].copyFleet.Some? ==>
      FoundNothing(s, s.stops[k].copyFleet.value)
  }

  ghost predicate DirectEndOk(s: System) {
    s.endedDirectly ==>
      && s.db.status == STOPPED
      && (s.submit.Done? && s.submit.ending == MovedToPending ==> CancelIssued(s, s.submit.fleet))
  }

  ghost predicate Inv(s: System) {
    SubmitOk(s) && StopsOk(s) && DirectEndOk(s)
  }

  predicate Fresh(s: System) {
    && JobTransitions.Created(s.db) && s.db.fleet.None? && s.fleets == 0
    && s.cancels == [] && s.submit.Idle? && s.stops == [] && !s.endedDirectly
  }

  // ------------------------------------------------------------------ steps

  /** What a transaction that is not the submit's own may do to the row. */
  ghost predicate Bystander(a: Db, b: Db) {
    && b.fleet == a.fleet
    && (forall e :: e in a.events ==> e in b.events)
    && (StatusEvent(PENDING) in b.events ==> StatusEvent(PENDING) in a.events)
    && (a.status != QUEUED ==> b.status != QUEUED)
    && (Terminal(a.status) ==> b.status == a.status)
  }

  lemma OtherIsBystander(info: JobInfo, db: Db, tr: Transition, call: Call)
    requires IsOther(tr) || tr.MarkStopping? || tr.StopDirect? || (tr.AddError? && !tr.event.StatusEvent?)
    ensures Bystander(db, Transact(info, db, tr, call))
  {
  }

  lemma BystanderKeepsInv(s: System, db: Db)
    requires Inv(s) && Bystander(s.db, db)
    ensures Inv(s.(db := db))
  {
    var r := s.(db := db);
    if s.submit.Done? && s.submit.ending == CancelledOrphan {
      var c :| c in s.cancels && c.fleet == s.submit.fleet && c.asker == Submitter
               && (c.answer == Raised ==> FleetLeftRunning(s.submit.fleet) in s.db.events);
      assert OwnCancelIssued(r, s.submit.fleet);
    }
    assert forall f :: FoundNothing(s, f) ==> FoundNothing(r, f);
    assert forall f :: CancelIssued(s, f) ==> CancelIssued(r, f);
  }

  lemma CancelKeepsInv(s: System, c: CancelRecord)
    requires Inv(s)
    ensures Inv(s.(cancels := s.cancels + [c]))
  {
    var r := s.(cancels := s.cancels + [c]);
    assert forall x :: x in s.cancels ==> x in r.cancels;
    assert forall f :: FoundNothing(s, f) ==> FoundNothing(r, f);
    assert forall f :: CancelIssued(s, f) ==> CancelIssued(r, f);
    assert forall f :: OwnCancelIssued(s, f) ==> OwnCancelIssued(r, f);
  }

  lemma StopMoveKeepsInv(s: System, k: nat, to: Stop)
    requires Inv(s) && k < |s.stops|
    requires to.Deciding? && to.copyFleet.Some? ==> FoundNothing(s, to.copyFleet.value)
    ensures Inv(s.(stops := s.stops[k := to]))
  {
    var r := s.(stops := s.stops[k := to]);
    assert forall f :: FoundNothing(s, f) ==> FoundNothing(r, f);
    assert forall f :: CancelIssued(s, f) ==> CancelIssued(r, f);
    assert forall f :: OwnCancelIssued(s, f) ==> OwnCancelIssued(r, f);
  }

  lemma AsksKeepsInv(s: System, k: nat, answer: CancelAnswer)
    requires Inv(s) && k < |s.stops| && s.stops[k].Asking?
    ensures Inv(StopperAsksStep(s, k, answer))
  {
    var copy := s.stops[k].copyFleet;
    if copy.None? {
      StopMoveKeepsInv(s, k, Deciding(copy));
    } else {
      var c := CancelRecord(copy.value, Stopper, answer);
      var asked := s.(cancels := s.cancels + [c]);
      CancelKeepsInv(s, c);
      assert c in asked.cancels;
      StopMoveKeepsInv(asked, k, StopperAsksStep(s, k, answer).stops[k]);
    }
  }

  lemma EndsKeepsInv(info: JobInfo, s: System, k: nat, call: Call)
    requires Inv(s) && k < |s.stops| && s.stops[k].Deciding?
    ensures Inv(StopperEndsStep(info, s, k, call))
  {
    var copy := s.stops[k].copyFleet;
    OtherIsBystander(info, s.db, StopDirect(copy), call);
    var ended := s.(db := Transact(info, s.db, StopDirect(copy), call));
    BystanderKeepsInv(s, ended.db);
    var r := StopperEndsStep(info, s, k, call);
    StopMoveKeepsInv(ended, k, r.stops[k]);
    if r.endedDirectly && !s.endedDirectly && s.submit.Done? && s.submit.ending == MovedToPending {
      assert FoundNothing(s, s.submit.fleet);
      var c :| c in s.cancels && c.fleet == s.submit.fleet && c.answer == NothingToCancel;
      assert c in r.cancels;
    }
    assert StopsOk(r) && SubmitOk(r);
  }

  lemma SubmitProgressKeepsInv(info: JobInfo, s: System, step: Step)
    requires Inv(s) && Enabled(s, step)
    requires step.SubmitStarts? || step.FleetRecorded? || step.SubmitMoves?
    ensures Inv(Apply(info, s, step))
  {
    var r := Apply(info, s, step);
    assert forall f :: FoundNothing(s, f) ==> FoundNothing(r, f);
    assert forall f :: CancelIssued(s, f) ==> CancelIssued(r, f);
    if step.SubmitMoves? && r.submit.Done? {
      assert r.db.events[|s.db.events|] == StatusEvent(PENDING);
    }
  }

  lemma OrphanKeepsInv(s: System, answer: CancelAnswer)
    requires Inv(s) && s.submit.Orphaned?
    ensures Inv(OrphanCancelledStep(s, answer))
  {
    var c := CancelRecord(s.submit.fleet, Submitter, answer);
    var r := OrphanCancelledStep(s, answer);
    CancelKeepsInv(s, c);
    assert c in r.cancels;
    assert forall f :: FoundNothing(s.(cancels := s.cancels + [c]), f) ==> FoundNothing(r, f);
    assert StopsOk(r);
  }

  lemma ReportKeepsInv(info: JobInfo, s: System)
    requires Inv(s) && s.submit.Reporting?
    ensures Inv(LeftRunningStep(info, s))
  {
    var f := s.submit.fleet;
    var event := FleetLeftRunning(f);
    OtherIsBystander(info, s.db, AddError(event), Call(false, false));
    var r := LeftRunningStep(info, s);
    BystanderKeepsInv(s, r.db);
    assert r.db.events[|s.db.events|] == event;
    var c :| c in s.cancels && c.fleet == f && c.asker == Submitter && c.answer == Raised;
    assert OwnCancelIssued(r, f);
    assert forall g :: FoundNothing(s, g) ==> FoundNothing(r, g);
    assert StopsOk(r);
  }

  lemma RunnerSubmitsKeepsInv(info: JobInfo, s: System, answer: SubmitAnswer, call: Call)
    requires Inv(s) && s.submit.Creating?
    ensures Inv(RunnerSubmitsStep(info, s, answer, call))
  {
    var r := RunnerSubmitsStep(info, s, answer, call);
    assert forall f :: FoundNothing(s, f) ==> FoundNothing(r, f);
    if answer == Refused {
      var noted := Transact(info, s.db, AddError(SubmitFailed), call);
      OtherIsBystander(info, s.db, AddError(SubmitFailed), call);
      OtherIsBystander(info, noted, ToTerminal(FAILED), call);
      BystanderKeepsInv(s, noted);
      BystanderKeepsInv(s.(db := noted), r.db);
    }
    assert StopsOk(r);
  }

  lemma ArrivalKeepsInv(s: System)
    requires Inv(s)
    ensures Inv(s.(stops := s.stops + [Asking(s.db.fleet)]))
  {
    var r := s.(stops := s.stops + [Asking(s.db.fleet)]);
    assert forall f :: FoundNothing(s, f) ==> FoundNothing(r, f);
    assert forall f :: CancelIssued(s, f) ==> CancelIssued(r, f);
    assert forall f :: OwnCancelIssued(s, f) ==> OwnCancelIssued(r, f);
  }

  lemma StepKeepsInv(info: JobInfo, s: System, step: Step)
    requires Inv(s) && Enabled(s, step)
    ensures Inv(Apply(info, s, step))
  {
    match step
    case RunnerSubmits(answer, call) => RunnerSubmitsKeepsInv(info, s, answer, call);
    case OrphanCancelled(answer) => OrphanKeepsInv(s, answer);
    case LeftRunningReported => ReportKeepsInv(info, s);
    case StopperArrives => ArrivalKeepsInv(s);
    case StopperAsks(k, answer) => AsksKeepsInv(s, k, answer);
    case StopperWrites(k, call) =>
      OtherIsBystander(info, s.db, MarkStopping, call);
      BystanderKeepsInv(s, Transact(info, s.db, MarkStopping, call));
      StopMoveKeepsInv(s.(db := Transact(info, s.db, MarkStopping, call)), k, Finished);
    case StopperEnds(k, call) => EndsKeepsInv(info, s, k, call);
    case OtherTransition(tr, call) =>
      OtherIsBystander(info, s.db, tr, call);
      BystanderKeepsInv(s, Transact(info, s.db, tr, call));
    case _ => SubmitProgressKeepsInv(info, s, step);
  }

  // ------------------------------------------------------------------ runs

  ghost predicate IsRun(info: JobInfo, states: seq<System>, steps: seq<Step>) {
    && |states| == |steps| + 1 && Fresh(states[0])
    && forall i :: 0 <= i < |steps| ==> Enabled(states[i], steps[i]) && states[i + 1] == Apply(info, states[i], steps[i])
  }

  lemma {:induction false} RunInv(info: JobInfo, states: seq<System>, steps: seq<Step>, i: nat)
    requires IsRun(info, states, steps) && i < |states|
    ensures Inv(states[i])
  {
    if i > 0 {
      RunInv(info, states, steps, i - 1);
      StepKeepsInv(info, states[i - 1], steps[i - 1]);
    }
  }

  /**
   * `stop` commits STOPPED only on a row without a fleet, or with a fleet whose cancel found nothing, although the
   * row may have changed in any way since the stopper read its copy.
   */
  lemma StopEndsOnlyWithoutFleet(info: JobInfo, states: seq<System>, steps: seq<Step>, i: nat)
    requires IsRun(info, states, steps) && i < |steps| && steps[i].StopperEnds?
    requires states[i + 1].db != states[i].db
    ensures states[i + 1].db.status == STOPPED
    ensures states[i].db.fleet.None? || FoundNothing(states[i], states[i].db.fleet.value)
  {
    RunInv(info, states, steps, i);
  }

  /**
   * A submit that created a fleet ends with the row pointing at it, and either this call moved the row to PENDING or
   * this call asked for the fleet's cancel, with FLEET_LEFT_RUNNING on record when that cancel failed. No other
   * fleet was created for the job.
   */
  lemma SubmitNeverLosesItsFleet(info: JobInfo, states: seq<System>, steps: seq<Step>, i: nat)
    requires IsRun(info, states, steps) && i < |states| && states[i].submit.Done?
    ensures states[i].db.fleet == Some(states[i].submit.fleet) && states[i].fleets == 1
    ensures states[i].submit.ending == MovedToPending ==> StatusEvent(PENDING) in states[i].db.events
    ensures states[i].submit.ending == CancelledOrphan ==> OwnCancelIssued(states[i], states[i].submit.fleet)
  {
    RunInv(info, states, steps, i);
  }

  /** A job that a stopper ended directly leaves no unattended fleet: once the submit is over, its cancel was asked for. */
  lemma DirectEndLeavesNoOrphan(info: JobInfo, states: seq<System>, steps: seq<Step>, i: nat)
    requires IsRun(info, states, steps) && i < |states| && states[i].endedDirectly && states[i].submit.Done?
    ensures states[i].db.status == STOPPED
    ensures CancelIssued(states[i], states[i].submit.fleet)
  {
    RunInv(info, states, steps, i);
  }

  /** The transaction that a step makes on the row; a refused submit makes two. */
  function Transaction(s: System, step: Step): Option<(Transition, Call)>
    requires Enabled(s, step)
  {
    match step
    case FleetRecorded => Some((RecordFleet(s.submit.fleet), Call(false, false)))
    case SubmitMoves => Some((QueuedToPending, Call(false, false)))
    case LeftRunningReported => Some((AddError(FleetLeftRunning(s.submit.fleet)), Call(false, false)))
    case StopperWrites(_, call) => Some((MarkStopping, call))
    case StopperEnds(k, call) => Some((StopDirect(s.stops[k].copyFleet), call))
    case OtherTransition(tr, call) => Some((tr, call))
    case _ => None
  }

  lemma StepTransacts(info: JobInfo, s: System, step: Step)
    requires Enabled(s, step) && !step.RunnerSubmits?
    ensures Apply(info, s, step).db ==
            match Transaction(s, step)
            case Some((tr, call)) => Transact(info, s.db, tr, call)
            case None => s.db
    ensures Transaction(s, step).Some? ==> Callable(Transaction(s, step).value.0)
  {
  }

  lemma RunnerSubmitsKeepsDbInv(info: JobInfo, s: System, answer: SubmitAnswer, call: Call, mirrored: bool)
    requires DbInv(s.db, mirrored)
    ensures DbInv(RunnerSubmitsStep(info, s, answer, call).db, mirrored)
  {
    var noted := Transact(info, s.db, AddError(SubmitFailed), call);
    TransactKeepsInv(info, s.db, AddError(SubmitFailed), call, mirrored);
    TransactKeepsInv(info, noted, ToTerminal(FAILED), call, mirrored);
  }

  lemma StepKeepsDbInv(info: JobInfo, s: System, step: Step, mirrored: bool)
    requires DbInv(s.db, mirrored) && Enabled(s, step)
    ensures DbInv(Apply(info, s, step).db, mirrored)
  {
    if step.RunnerSubmits? {
      RunnerSubmitsKeepsDbInv(info, s, step.created, step.call, mirrored);
    } else {
      StepTransacts(info, s, step);
      if Transaction(s, step).Some? {
        var (tr, call) := Transaction(s, step).value;
        TransactKeepsInv(info, s.db, tr, call, mirrored);
      }
    }
  }

  /** Billing and mirror hold through the race too: the outbox rows are the ones `DbInv` allows in every state. */
  lemma {:induction false} RaceKeepsBilling(info: JobInfo, states: seq<System>, steps: seq<Step>, i: nat)
    requires IsRun(info, states, steps) && i < |states|
    ensures DbInv(states[i].db, states[0].db.mirror)
  {
    if i == 0 {
      CreatedInv(states[0].db);
    } else {
      RaceKeepsBilling(info, states, steps, i - 1);
      StepKeepsDbInv(info, states[i - 1], steps[i - 1], states[0].db.mirror);
    }
  }

  // ------------------------------------------------------------------ who owes the usage row

  /** An ended job has its usage row exactly when it is billable and no stopper ended it directly. */
  ghost predicate UsageOk(info: JobInfo, db: Db, endedDirectly: bool) {
    && (endedDirectly ==> Terminal(db.status))
    && (Terminal(db.status) ==> Rows(db.outbox, JobUsage) == if UsageBillable(info) && !endedDirectly then 1 else 0)
  }

  lemma TransactKeepsUsage(info: JobInfo, db: Db, tr: Transition, call: Call, mirrored: bool, endedDirectly: bool)
    requires DbInv(db, mirrored) && UsageOk(info, db, endedDirectly) && Callable(tr) && !tr.StopDirect?
    ensures UsageOk(info, Transact(info, db, tr, call), endedDirectly)
  {
    if tr.ToTerminal? && ChangeStatus(db, tr.status).Ok? && Attempt(info, db, tr, call).Ok? {
      SettleRows(info, ChangeStatus(db, tr.status).value, call, mirrored);
    }
  }

  lemma DirectEndOwesNothing(info: JobInfo, db: Db, copyFleet: Option<nat>, call: Call, mirrored: bool)
    requires DbInv(db, mirrored) && Attempt(info, db, StopDirect(copyFleet), call).Ok?
    ensures UsageOk(info, Attempt(info, db, StopDirect(copyFleet), call).value, true)
  {
    var stopped := ChangeStatus(db, STOPPED).value;
    WorkloadRows(info, stopped, call);
  }

  lemma StepKeepsUsage(info: JobInfo, s: System, step: Step, mirrored: bool)
    requires DbInv(s.db, mirrored) && UsageOk(info, s.db, s.endedDirectly) && Enabled(s, step)
    ensures UsageOk(info, Apply(info, s, step).db, Apply(info, s, step).endedDirectly)
  {
    if step.RunnerSubmits? {
      RunnerSubmitsKeepsUsage(info, s, step.created, step.call, mirrored);
    } else if step.StopperEnds? {
      StopperEndsKeepsUsage(info, s, step.stop, step.call, mirrored);
    } else {
      StepTransacts(info, s, step);
      if Transaction(s, step).Some? {
        var (tr, call) := Transaction(s, step).value;
        TransactKeepsUsage(info, s.db, tr, call, mirrored, s.endedDirectly);
      }
    }
  }

  lemma StopperEndsKeepsUsage(info: JobInfo, s: System, k: nat, call: Call, mirrored: bool)
    requires DbInv(s.db, mirrored) && UsageOk(info, s.db, s.endedDirectly) && k < |s.stops| && s.stops[k].Deciding?
    ensures var r := StopperEndsStep(info, s, k, call); UsageOk(info, r.db, r.endedDirectly)
  {
    if Attempt(info, s.db, StopDirect(s.stops[k].copyFleet), call).Ok? {
      DirectEndOwesNothing(info, s.db, s.stops[k].copyFleet, call, mirrored);
    }
  }

  lemma RunnerSubmitsKeepsUsage(info: JobInfo, s: System, answer: SubmitAnswer, call: Call, mirrored: bool)
    requires DbInv(s.db, mirrored) && UsageOk(info, s.db, s.endedDirectly)
    ensures UsageOk(info, RunnerSubmitsStep(info, s, answer, call).db, s.endedDirectly)
  {
    var noted := Transact(info, s.db, AddError(SubmitFailed), call);
    TransactKeepsInv(info, s.db, AddError(SubmitFailed), call, mirrored);
    TransactKeepsUsage(info, s.db, AddError(SubmitFailed), call, mirrored, s.endedDirectly);
    TransactKeepsUsage(info, noted, ToTerminal(FAILED), call, mirrored, s.endedDirectly);
  }

  lemma {:induction false} RaceKeepsUsage(info: JobInfo, states: seq<System>, steps: seq<Step>, i: nat)
    requires IsRun(info, states, steps) && i < |states|
    ensures UsageOk(info, states[i].db, states[i].endedDirectly)
  {
    if i > 0 {
      RaceKeepsUsage(info, states, steps, i - 1);
      RaceKeepsBilling(info, states, steps, i - 1);
      StepKeepsUsage(info, states[i - 1], steps[i - 1], states[0].db.mirror);
    }
  }

  /**
   * The guard of the last transaction of `stop`: the database answers, the row still has the fleet of the stopper's
   * copy, the job is active, and the workload row of a mirrored job can be built.
   */
  predicate DirectEndGuard(info: JobInfo, db: Db, copyFleet: Option<nat>, call: Call) {
    && !call.databaseFails && db.fleet == copyFleet && !Terminal(db.status)
    && (db.mirror ==> info.hasCrn && !call.programDeleted)
  }

  /** This step ends the job directly. */
  predicate EndsDirectly(info: JobInfo, s: System, step: Step) {
    Enabled(s, step) && step.StopperEnds? && DirectEndGuard(info, s.db, s.stops[step.stop].copyFleet, step.call)
  }

  ghost predicate EndedDirectly(info: JobInfo, states: seq<System>, steps: seq<Step>, i: nat)
    requires i <= |steps| <= |states|
  {
    exists j :: 0 <= j < i && EndsDirectly(info, states[j], steps[j])
  }

  /** The last transaction of `stop` commits exactly under its guard, and a commit is the direct end. */
  lemma StopCommitsExactlyWhen(info: JobInfo, s: System, step: Step)
    requires Enabled(s, step)
    ensures Apply(info, s, step).endedDirectly <==> s.endedDirectly || EndsDirectly(info, s, step)
    ensures EndsDirectly(info, s, step) ==> Apply(info, s, step).db.status == STOPPED
    ensures step.StopperEnds? && !EndsDirectly(info, s, step) ==> Apply(info, s, step).db == s.db
  {
    var status := s.db.status;
    assert ValidTransition(status, STOPPED) <==> !Terminal(status);
  }

  /** A stopper ends the job on a row without a fleet or with a fleet whose cancel found nothing. */
  lemma {:induction false} EndedDirectlyByStop(info: JobInfo, states: seq<System>, steps: seq<Step>, i: nat)
    requires IsRun(info, states, steps) && i < |states|
    ensures states[i].endedDirectly <==> EndedDirectly(info, states, steps, i)
    ensures i < |steps| && EndsDirectly(info, states[i], steps[i]) ==>
              states[i].db.fleet.None? || FoundNothing(states[i], states[i].db.fleet.value)
  {
    RunInv(info, states, steps, i);
    if i > 0 {
      EndedDirectlyByStop(info, states, steps, i - 1);
      StopCommitsExactlyWhen(info, states[i - 1], steps[i - 1]);
    }
  }

  /**
   * When the promise of specs/OUTBOX.md holds: an ended billable job has its usage row exactly when no stopper's last
   * transaction met its guard.
   */
  lemma UsageRowExactlyUnlessEndedDirectly(info: JobInfo, states: seq<System>, steps: seq<Step>, i: nat)
    requires IsRun(info, states, steps) && i < |states| && UsageBillable(info) && Terminal(states[i].db.status)
    ensures Rows(states[i].db.outbox, JobUsage) == 1 <==> !EndedDirectly(info, states, steps, i)
    ensures Rows(states[i].db.outbox, JobUsage) <= 1
  {
    RaceKeepsUsage(info, states, steps, i);
    EndedDirectlyByStop(info, states, steps, i);
  }
}
