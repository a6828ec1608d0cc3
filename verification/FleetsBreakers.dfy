/**
 * The breakers of the Fleets dependencies in `gateway/scheduler/schedule.py`: one per region for COS and for Code Engine,
 * asked before every submit and cancel and told how the call went. The moments are readings of the monotonic clock.
 */
module FleetsBreakers {
  import opened Wrappers
  import opened CircuitBreaker

  // ------------------------------------------------------------------ a registry and its histories

  /** The breakers of one dependency by region, with what each of them was asked and told. */
  datatype Registry = Registry(breakers: map<Region, Breaker>, uses: map<Region, seq<Use>>)

  function BreakerOf(r: Registry, region: Region): Breaker {
    if region in r.breakers then r.breakers[region] else CLOSED
  }

  function HistoryOf(r: Registry, region: Region): seq<Use> {
    if region in r.uses then r.uses[region] else []
  }

  function With(r: Registry, region: Region, b: Breaker, use: Use): Registry {
    Registry(r.breakers[region := b], r.uses[region := HistoryOf(r, region) + [use]])
  }

  /** `paused`. */
  function Asks(r: Registry, config: Config, region: Region, now: int): (bool, Registry) {
    var b := BreakerOf(r, region);
    (IsOpen(b, now, config.pause), With(r, region, CircuitBreaker.Check(b, now, config.pause).1, Asked(now)))
  }

  /** `record_success` and `record_failure` of the region's breaker. */
  function Tells(r: Registry, config: Config, region: Region, success: bool, now: int): Registry {
    var b := BreakerOf(r, region);
    if success then With(r, region, RecordSuccess(b), Succeeded(now))
    else With(r, region, RecordFailure(b, now, config.threshold), Failed(now))
  }

  /** `get_breaker`: a breaker made on demand. */
  function Made(r: Registry, region: Region): Registry {
    if region in r.breakers then r else r.(breakers := r.breakers[region := CLOSED])
  }

  lemma AsksMade(r: Registry, config: Config, region: Region, now: int)
    ensures Asks(Made(r, region), config, region, now) == Asks(r, config, region, now)
  {
    if region !in r.breakers {
      assert r.breakers[region := CLOSED][region := CLOSED] == r.breakers[region := CLOSED];
    }
  }

  /** Every breaker is what a disciplined history made of it. */
  ghost predicate Sound(r: Registry, config: Config, now: int) {
    r.breakers.Keys == r.uses.Keys && forall q :: q in r.breakers ==> Follows(r.breakers[q], r.uses[q], config, now)
  }

  /** A call may leave for this region: its breaker was just asked and is not open. */
  ghost predicate MayCall(r: Registry, config: Config, region: Region) {
    Cleared(HistoryOf(r, region), config)
  }

  lemma LaterIsSound(r: Registry, config: Config, now: int, later: int)
    requires Sound(r, config, now) && now <= later
    ensures Sound(r, config, later)
  {
    forall q | q in r.breakers
      ensures Follows(r.breakers[q], r.uses[q], config, later)
    {
      assert Follows(r.breakers[q], r.uses[q], config, now);
    }
  }

  lemma RecordsAppend(history: seq<Use>, use: Use)
    ensures Records(history + [use]) == Records(history) + if use.Asked? then [] else [use]
  {
    assert (history + [use])[..|history|] == history;
  }

  /** A region is paused exactly while a streak of its failures was completed less than the pause ago. */
  lemma AsksIsSound(r: Registry, config: Config, region: Region, now: int)
    requires Sound(r, config, now)
    ensures var (paused, after) := Asks(r, config, region, now);
            && Sound(after, config, now)
            && (paused <==> Pausing(HistoryOf(r, region), config, now))
            && (!paused ==> MayCall(after, config, region))
            && Records(HistoryOf(after, region)) == Records(HistoryOf(r, region))
  {
    AskedFollows(BreakerOf(r, region), HistoryOf(r, region), config, now, now);
    OpenExactlyWhilePausing(HistoryOf(r, region), config, now);
    RecordsAppend(HistoryOf(r, region), Asked(now));
  }

  lemma TellsIsSound(r: Registry, config: Config, region: Region, success: bool, now: int)
    requires Sound(r, config, now) && MayCall(r, config, region)
    ensures Sound(Tells(r, config, region, success, now), config, now)
    ensures Records(HistoryOf(Tells(r, config, region, success, now), region)) ==
            Records(HistoryOf(r, region)) + [if success then Succeeded(now) else Failed(now)]
  {
    var use := if success then Succeeded(now) else Failed(now);
    RecordFollows(BreakerOf(r, region), HistoryOf(r, region), config, use, now);
    RecordsAppend(HistoryOf(r, region), use);
  }

  // ------------------------------------------------------------------ all regions at once

  /** What asking the breakers of these regions leaves of one region. */
  ghost predicate AskedAt(before: Registry, r: Registry, config: Config, asked: set<Region>, now: int, q: Region) {
    if q in asked then
      && BreakerOf(r, q) == CircuitBreaker.Check(BreakerOf(before, q), now, config.pause).1
      && HistoryOf(r, q) == HistoryOf(before, q) + [Asked(now)]
    else
      BreakerOf(r, q) == BreakerOf(before, q) && HistoryOf(r, q) == HistoryOf(before, q)
  }

  /** The registry after the breakers of these regions were asked, each once. */
  ghost predicate AskedIn(before: Registry, r: Registry, config: Config, asked: set<Region>, now: int) {
    && asked <= before.breakers.Keys && r.breakers.Keys == before.breakers.Keys
    && r.uses.Keys == before.uses.Keys + asked
    && forall q :: AskedAt(before, r, config, asked, now, q)
  }

  /** The regions among the asked ones whose breaker is open. */
  ghost predicate OpenAmong(r: Registry, config: Config, asked: set<Region>, now: int, regions: set<Region>) {
    forall q :: q in regions <==> q in asked && IsOpen(BreakerOf(r, q), now, config.pause)
  }

  lemma AskedInStep(
    before: Registry, r: Registry, config: Config, asked: set<Region>, region: Region, now: int, regions: set<Region>)
    requires AskedIn(before, r, config, asked, now) && region in before.breakers && region !in asked
    requires OpenAmong(before, config, asked, now, regions)
    ensures var (open, after) := Asks(r, config, region, now);
            && AskedIn(before, after, config, asked + {region}, now)
            && OpenAmong(before, config, asked + {region}, now, if open then regions + {region} else regions)
  {
    var after := Asks(r, config, region, now).1;
    assert AskedAt(before, r, config, asked, now, region);
    forall q
      ensures AskedAt(before, after, config, asked + {region}, now, q)
    {
      assert AskedAt(before, r, config, asked, now, q);
    }
  }

  lemma AskedRegionIsSound(before: Registry, r: Registry, config: Config, asked: set<Region>, now: int, q: Region)
    requires Sound(before, config, now) && q in before.breakers && q in r.breakers && q in r.uses
    requires AskedAt(before, r, config, asked, now, q)
    ensures Follows(r.breakers[q], r.uses[q], config, now)
    ensures IsOpen(BreakerOf(before, q), now, config.pause) <==> Pausing(HistoryOf(before, q), config, now)
  {
    assert Follows(before.breakers[q], before.uses[q], config, now);
    AskedFollows(before.breakers[q], before.uses[q], config, now, now);
    OpenExactlyWhilePausing(before.uses[q], config, now);
  }

  /** Asking leaves every history sound and no record behind, and the open breakers are those in a pause. */
  lemma AskedInIsSound(before: Registry, r: Registry, config: Config, asked: set<Region>, now: int)
    requires Sound(before, config, now) && AskedIn(before, r, config, asked, now)
    ensures Sound(r, config, now)
    ensures forall q :: q in asked ==>
              (IsOpen(BreakerOf(before, q), now, config.pause) <==> Pausing(HistoryOf(before, q), config, now))
    ensures forall q :: Records(HistoryOf(r, q)) == Records(HistoryOf(before, q))
  {
    forall q
      ensures Records(HistoryOf(r, q)) == Records(HistoryOf(before, q))
    {
      assert AskedAt(before, r, config, asked, now, q);
      RecordsAppend(HistoryOf(before, q), Asked(now));
    }
    forall q | q in r.breakers
      ensures Follows(r.breakers[q], r.uses[q], config, now)
      ensures IsOpen(BreakerOf(before, q), now, config.pause) <==> Pausing(HistoryOf(before, q), config, now)
    {
      assert AskedAt(before, r, config, asked, now, q);
      AskedRegionIsSound(before, r, config, asked, now, q);
    }
  }

  // ------------------------------------------------------------------ the objects

  /** `RegionBreakers`: the breaker objects of one dependency, made on demand. */
  class RegionBreakers {
    const config: Config
    var breakers: map<Region, BreakerObject>
    ghost var uses: map<Region, seq<Use>>

    ghost function Now(): Registry
      reads this, breakers.Values
    {
      Registry(map r | r in breakers :: breakers[r].Now(), uses)
    }

    /** Every region has an object of its own. */
    ghost predicate Valid()
      reads this
    {
      forall r, q :: r in breakers && q in breakers && r != q ==> breakers[r] != breakers[q]
    }

    constructor (config: Config)
      ensures this.config == config && Valid() && breakers == map[] && Now() == Registry(map[], map[])
    {
      this.config := config;
      breakers, uses := map[], map[];
    }

    /** `get_breaker`: the object of the region, built the first time it is asked for. */
    method GetBreaker(region: Region)
      requires Valid()
      modifies this`breakers
      ensures Valid() && region in breakers && fresh(breakers.Values - old(breakers.Values))
      ensures region in old(breakers) ==> breakers == old(breakers)
      ensures Now() == Made(old(Now()), region)
    {
      if region !in breakers {
        ghost var states := Now().breakers;
        var breaker := new BreakerObject();
        breakers := breakers[region := breaker];
        assert Now().breakers == states[region := CLOSED];
      }
    }

    /** `is_open` of an object that is there. */
    method Ask(region: Region, now: int) returns (open: bool)
      requires Valid() && region in breakers
      modifies this, breakers.Values
      ensures Valid() && breakers == old(breakers)
      ensures (open, Now()) == Asks(old(Now()), config, region, now)
    {
      ghost var history, states := HistoryOf(Now(), region), Now().breakers;
      var breaker := breakers[region];
      open := breaker.Open(now, config.pause);
      uses := uses[region := history + [Asked(now)]];
      assert Now().breakers == states[region := breaker.Now()];
    }

    /** `paused`. */
    method Paused(region: Region, now: int) returns (paused: bool)
      requires Valid()
      modifies this, breakers.Values
      ensures Valid() && fresh(breakers.Values - old(breakers.Values))
      ensures region in breakers && (region in old(breakers) ==> breakers == old(breakers))
      ensures (paused, Now()) == Asks(old(Now()), config, region, now)
    {
      ghost var before := Now();
      GetBreaker(region);
      AsksMade(before, config, region, now);
      paused := Ask(region, now);
    }

    /** `record_success` and `record_failure` of the region's breaker. */
    method Record(region: Region, success: bool, now: int)
      requires Valid() && region in breakers
      modifies this, breakers.Values
      ensures Valid() && breakers == old(breakers)
      ensures Now() == Tells(old(Now()), config, region, success, now)
    {
      ghost var history, states := HistoryOf(Now(), region), Now().breakers;
      var breaker := breakers[region];
      if success {
        breaker.Success();
        uses := uses[region := history + [Succeeded(now)]];
      } else {
        breaker.Failure(now, config.threshold);
        uses := uses[region := history + [Failed(now)]];
      }
      assert Now().breakers == states[region := breaker.Now()];
    }

    /** One pass of the loop in `paused_regions`. */
    method Collect(region: Region, now: int, regions: set<Region>, ghost before: Registry, ghost asked: set<Region>)
      returns (more: set<Region>)
      requires Valid() && region in breakers && region !in asked
      requires OpenAmong(before, config, asked, now, regions) && AskedIn(before, Now(), config, asked, now)
      modifies this, breakers.Values
      ensures Valid() && breakers == old(breakers)
      ensures OpenAmong(before, config, asked + {region}, now, more) && AskedIn(before, Now(), config, asked + {region}, now)
    {
      AskedInStep(before, Now(), config, asked, region, now, regions);
      var open := Paused(region, now);
      more := if open then regions + {region} else regions;
    }

    /** `paused_regions`: exactly the regions asked for so far whose breaker is open. */
    method PausedRegions(now: int) returns (regions: set<Region>)
      requires Valid()
      modifies this, breakers.Values
      ensures Valid() && breakers == old(breakers)
      ensures OpenAmong(old(Now()), config, breakers.Keys, now, regions)
      ensures AskedIn(old(Now()), Now(), config, breakers.Keys, now)
    {
      ghost var before, asked := Now(), {};
      regions := {};
      var rest := breakers.Keys;
      while rest != {}
        invariant Valid() && breakers == old(breakers) && asked !! rest && asked + rest == breakers.Keys
        invariant OpenAmong(before, config, asked, now, regions) && AskedIn(before, Now(), config, asked, now)
        decreases rest
      {
        var region :| region in rest;
        regions := Collect(region, now, regions, before, asked);
        asked, rest := asked + {region}, rest - {region};
      }
    }
  }

  // ------------------------------------------------------------------ submits

  /** How a submit that was sent came back. */
  datatype SubmitOutcome = Submitted | CosUnavailable | CodeEngineUnavailable | Refused

  /** The two registries of a submit, and whether it was sent. */
  datatype Sent = Sent(sent: bool, cos: Registry, codeEngine: Registry)

  /** The breaker side of `FleetsJobSubmitter.submit`. */
  function Submits(
    cos: Registry, codeEngine: Registry, cosConfig: Config, ceConfig: Config, region: Region, asked: int, answered: int,
    outcome: SubmitOutcome): Sent
  {
    var (cosPaused, cos1) := Asks(cos, cosConfig, region, asked);
    if cosPaused then Sent(false, cos1, codeEngine)
    else
      var (cePaused, ce1) := Asks(codeEngine, ceConfig, region, asked);
      if cePaused then Sent(false, cos1, ce1)
      else Sent(true, CosTold(cos1, cosConfig, region, outcome, answered),
                CodeEngineTold(ce1, ceConfig, region, outcome, answered))
  }

  /** What COS learns of a submit that was sent. */
  function CosTold(cos: Registry, config: Config, region: Region, outcome: SubmitOutcome, at: int): Registry {
    match outcome
    case Submitted => Tells(cos, config, region, true, at)
    case CosUnavailable => Tells(cos, config, region, false, at)
    case _ => cos
  }

  function CodeEngineTold(codeEngine: Registry, config: Config, region: Region, outcome: SubmitOutcome, at: int): Registry {
    match outcome
    case Submitted => Tells(codeEngine, config, region, true, at)
    case CodeEngineUnavailable => Tells(codeEngine, config, region, false, at)
    case _ => codeEngine
  }

  /** The records that the two dependencies get of a submit that was sent. */
  function CosRecords(outcome: SubmitOutcome, at: int): seq<Use> {
    match outcome
    case Submitted => [Succeeded(at)]
    case CosUnavailable => [Failed(at)]
    case _ => []
  }

  function CodeEngineRecords(outcome: SubmitOutcome, at: int): seq<Use> {
    match outcome
    case Submitted => [Succeeded(at)]
    case CodeEngineUnavailable => [Failed(at)]
    case _ => []
  }

  /** The records of a region's breaker grew by these. */
  ghost predicate Told(before: Registry, after: Registry, region: Region, records: seq<Use>) {
    Records(HistoryOf(after, region)) == Records(HistoryOf(before, region)) + records
  }

  /**
   * A submit is sent exactly when neither dependency is in a pause in its region. One that went through is a success of
   * both, an error to retry is a failure of the one it came from, and a refusal is neither.
   */
  lemma SubmitsOutsidePauses(
    cos: Registry, codeEngine: Registry, cosConfig: Config, ceConfig: Config, region: Region, asked: int, answered: int,
    outcome: SubmitOutcome)
    requires Sound(cos, cosConfig, asked) && Sound(codeEngine, ceConfig, asked) && asked <= answered
    ensures var r := Submits(cos, codeEngine, cosConfig, ceConfig, region, asked, answered, outcome);
            && Sound(r.cos, cosConfig, answered) && Sound(r.codeEngine, ceConfig, answered)
            && (r.sent <==> !Pausing(HistoryOf(cos, region), cosConfig, asked) &&
                            !Pausing(HistoryOf(codeEngine, region), ceConfig, asked))
            && Told(cos, r.cos, region, if r.sent then CosRecords(outcome, answered) else [])
            && Told(codeEngine, r.codeEngine, region, if r.sent then CodeEngineRecords(outcome, answered) else [])
  {
    AsksIsSound(cos, cosConfig, region, asked);
    AsksIsSound(codeEngine, ceConfig, region, asked);
    var (cosPaused, cos1) := Asks(cos, cosConfig, region, asked);
    var (cePaused, ce1) := Asks(codeEngine, ceConfig, region, asked);
    LaterIsSound(cos1, cosConfig, asked, answered);
    LaterIsSound(codeEngine, ceConfig, asked, answered);
    LaterIsSound(ce1, ceConfig, asked, answered);
    if !cosPaused && !cePaused {
      if outcome.Submitted? || outcome.CosUnavailable? {
        TellsIsSound(cos1, cosConfig, region, outcome.Submitted?, answered);
      }
      if outcome.Submitted? || outcome.CodeEngineUnavailable? {
        TellsIsSound(ce1, ceConfig, region, outcome.Submitted?, answered);
      }
    }
  }

  /** Two registries that share no object. */
  ghost predicate Apart(a: RegionBreakers, b: RegionBreakers)
    reads a, b
  {
    a != b && a.Valid() && b.Valid() && a.breakers.Values !! b.breakers.Values
  }

  /** The two checks before a submit. */
  method SubmitsPaused(cos: RegionBreakers, codeEngine: RegionBreakers, region: Region, now: int) returns (paused: bool)
    requires Apart(cos, codeEngine)
    modifies cos, cos.breakers.Values, codeEngine, codeEngine.breakers.Values
    ensures Apart(cos, codeEngine) && (!paused ==> region in cos.breakers && region in codeEngine.breakers)
    ensures fresh(cos.breakers.Values - old(cos.breakers.Values))
    ensures fresh(codeEngine.breakers.Values - old(codeEngine.breakers.Values))
    ensures cos.Now() == Asks(old(cos.Now()), cos.config, region, now).1
    ensures var cosPaused := Asks(old(cos.Now()), cos.config, region, now).0;
            if cosPaused then paused && codeEngine.Now() == old(codeEngine.Now())
            else (paused, codeEngine.Now()) == Asks(old(codeEngine.Now()), codeEngine.config, region, now)
  {
    paused := cos.Paused(region, now);
    assert codeEngine.Now() == old(codeEngine.Now()) && codeEngine.breakers == old(codeEngine.breakers);
    if !paused {
      paused := codeEngine.Paused(region, now);
    }
  }

  method Submit(cos: RegionBreakers, codeEngine: RegionBreakers, region: Region, asked: int, answered: int,
                outcome: SubmitOutcome) returns (sent: bool)
    requires Apart(cos, codeEngine)
    modifies cos, cos.breakers.Values, codeEngine, codeEngine.breakers.Values
    ensures Apart(cos, codeEngine)
    ensures Sent(sent, cos.Now(), codeEngine.Now()) ==
            Submits(old(cos.Now()), old(codeEngine.Now()), cos.config, codeEngine.config, region, asked, answered, outcome)
  {
    var paused := SubmitsPaused(cos, codeEngine, region, asked);
    sent := !paused;
    if sent {
      RecordSubmit(cos, codeEngine, region, answered, outcome);
    }
  }

  method RecordSubmit(cos: RegionBreakers, codeEngine: RegionBreakers, region: Region, at: int, outcome: SubmitOutcome)
    requires Apart(cos, codeEngine) && region in cos.breakers && region in codeEngine.breakers
    modifies cos, cos.breakers.Values, codeEngine, codeEngine.breakers.Values
    ensures Apart(cos, codeEngine)
    ensures cos.Now() == CosTold(old(cos.Now()), cos.config, region, outcome, at)
    ensures codeEngine.Now() == CodeEngineTold(old(codeEngine.Now()), codeEngine.config, region, outcome, at)
  {
    match outcome
    case Submitted =>
      cos.Record(region, true, at);
      codeEngine.Record(region, true, at);
    case CosUnavailable =>
      cos.Record(region, false, at);
    case CodeEngineUnavailable =>
      codeEngine.Record(region, false, at);
    case Refused =>
  }

  // ------------------------------------------------------------------ cancels

  /** How a cancel that was sent came back. */
  datatype CancelOutcome = Written | FleetAppeared | Unavailable | InvalidTransition | NeverLeft

  /** The breaker side of `FleetsJobCanceller.cancel`: a job without a fleet or a program asks nothing. */
  function Cancels(
    codeEngine: Registry, config: Config, stoppable: bool, region: Region, asked: int, answered: int,
    outcome: CancelOutcome): (bool, Registry)
  {
    if !stoppable then (false, codeEngine)
    else
      var (paused, ce1) := Asks(codeEngine, config, region, asked);
      if paused then (false, ce1)
      else
        match outcome
        case Unavailable => (true, Tells(ce1, config, region, false, answered))
        case NeverLeft => (true, ce1)
        case _ => (true, Tells(ce1, config, region, true, answered))
  }

  /** Nothing is sent during a pause of Code Engine, and everything that proves an answer is a success. */
  lemma CancelsOutsidePauses(
    codeEngine: Registry, config: Config, stoppable: bool, region: Region, asked: int, answered: int,
    outcome: CancelOutcome)
    requires Sound(codeEngine, config, asked) && asked <= answered
    ensures var (sent, after) := Cancels(codeEngine, config, stoppable, region, asked, answered, outcome);
            && Sound(after, config, answered)
            && (sent <==> stoppable && !Pausing(HistoryOf(codeEngine, region), config, asked))
            && Told(codeEngine, after, region,
                    if !sent || outcome.NeverLeft? then []
                    else if outcome.Unavailable? then [Failed(answered)] else [Succeeded(answered)])
  {
    AsksIsSound(codeEngine, config, region, asked);
    var (paused, ce1) := Asks(codeEngine, config, region, asked);
    LaterIsSound(codeEngine, config, asked, answered);
    LaterIsSound(ce1, config, asked, answered);
    if stoppable && !paused && !outcome.NeverLeft? {
      TellsIsSound(ce1, config, region, !outcome.Unavailable?, answered);
    }
  }

  method Cancel(codeEngine: RegionBreakers, stoppable: bool, region: Region, asked: int, answered: int,
                outcome: CancelOutcome) returns (sent: bool)
    requires codeEngine.Valid()
    modifies codeEngine, codeEngine.breakers.Values
    ensures codeEngine.Valid()
    ensures (sent, codeEngine.Now()) ==
            Cancels(old(codeEngine.Now()), codeEngine.config, stoppable, region, asked, answered, outcome)
  {
    sent := false;
    if stoppable {
      var paused := codeEngine.Paused(region, asked);
      sent := !paused;
      if sent {
        match outcome
        case Unavailable => codeEngine.Record(region, false, answered);
        case NeverLeft =>
        case _ => codeEngine.Record(region, true, answered);
      }
    }
  }
}
