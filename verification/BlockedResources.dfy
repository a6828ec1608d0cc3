/**
 * Which jobs the blocked cloud resources stop (`BlockedCloudResource` in `gateway/core/models.py`): the question asked
 * about one resource, and the filter that selects jobs in the database.
 */
module BlockedResources {
  import opened Wrappers
  import opened Regex
  import opened Crn

  datatype Row = Row(
    account: Option<string>, plan: Option<string>, subscription: Option<string>, reason: string, region: string)

  datatype Settings = Settings(enforced: bool, regional: bool)

  /** The columns of a job that the filter compares. */
  datatype Job = Job(
    account: Option<string>, plan: Option<string>, subscription: Option<string>, crn: Option<string>)

  predicate SameResource(row: Row, account: Option<string>, plan: Option<string>, subscription: Option<string>) {
    row.account == account && row.plan == plan && row.subscription == subscription
  }

  /** `blocks`: null only matches null, and a region that is null matches no row. */
  predicate Blocks(table: set<Row>, settings: Settings, account: Option<string>, plan: Option<string>,
                   subscription: Option<string>, region: Option<string>)
  {
    && settings.enforced
    && exists row :: row in table && SameResource(row, account, plan, subscription) &&
         (settings.regional ==> Some(row.region) == region)
  }

  /** One alternative of the job filter. */
  datatype Clause = Clause(
    account: Option<string>, plan: Option<string>, subscription: Option<string>, crn: Option<Regex>)

  function ClauseOf(row: Row, regional: bool): Clause {
    Clause(row.account, row.plan, row.subscription, if regional then Some(RegionRegex(row.region)) else None)
  }

  /** `blocked_jobs_filter`: the distinct alternatives, or none when nothing is blocked. */
  function JobFilter(table: set<Row>, settings: Settings): Option<set<Clause>> {
    if !settings.enforced || table == {} then None
    else Some(set row | row in table :: ClauseOf(row, settings.regional))
  }

  /** A null CRN matches no regular expression. */
  ghost predicate ClauseMatches(clause: Clause, job: Job) {
    && clause.account == job.account
    && clause.plan == job.plan
    && clause.subscription == job.subscription
    && (clause.crn.Some? ==> job.crn.Some? && Begins(clause.crn.value, job.crn.value))
  }

  ghost predicate Selects(filter: Option<set<Clause>>, job: Job) {
    filter.Some? && exists clause :: clause in filter.value && ClauseMatches(clause, job)
  }

  /** The filter selects the job. */
  ghost predicate Filtered(table: set<Row>, settings: Settings, job: Job) {
    Selects(JobFilter(table, settings), job)
  }

  /** The job's own resource is blocked, in the region of its CRN. */
  predicate JobBlocked(table: set<Row>, settings: Settings, job: Job) {
    Blocks(table, settings, job.account, job.plan, job.subscription, ParsedRegion(job.crn))
  }

  /** The region of a row is one that a CRN can have. */
  predicate IsRegion(region: string) {
    region != "" && ':' !in region
  }

  lemma FilteredByRow(table: set<Row>, settings: Settings, job: Job)
    ensures Filtered(table, settings, job) <==>
            settings.enforced && exists row :: row in table && ClauseMatches(ClauseOf(row, settings.regional), job)
  {
    if row :| settings.enforced && row in table && ClauseMatches(ClauseOf(row, settings.regional), job) {
      assert ClauseOf(row, settings.regional) in JobFilter(table, settings).value;
    }
  }

  /**
   * A row whose first part of the region is also blocked for the same resource, so that what the expression finds beyond
   * the region is blocked anyway.
   */
  predicate Covered(table: set<Row>, row: Row) {
    exists other :: other in table && SameResource(other, row.account, row.plan, row.subscription) &&
      other.region == FirstPart(row.region) && other.region != ""
  }

  lemma RegionsAreCovered(table: set<Row>, row: Row)
    requires row in table && IsRegion(row.region)
    ensures Covered(table, row)
  {
  }

  /** Every blocked job is selected, whatever the regions of the rows. */
  lemma BlockedIsFiltered(table: set<Row>, settings: Settings, job: Job)
    requires JobBlocked(table, settings, job)
    ensures Filtered(table, settings, job)
  {
    var row :| row in table && SameResource(row, job.account, job.plan, job.subscription) &&
      (settings.regional ==> Some(row.region) == ParsedRegion(job.crn));
    if settings.regional {
      ParsedRegionIsFound(job.crn.value);
    }
    assert ClauseMatches(ClauseOf(row, settings.regional), job);
    FilteredByRow(table, settings, job);
  }

  lemma FilteredIsBlocked(table: set<Row>, settings: Settings, job: Job)
    requires Filtered(table, settings, job)
    requires settings.regional ==> forall row :: row in table ==> Covered(table, row)
    ensures JobBlocked(table, settings, job)
  {
    FilteredByRow(table, settings, job);
    var row :| row in table && ClauseMatches(ClauseOf(row, settings.regional), job);
    assert SameResource(row, job.account, job.plan, job.subscription);
    if settings.regional {
      RegexFindsFirstPart(row.region, job.crn.value);
      assert Covered(table, row);
    }
  }

  /** The filter and the question agree on every job, in both modes, when the rows carry regions. */
  lemma FilterIsBlocks(table: set<Row>, settings: Settings, job: Job)
    requires settings.regional ==> forall row :: row in table ==> IsRegion(row.region)
    ensures Filtered(table, settings, job) <==> JobBlocked(table, settings, job)
  {
    forall row | row in table && settings.regional
      ensures Covered(table, row)
    {
      RegionsAreCovered(table, row);
    }
    if Filtered(table, settings, job) {
      FilteredIsBlocked(table, settings, job);
    }
    if JobBlocked(table, settings, job) {
      BlockedIsFiltered(table, settings, job);
    }
  }

  /** A job of the row's resource whose CRN the expression of the row's region finds. */
  function Probe(row: Row): Job {
    Job(row.account, row.plan, row.subscription, Some(":::::" + row.region + ":"))
  }

  lemma ProbeNeedsCover(table: set<Row>, settings: Settings, row: Row)
    requires row in table && settings.enforced && settings.regional
    requires Filtered(table, settings, Probe(row)) <==> JobBlocked(table, settings, Probe(row))
    ensures Covered(table, row)
  {
    RegionCanBeFound(row.region);
    assert ClauseMatches(ClauseOf(row, true), Probe(row));
    FilteredByRow(table, settings, Probe(row));
    RegexFindsFirstPart(row.region, ":::::" + row.region + ":");
  }

  /**
   * The two agree on every job exactly when blocking is off, regions are not compared, or every row is covered. In
   * general the filter takes more: it also finds the CRNs whose sixth field only begins the region of the row.
   */
  lemma FilterIsBlocksExactlyWhen(table: set<Row>, settings: Settings)
    ensures (forall job :: Filtered(table, settings, job) <==> JobBlocked(table, settings, job)) <==>
            (settings.enforced && settings.regional ==> forall row :: row in table ==> Covered(table, row))
  {
    if settings.enforced && settings.regional ==> forall row :: row in table ==> Covered(table, row) {
      forall job
        ensures Filtered(table, settings, job) <==> JobBlocked(table, settings, job)
      {
        if Filtered(table, settings, job) {
          FilteredIsBlocked(table, settings, job);
        }
        if JobBlocked(table, settings, job) {
          BlockedIsFiltered(table, settings, job);
        }
      }
    }
    if forall job :: Filtered(table, settings, job) <==> JobBlocked(table, settings, job) {
      forall row | row in table && settings.enforced && settings.regional
        ensures Covered(table, row)
      {
        ProbeNeedsCover(table, settings, row);
      }
    }
  }

  /** A row whose region holds a colon stops a job of a region that is not blocked, if it is the only row. */
  lemma ColonInRegionOverblocks(row: Row, head: string, tail: string)
    requires row.region == head + ":" + tail && ':' !in head
    ensures Filtered({row}, Settings(true, true), Probe(row))
    ensures !JobBlocked({row}, Settings(true, true), Probe(row))
  {
    RegionCanBeFound(row.region);
    assert ClauseMatches(ClauseOf(row, true), Probe(row));
    FilteredByRow({row}, Settings(true, true), Probe(row));
    RegexFindsFirstPart(row.region, ":::::" + row.region + ":");
    SplitHead(head, tail);
  }

  lemma OverblockedExample(reason: string)
    ensures var row := Row(Some("acc"), Some("plan"), Some("sub"), reason, "us:east");
            && Filtered({row}, Settings(true, true), Probe(row))
            && !JobBlocked({row}, Settings(true, true), Probe(row))
  {
    var row := Row(Some("acc"), Some("plan"), Some("sub"), reason, "us:east");
    assert row.region == "us" + ":" + "east";
    ColonInRegionOverblocks(row, "us", "east");
  }
}
