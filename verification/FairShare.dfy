/**
 * Fair-share selection (`get_jobs_to_schedule_fair_share` in `gateway/scheduler/schedule.py`): a sorted query with two
 * pre-filters, proved equal to the rounds it stands for.
 */
module FairShare {
  import opened Collections

  datatype Phase = Queued | Active | Ended

  /**
   * A job row. `created` is its place in the order by creation time, ties as the database breaks them. `active` jobs
   * are the ones in `Job.RUNNING_STATUSES`; `blocked` says that `blocked_jobs_filter` matches the job.
   */
  datatype Job = Job(author: nat, created: int, phase: Phase, gpu: bool, fleets: bool, filler: bool, blocked: bool)

  /** The arguments of one call. */
  datatype Request = Request(slots: nat, gpu: bool, fleets: bool, jobsPerUser: int)

  datatype Ranked = Ranked(job: Job, rank: nat)

  // ------------------------------------------------------------------ the query

  function Filter<T>(s: seq<T>, f: T -> bool): seq<T> {
    if s == [] then [] else Filter(s[..|s| - 1], f) + if f(s[|s| - 1]) then [s[|s| - 1]] else []
  }

  function IsRunning(req: Request, author: nat): Job -> bool {
    (j: Job) => j.phase.Active? && j.fleets == req.fleets && !j.filler && j.author == author
  }

  function RunningOf(table: seq<Job>, req: Request, author: nat): nat {
    |Filter(table, IsRunning(req, author))|
  }

  /** How many more jobs the author may have running: negative above the limit. */
  function Budget(table: seq<Job>, req: Request, author: nat): int {
    req.jobsPerUser - RunningOf(table, req, author)
  }

  function IsCandidate(req: Request): Job -> bool {
    (j: Job) => j.phase.Queued? && j.gpu == req.gpu && j.fleets == req.fleets && !(req.fleets && j.blocked)
  }

  /** The authors in `running` whose count reaches the limit are excluded from the query. */
  predicate AtCapacity(table: seq<Job>, req: Request, author: nat) {
    var count := RunningOf(table, req, author);
    count > 0 && count >= req.jobsPerUser
  }

  function BelowCapacity(table: seq<Job>, req: Request): Job -> bool {
    (j: Job) => !AtCapacity(table, req, j.author)
  }

  function ByAuthor(author: nat): Job -> bool {
    (j: Job) => j.author == author
  }

  /** `RowNumber` partitioned by author, over jobs in creation order. */
  function RankAll(q: seq<Job>): (r: seq<Ranked>)
    ensures |r| == |q|
    ensures forall i :: 0 <= i < |q| ==> r[i].job == q[i] && r[i].rank >= 1
  {
    if q == [] then []
    else
      var n := |q| - 1;
      RankAll(q[..n]) + [Ranked(q[n], 1 + |Filter(q[..n], ByAuthor(q[n].author))|)]
  }

  predicate Precedes(a: Ranked, b: Ranked) {
    a.rank < b.rank || (a.rank == b.rank && a.job.created < b.job.created)
  }

  function Insert(x: Ranked, s: seq<Ranked>): seq<Ranked> {
    if s == [] || Precedes(x, s[0]) then [x] + s else [s[0]] + Insert(x, s[1..])
  }

  /** `order_by("rank", "created")`. */
  function OrderBy(s: seq<Ranked>): seq<Ranked> {
    if s == [] then [] else Insert(s[0], OrderBy(s[1..]))
  }

  function RankAtMost(bound: int): Ranked -> bool {
    (x: Ranked) => x.rank <= bound
  }

  function WithinBudget(table: seq<Job>, req: Request): Ranked -> bool {
    (x: Ranked) => x.rank <= Budget(table, req, x.job.author)
  }

  function Take<T>(s: seq<T>, n: nat): seq<T> {
    if n <= |s| then s[..n] else s
  }

  /** The function as it is written. */
  function Select(table: seq<Job>, req: Request): seq<Ranked> {
    var queued := Filter(Filter(table, IsCandidate(req)), BelowCapacity(table, req));
    var ranked := OrderBy(Filter(RankAll(queued), RankAtMost(if req.fleets then req.slots else 1)));
    Take(Filter(ranked, WithinBudget(table, req)), req.slots)
  }

  // ------------------------------------------------------------------ the rounds it stands for

  function OfRank(r: nat): Ranked -> bool {
    (x: Ranked) => x.rank == r
  }

  function Rounds(s: seq<Ranked>, from: nat, last: nat): seq<Ranked>
    decreases last + 1 - from
  {
    if from > last then [] else Filter(s, OfRank(from)) + Rounds(s, from + 1, last)
  }

  /** The jobs the budgets allow, over every candidate. */
  function Eligible(table: seq<Job>, req: Request): seq<Ranked> {
    Filter(RankAll(Filter(table, IsCandidate(req))), WithinBudget(table, req))
  }

  /** Every user's oldest job, then every user's second, and so on; one round only for Ray. */
  function RoundRobin(table: seq<Job>, req: Request): seq<Ranked> {
    Rounds(Eligible(table, req), 1, if req.fleets then |table| else 1)
  }

  predicate InCreationOrder(table: seq<Job>) {
    forall i, j :: 0 <= i < j < |table| ==> table[i].created < table[j].created
  }

  // ------------------------------------------------------------------ filters

  lemma FilterAppend<T>(s: seq<T>, x: T, f: T -> bool)
    ensures Filter(s + [x], f) == Filter(s, f) + if f(x) then [x] else []
  {
    assert (s + [x])[..|s|] == s;
  }

  lemma {:induction false} FilterConcat<T>(s: seq<T>, t: seq<T>, f: T -> bool)
    ensures Filter(s + t, f) == Filter(s, f) + Filter(t, f)
  {
    if t == [] {
      assert s + t == s;
    } else {
      var n := |t| - 1;
      FilterConcat(s, t[..n], f);
      assert (s + t)[..|s + t| - 1] == s + t[..n];
    }
  }

  lemma {:induction false} FilterMembers<T>(s: seq<T>, f: T -> bool)
    ensures |Filter(s, f)| <= |s|
    ensures forall x :: x in Filter(s, f) <==> x in s && f(x)
  {
    if s != [] {
      var n := |s| - 1;
      FilterMembers(s[..n], f);
      assert s == s[..n] + [s[n]];
    }
  }

  lemma {:induction false} FilterNone<T>(s: seq<T>, f: T -> bool)
    requires forall x :: x in s ==> !f(x)
    ensures Filter(s, f) == []
  {
    if s != [] {
      FilterNone(s[..|s| - 1], f);
    }
  }

  lemma {:induction false} FiltersCommute<T>(s: seq<T>, f: T -> bool, g: T -> bool)
    ensures Filter(Filter(s, f), g) == Filter(Filter(s, g), f)
  {
    if s != [] {
      var n := |s| - 1;
      FiltersCommute(s[..n], f, g);
      FilterAppend(Filter(s[..n], f), s[n], g);
      FilterAppend(Filter(s[..n], g), s[n], f);
      assert Filter(s[..n], f) + [] == Filter(s[..n], f);
      assert Filter(s[..n], g) + [] == Filter(s[..n], g);
    }
  }

  /** A filter that the next one implies can be dropped. */
  lemma {:induction false} FilterImplied<T>(s: seq<T>, f: T -> bool, g: T -> bool)
    requires forall x :: x in s && g(x) ==> f(x)
    ensures Filter(Filter(s, f), g) == Filter(s, g)
  {
    if s != [] {
      var n := |s| - 1;
      FilterImplied(s[..n], f, g);
      FilterAppend(Filter(s[..n], f), s[n], g);
      assert s[n] in s;
      assert Filter(s[..n], f) + [] == Filter(s[..n], f);
    }
  }

  lemma {:induction false} FilterKeepsOrder(s: seq<Job>, f: Job -> bool)
    requires InCreationOrder(s)
    ensures InCreationOrder(Filter(s, f))
  {
    if s != [] {
      var n := |s| - 1;
      FilterKeepsOrder(s[..n], f);
      FilterMembers(s[..n], f);
      forall i | 0 <= i < |Filter(s[..n], f)|
        ensures Filter(s[..n], f)[i].created < s[n].created
      {
        assert Filter(s[..n], f)[i] in s[..n];
      }
    }
  }

  // ------------------------------------------------------------------ sorting is rounds

  predicate RankedInOrder(s: seq<Ranked>) {
    forall i, j :: 0 <= i < j < |s| ==> s[i].job.created < s[j].job.created
  }

  lemma {:induction false} RankedFilterKeepsOrder(s: seq<Ranked>, f: Ranked -> bool)
    requires RankedInOrder(s)
    ensures RankedInOrder(Filter(s, f))
  {
    if s != [] {
      var n := |s| - 1;
      RankedFilterKeepsOrder(s[..n], f);
      FilterMembers(s[..n], f);
      forall i | 0 <= i < |Filter(s[..n], f)|
        ensures Filter(s[..n], f)[i].job.created < s[n].job.created
      {
        assert Filter(s[..n], f)[i] in s[..n];
      }
    }
  }

  lemma {:induction false} RoundsMember(s: seq<Ranked>, from: nat, last: nat, x: Ranked)
    ensures x in Rounds(s, from, last) <==> x in s && from <= x.rank <= last
    decreases last + 1 - from
  {
    if from <= last {
      RoundMember(s, from, x);
      RoundsMember(s, from + 1, last, x);
      InEither(Filter(s, OfRank(from)), Rounds(s, from + 1, last), x);
    }
  }

  lemma RoundMember(s: seq<Ranked>, r: nat, x: Ranked)
    ensures x in Filter(s, OfRank(r)) <==> x in s && x.rank == r
  {
    FilterMembers(s, OfRank(r));
    assert OfRank(r)(x) <==> x.rank == r;
  }

  lemma InEither<T>(a: seq<T>, b: seq<T>, x: T)
    ensures x in a + b <==> x in a || x in b
  {
  }

  lemma {:induction false} InsertPast(x: Ranked, before: seq<Ranked>, rest: seq<Ranked>)
    requires forall y :: y in before ==> !Precedes(x, y)
    ensures Insert(x, before + rest) == before + Insert(x, rest)
  {
    if before == [] {
      assert before + rest == rest;
    } else {
      InsertPast(x, before[1..], rest);
      assert (before + rest)[1..] == before[1..] + rest;
      assert [before[0]] + (before[1..] + Insert(x, rest)) == before + Insert(x, rest);
    }
  }

  lemma FilterPrepend(x: Ranked, s: seq<Ranked>, f: Ranked -> bool)
    ensures Filter([x] + s, f) == (if f(x) then [x] else []) + Filter(s, f)
  {
    FilterConcat([x], s, f);
    assert Filter([x], f) == if f(x) then [x] else [];
  }

  lemma {:induction false} RoundsWithout(x: Ranked, s: seq<Ranked>, from: nat, last: nat)
    requires x.rank < from
    ensures Rounds([x] + s, from, last) == Rounds(s, from, last)
    decreases last + 1 - from
  {
    if from <= last {
      FilterPrepend(x, s, OfRank(from));
      RoundsWithout(x, s, from + 1, last);
      assert [] + Filter(s, OfRank(from)) == Filter(s, OfRank(from));
    }
  }

  lemma FirstOfRounds(x: Ranked, s: seq<Ranked>, last: nat)
    requires forall y :: y in s ==> x.job.created < y.job.created
    ensures Insert(x, Rounds(s, x.rank, last)) == [x] + Rounds(s, x.rank, last)
  {
    var all := Rounds(s, x.rank, last);
    if all != [] {
      RoundsMember(s, x.rank, last, all[0]);
    }
  }

  /** A job created before all of `s` goes to the front of its round. */
  lemma RoundsWithFirst(x: Ranked, s: seq<Ranked>, last: nat)
    requires x.rank <= last
    ensures Rounds([x] + s, x.rank, last) == [x] + Rounds(s, x.rank, last)
  {
    var round, rest := Filter(s, OfRank(x.rank)), Rounds(s, x.rank + 1, last);
    calc {
      Rounds([x] + s, x.rank, last);
      Filter([x] + s, OfRank(x.rank)) + Rounds([x] + s, x.rank + 1, last);
      { FilterPrepend(x, s, OfRank(x.rank)); RoundsWithout(x, s, x.rank + 1, last); }
      ([x] + round) + rest;
      [x] + (round + rest);
    }
  }

  /** A round of a smaller rank has no place for `x`. */
  lemma RoundPassesOn(x: Ranked, s: seq<Ranked>, from: nat)
    requires from < x.rank
    ensures Filter([x] + s, OfRank(from)) == Filter(s, OfRank(from))
    ensures forall y :: y in Filter(s, OfRank(from)) ==> !Precedes(x, y)
  {
    FilterPrepend(x, s, OfRank(from));
    FilterMembers(s, OfRank(from));
  }

  lemma InsertInLaterRound(x: Ranked, s: seq<Ranked>, from: nat, last: nat)
    requires from < x.rank <= last
    requires Insert(x, Rounds(s, from + 1, last)) == Rounds([x] + s, from + 1, last)
    ensures Insert(x, Rounds(s, from, last)) == Rounds([x] + s, from, last)
  {
    var round, rest := Filter(s, OfRank(from)), Rounds(s, from + 1, last);
    assert Rounds(s, from, last) == round + rest;
    RoundPassesOn(x, s, from);
    assert Rounds([x] + s, from, last) == round + Rounds([x] + s, from + 1, last);
    InsertPast(x, round, rest);
  }

  lemma {:induction false} InsertIntoRounds(x: Ranked, s: seq<Ranked>, from: nat, last: nat)
    requires from <= x.rank <= last
    requires forall y :: y in s ==> x.job.created < y.job.created
    ensures Insert(x, Rounds(s, from, last)) == Rounds([x] + s, from, last)
    decreases last + 1 - from
  {
    if from == x.rank {
      FirstOfRounds(x, s, last);
      RoundsWithFirst(x, s, last);
    } else {
      InsertIntoRounds(x, s, from + 1, last);
      InsertInLaterRound(x, s, from, last);
    }
  }

  lemma {:induction false} RoundsOfNothing(from: nat, last: nat)
    ensures Rounds([], from, last) == []
    decreases last + 1 - from
  {
    if from <= last {
      RoundsOfNothing(from + 1, last);
    }
  }

  /** Sorting by rank and creation is listing the rounds. */
  lemma {:induction false} OrderByIsRounds(s: seq<Ranked>, last: nat)
    requires RankedInOrder(s) && forall x :: x in s ==> 1 <= x.rank <= last
    ensures OrderBy(s) == Rounds(s, 1, last)
  {
    if s == [] {
      RoundsOfNothing(1, last);
    } else {
      OrderByIsRounds(s[1..], last);
      InsertIntoRounds(s[0], s[1..], 1, last);
      assert [s[0]] + s[1..] == s;
    }
  }

  lemma {:induction false} FilterOfRounds(s: seq<Ranked>, from: nat, last: nat, f: Ranked -> bool)
    ensures Filter(Rounds(s, from, last), f) == Rounds(Filter(s, f), from, last)
    decreases last + 1 - from
  {
    if from <= last {
      FilterConcat(Filter(s, OfRank(from)), Rounds(s, from + 1, last), f);
      FiltersCommute(s, OfRank(from), f);
      FilterOfRounds(s, from + 1, last, f);
    }
  }

  lemma {:induction false} RoundsSplit(s: seq<Ranked>, from: nat, mid: nat, last: nat)
    requires from <= mid + 1 && mid <= last
    ensures Rounds(s, from, last) == Rounds(s, from, mid) + Rounds(s, mid + 1, last)
    decreases mid + 1 - from
  {
    if from <= mid {
      RoundsSplit(s, from + 1, mid, last);
    }
  }

  // ------------------------------------------------------------------ ranks

  function RankedBelow(table: seq<Job>, req: Request): Ranked -> bool {
    (x: Ranked) => !AtCapacity(table, req, x.job.author)
  }

  /** Dropping other authors leaves an author's count. */
  lemma DropKeepsCount(q: seq<Job>, table: seq<Job>, req: Request, author: nat)
    requires !AtCapacity(table, req, author)
    ensures Filter(Filter(q, BelowCapacity(table, req)), ByAuthor(author)) == Filter(q, ByAuthor(author))
  {
    FilterImplied(q, BelowCapacity(table, req), ByAuthor(author));
  }

  lemma RankAppend(q: seq<Job>, j: Job)
    ensures RankAll(q + [j]) == RankAll(q) + [Ranked(j, 1 + |Filter(q, ByAuthor(j.author))|)]
  {
    assert (q + [j])[..|q|] == q;
  }

  /** Dropping whole authors before ranking gives the same ranks as dropping them after. */
  lemma {:induction false} RankThenDrop(q: seq<Job>, table: seq<Job>, req: Request)
    ensures RankAll(Filter(q, BelowCapacity(table, req))) == Filter(RankAll(q), RankedBelow(table, req))
  {
    if q != [] {
      var before, last := q[..|q| - 1], q[|q| - 1];
      assert q == before + [last];
      RankThenDrop(before, table, req);
      RankThenDropOne(before, last, table, req);
    }
  }

  lemma RankThenDropOne(q: seq<Job>, j: Job, table: seq<Job>, req: Request)
    requires RankAll(Filter(q, BelowCapacity(table, req))) == Filter(RankAll(q), RankedBelow(table, req))
    ensures RankAll(Filter(q + [j], BelowCapacity(table, req))) == Filter(RankAll(q + [j]), RankedBelow(table, req))
  {
    var f := BelowCapacity(table, req);
    var ranked := Ranked(j, 1 + |Filter(q, ByAuthor(j.author))|);
    RankAppend(q, j);
    FilterAppend(RankAll(q), ranked, RankedBelow(table, req));
    FilterAppend(q, j, f);
    if f(j) {
      RankAppend(Filter(q, f), j);
      DropKeepsCount(q, table, req, j.author);
    } else {
      assert Filter(q, f) + [] == Filter(q, f);
    }
  }

  lemma {:induction false} RankIsAtMostLength(q: seq<Job>)
    ensures forall x :: x in RankAll(q) ==> 1 <= x.rank <= |q|
  {
    if q != [] {
      var n := |q| - 1;
      RankIsAtMostLength(q[..n]);
      FilterMembers(q[..n], ByAuthor(q[n].author));
    }
  }

  lemma RankKeepsOrder(q: seq<Job>)
    requires InCreationOrder(q)
    ensures RankedInOrder(RankAll(q))
  {
  }

  /** The ranks of an author are 1, 2, ... with none left out. */
  lemma {:induction false} RanksAreConsecutive(q: seq<Job>, author: nat, r: nat) returns (x: Ranked)
    requires 1 <= r <= |Filter(q, ByAuthor(author))|
    ensures x in RankAll(q) && x.job.author == author && x.rank == r
  {
    var n := |q| - 1;
    var before := |Filter(q[..n], ByAuthor(author))|;
    if r <= before {
      x := RanksAreConsecutive(q[..n], author, r);
    } else {
      x := RankAll(q)[n];
    }
  }

  lemma {:induction false} RankIsAtMostCount(q: seq<Job>, x: Ranked)
    requires x in RankAll(q)
    ensures 1 <= x.rank <= |Filter(q, ByAuthor(x.job.author))|
  {
    var n := |q| - 1;
    if x in RankAll(q[..n]) {
      RankIsAtMostCount(q[..n], x);
    }
  }

  // ------------------------------------------------------------------ the pre-filters change nothing

  ghost predicate HasRank(s: seq<Ranked>, r: nat) {
    exists x :: x in s && x.rank == r
  }

  /** Rounds that all have a job have at least as many jobs as rounds. */
  lemma {:induction false} NonEmptyRounds(s: seq<Ranked>, from: nat, last: nat)
    requires forall r: nat :: from <= r <= last ==> HasRank(s, r)
    ensures |Rounds(s, from, last)| >= last + 1 - from
    decreases last + 1 - from
  {
    if from <= last {
      FilterMembers(s, OfRank(from));
      assert HasRank(s, from);
      var x :| x in s && x.rank == from;
      assert x in Filter(s, OfRank(from));
      NonEmptyRounds(s, from + 1, last);
    }
  }

  /** A job ranked past the slots comes after at least as many jobs of its own author. */
  lemma LateRankMeansFullRounds(table: seq<Job>, req: Request, late: Ranked)
    requires late in Eligible(table, req) && late.rank > req.slots
    ensures |Rounds(Eligible(table, req), 1, req.slots)| >= req.slots
  {
    var q := Filter(table, IsCandidate(req));
    FilterMembers(RankAll(q), WithinBudget(table, req));
    RankIsAtMostCount(q, late);
    forall r: nat | 1 <= r <= req.slots
      ensures HasRank(Eligible(table, req), r)
    {
      var x := RanksAreConsecutive(q, late.job.author, r);
      assert x in Eligible(table, req);
    }
    NonEmptyRounds(Eligible(table, req), 1, req.slots);
  }

  lemma {:induction false} EmptyRounds(s: seq<Ranked>, from: nat, last: nat)
    requires forall x :: x in s ==> !(from <= x.rank <= last)
    ensures Rounds(s, from, last) == []
  {
    if Rounds(s, from, last) != [] {
      RoundsMember(s, from, last, Rounds(s, from, last)[0]);
    }
  }

  lemma EligibleRanks(table: seq<Job>, req: Request)
    ensures forall x :: x in Eligible(table, req) ==> 1 <= x.rank <= |table|
  {
    var q := Filter(table, IsCandidate(req));
    FilterMembers(table, IsCandidate(req));
    FilterMembers(RankAll(q), WithinBudget(table, req));
    RankIsAtMostLength(q);
  }

  lemma RankBoundIsHarmless(table: seq<Job>, req: Request)
    ensures Take(Rounds(Eligible(table, req), 1, req.slots), req.slots) ==
            Take(Rounds(Eligible(table, req), 1, |table|), req.slots)
  {
    EligibleRanks(table, req);
    if req.slots <= |table| {
      forall late | late in Eligible(table, req) && late.rank > req.slots
        ensures |Rounds(Eligible(table, req), 1, req.slots)| >= req.slots
      {
        LateRankMeansFullRounds(table, req, late);
      }
      LaterRoundsDoNotMatter(Eligible(table, req), req.slots, |table|);
    } else {
      NoLaterRounds(Eligible(table, req), |table|, req.slots);
    }
  }

  /** The rounds past the slots are empty, or the slots are full before them. */
  lemma LaterRoundsDoNotMatter(e: seq<Ranked>, slots: nat, last: nat)
    requires slots <= last
    requires forall x :: x in e && x.rank > slots ==> |Rounds(e, 1, slots)| >= slots
    ensures Take(Rounds(e, 1, slots), slots) == Take(Rounds(e, 1, last), slots)
  {
    RoundsSplit(e, 1, slots, last);
    if |Rounds(e, 1, slots)| < slots {
      EmptyRounds(e, slots + 1, last);
    }
  }

  lemma NoLaterRounds(e: seq<Ranked>, last: nat, slots: nat)
    requires last < slots && forall x :: x in e ==> x.rank <= last
    ensures Rounds(e, 1, slots) == Rounds(e, 1, last)
  {
    RoundsSplit(e, 1, last, slots);
    EmptyRounds(e, last + 1, slots);
  }

  lemma RankedQueueInOrder(table: seq<Job>, req: Request)
    requires InCreationOrder(table)
    ensures RankedInOrder(RankAll(Filter(Filter(table, IsCandidate(req)), BelowCapacity(table, req))))
  {
    var q := Filter(table, IsCandidate(req));
    FilterKeepsOrder(table, IsCandidate(req));
    FilterKeepsOrder(q, BelowCapacity(table, req));
    RankKeepsOrder(Filter(q, BelowCapacity(table, req)));
  }

  lemma SortedQueueIsRounds(ranked: seq<Ranked>, bound: nat)
    requires RankedInOrder(ranked) && forall x :: x in ranked ==> x.rank >= 1
    ensures OrderBy(Filter(ranked, RankAtMost(bound))) == Rounds(Filter(ranked, RankAtMost(bound)), 1, bound)
  {
    RankedFilterKeepsOrder(ranked, RankAtMost(bound));
    FilterMembers(ranked, RankAtMost(bound));
    OrderByIsRounds(Filter(ranked, RankAtMost(bound)), bound);
  }

  /** The users at capacity have no budget, so the budget drops them too. */
  lemma CapacityFilterIsImplied(table: seq<Job>, req: Request)
    ensures var q := Filter(table, IsCandidate(req));
            Filter(RankAll(Filter(q, BelowCapacity(table, req))), WithinBudget(table, req)) == Eligible(table, req)
  {
    var q := Filter(table, IsCandidate(req));
    RankThenDrop(q, table, req);
    FilterImplied(RankAll(q), RankedBelow(table, req), WithinBudget(table, req));
  }

  /** What is left of the query once both pre-filters are moved after the ranking. */
  lemma QueryIsBoundedRounds(table: seq<Job>, req: Request, bound: nat)
    requires InCreationOrder(table)
    ensures var queued := Filter(Filter(table, IsCandidate(req)), BelowCapacity(table, req));
            Filter(OrderBy(Filter(RankAll(queued), RankAtMost(bound))), WithinBudget(table, req)) ==
            Rounds(Eligible(table, req), 1, bound)
  {
    var queued := Filter(Filter(table, IsCandidate(req)), BelowCapacity(table, req));
    var ranked := RankAll(queued);
    var bounded := Filter(ranked, RankAtMost(bound));
    RankedQueueInOrder(table, req);
    SortedQueueIsRounds(ranked, bound);
    FilterOfRounds(bounded, 1, bound, WithinBudget(table, req));
    FiltersCommute(ranked, RankAtMost(bound), WithinBudget(table, req));
    CapacityFilterIsImplied(table, req);
    RoundsIgnoreLater(Eligible(table, req), 1, bound);
  }

  lemma {:induction false} RoundsIgnoreLater(s: seq<Ranked>, from: nat, bound: nat)
    ensures Rounds(Filter(s, RankAtMost(bound)), from, bound) == Rounds(s, from, bound)
    decreases bound + 1 - from
  {
    if from <= bound {
      FilterImplied(s, RankAtMost(bound), OfRank(from));
      RoundsIgnoreLater(s, from + 1, bound);
    }
  }

  /**
   * The refinement: dropping the users at capacity and the ranks past the slots before sorting gives the same list as
   * the first `slots` jobs of the plain rounds.
   */
  lemma SelectIsRoundRobin(table: seq<Job>, req: Request)
    requires InCreationOrder(table)
    ensures Select(table, req) == Take(RoundRobin(table, req), req.slots)
  {
    QueryIsBoundedRounds(table, req, if req.fleets then req.slots else 1);
    if req.fleets {
      RankBoundIsHarmless(table, req);
    }
  }

  // ------------------------------------------------------------------ what the rounds promise

  function OfAuthor(author: nat): Ranked -> bool {
    (x: Ranked) => x.job.author == author
  }

  function RankBetween(from: nat, last: nat): Ranked -> bool {
    (x: Ranked) => from <= x.rank <= last
  }

  lemma {:induction false} OneMoreRank(s: seq<Ranked>, from: nat, last: nat)
    requires from <= last
    ensures |Filter(s, RankBetween(from, last))| == |Filter(s, OfRank(from))| + |Filter(s, RankBetween(from + 1, last))|
  {
    if s != [] {
      OneMoreRank(s[..|s| - 1], from, last);
    }
  }

  lemma {:induction false} RoundsLength(s: seq<Ranked>, from: nat, last: nat)
    ensures |Rounds(s, from, last)| == |Filter(s, RankBetween(from, last))|
    decreases last + 1 - from
  {
    if from > last {
      assert forall x :: x in s ==> !RankBetween(from, last)(x);
      FilterNone(s, RankBetween(from, last));
    } else {
      assert Rounds(s, from, last) == Filter(s, OfRank(from)) + Rounds(s, from + 1, last);
      OneMoreRank(s, from, last);
      RoundsLength(s, from + 1, last);
    }
  }

  function AtLeastZero(a: int): nat {
    if a < 0 then 0 else a
  }

  /** How many jobs of one author the limits let through: the queued ones, the budget, and one for Ray. */
  function Usable(table: seq<Job>, req: Request, author: nat): nat {
    var queued := |Filter(Filter(table, IsCandidate(req)), ByAuthor(author))|;
    Min(Min(queued, AtLeastZero(Budget(table, req, author))), if req.fleets then |table| else 1)
  }

  lemma NestedAppend<T>(s: seq<T>, x: T, f: T -> bool, g: T -> bool, h: T -> bool)
    ensures |Filter(Filter(Filter(s + [x], f), g), h)| ==
            |Filter(Filter(Filter(s, f), g), h)| + if f(x) && g(x) && h(x) then 1 else 0
  {
    FilterAppend(s, x, f);
    if f(x) {
      FilterAppend(Filter(s, f), x, g);
      if g(x) {
        FilterAppend(Filter(Filter(s, f), g), x, h);
      } else {
        assert Filter(Filter(s, f), g) + [] == Filter(Filter(s, f), g);
      }
    } else {
      assert Filter(s, f) + [] == Filter(s, f);
    }
  }

  /** The jobs of one author among the first rounds that the budgets allow. */
  function Allowed(s: seq<Ranked>, table: seq<Job>, req: Request, author: nat, last: nat): nat {
    |Filter(Filter(Filter(s, WithinBudget(table, req)), OfAuthor(author)), RankBetween(1, last))|
  }

  lemma AllowedAppend(s: seq<Ranked>, x: Ranked, table: seq<Job>, req: Request, author: nat, last: nat)
    ensures Allowed(s + [x], table, req, author, last) == Allowed(s, table, req, author, last) +
              if x.job.author == author && 1 <= x.rank <= Min(Budget(table, req, author), last) then 1 else 0
  {
    NestedAppend(s, x, WithinBudget(table, req), OfAuthor(author), RankBetween(1, last));
  }

  lemma {:induction false} AuthorRanks(q: seq<Job>, table: seq<Job>, req: Request, author: nat, last: nat)
    ensures Allowed(RankAll(q), table, req, author, last) ==
            Min(Min(|Filter(q, ByAuthor(author))|, AtLeastZero(Budget(table, req, author))), last)
  {
    if q != [] {
      var n := |q| - 1;
      AuthorRanks(q[..n], table, req, author, last);
      var rank := 1 + |Filter(q[..n], ByAuthor(q[n].author))|;
      AllowedAppend(RankAll(q[..n]), Ranked(q[n], rank), table, req, author, last);
    }
  }

  /** The rounds hold exactly the usable jobs of every author. */
  lemma RoundsOfAuthor(table: seq<Job>, req: Request, author: nat)
    ensures |Filter(RoundRobin(table, req), OfAuthor(author))| == Usable(table, req, author)
  {
    var last := if req.fleets then |table| else 1;
    var mine := Filter(Eligible(table, req), OfAuthor(author));
    FilterOfRounds(Eligible(table, req), 1, last, OfAuthor(author));
    RoundsLength(mine, 1, last);
    AuthorRanks(Filter(table, IsCandidate(req)), table, req, author, last);
  }

  lemma {:induction false} PrefixFilter<T>(s: seq<T>, n: nat, f: T -> bool)
    ensures |Filter(Take(s, n), f)| <= |Filter(s, f)|
  {
    if n < |s| {
      FilterConcat(s[..n], s[n..], f);
      assert s[..n] + s[n..] == s;
    } else {
      assert Take(s, n) == s;
    }
  }

  /**
   * No user gets past the limit: the jobs picked for a user and the ones already running stay within `jobsPerUser`,
   * and a user at or above the limit gets none. For Ray a user gets at most one.
   */
  lemma SelectionRespectsLimits(table: seq<Job>, req: Request, author: nat)
    requires InCreationOrder(table)
    ensures var picked := |Filter(Select(table, req), OfAuthor(author))|;
            && (picked > 0 ==> RunningOf(table, req, author) + picked <= req.jobsPerUser)
            && (!req.fleets ==> picked <= 1)
            && picked <= |Filter(Filter(table, IsCandidate(req)), ByAuthor(author))|
  {
    SelectIsRoundRobin(table, req);
    RoundsOfAuthor(table, req, author);
    PrefixFilter(RoundRobin(table, req), req.slots, OfAuthor(author));
  }

  // ------------------------------------------------------------------ order and length

  predicate Sorted(s: seq<Ranked>) {
    forall i, j :: 0 <= i < j < |s| ==> Precedes(s[i], s[j])
  }

  lemma RoundIsSorted(s: seq<Ranked>, r: nat)
    requires RankedInOrder(s)
    ensures Sorted(Filter(s, OfRank(r)))
  {
    var round := Filter(s, OfRank(r));
    RankedFilterKeepsOrder(s, OfRank(r));
    FilterMembers(s, OfRank(r));
    forall i, j | 0 <= i < j < |round|
      ensures Precedes(round[i], round[j])
    {
      assert round[i] in round && round[j] in round;
    }
  }

  predicate AllPrecede(a: seq<Ranked>, b: seq<Ranked>) {
    forall i, j :: 0 <= i < |a| && 0 <= j < |b| ==> Precedes(a[i], b[j])
  }

  lemma SortedConcat(a: seq<Ranked>, b: seq<Ranked>)
    requires Sorted(a) && Sorted(b)
    requires AllPrecede(a, b)
    ensures Sorted(a + b)
  {
  }

  lemma RoundComesFirst(s: seq<Ranked>, from: nat, last: nat)
    ensures var round, rest := Filter(s, OfRank(from)), Rounds(s, from + 1, last);
            AllPrecede(round, rest)
  {
    var round, rest := Filter(s, OfRank(from)), Rounds(s, from + 1, last);
    FilterMembers(s, OfRank(from));
    forall i, j | 0 <= i < |round| && 0 <= j < |rest|
      ensures Precedes(round[i], rest[j])
    {
      assert round[i] in round;
      RoundsMember(s, from + 1, last, rest[j]);
    }
  }

  lemma {:induction false} RoundsAreSorted(s: seq<Ranked>, from: nat, last: nat)
    requires RankedInOrder(s)
    ensures Sorted(Rounds(s, from, last))
    decreases last + 1 - from
  {
    if from <= last {
      RoundsAreSorted(s, from + 1, last);
      RoundThenRest(s, from, last, Filter(s, OfRank(from)), Rounds(s, from + 1, last));
    }
  }

  lemma RoundThenRest(s: seq<Ranked>, from: nat, last: nat, round: seq<Ranked>, rest: seq<Ranked>)
    requires RankedInOrder(s) && round == Filter(s, OfRank(from)) && rest == Rounds(s, from + 1, last) && Sorted(rest)
    ensures Sorted(round + rest)
  {
    RoundIsSorted(s, from);
    RoundComesFirst(s, from, last);
    SortedConcat(round, rest);
  }

  lemma EligibleInOrder(table: seq<Job>, req: Request)
    requires InCreationOrder(table)
    ensures RankedInOrder(Eligible(table, req))
  {
    FilterKeepsOrder(table, IsCandidate(req));
    RankKeepsOrder(Filter(table, IsCandidate(req)));
    RankedFilterKeepsOrder(RankAll(Filter(table, IsCandidate(req))), WithinBudget(table, req));
  }

  /**
   * Nobody is overtaken: a job the limits allow that comes before a picked one, in an earlier round or created earlier in
   * the same round, is picked too.
   */
  lemma SelectionInRounds(table: seq<Job>, req: Request, picked: Ranked, other: Ranked)
    requires InCreationOrder(table)
    requires picked in Select(table, req) && other in Eligible(table, req) && Precedes(other, picked)
    ensures other in Select(table, req)
  {
    SelectIsRoundRobin(table, req);
    EligibleInOrder(table, req);
    var last := if req.fleets then |table| else 1;
    var all := RoundRobin(table, req);
    RoundsAreSorted(Eligible(table, req), 1, last);
    RoundsMember(Eligible(table, req), 1, last, picked);
    EligibleRanks(table, req);
    RoundsMember(Eligible(table, req), 1, last, other);
    var i :| 0 <= i < |Select(table, req)| && Select(table, req)[i] == picked;
    var j :| 0 <= j < |all| && all[j] == other;
    assert all[i] == picked;
    assert j > i ==> Precedes(all[i], all[j]);
  }

  /** The usable jobs of the authors below `authors`. */
  function TotalUsable(table: seq<Job>, req: Request, authors: nat): nat {
    if authors == 0 then 0 else TotalUsable(table, req, authors - 1) + Usable(table, req, authors - 1)
  }

  function AuthorBelow(authors: nat): Ranked -> bool {
    (x: Ranked) => x.job.author < authors
  }

  lemma {:induction false} OneMoreAuthor(s: seq<Ranked>, a: nat)
    ensures |Filter(s, AuthorBelow(a + 1))| == |Filter(s, AuthorBelow(a))| + |Filter(s, OfAuthor(a))|
  {
    if s != [] {
      OneMoreAuthor(s[..|s| - 1], a);
    }
  }

  /** A selection that holds the usable jobs of every author. */
  lemma {:induction false} CountByAuthor(s: seq<Ranked>, table: seq<Job>, req: Request, authors: nat)
    requires forall a: nat :: |Filter(s, OfAuthor(a))| == Usable(table, req, a)
    ensures |Filter(s, AuthorBelow(authors))| == TotalUsable(table, req, authors)
  {
    if authors == 0 {
      assert forall x :: x in s ==> !AuthorBelow(0)(x);
      FilterNone(s, AuthorBelow(0));
    } else {
      CountByAuthor(s, table, req, authors - 1);
      OneMoreAuthor(s, authors - 1);
    }
  }

  lemma {:induction false} FilterAll<T>(s: seq<T>, f: T -> bool)
    requires forall i :: 0 <= i < |s| ==> f(s[i])
    ensures Filter(s, f) == s
  {
    if s != [] {
      var n := |s| - 1;
      FilterAll(s[..n], f);
      assert s[..n] + [s[n]] == s;
    }
  }

  lemma RoundRobinAuthors(table: seq<Job>, req: Request, authors: nat)
    requires forall i :: 0 <= i < |table| ==> table[i].author < authors
    ensures forall x :: x in RoundRobin(table, req) ==> AuthorBelow(authors)(x)
  {
    var q := Filter(table, IsCandidate(req));
    FilterMembers(table, IsCandidate(req));
    FilterMembers(RankAll(q), WithinBudget(table, req));
    forall x | x in RoundRobin(table, req)
      ensures AuthorBelow(authors)(x)
    {
      RoundsMember(Eligible(table, req), 1, if req.fleets then |table| else 1, x);
      var i :| 0 <= i < |RankAll(q)| && RankAll(q)[i] == x;
      assert q[i] in q;
    }
  }

  /** The selection is as long as it can be: all the slots, or every usable job of every user. */
  lemma SelectionLength(table: seq<Job>, req: Request, authors: nat)
    requires InCreationOrder(table)
    requires forall i :: 0 <= i < |table| ==> table[i].author < authors
    ensures |Select(table, req)| == Min(req.slots, TotalUsable(table, req, authors))
  {
    SelectIsRoundRobin(table, req);
    RoundRobinAuthors(table, req, authors);
    FilterAll(RoundRobin(table, req), AuthorBelow(authors));
    forall a: nat
      ensures |Filter(RoundRobin(table, req), OfAuthor(a))| == Usable(table, req, a)
    {
      RoundsOfAuthor(table, req, a);
    }
    CountByAuthor(RoundRobin(table, req), table, req, authors);
  }
}
