/** The run listing: a job's runs (or all runs), newest first, at most a
    page of them. */
module Runs {

  import opened Common
  import opened Ledger
  import opened Sorting

  /** The most rows one listing returns (`take: 100`). */
  const PageSize: nat := 100

  function StartedAt(r: JobRun): int {
    r.startedAt
  }

  /** The `where` clause: a truthy job id selects that job's runs, an absent or
      empty one selects every run. */
  predicate Selected(jobId: Option<string>, r: JobRun) {
    TruthyText(jobId) ==> r.jobId == jobId.value
  }

  /** The rows the `where` clause keeps, in table order. */
  function Candidates(rows: seq<JobRun>, jobId: Option<string>): (r: seq<JobRun>)
    ensures forall x :: x in r <==> x in rows && Selected(jobId, x)
    ensures multiset(r) <= multiset(rows)
  {
    Filter(rows, (x: JobRun) => Selected(jobId, x))
  }

  /** `listByJob`: the selected runs ordered by `startedAt` descending, then
      the first `PageSize` of them. */
  function ListByJob(rows: seq<JobRun>, jobId: Option<string>): (r: seq<JobRun>)
    ensures |r| <= PageSize
    ensures |r| == if |Candidates(rows, jobId)| <= PageSize then |Candidates(rows, jobId)| else PageSize
    ensures SortedDesc(r, StartedAt)
    ensures forall x :: x in r ==> x in rows && Selected(jobId, x)
    ensures multiset(r) <= multiset(Candidates(rows, jobId))
  {
    var ordered := SortDesc(Candidates(rows, jobId), StartedAt);
    var r := if |ordered| <= PageSize then ordered else ordered[..PageSize];
    assert ordered == r + ordered[|r|..];
    assert multiset(ordered) == multiset(r) + multiset(ordered[|r|..]);
    forall x | x in r ensures x in rows && Selected(jobId, x) {
      assert x in multiset(ordered);
    }
    r
  }

  /** With a truthy job id only that job's runs come back. */
  lemma ListByJobFilters(rows: seq<JobRun>, jobId: string)
    requires jobId != ""
    ensures forall x :: x in ListByJob(rows, Some(jobId)) ==> x.jobId == jobId
  {
  }

  /** With no job id, or an empty one, no run is filtered out: the listing is
      a page of the whole table. */
  lemma ListByJobUnfiltered(rows: seq<JobRun>, jobId: Option<string>)
    requires !TruthyText(jobId)
    ensures Candidates(rows, jobId) == rows
    ensures |ListByJob(rows, jobId)| == if |rows| <= PageSize then |rows| else PageSize
  {
    FilterAll(rows, (x: JobRun) => Selected(jobId, x));
  }

  /** The page holds the most recent selected runs: no selected run left out
      started later than one that was returned, and when at most a page of
      runs is selected, all of them come back. */
  lemma ListByJobMostRecent(rows: seq<JobRun>, jobId: Option<string>)
    ensures var r := ListByJob(rows, jobId);
      forall x, y :: x in multiset(Candidates(rows, jobId)) - multiset(r) && y in r
        ==> x.startedAt <= y.startedAt
    ensures |Candidates(rows, jobId)| <= PageSize ==>
      multiset(ListByJob(rows, jobId)) == multiset(Candidates(rows, jobId))
  {
    var ordered := SortDesc(Candidates(rows, jobId), StartedAt);
    var k := if |ordered| <= PageSize then |ordered| else PageSize;
    var r := ListByJob(rows, jobId);
    assert r == ordered[..k];
    assert ordered == ordered[..k] + ordered[k..];
    assert multiset(ordered) == multiset(ordered[..k]) + multiset(ordered[k..]);
    PrefixDominates(ordered, StartedAt, k);
    forall x, y | x in multiset(Candidates(rows, jobId)) - multiset(r) && y in r
      ensures x.startedAt <= y.startedAt
    {
      assert x in multiset(ordered[k..]);
      assert StartedAt(x) <= StartedAt(y);
    }
  }
}
