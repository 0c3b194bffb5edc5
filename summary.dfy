/** The dashboard's run summary: over the runs of the last seven days, the
    rounded share of successes and the rounded mean duration. */
module Summary {

  import opened Common
  import opened Sorting

  /** Seven days in milliseconds. */
  const Week: int := 7 * 24 * 60 * 60 * 1000

  /** A run as the dashboard receives it: times in epoch milliseconds, the end
      time absent while the run has none. */
  datatype RunView = RunView(status: string, startedAt: int, endedAt: Option<int>)

  datatype RunSummary = RunSummary(successRate: int, runs7d: nat, avgDurationMs: int)

  const NoRuns: RunSummary := RunSummary(0, 0, 0)

  /** The run started at most seven days before `now`. */
  predicate InWindow(now: int, r: RunView) {
    now - r.startedAt <= Week
  }

  predicate Succeeded(r: RunView) {
    r.status == "success"
  }

  /** How long a run took; a run without an end time counts as 0. */
  function Duration(r: RunView): int {
    match r.endedAt
    case Some(e) => e - r.startedAt
    case None => 0
  }

  function Sum(s: seq<int>): int {
    if s == [] then 0 else Sum(s[..|s| - 1]) + s[|s| - 1]
  }

  /** The runs of the last seven days. */
  function Window(runs: seq<RunView>, now: int): seq<RunView> {
    Filter(runs, (r: RunView) => InWindow(now, r))
  }

  function Durations(runs: seq<RunView>): (d: seq<int>)
    ensures |d| == |runs|
    ensures forall i :: 0 <= i < |runs| ==> d[i] == Duration(runs[i])
  {
    seq(|runs|, i requires 0 <= i < |runs| => Duration(runs[i]))
  }

  /** `summarizeRuns`; `runs` is `None` when the value is not an array. */
  function Summarize(runs: Option<seq<RunView>>, now: int): (r: RunSummary)
    ensures runs.None? || runs.value == [] ==> r == NoRuns
    ensures runs.Some? ==> r.runs7d <= |runs.value|
    ensures 0 <= r.successRate <= 100
  {
    if runs.None? || runs.value == [] then NoRuns
    else
      var last7d := Window(runs.value, now);
      var n := |last7d|;
      var success := |Filter(last7d, Succeeded)|;
      var rate := if n > 0 then RoundDivWithin(success * 100, n, 0, 100); RoundDiv(success * 100, n) else 0;
      var durations := Durations(last7d);
      var avg := if n > 0 then RoundDiv(Sum(durations), n) else 0;
      RunSummary(rate, n, avg)
  }

  /** `runs7d` counts exactly the runs started within the last seven days. */
  lemma SummarizeCountsWindow(runs: seq<RunView>, now: int)
    requires runs != []
    ensures Summarize(Some(runs), now).runs7d == |Window(runs, now)|
    ensures forall x :: x in Window(runs, now) <==> x in runs && now - x.startedAt <= Week
    ensures forall x :: multiset(Window(runs, now))[x] == if now - x.startedAt <= Week then multiset(runs)[x] else 0
  {
    FilterCounts(runs, (r: RunView) => InWindow(now, r));
  }

  /** The success rate is the nearest whole percentage of the runs in the
      window that succeeded, and 0 when the window is empty. */
  lemma SummarizeRate(runs: seq<RunView>, now: int)
    requires runs != []
    ensures var w := Window(runs, now);
      var rate := Summarize(Some(runs), now).successRate;
      && (w == [] ==> rate == 0)
      && (w != [] ==> 2 * |w| * rate - |w| <= 200 * |Filter(w, Succeeded)| < 2 * |w| * rate + |w|)
  {
  }

  /** When every run in the window succeeded the rate is 100, and when none
      did it is 0. */
  lemma SummarizeAllOrNone(runs: seq<RunView>, now: int)
    requires Window(runs, now) != []
    ensures (forall x :: x in Window(runs, now) ==> Succeeded(x)) ==> Summarize(Some(runs), now).successRate == 100
    ensures (forall x :: x in Window(runs, now) ==> !Succeeded(x)) ==> Summarize(Some(runs), now).successRate == 0
  {
    if forall x :: x in Window(runs, now) ==> Succeeded(x) {
      AllSucceededRate(runs, now);
    }
    if forall x :: x in Window(runs, now) ==> !Succeeded(x) {
      NoneSucceededRate(runs, now);
    }
  }

  lemma AllSucceededRate(runs: seq<RunView>, now: int)
    requires Window(runs, now) != []
    requires forall x :: x in Window(runs, now) ==> Succeeded(x)
    ensures Summarize(Some(runs), now).successRate == 100
  {
    var w := Window(runs, now);
    var n := |w|;
    FilterAll(w, Succeeded);
    RoundDivExact(n, 100);
    assert n * 100 == 100 * n;
  }

  lemma NoneSucceededRate(runs: seq<RunView>, now: int)
    requires Window(runs, now) != []
    requires forall x :: x in Window(runs, now) ==> !Succeeded(x)
    ensures Summarize(Some(runs), now).successRate == 0
  {
    var w := Window(runs, now);
    FilterNone(w, Succeeded);
    RoundDivExact(|w|, 0);
  }

  /** A filter no element passes is empty. */
  lemma {:induction false} FilterNone<T(!new)>(s: seq<T>, p: T -> bool)
    requires forall x :: x in s ==> !p(x)
    ensures Filter(s, p) == []
  {
    if s != [] {
      assert s == [s[0]] + s[1..];
      FilterNone(s[1..], p);
    }
  }

  /** The average duration is the nearest whole millisecond to the mean
      duration of the runs in the window, and 0 when the window is empty. */
  lemma SummarizeAverage(runs: seq<RunView>, now: int)
    requires runs != []
    ensures var w := Window(runs, now);
      var avg := Summarize(Some(runs), now).avgDurationMs;
      var total := Sum(Durations(w));
      && (w == [] ==> avg == 0)
      && (w != [] ==> 2 * |w| * avg - |w| <= 2 * total < 2 * |w| * avg + |w|)
  {
  }

  /** A sum of values that all lie between `lo` and `hi`. */
  lemma {:induction false} SumBounds(s: seq<int>, lo: int, hi: int)
    requires forall i :: 0 <= i < |s| ==> lo <= s[i] <= hi
    ensures |s| * lo <= Sum(s) <= |s| * hi
  {
    if s != [] {
      SumBounds(s[..|s| - 1], lo, hi);
    }
  }

  /** When every run in the window took between `lo` and `hi` milliseconds,
      so does the average. */
  lemma SummarizeAverageBounds(runs: seq<RunView>, now: int, lo: int, hi: int)
    requires Window(runs, now) != []
    requires forall x :: x in Window(runs, now) ==> lo <= Duration(x) <= hi
    ensures lo <= Summarize(Some(runs), now).avgDurationMs <= hi
  {
    var w := Window(runs, now);
    var n := |w|;
    var d := Durations(w);
    assert forall i :: 0 <= i < |d| ==> lo <= d[i] <= hi by {
      forall i | 0 <= i < |d| ensures lo <= d[i] <= hi {
        assert w[i] in w;
      }
    }
    SumBounds(d, lo, hi);
    RoundDivWithin(Sum(d), n, lo, hi);
  }
}
