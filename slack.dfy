/** The Slack notifier: the payloads it posts to the incoming webhook for a
    plain message, a successful or failed backup and the weekly report. */
module Slack {

  import opened Common
  import opened Text
  import opened Ledger

  /** The Block Kit blocks the notifier uses: a plain-text header, a section
      of markdown fields, a markdown section and a markdown context line. */
  datatype Block =
    | Header(text: string)
    | Fields(texts: seq<string>)
    | Section(text: string)
    | Context(texts: seq<string>)

  /** The JSON body posted to the webhook: `{text}` or `{text, blocks}`. */
  datatype Payload = Payload(text: string, blocks: Option<seq<Block>>)

  /** What a call resolves to: skipped for want of a webhook, or the `ok`
      flag of the webhook's response. */
  datatype Reply = Skipped | Posted(ok: bool)

  /** The statistics the weekly report shows; `failedJobs` may be absent. */
  datatype WeeklyStats = WeeklyStats(
    totalRuns: int,
    successCount: int,
    failureCount: int,
    successRate: int,
    avgDuration: int,
    failedJobs: Option<seq<Job>>)

  /** The run's duration in whole seconds: the nearest second to
      `endedAt - startedAt`, or 0 while the run has no end time. */
  function DurationSeconds(run: JobRun): (d: int)
    ensures run.endedAt.None? ==> d == 0
    ensures run.endedAt.Some? ==>
      var ms := run.endedAt.value - run.startedAt;
      2000 * d - 1000 <= 2 * ms < 2000 * d + 1000
  {
    match run.endedAt
    case Some(e) => RoundDiv(e - run.startedAt, 1000)
    case None => 0
  }

  /** A duration of a whole number of seconds is shown exactly. */
  lemma DurationWholeSeconds(run: JobRun, k: int)
    requires run.endedAt == Some(run.startedAt + 1000 * k)
    ensures DurationSeconds(run) == k
  {
    RoundDivExact(1000, k);
    assert run.endedAt.value - run.startedAt == 1000 * k;
  }

  /** `${id.slice(0, 8)}...`. */
  function ShortId(id: string): (r: string)
    ensures |r| == (if |id| < 8 then |id| else 8) + 3
    ensures r[..|r| - 3] <= id && r[|r| - 3..] == "..."
  {
    Take(id, 8) + "..."
  }

  /** The lines of the metrics section, in the order snapshot, files,
      objects, each present only when its key is truthy. */
  function MetricLines(m: Metrics): seq<string> {
    (if TruthyText(m.snapshotId) then ["스냅샷 ID: " + m.snapshotId.value] else [])
    + (if TruthyNumber(m.totalFiles)
       then ["파일 수: " + OptionalIntToString(m.copiedFiles) + "/" + OptionalIntToString(m.totalFiles)] else [])
    + (if TruthyNumber(m.totalObjects)
       then ["객체 수: " + OptionalIntToString(m.copiedCount) + "/" + OptionalIntToString(m.totalObjects)] else [])
  }

  /** How many of the three keys are truthy. */
  function TruthyKeys(m: Metrics): nat {
    (if TruthyText(m.snapshotId) then 1 else 0)
    + (if TruthyNumber(m.totalFiles) then 1 else 0)
    + (if TruthyNumber(m.totalObjects) then 1 else 0)
  }

  /** One line per truthy key, each with its label: so the lines are empty
      exactly when none of the three keys is truthy. */
  lemma MetricLinesCount(m: Metrics)
    ensures |MetricLines(m)| == TruthyKeys(m)
    ensures MetricLines(m) == [] <==>
      !TruthyText(m.snapshotId) && !TruthyNumber(m.totalFiles) && !TruthyNumber(m.totalObjects)
    ensures TruthyText(m.snapshotId) ==> MetricLines(m)[0] == "스냅샷 ID: " + m.snapshotId.value
    ensures TruthyNumber(m.totalObjects) ==>
      MetricLines(m)[TruthyKeys(m) - 1] == "객체 수: " + OptionalIntToString(m.copiedCount) + "/" + OptionalIntToString(m.totalObjects)
  {
  }

  /** The four fields of the success message. */
  function SuccessFields(job: Job, run: JobRun): seq<string> {
    [ "*타입:*\n" + job.resourceType,
      "*리소스:*\n" + job.resourceId,
      "*실행 시간:*\n" + IntToString(DurationSeconds(run)) + "초",
      "*Job ID:*\n" + ShortId(job.id) ]
  }

  /** The blocks of the success message: header, fields, and the metrics
      section when there are metrics with at least one line. */
  function SuccessBlocks(job: Job, run: JobRun, metrics: Option<Metrics>): seq<Block> {
    [Header("✅ 백업 작업 성공"), Fields(SuccessFields(job, run))]
    + (if metrics.Some? && MetricLines(metrics.value) != []
       then [Section("*메트릭:*\n" + Join(MetricLines(metrics.value), "\n"))]
       else [])
  }

  /** The metrics section is the third block, present exactly when some
      metric line is; the job id is shown cut to eight characters. */
  lemma SuccessBlocksShape(job: Job, run: JobRun, metrics: Option<Metrics>)
    ensures var b := SuccessBlocks(job, run, metrics);
      && (|b| == 3 <==> metrics.Some? && TruthyKeys(metrics.value) > 0)
      && (|b| == 2 <==> !(metrics.Some? && TruthyKeys(metrics.value) > 0))
      && b[1] == Fields(SuccessFields(job, run))
      && b[1].texts[3] == "*Job ID:*\n" + Take(job.id, 8) + "..."
  {
    if metrics.Some? {
      MetricLinesCount(metrics.value);
    }
  }

  /** The error text of the failure message: `run.error || 'Unknown error'`. */
  function FailureError(run: JobRun): (r: string)
    ensures TruthyText(run.error) ==> r == run.error.value
    ensures !TruthyText(run.error) ==> r == "Unknown error"
  {
    if TruthyText(run.error) then run.error.value else "Unknown error"
  }

  /** The blocks of the failure message; `when` is the local time text. */
  function FailureBlocks(job: Job, run: JobRun, when: string): seq<Block> {
    [ Header("❌ 백업 작업 실패"),
      Fields(["*타입:*\n" + job.resourceType, "*리소스:*\n" + job.resourceId,
              "*Job ID:*\n" + job.id, "*시각:*\n" + when]),
      Section("*에러 메시지:*\n```" + FailureError(run) + "```"),
      Context(["\U{26A0}\U{FE0F} 즉시 확인이 필요합니다."]) ]
  }

  /** The emoji of the weekly success rate. */
  function WeeklyEmoji(successRate: int): string {
    if successRate >= 90 then "✅" else if successRate >= 70 then "\U{26A0}\U{FE0F}" else "❌"
  }

  /** How good an emoji is: ❌ below ⚠️ below ✅. */
  function EmojiRank(emoji: string): nat {
    if emoji == "✅" then 2 else if emoji == "\U{26A0}\U{FE0F}" then 1 else 0
  }

  /** The emoji is ✅ from 90 on, ⚠️ from 70 to 89 and ❌ below 70, and a
      higher rate never gets a worse emoji. */
  lemma WeeklyEmojiThresholds(low: int, high: int)
    requires low <= high
    ensures EmojiRank(WeeklyEmoji(low)) <= EmojiRank(WeeklyEmoji(high))
    ensures EmojiRank(WeeklyEmoji(high)) == 2 <==> high >= 90
    ensures EmojiRank(WeeklyEmoji(high)) == 0 <==> high < 70
  {
  }

  /** `successRate.toFixed(1)` for a whole-number rate. */
  function Fixed1(n: int): string {
    IntToString(n) + ".0"
  }

  /** `• <type>: <id>` per failed job. */
  function FailedJobLines(jobs: seq<Job>): (r: seq<string>)
    ensures |r| == |jobs|
    ensures forall i :: 0 <= i < |jobs| ==> r[i] == "• " + jobs[i].resourceType + ": " + jobs[i].resourceId
  {
    seq(|jobs|, i requires 0 <= i < |jobs| => "• " + jobs[i].resourceType + ": " + jobs[i].resourceId)
  }

  /** The failed-jobs section is shown only for a present, non-empty list. */
  predicate HasFailedJobs(stats: WeeklyStats) {
    stats.failedJobs.Some? && |stats.failedJobs.value| > 0
  }

  /** The blocks of the weekly report. */
  function WeeklyBlocks(weekNumber: int, stats: WeeklyStats): seq<Block> {
    [ Header("📊 " + IntToString(weekNumber) + "주차 백업 리포트"),
      Fields(["*총 실행:*\n" + IntToString(stats.totalRuns) + "건",
              "*성공:*\n" + IntToString(stats.successCount) + "건",
              "*실패:*\n" + IntToString(stats.failureCount) + "건",
              "*성공률:*\n" + WeeklyEmoji(stats.successRate) + " " + Fixed1(stats.successRate) + "%"]),
      Section("*평균 실행 시간:* " + IntToString(stats.avgDuration) + "초") ]
    + (if HasFailedJobs(stats)
       then [Section("*실패한 작업:*\n" + Join(FailedJobLines(stats.failedJobs.value), "\n"))]
       else [])
  }

  /** The weekly report has a fourth block exactly when some job failed,
      and it lists them. */
  lemma WeeklyFailedSection(weekNumber: int, stats: WeeklyStats)
    ensures var b := WeeklyBlocks(weekNumber, stats);
      && (|b| == 4 <==> HasFailedJobs(stats))
      && (|b| == 3 <==> !HasFailedJobs(stats))
      && (HasFailedJobs(stats) ==>
            b[3] == Section("*실패한 작업:*\n" + Join(FailedJobLines(stats.failedJobs.value), "\n")))
  {
  }

  class SlackService {
    /** `SLACK_WEBHOOK_URL`, read at construction. */
    const webhook: Option<string>
    /** Every payload posted to the webhook, in order. */
    var posts: seq<Payload>

    constructor (webhook: Option<string>)
      ensures this.webhook == webhook && posts == []
    {
      this.webhook := webhook;
      posts := [];
    }

    /** Post `payload`; `post` is what `fetch` gives: the response's `ok`
        flag, or the error it rejects with (which propagates). */
    method Post(payload: Payload, post: Result<bool>) returns (r: Result<Reply>)
      requires TruthyText(webhook)
      modifies this
      ensures posts == old(posts) + [payload]
      ensures post.Ok? ==> r == Ok(Posted(post.value))
      ensures post.Err? ==> r == Err(post.error)
    {
      posts := posts + [payload];
      if post.Err? {
        return Err(post.error);
      }
      return Ok(Posted(post.value));
    }

    /** `notify`: the blocks go into the body exactly when they are given. */
    method Notify(text: string, blocks: Option<seq<Block>>, post: Result<bool>) returns (r: Result<Reply>)
      modifies this
      ensures !TruthyText(webhook) ==> r == Ok(Skipped) && posts == old(posts)
      ensures TruthyText(webhook) ==>
        && posts == old(posts) + [Payload(text, blocks)]
        && r == (if post.Ok? then Ok(Posted(post.value)) else Err(post.error))
    {
      if !TruthyText(webhook) {
        return Ok(Skipped);
      }
      r := Post(Payload(text, blocks), post);
    }

    /** `notifyBackupSuccess`: the header and fields, then the metrics
        section built line by line. */
    method NotifyBackupSuccess(job: Job, run: JobRun, metrics: Option<Metrics>, post: Result<bool>)
      returns (r: Result<Reply>)
      modifies this
      ensures !TruthyText(webhook) ==> r == Ok(Skipped) && posts == old(posts)
      ensures TruthyText(webhook) ==>
        && posts == old(posts) + [Payload("백업 성공: " + job.resourceType + " - " + job.resourceId,
                                          Some(SuccessBlocks(job, run, metrics)))]
        && r == (if post.Ok? then Ok(Posted(post.value)) else Err(post.error))
    {
      if !TruthyText(webhook) {
        return Ok(Skipped);
      }
      var duration := DurationSeconds(run);
      var blocks := [
        Header("✅ 백업 작업 성공"),
        Fields(["*타입:*\n" + job.resourceType, "*리소스:*\n" + job.resourceId,
                "*실행 시간:*\n" + IntToString(duration) + "초", "*Job ID:*\n" + ShortId(job.id)])
      ];
      if metrics.Some? {
        var m := metrics.value;
        var metricsText := [];
        if TruthyText(m.snapshotId) {
          metricsText := metricsText + ["스냅샷 ID: " + m.snapshotId.value];
        }
        if TruthyNumber(m.totalFiles) {
          metricsText := metricsText + ["파일 수: " + OptionalIntToString(m.copiedFiles) + "/" + OptionalIntToString(m.totalFiles)];
        }
        if TruthyNumber(m.totalObjects) {
          metricsText := metricsText + ["객체 수: " + OptionalIntToString(m.copiedCount) + "/" + OptionalIntToString(m.totalObjects)];
        }
        assert metricsText == MetricLines(m);
        if |metricsText| > 0 {
          blocks := blocks + [Section("*메트릭:*\n" + Join(metricsText, "\n"))];
        }
      }
      assert blocks == SuccessBlocks(job, run, metrics);
      r := Post(Payload("백업 성공: " + job.resourceType + " - " + job.resourceId, Some(blocks)), post);
    }

    /** `notifyBackupFailure`; `when` is `new Date().toLocaleString('ko-KR')`. */
    method NotifyBackupFailure(job: Job, run: JobRun, when: string, post: Result<bool>)
      returns (r: Result<Reply>)
      modifies this
      ensures !TruthyText(webhook) ==> r == Ok(Skipped) && posts == old(posts)
      ensures TruthyText(webhook) ==>
        && posts == old(posts) + [Payload("백업 실패: " + job.resourceType + " - " + job.resourceId,
                                          Some(FailureBlocks(job, run, when)))]
        && r == (if post.Ok? then Ok(Posted(post.value)) else Err(post.error))
    {
      if !TruthyText(webhook) {
        return Ok(Skipped);
      }
      r := Post(Payload("백업 실패: " + job.resourceType + " - " + job.resourceId,
                        Some(FailureBlocks(job, run, when))), post);
    }

    /** `sendWeeklyReport`: the three fixed blocks, then the failed-jobs
        section when there is a failed job. */
    method SendWeeklyReport(weekNumber: int, stats: WeeklyStats, post: Result<bool>)
      returns (r: Result<Reply>)
      modifies this
      ensures !TruthyText(webhook) ==> r == Ok(Skipped) && posts == old(posts)
      ensures TruthyText(webhook) ==>
        && posts == old(posts) + [Payload(IntToString(weekNumber) + "주차 백업 리포트 - 성공률 " + Fixed1(stats.successRate) + "%",
                                          Some(WeeklyBlocks(weekNumber, stats)))]
        && r == (if post.Ok? then Ok(Posted(post.value)) else Err(post.error))
    {
      if !TruthyText(webhook) {
        return Ok(Skipped);
      }
      var successEmoji := WeeklyEmoji(stats.successRate);
      var blocks := [
        Header("📊 " + IntToString(weekNumber) + "주차 백업 리포트"),
        Fields(["*총 실행:*\n" + IntToString(stats.totalRuns) + "건",
                "*성공:*\n" + IntToString(stats.successCount) + "건",
                "*실패:*\n" + IntToString(stats.failureCount) + "건",
                "*성공률:*\n" + successEmoji + " " + Fixed1(stats.successRate) + "%"]),
        Section("*평균 실행 시간:* " + IntToString(stats.avgDuration) + "초")
      ];
      if stats.failedJobs.Some? && |stats.failedJobs.value| > 0 {
        blocks := blocks + [Section("*실패한 작업:*\n" + Join(FailedJobLines(stats.failedJobs.value), "\n"))];
      }
      assert blocks == WeeklyBlocks(weekNumber, stats);
      r := Post(Payload(IntToString(weekNumber) + "주차 백업 리포트 - 성공률 " + Fixed1(stats.successRate) + "%",
                        Some(blocks)), post);
    }
  }
}
