# Backup orchestration backend — a Dafny model

This project models the core of a small DevOps backup backend. The backend
keeps backup jobs (an EBS volume, an RDS database, an S3 prefix or a local
directory, each with a cron schedule) and a ledger of their runs. A scheduler
fires each active job on its cron schedule. The run state machine creates a
`pending` run row, requests the EBS snapshot, and marks the row `success` or
`failed`, writing an audit entry and sending a chat alert as it goes. An
integrity service checks a finished run and stores one check row per result.

Around that core the model also covers:
- the S3 prefix mirror;
- the robocopy-based local mirror and its summary-log parser;
- the dashboard's seven-day summary and the run listing;
- the CloudWatch, Notion and Slack payload builders;
- the admin API-key guard.

The database is an in-memory ledger: class `Ledger.Database`, with maps of
jobs and runs plus append-only check and audit logs. The chat channel used by
the job and integrity services is `Ledger.Outbox`. Everything the outside
world decides is a parameter, for example:
- the snapshot reply, the clock, audit and notify faults (`Jobs.RunOracle`);
- cron validity and whether scheduling throws;
- the S3 listing and the copy faults;
- `exec` and `readFile`;
- the HTTP replies of Slack, Notion and CloudWatch.

Modules follow the source files:
- `Jobs`, `Integrity`, `Scheduler` and `Runs` follow the server modules.
- `S3Sync`, `LocalBackup`, `CloudWatch`, `Notion`, `Slack` and `ApiKey` follow the service wrappers and the guard.
- `Summary` follows the dashboard's `summarizeRuns`.
- `Common`, `Text` and `Sorting` hold the JavaScript semantics they share:
  - truthiness;
  - `String(err.message || err)`;
  - `Math.round` of a quotient;
  - `replace`, `slice` and `trim`;
  - `orderBy ... desc`.

## Model

| member | source | states |
|---|---|---|
| Common.Describe | server/src/modules/jobs/jobs.service.ts:64 | the text a run stores for a thrown Error: its message when non-empty, otherwise what `String(err)` prints for it, the name |
| Common.ErrorToString | server/src/modules/scheduler/scheduler.service.ts:37 | an error in a template is `name: message`, or just the name (or just the message) when the other part is empty |
| Common.NatToString | server/src/lib/slack.service.ts:47 | the decimal text of a number is all digits, reads back as the number, and is canonical: `0` for zero, no leading zero otherwise |
| Common.RoundDiv | src/data/useRunsQuery.js:18-20 | `Math.round(p / q)` for q > 0 is the integer nearest p/q, with halves rounded up |
| Common.RoundDivWithin | src/data/useRunsQuery.js:20 | a rounded quotient whose exact value lies in [lo, hi] lies in [lo, hi] |
| Common.RoundDivExact | src/data/useRunsQuery.js:20 | rounding an exact quotient `q*k / q` gives k |
| Text.IndexFrom | server/src/lib/aws/s3.service.ts:35 | the first occurrence at or after a position: it is an occurrence, and none lies before it |
| Text.ReplaceFirst | server/src/lib/aws/s3.service.ts:35 | `String.replace` with a string pattern: the first occurrence is replaced and the rest is kept; with no occurrence the text is unchanged |
| Text.Take | server/src/lib/local-backup.service.ts:48 | `slice(0, n)`: the prefix of length min(n, length) |
| Text.DropLast | server/src/lib/local-backup.service.ts:19 | `slice(0, -n)` for a positive n: the prefix without the last n characters (empty when shorter) |
| Text.ReplaceEach | server/src/lib/local-backup.service.ts:19 | a global one-character `replace`: the same length, the chosen characters replaced and the others kept |
| Text.Trim | server/src/lib/local-backup.service.ts:127 | `trim()`: a contiguous piece of the text with no white space at either end |
| Sorting.InsertDesc | server/src/modules/jobs/jobs.service.ts:21 | inserting into a descending list keeps it descending and adds exactly that element |
| Sorting.SortDesc | server/src/modules/jobs/jobs.service.ts:21 | `orderBy: desc`: sorted largest first, and a permutation of its input |
| Sorting.Filter | server/src/modules/runs/runs.service.ts:10 | a `where` clause: exactly the rows meeting the condition, a sub-multiset of the input (how many copies survive is `FilterCounts`) |
| Sorting.FilterCounts | server/src/modules/runs/runs.service.ts:10 | a filter keeps every copy of each row meeting the condition and no copy of any other row |
| Sorting.FilterAll | server/src/modules/runs/runs.service.ts:10 | a condition every row meets filters nothing out |
| Sorting.PrefixDominates | server/src/modules/runs/runs.service.ts:11-12 | in a descending list every row after the first k has a key no larger than any of the first k |
| Jobs.Recover | server/src/modules/jobs/jobs.service.ts:61-69 | the catch block: the row becomes `failed` with `endedAt` and the described error. Then the `job.run.failed` audit entry is written, then the notify `Job <id> failed: <error>`. A failing audit write is rethrown with no entry and no message, and a failing notify is rethrown with no message. Otherwise exactly that message is sent and the original error is rethrown. No run row is created |
| Jobs.ExecuteSteps | server/src/modules/jobs/jobs.service.ts:42-44 | every run creates its one pending row first, before any backend call, and never creates another |
| Jobs.AttemptSteps | server/src/modules/jobs/jobs.service.ts:45-69 | after the pending row, a run writes only its own row, and the snapshot request (if any) comes first |
| Jobs.ExecuteOutcome | server/src/modules/jobs/jobs.service.ts:38-70 | every run ends `failed` or `success`, with `endedAt` set. It is `success` exactly when the reply is not an error; on `failed` the reply is an error |
| Jobs.RunSucceeds | server/src/modules/jobs/jobs.service.ts:48-60 | an EBS job whose snapshot and success audit succeed ends `success`. Its metrics hold `SnapshotId`, or else `Snapshot.SnapshotId`, and the reply carries the run id, `success` and those metrics |
| Jobs.RunUnsupported | server/src/modules/jobs/jobs.service.ts:49-51 | any type other than `EBS` makes no backend call; the row ends `failed` with `Unsupported resourceType: <type>`, and that error is rethrown |
| Jobs.RunFailureOrder | server/src/modules/jobs/jobs.service.ts:61-68 | on failure the steps are: write `failed`, audit `job.run.failed`, one notify, then rethrow the original error |
| Jobs.RunAuditFaultRewritesRow | server/src/modules/jobs/jobs.service.ts:55-65 | a throw from the success audit rewrites the same row to `failed`; still only one row exists |
| Jobs.Patched | server/src/modules/jobs/jobs.service.ts:31-36 | an update changes exactly the fields the patch carries, never the id or `createdAt`; an empty patch changes nothing |
| Jobs.JobsService.List | server/src/modules/jobs/jobs.service.ts:20-22 | every stored job exactly once, newest `createdAt` first |
| Jobs.JobsService.Create | server/src/modules/jobs/jobs.service.ts:24-29 | stores the new job (the default status fills a missing one), then writes one `job.create` audit entry. It returns the stored job, or the audit error with the job already stored |
| Jobs.JobsService.Update | server/src/modules/jobs/jobs.service.ts:31-36 | an unknown id changes nothing; otherwise stores the patched job, then writes one `job.update` audit entry and returns the stored job |
| Jobs.JobsService.Run | server/src/modules/jobs/jobs.service.ts:38-70 | an unknown id fails with `Job not found` and creates no row. Otherwise the run table gains exactly the row `Execute` ends with, and the reply, trace and chat messages are those of `Execute` |
| Jobs.JobsService.Start | server/src/modules/jobs/jobs.service.ts:42-69 | creating the pending row and then making the attempt has exactly the effect of `Execute`: the row it ends with, its audit entries, chat messages, calls and reply |
| Jobs.JobsService.Try | server/src/modules/jobs/jobs.service.ts:45-69 | the try/catch after the pending row has the effect of `Attempt` |
| Jobs.JobsService.Snapshot | server/src/modules/jobs/jobs.service.ts:47-60 | the EBS branch has the effect of `Attempt` |
| Jobs.JobsService.Succeed | server/src/modules/jobs/jobs.service.ts:54-60 | the success write and audit have the effect of `Attempt`, including the catch when the audit throws |
| Jobs.JobsService.Catch | server/src/modules/jobs/jobs.service.ts:61-69 | the catch block has the effect of `Recover` on the stored row |
| Integrity.BasicChecks | server/src/modules/integrity/integrity.service.ts:18-26 | exactly one result, `snapshotId_present`. It passes iff the run's metrics hold a truthy `snapshotId`, and its details are `{snapshotId}` |
| Integrity.BasicChecksAlert | server/src/modules/integrity/integrity.service.ts:36-38 | an alert is due exactly when the run has no truthy `snapshotId` |
| Integrity.CheckRows | server/src/modules/integrity/integrity.service.ts:30-34 | one row per result, in order. Each carries the run id, type, result, details and a fresh id |
| Integrity.ListByRun | server/src/modules/integrity/integrity.service.ts:10-12 | exactly the checks of the run, newest `createdAt` first, drawn from the stored rows |
| Integrity.IntegrityService.RunBasicChecks | server/src/modules/integrity/integrity.service.ts:14-40 | an unknown run fails with `Run not found` and changes nothing. Otherwise one row per result is stored and one `integrity.run` audit entry written. Exactly one alert is sent iff a result failed, and the stored rows are returned |
| Integrity.IntegrityService.Announce | server/src/modules/integrity/integrity.service.ts:35-39 | once the rows are stored: a failed audit write is rethrown before any alert. Otherwise exactly one `integrity.run` entry carrying the whole result list is written, one alert is sent iff a result failed (its failure is rethrown), and the stored rows come back |
| Integrity.IntegrityService.Store | server/src/modules/integrity/integrity.service.ts:30-34 | the check table gains exactly `CheckRows` of the results, and nothing else changes |
| Runs.Candidates | server/src/modules/runs/runs.service.ts:10 | the where clause: a truthy job id keeps that job's runs, otherwise all runs |
| Runs.ListByJob | server/src/modules/runs/runs.service.ts:8-14 | `min(100, selected)` runs, in `startedAt` descending order, drawn from the selected rows |
| Runs.ListByJobFilters | server/src/modules/runs/runs.service.ts:10 | with a non-empty job id only that job's runs are listed |
| Runs.ListByJobUnfiltered | server/src/modules/runs/runs.service.ts:10-12 | with no or an empty job id nothing is filtered out, and the page holds min(100, all) runs |
| Runs.ListByJobMostRecent | server/src/modules/runs/runs.service.ts:11-12 | no selected run left off the page is newer than one on it; a page cap that is not reached lists every selected run |
| Scheduler.ActivePartition | server/src/modules/scheduler/scheduler.service.ts:24-38 | every active job is scheduled or skipped, never both |
| Scheduler.ScheduleOne | server/src/modules/scheduler/scheduler.service.ts:26-38 | a job gets a task iff its cron is valid and scheduling does not throw. An invalid cron logs the warning `Invalid cron for job ...`, and a throw logs `Failed to schedule job ...: <error>` |
| Scheduler.SchedulerService.StopAll | server/src/modules/scheduler/scheduler.service.ts:17-20 | every held task is stopped exactly once and the map is left empty |
| Scheduler.SchedulerService.RebuildAll | server/src/modules/scheduler/scheduler.service.ts:22-41 | every old task is stopped. Afterwards the map's keys are exactly the active, schedulable job ids, each with a new task on its job's schedule; this depends only on the job table, so a second rebuild gives the same keys. The new log lines are, in the order of the ghost list `order` of skipped ids (each skipped job exactly once), the `Invalid cron for job …` or `Failed to schedule job …: <error>` line `ScheduleOne` gives that job, then `Scheduled <n> job(s)` |
| Scheduler.SchedulerService.ScheduleActive | server/src/modules/scheduler/scheduler.service.ts:25-39 | the loop over the active jobs: a skipped job does not stop later jobs; the keys are the schedulable ones, and the lines logged are exactly the skipped jobs' `ScheduleOne` lines, one per skipped job, in the order of `order` |
| Scheduler.SchedulerService.OnModuleInit | server/src/modules/scheduler/scheduler.service.ts:13-15 | exactly one rebuild |
| Scheduler.SchedulerService.Fire | server/src/modules/scheduler/scheduler.service.ts:31-34 | a firing logs `Running job <id>`, runs the job and logs (never propagates) its error; the task map is unchanged |
| S3Sync.TargetKeyDefaultPrefix | server/src/lib/aws/s3.service.ts:24-35 | with the default empty source prefix the target prefix is prepended |
| S3Sync.TargetKeyRebases | server/src/lib/aws/s3.service.ts:35 | a key under the source prefix keeps its remainder under the target prefix |
| S3Sync.OutcomesPartition | server/src/lib/aws/s3.service.ts:32-45 | every listed object lands in exactly one of the two lists |
| S3Sync.CopiesAreTheSuccesses | server/src/lib/aws/s3.service.ts:36-41 | a copy is recorded exactly for a successful copy, an error exactly for a failed one |
| S3Sync.SyncBucket | server/src/lib/aws/s3.service.ts:22-68 | one listing request (MaxKeys 1000), whose failure is rethrown. Each object is attempted once, in order, with one copy request per keyed object. The copies and errors keep listing order, and copied + errors = total |
| LocalBackup.CountsAt | server/src/lib/local-backup.service.ts:98-105 | a counts match at a position yields two numerals |
| LocalBackup.FirstCounts | server/src/lib/local-backup.service.ts:98-105 | the leftmost `Tag : N M` match yields two numerals |
| LocalBackup.ParseFloat | server/src/lib/local-backup.service.ts:134 | `parseFloat` of digits and dots is NaN or a non-negative number |
| LocalBackup.Scale | server/src/lib/local-backup.service.ts:140 | multiplying by a unit factor keeps non-negative numbers non-negative and NaN as NaN |
| LocalBackup.Multiplier | server/src/lib/local-backup.service.ts:136-139 | the factor of a unit is positive |
| LocalBackup.ParseSize | server/src/lib/local-backup.service.ts:126-141 | a size is NaN or a non-negative number |
| LocalBackup.ParseRobocopyLog | server/src/lib/local-backup.service.ts:87-119 | the stats built field by field are `LogStats` of the log |
| LocalBackup.AbsentCounts | server/src/lib/local-backup.service.ts:98-105 | text without the tag has no counts match |
| LocalBackup.AbsentBytes | server/src/lib/local-backup.service.ts:112 | text without `Bytes` has no bytes match |
| LocalBackup.LogStatsWithoutSummary | server/src/lib/local-backup.service.ts:74-95 | a log with none of the three summary lines (the empty log of an unreadable file among them) gives all six stats 0 |
| LocalBackup.CountsLineRead | server/src/lib/local-backup.service.ts:98-109 | a printed `Tag : N M` line reads back as N and M |
| LocalBackup.CountsLineFirst | server/src/lib/local-backup.service.ts:98-109 | such a line at the head of the log is the first match |
| LocalBackup.ParseFloatWhole | server/src/lib/local-backup.service.ts:134 | `parseFloat` of a numeral is its value |
| LocalBackup.ParseSizeWhole | server/src/lib/local-backup.service.ts:126-141 | a whole number with a unit letter of either case is that number times 1, 1024, 1024² or 1024³ |
| LocalBackup.ParseSizeNumeral | server/src/lib/local-backup.service.ts:126-141 | a bare whole number is its value |
| LocalBackup.ParseSizeLoneDot | server/src/lib/local-backup.service.ts:131-134 | a lone dot is NaN |
| LocalBackup.ParseSizeWithoutNumeral | server/src/lib/local-backup.service.ts:131-132 | text with no digit or dot has size 0 |
| LocalBackup.SizeGroupsRead | server/src/lib/local-backup.service.ts:112 | the two size groups of a printed `Bytes` line are its two sizes |
| LocalBackup.BytesLineFirst | server/src/lib/local-backup.service.ts:112 | a `Bytes` line at the head of the log is the first match |
| LocalBackup.DirsLineStats | server/src/lib/local-backup.service.ts:98-102 | a log starting with `Dirs : N M` reports `totalDirs` N and `copiedDirs` M |
| LocalBackup.FilesLineStats | server/src/lib/local-backup.service.ts:105-109 | a log starting with `Files : N M` reports `totalFiles` N and `copiedFiles` M |
| LocalBackup.BytesLineStats | server/src/lib/local-backup.service.ts:112-116 | a log starting with a `Bytes` line reports each size times its unit factor |
| LocalBackup.ScaleWhole | server/src/lib/local-backup.service.ts:140 | scaling a whole number is whole-number multiplication |
| LocalBackup.TimestampOfIso | server/src/lib/local-backup.service.ts:19 | an ISO time `YYYY-MM-DDTHH:mm:ss.sssZ` becomes `YYYY-MM-DDTHH-mm-ss` |
| LocalBackup.BackupDirectory | server/src/lib/local-backup.service.ts:18-67 | the log path is the caller's, or `<target>/backup-log-<ts>.txt`, and the command line is the robocopy mirror. An exit code >= 8 fails with `Backup failed with exit code <code>: <error>`. Any other outcome succeeds with the parsed stats of the log and at most 500 characters of stdout |
| LocalBackup.ReadLogFile | server/src/lib/local-backup.service.ts:74-80 | the file's text, or the empty text when it cannot be read |
| Summary.Summarize | src/data/useRunsQuery.js:12-24 | a missing or empty input gives all zeros; `runs7d` never exceeds the input's length; the rate lies in [0, 100] |
| Summary.SummarizeCountsWindow | src/data/useRunsQuery.js:15-21 | `runs7d` counts exactly the runs started at most seven days before now, every copy of a repeated run included |
| Summary.SummarizeRate | src/data/useRunsQuery.js:16-20 | the rate is the nearest whole percentage of window runs that succeeded, and 0 on an empty window |
| Summary.SummarizeAllOrNone | src/data/useRunsQuery.js:16-20 | a window of only successes rates 100, one without successes rates 0 |
| Summary.FilterNone | src/data/useRunsQuery.js:16 | a condition no run meets filters everything out |
| Summary.SummarizeAverage | src/data/useRunsQuery.js:17-22 | the average is the nearest whole millisecond to the mean duration (a run without an end counts 0), and 0 on an empty window |
| Summary.SumBounds | src/data/useRunsQuery.js:18 | a sum of n values within [lo, hi] lies within [n*lo, n*hi] |
| Summary.SummarizeAverageBounds | src/data/useRunsQuery.js:17-18 | when every window run took between lo and hi, so does the average |
| CloudWatch.BackupMetricNames | server/src/lib/cloudwatch.service.ts:48-105 | BackupExecutions, BackupDuration, BackupSize present iff the size is defined and > 0, then BackupSuccess iff status is `success` else BackupFailures; 4 metrics with a size, 3 without |
| CloudWatch.BackupMetricValues | server/src/lib/cloudwatch.service.ts:48-95 | the execution and outcome metrics count 1; the duration is in seconds; the size in GB; all share one timestamp. Executions carry the JobId, ResourceType and Status dimensions; duration and size carry JobId and ResourceType; the outcome metric carries ResourceType only |
| CloudWatch.IntegrityRateBounds | server/src/lib/cloudwatch.service.ts:130 | a zero total rates 0; otherwise passed/total*100 lies in [0, 100] and is 100 iff every check passed |
| CloudWatch.SendReply | server/src/lib/cloudwatch.service.ts:97-109 | a send failure is returned as `{ok: false, error}`, never thrown |
| CloudWatch.CloudWatchService.constructor | server/src/lib/cloudwatch.service.ts:9-18 | the region defaults to `ap-northeast-2`; a failing client leaves the service disabled |
| CloudWatch.CloudWatchService.PutBackupMetrics | server/src/lib/cloudwatch.service.ts:35-110 | disabled: `skipped` with reason `CloudWatch not enabled` and nothing sent. Enabled: one `PutMetricData` holding the backup metrics in the `DROX/DevOps` namespace, replying with their count or the send error |
| CloudWatch.CloudWatchService.PutIntegrityMetrics | server/src/lib/cloudwatch.service.ts:119-160 | disabled: `skipped` and nothing sent; enabled: exactly two metrics, the success rate and the failure count |
| CloudWatch.CloudWatchService.PutSystemHealthMetrics | server/src/lib/cloudwatch.service.ts:168-212 | disabled: `skipped` and nothing sent; enabled: the three job counts |
| Notion.EntryPropertiesSelection | server/src/lib/notion.service.ts:53-111 | Date, Summary, Status and Category are always present. Size, verification and security are present iff defined, so 0 and false are kept. Week, health, links and improvement are present iff truthy |
| Notion.EntryIgnoresManager | server/src/lib/notion.service.ts:53-111 | `manager` is never written |
| Notion.CreateReply | server/src/lib/notion.service.ts:113-129 | a created page gives its id and url; a client error is returned as `{ok: false, error}` |
| Notion.Category | server/src/lib/notion.service.ts:175-183 | the four resource types map to their labels; any other type is returned unchanged |
| Notion.CategoryRange | server/src/lib/notion.service.ts:175-183 | a category is one of the four labels or the type itself, and only the four types are relabelled |
| Notion.CategoryAsWrittenInherits | server/src/lib/notion.service.ts:176-182 | the lookup as written finds the inherited `toString` member; outside the object prototype's member names it agrees with `Category` |
| Notion.Gb | server/src/lib/notion.service.ts:154-156 | bytes to GB, rounded to the nearest hundredth |
| Notion.BackupSizeGb | server/src/lib/notion.service.ts:152-157 | the size is taken from a truthy `totalBytes`; failing that, from a truthy `copiedBytes`; otherwise it is absent |
| Notion.RunEntryDerivation | server/src/lib/notion.service.ts:142-167 | a `success` run gives `✅ 완료`, verified and `정상`; any other gives `❌ 실패`, unverified and `이상`. The summary is `<type> 백업: <id>`, with `\n에러: <error>` iff the run failed with a non-empty error |
| Notion.WeeklyEntryThreshold | server/src/lib/notion.service.ts:195-205 | a success rate >= 90 gives `✅ 완료`/`정상`, otherwise `⚠️ 점검필요`/`주의`; the week label is `<n>주차` |
| Notion.NotionService.constructor | server/src/lib/notion.service.ts:25-33 | configured iff both the token and the database id are truthy |
| Notion.NotionService.CreateBackupEntry | server/src/lib/notion.service.ts:47-130 | unconfigured: `skipped` with `Notion not configured` and no page. Configured: one page request to the database holding `EntryProperties` of the entry, replying with `CreateReply` |
| Notion.NotionService.LogJobRun | server/src/lib/notion.service.ts:137-170 | unconfigured: `skipped` and no page; configured: one page holding the run's derived entry |
| Notion.NotionService.CreateWeeklyReport | server/src/lib/notion.service.ts:190-208 | unconfigured: `skipped` and no page; configured: one page holding the weekly entry |
| Slack.DurationSeconds | server/src/lib/slack.service.ts:29-31 | 0 without an end time, else the nearest whole second to the run's length |
| Slack.DurationWholeSeconds | server/src/lib/slack.service.ts:29-31 | a run of exactly k seconds reports k |
| Slack.ShortId | server/src/lib/slack.service.ts:48 | at most the first 8 characters of the id, followed by `...` |
| Slack.MetricLinesCount | server/src/lib/slack.service.ts:54-69 | one line per truthy key, in the order snapshot, files, objects; none iff no key is truthy |
| Slack.SuccessBlocksShape | server/src/lib/slack.service.ts:33-69 | header and fields always; the metrics section iff a line exists. The job id field shows the first 8 characters and `...` |
| Slack.FailureError | server/src/lib/slack.service.ts:113 | the run's error or, when it is empty, `Unknown error` |
| Slack.WeeklyEmojiThresholds | server/src/lib/slack.service.ts:147 | ✅ iff >= 90, ❌ iff < 70, ⚠️ between; a higher rate never gets a worse emoji |
| Slack.FailedJobLines | server/src/lib/slack.service.ts:181 | one `• <type>: <id>` line per failed job, in order |
| Slack.WeeklyFailedSection | server/src/lib/slack.service.ts:149-184 | the failed-jobs section is present iff the failed-job list is non-empty |
| Slack.SlackService.Notify | server/src/lib/slack.service.ts:10-18 | no webhook: `skipped` and nothing posted. Otherwise one post of `{text, blocks}` when blocks are given, else `{text}`, replying with the response's `ok` |
| Slack.SlackService.NotifyBackupSuccess | server/src/lib/slack.service.ts:26-81 | no webhook: `skipped`; otherwise one post of the success blocks |
| Slack.SlackService.NotifyBackupFailure | server/src/lib/slack.service.ts:88-137 | no webhook: `skipped`; otherwise one post of the failure blocks |
| Slack.SlackService.SendWeeklyReport | server/src/lib/slack.service.ts:144-196 | no webhook: `skipped`; otherwise one post of the weekly blocks |
| ApiKey.DecideCases | server/src/lib/api-key.guard.ts:8-14 | open iff no key is configured; admin iff a configured key equals the header; denied iff a configured key is not matched |
| ApiKey.CanActivate | server/src/lib/api-key.guard.ts:5-15 | it never returns false. The open case leaves `req.user` alone, the admin case sets it to `{role: 'admin'}`, and the denied case throws `UnauthorizedException('Invalid API key')` |

## Left out

- The Prisma database is an in-memory ledger. Faults other than the modelled audit and notify faults are not modelled: the run-row writes of `run` and the check-row writes never fail.
- Ties in `orderBy` are not modelled. `SortDesc` fixes one order among rows with equal keys; the contracts only promise descending order and a permutation.
- The AWS SDK, the Notion client and `fetch` are not called. Their replies are parameters: the snapshot reply, the listing, copy faults, send faults, page replies and HTTP `ok`.
- The EBS and RDS wrappers in server/src/lib/aws are not part of this model; the snapshot reply is a parameter.
- Clocks and locale are parameters: the times in `Jobs.RunOracle`, `isoNow`, `isoOf`, the `toLocaleString` text and the CloudWatch timestamp.
- node-cron is a pair of parameters: `validate` and whether `schedule` throws. Firing times, overlapping firings and promise concurrency are not modelled. `Promise.all` over the check rows is modelled as creation in order.
- The logger and `console` output of the services are not modelled, except the scheduler's log lines.
- Scheduler.ScheduleOne: `${e}` of a thrown value is modelled as `Error.prototype.toString` of a thrown Error (`Common.ErrorToString`), not for other thrown values.
- `exec`, `readFile` and `path.join` are parameters of `LocalBackup.BackupDirectory`. So are robocopy itself and the existence of the source path, which the code does not check.
- LocalBackup.BackupDirectory: a Node string error code such as `ENOENT` is not `>= 8`, so it is treated as a non-failure, as in JavaScript; only numeric exit statuses are compared.
- LocalBackup.ParseSize: numbers are exact rationals, not IEEE doubles. Fractional sizes such as `1.5 g` are handled exactly, which is more general than whole numbers; the rounding of binary floating point is not modelled.
- LocalBackup.ParseRobocopyLog: the read-back lemmas cover summary lines with single blanks between their parts and a log that starts with the line; the parser itself handles any spacing and position.
- The `$` patterns of `String.replace` are not modelled. A target prefix holding `$&` or `$1` is inserted literally.
- Slices count code points, not UTF-16 code units.
- Summary.Summarize: invalid dates (NaN times) are not modelled; times are integer milliseconds. Exact integer arithmetic replaces floating-point division in `Math.round`.
- CloudWatch.BackupMetricValues: metric values are exact reals, not IEEE doubles.
- Notion.Gb: the conversion is an exact real division, not IEEE doubles.
- Slack.SlackService.SendWeeklyReport: `successRate` is an integer, so `toFixed(1)` is the integer followed by `.0`; fractional rates are not modelled.
- Notion.WeeklyEntryThreshold: `successRate` is an integer; fractional rates are not modelled.
- The key order of the Notion `properties` object is not modelled; `Notion.PageProperties` is a record.
- Jobs and integrity alerts go to `Ledger.Outbox`, the text given to `notify`. The `Slack` module models that call's payload separately.
- `Notion.NotionService.LogJobRun` uses the corrected `Category`, not the lookup as written. For a resource type named after an `Object.prototype` member (such as `toString`), the source puts the inherited function into the category, while the model puts the type itself (see "## Findings"; the function value cannot be represented in an entry).
- `Notion.NotionService.LogJobRun` always takes `startedAt` as the date. A stored run always has a `startedAt`, so the `new Date().toISOString()` fallback cannot be reached.
- Only the EBS dispatch exists in `run`. The code has no RDS, S3 or LOCAL branch and no source-path pre-check, and `Jobs.RunUnsupported` states that every other type fails.
- Only the `snapshotId_present` integrity check exists; the code has no per-type, ratio or status re-query checks.
- The frontend (pages, layout, components, the fetch client and the react-query hooks) and the controllers and module wiring of the server are rendering or plumbing and are not modelled. Only `summarizeRuns` of the frontend is.

## Findings

| source | as written | input that shows it | evidently intended | confidence | as-written member | corrected member |
|---|---|---|---|---|---|---|
| server/src/lib/notion.service.ts:175-183 | the lookup `mapping[resourceType]` on an object literal, falling back to the type when it is falsy, also finds members inherited from `Object.prototype` | resource type `toString` (or `constructor`): the result is the inherited function, not a label or the type | a type outside the four labels is returned unchanged | low, not executed | Notion.CategoryAsWrittenInherits | Notion.CategoryRange |
