/** The records the backend keeps (backup jobs, their runs, integrity checks
    and the audit log) and the in-memory database that holds them. */
module Ledger {

  import opened Common

  datatype RunStatus = Pending | Success | Failed

  /** How a run status is spelled in the database and in API replies. */
  function StatusName(s: RunStatus): string {
    match s
    case Pending => "pending"
    case Success => "success"
    case Failed => "failed"
  }

  /** The keys of a run's free-form `metrics` JSON that the services read;
      an absent key is `None`. */
  datatype Metrics = Metrics(
    snapshotId: Option<string>,
    totalFiles: Option<int>,
    copiedFiles: Option<int>,
    totalObjects: Option<int>,
    copiedCount: Option<int>,
    totalBytes: Option<int>,
    copiedBytes: Option<int>)

  /** The metrics an EBS run records: `{ snapshotId }` and nothing else. */
  function SnapshotMetrics(snapshotId: Option<string>): Metrics {
    Metrics(snapshotId, None, None, None, None, None, None)
  }

  /** A scheduled backup definition (a `BackupJob` row). */
  datatype Job = Job(
    id: string,
    resourceType: string,
    resourceId: string,
    schedule: string,
    status: string,
    createdAt: int)

  /** One execution attempt of a job (a `JobRun` row); times are milliseconds. */
  datatype JobRun = JobRun(
    id: string,
    jobId: string,
    status: RunStatus,
    startedAt: int,
    endedAt: Option<int>,
    error: Option<string>,
    metrics: Option<Metrics>)

  /** `(run.metrics as any)?.snapshotId`. */
  function RunSnapshotId(run: JobRun): Option<string> {
    match run.metrics
    case Some(m) => m.snapshotId
    case None => None
  }

  datatype CheckOutcome = Pass | Fail

  /** The evidence an integrity check records in `details`. */
  datatype CheckDetails = SnapshotIdDetails(snapshotId: Option<string>)

  /** One element of the `results` list an integrity run builds. */
  datatype CheckResult = CheckResult(checkType: string, result: CheckOutcome, details: CheckDetails)

  /** An `IntegrityCheck` row. */
  datatype IntegrityCheck = IntegrityCheck(
    id: nat,
    runId: string,
    checkType: string,
    result: CheckOutcome,
    details: CheckDetails,
    createdAt: int)

  /** The body of a job creation request. */
  datatype JobInput = JobInput(resourceType: string, resourceId: string, schedule: string, status: Option<string>)

  /** The body of a job update request: every field optional. */
  datatype JobPatch = JobPatch(
    resourceType: Option<string>,
    resourceId: Option<string>,
    schedule: Option<string>,
    status: Option<string>)

  /** The `meta` object passed to the audit log. */
  datatype AuditMeta =
    | CreateMeta(input: JobInput)
    | UpdateMeta(patch: JobPatch)
    | RunSuccessMeta(jobId: string, metrics: Metrics)
    | RunFailedMeta(jobId: string, error: string)
    | IntegrityMeta(results: seq<CheckResult>)

  /** An `AuditLog` row: action, entity, entity id and metadata. */
  datatype AuditEntry = AuditEntry(action: string, entity: string, entityId: string, meta: AuditMeta)

  /** The database: jobs and runs keyed by id, integrity checks and the audit
      log in insertion order. Row ids for checks come from a counter. */
  class Database {
    var jobs: map<string, Job>
    var runs: map<string, JobRun>
    var checks: seq<IntegrityCheck>
    var nextCheckId: nat
    var auditLog: seq<AuditEntry>
    /** The value the schema gives `status` when a job is created without one. */
    const defaultJobStatus: string

    ghost predicate Valid()
      reads this
    {
      && (forall k :: k in jobs ==> jobs[k].id == k)
      && (forall k :: k in runs ==> runs[k].id == k)
      && (forall i :: 0 <= i < |checks| ==> checks[i].id < nextCheckId)
    }

    constructor (defaultJobStatus: string)
      ensures Valid()
      ensures jobs == map[] && runs == map[] && checks == [] && auditLog == []
      ensures this.defaultJobStatus == defaultJobStatus
    {
      jobs, runs, checks, nextCheckId, auditLog := map[], map[], [], 0, [];
      this.defaultJobStatus := defaultJobStatus;
    }
  }

  /** The texts handed to the chat notifier's `notify` that it accepted. */
  class Outbox {
    var messages: seq<string>

    constructor ()
      ensures messages == []
    {
      messages := [];
    }
  }
}
