/** The job service: listing, creating and updating backup jobs, and the run
    state machine that executes one job. */
module Jobs {

  import opened Common
  import opened Ledger
  import opened Sorting

  /** The EC2 CreateSnapshot reply as the run reads it: `SnapshotId` and
      `Snapshot?.SnapshotId`. */
  datatype SnapshotResponse = SnapshotResponse(snapshotId: Option<string>, nestedSnapshotId: Option<string>)

  /** `result?.SnapshotId || result?.Snapshot?.SnapshotId`: an empty top-level
      id falls through to the nested one. */
  function SnapshotIdOf(r: SnapshotResponse): Option<string> {
    if TruthyText(r.snapshotId) then r.snapshotId else r.nestedSnapshotId
  }

  /** Everything the outside world decides during one run: the clock
      readings taken when the run row is created and at each terminal write,
      the EC2 reply, and the error (if any) each audit write and the chat
      notification throws. */
  datatype RunOracle = RunOracle(
    startedAt: int,
    snapshot: Result<SnapshotResponse>,
    successAt: int,
    successAuditFault: Option<Thrown>,
    failedAt: int,
    failureAuditFault: Option<Thrown>,
    notifyFault: Option<Thrown>)

  /** The calls the service makes, in the order it makes them. */
  datatype Step =
    | WriteJob(jobId: string)
    | CreateRun(runId: string, jobId: string)
    | RequestSnapshot(volumeId: string, description: string)
    | WriteRun(runId: string, status: RunStatus)
    | WriteAudit(action: string)
    | Notify(text: string)

  /** What `run` returns when it does not throw. */
  datatype RunReport = RunReport(runId: string, status: RunStatus, metrics: Metrics)

  /** The effect of one run of an existing job: the final run row, the
      audit entries and chat messages it adds, the calls it makes and what
      the caller sees. */
  datatype Execution = Execution(
    row: JobRun,
    audits: seq<AuditEntry>,
    notes: seq<string>,
    steps: seq<Step>,
    reply: Result<RunReport>)

  /** The error the `try` block of a run throws, if any: the dispatch on
      `resourceType`, the snapshot call, or the success audit write. */
  function TryError(job: Job, o: RunOracle): Option<Thrown> {
    if job.resourceType != "EBS" then Some(Error("Unsupported resourceType: " + job.resourceType))
    else if o.snapshot.Err? then Some(o.snapshot.error)
    else o.successAuditFault
  }

  /** The text of the chat message sent when a run fails. */
  function FailureText(jobId: string, message: string): string {
    "Job " + jobId + " failed: " + message
  }

  /** The `catch` block: mark the run failed, audit, notify, rethrow. The
      steps are the ones the block itself makes. */
  function Recover(job: Job, row: JobRun, err: Thrown, o: RunOracle): (e: Execution)
    ensures e.row == row.(status := Failed, endedAt := Some(o.failedAt), error := Some(Describe(err)))
    ensures 2 <= |e.steps| <= 3 && e.steps[..2] == [WriteRun(row.id, Failed), WriteAudit("job.run.failed")]
    ensures |e.steps| == 3 ==> e.steps[2] == Notify(FailureText(job.id, Describe(err)))
    ensures forall i :: 0 <= i < |e.steps| ==> e.steps[i].WriteRun? ==> e.steps[i].runId == row.id
    ensures forall i :: 0 <= i < |e.steps| ==> !e.steps[i].CreateRun? && !e.steps[i].RequestSnapshot?
    ensures e.reply.Err?
    // a failing audit write is rethrown before any message
    ensures o.failureAuditFault.Some? ==>
      |e.steps| == 2 && e.audits == [] && e.notes == [] && e.reply == Err(o.failureAuditFault.value)
    ensures o.failureAuditFault.None? ==>
      |e.steps| == 3 && e.audits == [AuditEntry("job.run.failed", "JobRun", row.id, RunFailedMeta(job.id, Describe(err)))]
    // a failing notify is rethrown; otherwise the message is sent and the original error rethrown
    ensures o.failureAuditFault.None? && o.notifyFault.Some? ==> e.notes == [] && e.reply == Err(o.notifyFault.value)
    ensures o.failureAuditFault.None? && o.notifyFault.None? ==>
      e.notes == [FailureText(job.id, Describe(err))] && e.reply == Err(err)
  {
    var message := Describe(err);
    var failed := row.(status := Failed, endedAt := Some(o.failedAt), error := Some(message));
    var written := [WriteRun(row.id, Failed), WriteAudit("job.run.failed")];
    match o.failureAuditFault
    case Some(fault) => Execution(failed, [], [], written, Err(fault))
    case None =>
      var entry := AuditEntry("job.run.failed", "JobRun", row.id, RunFailedMeta(job.id, message));
      var text := FailureText(job.id, message);
      var notified := written + [Notify(text)];
      match o.notifyFault
      case Some(fault) => Execution(failed, [entry], [], notified, Err(fault))
      case None => Execution(failed, [entry], [text], notified, Err(err))
  }

  /** The catch block run after the calls `before`. */
  function RecoverAfter(job: Job, row: JobRun, before: seq<Step>, err: Thrown, o: RunOracle): (e: Execution)
  {
    var c := Recover(job, row, err, o);
    c.(steps := before + c.steps)
  }

  /** The `try`/`catch` of a run of `job`, once its pending row `runId` exists. */
  function Attempt(job: Job, runId: string, o: RunOracle): Execution
  {
    var pending := JobRun(runId, job.id, Pending, o.startedAt, None, None, None);
    if job.resourceType == "EBS" then
      var called := [RequestSnapshot(job.resourceId, "Job " + job.id)];
      match o.snapshot
      case Err(err) => RecoverAfter(job, pending, called, err, o)
      case Ok(response) =>
        var metrics := SnapshotMetrics(SnapshotIdOf(response));
        var done := pending.(status := Success, endedAt := Some(o.successAt), metrics := Some(metrics));
        var written := called + [WriteRun(runId, Success), WriteAudit("job.run.success")];
        match o.successAuditFault
        case None =>
          var entry := AuditEntry("job.run.success", "JobRun", runId, RunSuccessMeta(job.id, metrics));
          Execution(done, [entry], [], written, Ok(RunReport(runId, Success, metrics)))
        case Some(fault) => RecoverAfter(job, done, written, fault, o)
    else
      RecoverAfter(job, pending, [], Error("Unsupported resourceType: " + job.resourceType), o)
  }

  /** One run of `job` under run id `runId`, after the job was found: the
      pending row is created, then the attempt is made. */
  function Execute(job: Job, runId: string, o: RunOracle): Execution
  {
    var a := Attempt(job, runId, o);
    a.(steps := [CreateRun(runId, job.id)] + a.steps)
  }

  /** A run is its attempt, preceded by the creation of the pending row. */
  lemma ExecuteAfterCreate(job: Job, runId: string, o: RunOracle)
    ensures var a := Attempt(job, runId, o);
      var e := Execute(job, runId, o);
      && e.row == a.row && e.audits == a.audits && e.notes == a.notes && e.reply == a.reply
      && e.steps == [CreateRun(runId, job.id)] + a.steps
  {
  }

  /** Every run of a job creates its run row once, first, before any
      backend call, and only ever writes that row. */
  lemma ExecuteSteps(job: Job, runId: string, o: RunOracle)
    ensures var e := Execute(job, runId, o);
      && e.row.id == runId && e.row.jobId == job.id && e.row.startedAt == o.startedAt
      && |e.steps| > 0 && e.steps[0] == CreateRun(runId, job.id)
      && (forall i :: 0 < i < |e.steps| ==> !e.steps[i].CreateRun?)
      && (forall i :: 0 <= i < |e.steps| && e.steps[i].WriteRun? ==> e.steps[i].runId == runId)
      && (forall i :: 0 <= i < |e.steps| && e.steps[i].RequestSnapshot? ==> i == 1)
  {
    AttemptSteps(job, runId, o);
    var a := Attempt(job, runId, o);
    var e := Execute(job, runId, o);
    assert forall i :: 0 < i < |e.steps| ==> e.steps[i] == a.steps[i - 1];
  }

  /** The attempt never creates a run row, writes only its own, and makes the
      snapshot request first if at all. */
  lemma AttemptSteps(job: Job, runId: string, o: RunOracle)
    ensures var a := Attempt(job, runId, o);
      && a.row.id == runId && a.row.jobId == job.id && a.row.startedAt == o.startedAt
      && (forall i :: 0 <= i < |a.steps| ==> !a.steps[i].CreateRun?)
      && (forall i :: 0 <= i < |a.steps| && a.steps[i].WriteRun? ==> a.steps[i].runId == runId)
      && (forall i :: 0 <= i < |a.steps| && a.steps[i].RequestSnapshot? ==> i == 0)
  {
    var pending := JobRun(runId, job.id, Pending, o.startedAt, None, None, None);
    var request := RequestSnapshot(job.resourceId, "Job " + job.id);
    if job.resourceType == "EBS" && o.snapshot.Ok? {
      var metrics := SnapshotMetrics(SnapshotIdOf(o.snapshot.value));
      var done := pending.(status := Success, endedAt := Some(o.successAt), metrics := Some(metrics));
      var written := [request, WriteRun(runId, Success), WriteAudit("job.run.success")];
      if o.successAuditFault.Some? {
        var c := Recover(job, done, o.successAuditFault.value, o);
        assert Attempt(job, runId, o).steps == written + c.steps;
      }
    } else if job.resourceType == "EBS" {
      var c := Recover(job, pending, o.snapshot.error, o);
      assert Attempt(job, runId, o).steps == [request] + c.steps;
    }
  }

  /** Every run of a job ends in a terminal state: `success` exactly when the
      `try` block threw nothing, with the metrics handed back to the caller;
      otherwise `failed` with the thrown error's text. */
  lemma ExecuteOutcome(job: Job, runId: string, o: RunOracle)
    ensures var e := Execute(job, runId, o);
      && e.row.status != Pending && e.row.endedAt.Some?
      && (e.row.status == Success <==> e.reply.Ok?)
      && (e.row.status == Success <==> TryError(job, o).None?)
      && (e.reply.Ok? ==> && e.row.error.None? && e.row.metrics.Some?
                          && e.reply.value == RunReport(runId, Success, e.row.metrics.value))
      && (e.row.status == Failed ==> && e.row.endedAt == Some(o.failedAt)
                                     && e.row.error == Some(Describe(TryError(job, o).value)))
  {
  }

  /** An EBS job whose snapshot call and audit write succeed ends `success`
      with the snapshot id in its metrics, one audit entry and no chat message. */
  lemma RunSucceeds(job: Job, runId: string, o: RunOracle)
    requires job.resourceType == "EBS" && o.snapshot.Ok? && o.successAuditFault.None?
    ensures var e := Execute(job, runId, o);
      && e.row == JobRun(runId, job.id, Success, o.startedAt, Some(o.successAt), None,
                         Some(SnapshotMetrics(SnapshotIdOf(o.snapshot.value))))
      && e.reply == Ok(RunReport(runId, Success, SnapshotMetrics(SnapshotIdOf(o.snapshot.value))))
      && e.audits == [AuditEntry("job.run.success", "JobRun", runId,
                                 RunSuccessMeta(job.id, SnapshotMetrics(SnapshotIdOf(o.snapshot.value))))]
      && e.notes == []
  {
  }

  /** Any resource type other than EBS makes no backend call and fails the
      run with `Unsupported resourceType: <type>`. */
  lemma RunUnsupported(job: Job, runId: string, o: RunOracle)
    requires job.resourceType != "EBS"
    ensures var e := Execute(job, runId, o);
      && e.row.status == Failed
      && e.row.error == Some("Unsupported resourceType: " + job.resourceType)
      && (forall i :: 0 <= i < |e.steps| ==> !e.steps[i].RequestSnapshot?)
      && (o.failureAuditFault.None? && o.notifyFault.None? ==>
            e.reply == Err(Error("Unsupported resourceType: " + job.resourceType)))
  {
  }

  /** On failure the run row is written `failed`, then the audit entry, then
      one chat message, and the caller gets the original error back. */
  lemma RunFailureOrder(job: Job, runId: string, o: RunOracle)
    requires TryError(job, o).Some? && o.failureAuditFault.None? && o.notifyFault.None?
    ensures var e := Execute(job, runId, o);
      var message := Describe(TryError(job, o).value);
      && |e.steps| >= 3
      && e.steps[|e.steps| - 3..] == [WriteRun(runId, Failed), WriteAudit("job.run.failed"),
                                       Notify(FailureText(job.id, message))]
      && e.audits == [AuditEntry("job.run.failed", "JobRun", runId, RunFailedMeta(job.id, message))]
      && e.notes == [FailureText(job.id, message)]
      && e.reply == Err(TryError(job, o).value)
  {
    var err := TryError(job, o).value;
    var pending := JobRun(runId, job.id, Pending, o.startedAt, None, None, None);
    var before: seq<Step>, row: JobRun;
    if job.resourceType != "EBS" {
      before, row := [], pending;
    } else if o.snapshot.Err? {
      before, row := [RequestSnapshot(job.resourceId, "Job " + job.id)], pending;
    } else {
      before := [RequestSnapshot(job.resourceId, "Job " + job.id), WriteRun(runId, Success), WriteAudit("job.run.success")];
      row := pending.(status := Success, endedAt := Some(o.successAt),
                      metrics := Some(SnapshotMetrics(SnapshotIdOf(o.snapshot.value))));
    }
    var c := Recover(job, row, err, o);
    assert Attempt(job, runId, o) == c.(steps := before + c.steps);
    var e := Execute(job, runId, o);
    assert e.steps == [CreateRun(runId, job.id)] + before + c.steps;
    assert e.steps[|e.steps| - 3..] == c.steps;
  }

  /** A throw from the success audit write falls into the `catch`: the same
      run row, already written `success`, is rewritten `failed`; its metrics
      stay, so the row then carries both metrics and an error. */
  lemma RunAuditFaultRewritesRow(job: Job, runId: string, o: RunOracle)
    requires job.resourceType == "EBS" && o.snapshot.Ok? && o.successAuditFault.Some?
    ensures var e := Execute(job, runId, o);
      && e.steps[2] == WriteRun(runId, Success)
      && e.steps[4] == WriteRun(runId, Failed)
      && e.row.status == Failed
      && e.row.metrics == Some(SnapshotMetrics(SnapshotIdOf(o.snapshot.value)))
      && e.row.error == Some(Describe(o.successAuditFault.value))
  {
  }

  /** A job as `create` stores it: the schema default fills a missing status. */
  function NewJob(input: JobInput, id: string, createdAt: int, defaultStatus: string): Job {
    Job(id, input.resourceType, input.resourceId, input.schedule, input.status.GetOr(defaultStatus), createdAt)
  }

  /** A job after `update`: every field the patch carries replaces the stored one. */
  function Patched(job: Job, p: JobPatch): (r: Job)
    ensures r.id == job.id && r.createdAt == job.createdAt
    ensures p.resourceType.None? ==> r.resourceType == job.resourceType
    ensures p.resourceId.None? ==> r.resourceId == job.resourceId
    ensures p.schedule.None? ==> r.schedule == job.schedule
    ensures p.status.None? ==> r.status == job.status
    ensures p == JobPatch(None, None, None, None) ==> r == job
  {
    job.(resourceType := p.resourceType.GetOr(job.resourceType),
         resourceId := p.resourceId.GetOr(job.resourceId),
         schedule := p.schedule.GetOr(job.schedule),
         status := p.status.GetOr(job.status))
  }

  /** What `update` ends with. */
  datatype UpdateResult = Updated(job: Job) | NoRecord | UpdateThrew(error: Thrown)

  function CreatedAt(j: Job): int {
    j.createdAt
  }

  class JobsService {
    const db: Database
    const slack: Outbox
    /** The calls made so far, in order. */
    ghost var trace: seq<Step>

    constructor (db: Database, slack: Outbox)
      ensures this.db == db && this.slack == slack && trace == []
    {
      this.db := db;
      this.slack := slack;
      trace := [];
    }

    /** `list`: every stored job once, newest `createdAt` first. */
    method List() returns (r: seq<Job>)
      requires db.Valid()
      ensures SortedDesc(r, CreatedAt)
      ensures |r| == |db.jobs|
      ensures forall j :: j in r <==> j in db.jobs.Values
    {
      var rows: seq<Job> := [];
      var remaining := db.jobs.Keys;
      while remaining != {}
        invariant remaining <= db.jobs.Keys
        invariant |rows| + |remaining| == |db.jobs.Keys|
        invariant forall j :: j in rows <==> j in db.jobs.Values && j.id !in remaining
        decreases remaining
      {
        var k :| k in remaining;
        rows := rows + [db.jobs[k]];
        remaining := remaining - {k};
        forall j | j in db.jobs.Values && j.id == k ensures j == db.jobs[k] {
          var k' :| k' in db.jobs && db.jobs[k'] == j;
        }
      }
      r := SortDesc(rows, CreatedAt);
      assert forall j :: j in r <==> j in multiset(rows);
    }

    /** `create`: store the job, then write one `job.create` audit entry,
        then hand back the stored job. */
    method Create(input: JobInput, newId: string, createdAt: int, auditFault: Option<Thrown>)
      returns (r: Result<Job>)
      requires db.Valid() && newId !in db.jobs
      modifies db, this
      ensures db.Valid()
      ensures db.jobs == old(db.jobs)[newId := NewJob(input, newId, createdAt, db.defaultJobStatus)]
      ensures db.runs == old(db.runs) && db.checks == old(db.checks) && db.nextCheckId == old(db.nextCheckId)
      ensures auditFault.None? ==>
        && db.auditLog == old(db.auditLog) + [AuditEntry("job.create", "BackupJob", newId, CreateMeta(input))]
        && r == Ok(NewJob(input, newId, createdAt, db.defaultJobStatus))
      ensures auditFault.Some? ==> db.auditLog == old(db.auditLog) && r == Err(auditFault.value)
      ensures trace == old(trace) + [WriteJob(newId), WriteAudit("job.create")]
    {
      var job := NewJob(input, newId, createdAt, db.defaultJobStatus);
      db.jobs := db.jobs[newId := job];
      trace := trace + [WriteJob(newId), WriteAudit("job.create")];
      if auditFault.Some? {
        return Err(auditFault.value);
      }
      db.auditLog := db.auditLog + [AuditEntry("job.create", "BackupJob", newId, CreateMeta(input))];
      return Ok(job);
    }

    /** `update`: change the stored job, then write one `job.update` audit
        entry, then hand back the stored job. An unknown id is refused by
        the database before anything is written. */
    method Update(id: string, patch: JobPatch, auditFault: Option<Thrown>) returns (r: UpdateResult)
      requires db.Valid()
      modifies db, this
      ensures db.Valid()
      ensures db.runs == old(db.runs) && db.checks == old(db.checks) && db.nextCheckId == old(db.nextCheckId)
      ensures id !in old(db.jobs) ==>
        r == NoRecord && db.jobs == old(db.jobs) && db.auditLog == old(db.auditLog) && trace == old(trace)
      ensures id in old(db.jobs) ==>
        && db.jobs == old(db.jobs)[id := Patched(old(db.jobs)[id], patch)]
        && trace == old(trace) + [WriteJob(id), WriteAudit("job.update")]
        && (auditFault.None? ==>
              && db.auditLog == old(db.auditLog) + [AuditEntry("job.update", "BackupJob", id, UpdateMeta(patch))]
              && r == Updated(Patched(old(db.jobs)[id], patch)))
        && (auditFault.Some? ==> db.auditLog == old(db.auditLog) && r == UpdateThrew(auditFault.value))
    {
      if id !in db.jobs {
        return NoRecord;
      }
      var job := Patched(db.jobs[id], patch);
      db.jobs := db.jobs[id := job];
      trace := trace + [WriteJob(id), WriteAudit("job.update")];
      if auditFault.Some? {
        return UpdateThrew(auditFault.value);
      }
      db.auditLog := db.auditLog + [AuditEntry("job.update", "BackupJob", id, UpdateMeta(patch))];
      return Updated(job);
    }

    /** `run`: look the job up, create a pending run, dispatch on the
        resource type, and record the outcome. */
    method Run(id: string, runId: string, o: RunOracle) returns (r: Result<RunReport>)
      requires db.Valid() && runId !in db.runs
      modifies db, slack, this
      ensures db.Valid()
      ensures db.jobs == old(db.jobs) && db.checks == old(db.checks) && db.nextCheckId == old(db.nextCheckId)
      ensures id !in old(db.jobs) ==>
        && r == Err(Error("Job not found"))
        && db.runs == old(db.runs) && db.auditLog == old(db.auditLog)
        && slack.messages == old(slack.messages) && trace == old(trace)
      ensures id in old(db.jobs) ==>
        var e := Execute(old(db.jobs)[id], runId, o);
        && db.runs == old(db.runs)[runId := e.row]
        && db.auditLog == old(db.auditLog) + e.audits
        && slack.messages == old(slack.messages) + e.notes
        && trace == old(trace) + e.steps
        && r == e.reply
    {
      if id !in db.jobs {
        return Err(Error("Job not found"));
      }
      r := Start(db.jobs[id], runId, o);
    }

    /** `run` once the job is found: create the pending run row, then make
        the attempt. */
    method Start(job: Job, runId: string, o: RunOracle) returns (r: Result<RunReport>)
      requires db.Valid() && runId !in db.runs
      modifies db, slack, this
      ensures db.Valid()
      ensures db.jobs == old(db.jobs) && db.checks == old(db.checks) && db.nextCheckId == old(db.nextCheckId)
      ensures var e := Execute(job, runId, o);
        && db.runs == old(db.runs)[runId := e.row]
        && db.auditLog == old(db.auditLog) + e.audits
        && slack.messages == old(slack.messages) + e.notes
        && trace == old(trace) + e.steps
        && r == e.reply
    {
      ghost var before := trace;
      db.runs := db.runs[runId := JobRun(runId, job.id, Pending, o.startedAt, None, None, None)];
      trace := trace + [CreateRun(runId, job.id)];
      r := Try(job, runId, o);
      ExecuteAfterCreate(job, runId, o);
      Assoc(before, [CreateRun(runId, job.id)], Attempt(job, runId, o).steps);
    }

    /** The `try` block of `run` and, when it throws, the `catch` block. */
    method Try(job: Job, runId: string, o: RunOracle) returns (r: Result<RunReport>)
      requires db.Valid() && runId in db.runs
      requires db.runs[runId] == JobRun(runId, job.id, Pending, o.startedAt, None, None, None)
      modifies db, slack, this
      ensures db.Valid()
      ensures db.jobs == old(db.jobs) && db.checks == old(db.checks) && db.nextCheckId == old(db.nextCheckId)
      ensures var a := Attempt(job, runId, o);
        && db.runs == old(db.runs)[runId := a.row]
        && db.auditLog == old(db.auditLog) + a.audits
        && slack.messages == old(slack.messages) + a.notes
        && trace == old(trace) + a.steps
        && r == a.reply
    {
      if job.resourceType != "EBS" {
        r := Catch(job, runId, Error("Unsupported resourceType: " + job.resourceType), o);
        return;
      }
      r := Snapshot(job, runId, o);
    }

    /** The EBS branch of the `try` block: request the snapshot, record success. */
    method Snapshot(job: Job, runId: string, o: RunOracle) returns (r: Result<RunReport>)
      requires db.Valid() && runId in db.runs && job.resourceType == "EBS"
      requires db.runs[runId] == JobRun(runId, job.id, Pending, o.startedAt, None, None, None)
      modifies db, slack, this
      ensures db.Valid()
      ensures db.jobs == old(db.jobs) && db.checks == old(db.checks) && db.nextCheckId == old(db.nextCheckId)
      ensures var a := Attempt(job, runId, o);
        && db.runs == old(db.runs)[runId := a.row]
        && db.auditLog == old(db.auditLog) + a.audits
        && slack.messages == old(slack.messages) + a.notes
        && trace == old(trace) + a.steps
        && r == a.reply
    {
      ghost var before := trace;
      var request := RequestSnapshot(job.resourceId, "Job " + job.id);
      trace := trace + [request];
      if o.snapshot.Err? {
        r := Catch(job, runId, o.snapshot.error, o);
        Assoc(before, [request], Recover(job, old(db.runs)[runId], o.snapshot.error, o).steps);
        return;
      }
      r := Succeed(job, runId, o);
      Assoc(before, [request], Attempt(job, runId, o).steps[1..]);
    }

    /** The rest of the `try` block once the snapshot exists: record
        `success` with the snapshot id, then audit it. */
    method Succeed(job: Job, runId: string, o: RunOracle) returns (r: Result<RunReport>)
      requires db.Valid() && runId in db.runs && job.resourceType == "EBS" && o.snapshot.Ok?
      requires db.runs[runId] == JobRun(runId, job.id, Pending, o.startedAt, None, None, None)
      modifies db, slack, this
      ensures db.Valid()
      ensures db.jobs == old(db.jobs) && db.checks == old(db.checks) && db.nextCheckId == old(db.nextCheckId)
      ensures var a := Attempt(job, runId, o);
        && db.runs == old(db.runs)[runId := a.row]
        && db.auditLog == old(db.auditLog) + a.audits
        && slack.messages == old(slack.messages) + a.notes
        && trace == old(trace) + a.steps[1..]
        && r == a.reply
    {
      var metrics := SnapshotMetrics(SnapshotIdOf(o.snapshot.value));
      db.runs := db.runs[runId := db.runs[runId].(status := Success, endedAt := Some(o.successAt),
                                                   metrics := Some(metrics))];
      ghost var before := trace;
      var written := [WriteRun(runId, Success), WriteAudit("job.run.success")];
      trace := trace + written;
      if o.successAuditFault.Some? {
        ghost var done := db.runs[runId];
        r := Catch(job, runId, o.successAuditFault.value, o);
        Assoc(before, written, Recover(job, done, o.successAuditFault.value, o).steps);
        return;
      }
      db.auditLog := db.auditLog + [AuditEntry("job.run.success", "JobRun", runId, RunSuccessMeta(job.id, metrics))];
      return Ok(RunReport(runId, Success, metrics));
    }

    /** The `catch` block of `run`, for the run row `runId` of `job`. */
    method Catch(job: Job, runId: string, thrown: Thrown, o: RunOracle) returns (r: Result<RunReport>)
      requires db.Valid() && runId in db.runs
      modifies db, slack, this
      ensures db.Valid()
      ensures db.jobs == old(db.jobs) && db.checks == old(db.checks) && db.nextCheckId == old(db.nextCheckId)
      ensures var c := Recover(job, old(db.runs)[runId], thrown, o);
        && db.runs == old(db.runs)[runId := c.row]
        && db.auditLog == old(db.auditLog) + c.audits
        && slack.messages == old(slack.messages) + c.notes
        && trace == old(trace) + c.steps
        && r == c.reply
    {
      var message := Describe(thrown);
      db.runs := db.runs[runId := db.runs[runId].(status := Failed, endedAt := Some(o.failedAt), error := Some(message))];
      ghost var before := trace;
      var written := [WriteRun(runId, Failed), WriteAudit("job.run.failed")];
      trace := trace + written;
      if o.failureAuditFault.Some? {
        return Err(o.failureAuditFault.value);
      }
      db.auditLog := db.auditLog + [AuditEntry("job.run.failed", "JobRun", runId, RunFailedMeta(job.id, message))];
      var text := FailureText(job.id, message);
      trace := trace + [Notify(text)];
      Assoc(before, written, [Notify(text)]);
      if o.notifyFault.Some? {
        return Err(o.notifyFault.value);
      }
      slack.messages := slack.messages + [text];
      return Err(thrown);
    }
  }
}
