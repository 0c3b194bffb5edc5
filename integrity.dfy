/** The integrity service: the basic checks made on a finished run, the
    rows they leave behind, and the listing of a run's checks. */
module Integrity {

  import opened Common
  import opened Ledger
  import opened Sorting

  /** The one check the service makes: `snapshotId_present`, passing exactly
      when the run's metrics carry a truthy snapshot id. */
  function BasicChecks(run: JobRun): (r: seq<CheckResult>)
    ensures |r| == 1
    ensures r[0].checkType == "snapshotId_present"
    ensures r[0].result == Pass <==> TruthyText(RunSnapshotId(run))
    ensures r[0].details == SnapshotIdDetails(RunSnapshotId(run))
  {
    var snapshotId := RunSnapshotId(run);
    [CheckResult("snapshotId_present", if TruthyText(snapshotId) then Pass else Fail, SnapshotIdDetails(snapshotId))]
  }

  /** Some result is a failure. */
  predicate AnyFailed(results: seq<CheckResult>) {
    exists i :: 0 <= i < |results| && results[i].result == Fail
  }

  /** A run passes the basic checks exactly when it recorded a snapshot id. */
  lemma BasicChecksAlert(run: JobRun)
    ensures AnyFailed(BasicChecks(run)) <==> !TruthyText(RunSnapshotId(run))
  {
    var r := BasicChecks(run);
    if !TruthyText(RunSnapshotId(run)) {
      assert r[0].result == Fail;
    }
  }

  /** The check rows stored for `results`, in order, with ids counted up from `firstId`. */
  function CheckRows(results: seq<CheckResult>, runId: string, firstId: nat, createdAt: int): (r: seq<IntegrityCheck>)
    ensures |r| == |results|
    ensures forall i :: 0 <= i < |r| ==>
      && r[i].id == firstId + i && r[i].runId == runId && r[i].createdAt == createdAt
      && CheckResult(r[i].checkType, r[i].result, r[i].details) == results[i]
    decreases |results|
  {
    if results == [] then []
    else
      [IntegrityCheck(firstId, runId, results[0].checkType, results[0].result, results[0].details, createdAt)]
      + CheckRows(results[1..], runId, firstId + 1, createdAt)
  }

  function CheckCreatedAt(c: IntegrityCheck): int {
    c.createdAt
  }

  /** `listByRun`: the checks of run `runId`, newest first. */
  function ListByRun(rows: seq<IntegrityCheck>, runId: string): (r: seq<IntegrityCheck>)
    ensures forall c :: c in r <==> c in rows && c.runId == runId
    ensures SortedDesc(r, CheckCreatedAt)
    ensures multiset(r) <= multiset(rows)
  {
    var mine := Filter(rows, (c: IntegrityCheck) => c.runId == runId);
    var r := SortDesc(mine, CheckCreatedAt);
    forall c ensures c in r <==> c in rows && c.runId == runId {
      calc {
        c in r;
        c in multiset(r);
        c in multiset(mine);
        c in mine;
      }
    }
    r
  }

  /** The chat alert an integrity failure raises. */
  function AlertText(runId: string): string {
    "Integrity checks failed for run " + runId
  }

  class IntegrityService {
    const db: Database
    const slack: Outbox

    constructor (db: Database, slack: Outbox)
      ensures this.db == db && this.slack == slack
    {
      this.db := db;
      this.slack := slack;
    }

    /** `runBasicChecks`: check the run, store one row per result, audit
        the whole result list once, and alert the chat when a check failed.
        The stored rows come back. */
    method RunBasicChecks(runId: string, createdAt: int, auditFault: Option<Thrown>, notifyFault: Option<Thrown>)
      returns (r: Result<seq<IntegrityCheck>>)
      requires db.Valid()
      modifies db, slack
      ensures db.Valid()
      ensures db.jobs == old(db.jobs) && db.runs == old(db.runs)
      ensures runId !in old(db.runs) ==>
        && r == Err(Error("Run not found"))
        && db.checks == old(db.checks) && db.nextCheckId == old(db.nextCheckId)
        && db.auditLog == old(db.auditLog) && slack.messages == old(slack.messages)
      ensures runId in old(db.runs) ==>
        var results := BasicChecks(old(db.runs)[runId]);
        var rows := CheckRows(results, runId, old(db.nextCheckId), createdAt);
        && db.checks == old(db.checks) + rows
        && db.nextCheckId == old(db.nextCheckId) + |rows|
        && (auditFault.Some? ==>
              db.auditLog == old(db.auditLog) && slack.messages == old(slack.messages) && r == Err(auditFault.value))
        && (auditFault.None? ==>
              && db.auditLog == old(db.auditLog) + [AuditEntry("integrity.run", "JobRun", runId, IntegrityMeta(results))]
              && slack.messages == old(slack.messages)
                                   + (if AnyFailed(results) && notifyFault.None? then [AlertText(runId)] else [])
              && r == (if AnyFailed(results) && notifyFault.Some? then Err(notifyFault.value) else Ok(rows)))
    {
      if runId !in db.runs {
        return Err(Error("Run not found"));
      }
      var run := db.runs[runId];
      var results: seq<CheckResult> := [];
      var snapshotId := RunSnapshotId(run);
      results := results + [CheckResult("snapshotId_present", if TruthyText(snapshotId) then Pass else Fail,
                                        SnapshotIdDetails(snapshotId))];
      assert results == BasicChecks(run);
      var created := Store(results, runId, createdAt);
      r := Announce(runId, results, created, auditFault, notifyFault);
    }

    /** The end of `runBasicChecks` once the rows are stored: audit the
        result list, alert the chat when a check failed, hand back the rows. */
    method Announce(runId: string, results: seq<CheckResult>, created: seq<IntegrityCheck>,
                    auditFault: Option<Thrown>, notifyFault: Option<Thrown>)
      returns (r: Result<seq<IntegrityCheck>>)
      requires db.Valid()
      modifies db, slack
      ensures db.Valid()
      ensures db.jobs == old(db.jobs) && db.runs == old(db.runs)
      ensures db.checks == old(db.checks) && db.nextCheckId == old(db.nextCheckId)
      ensures auditFault.Some? ==>
        db.auditLog == old(db.auditLog) && slack.messages == old(slack.messages) && r == Err(auditFault.value)
      ensures auditFault.None? ==>
        && db.auditLog == old(db.auditLog) + [AuditEntry("integrity.run", "JobRun", runId, IntegrityMeta(results))]
        && slack.messages == old(slack.messages)
                             + (if AnyFailed(results) && notifyFault.None? then [AlertText(runId)] else [])
        && r == (if AnyFailed(results) && notifyFault.Some? then Err(notifyFault.value) else Ok(created))
    {
      if auditFault.Some? {
        return Err(auditFault.value);
      }
      db.auditLog := db.auditLog + [AuditEntry("integrity.run", "JobRun", runId, IntegrityMeta(results))];
      if exists k :: 0 <= k < |results| && results[k].result == Fail {
        if notifyFault.Some? {
          return Err(notifyFault.value);
        }
        slack.messages := slack.messages + [AlertText(runId)];
      }
      return Ok(created);
    }

    /** `Promise.all(results.map(create))`: one `integrityCheck.create` per
        result, in order, each taking the next row id. */
    method Store(results: seq<CheckResult>, runId: string, createdAt: int) returns (created: seq<IntegrityCheck>)
      requires db.Valid()
      modifies db
      ensures db.Valid()
      ensures created == CheckRows(results, runId, old(db.nextCheckId), createdAt)
      ensures db.checks == old(db.checks) + created
      ensures db.nextCheckId == old(db.nextCheckId) + |results|
      ensures db.jobs == old(db.jobs) && db.runs == old(db.runs) && db.auditLog == old(db.auditLog)
    {
      created := CheckRows(results, runId, db.nextCheckId, createdAt);
      db.checks := db.checks + created;
      db.nextCheckId := db.nextCheckId + |results|;
    }
  }
}
