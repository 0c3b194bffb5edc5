/** The CloudWatch metrics publisher: which metrics each call sends, with
    which values and dimensions, and what it reports back. */
module CloudWatch {

  import opened Common

  /** The namespace every metric is published under. */
  const Namespace: string := "DROX/DevOps"

  /** The region used when `AWS_REGION` is unset or empty. */
  const DefaultRegion: string := "ap-northeast-2"

  /** Bytes in a gigabyte, as the service converts them. */
  const Gigabyte: int := 1024 * 1024 * 1024

  datatype StandardUnit = Count | Seconds | Gigabytes | Percent

  datatype Dimension = Dimension(name: string, value: string)

  /** One entry of `MetricData`; metric values are exact, `timestamp` is the
      clock reading taken once per call. A metric sent without `Dimensions`
      has none here. */
  datatype Metric = Metric(name: string, value: real, unit: StandardUnit, timestamp: int, dimensions: seq<Dimension>)

  /** A `PutMetricDataCommand`. */
  datatype PutMetricData = PutMetricData(namespace: string, metricData: seq<Metric>)

  /** What a call resolves to: skipped (with the reason the backup call
      gives), sent (with the count the backup call reports), or the send's
      error message. */
  datatype Reply =
    | Skipped(reason: Option<string>)
    | Sent(metricsCount: Option<nat>)
    | SendFailed(error: string)

  /** The `MetricName`s of a list of metrics, in order. */
  function Names(m: seq<Metric>): (r: seq<string>)
    ensures |r| == |m|
    ensures forall i :: 0 <= i < |m| ==> r[i] == m[i].name
  {
    if m == [] then [] else Names(m[..|m| - 1]) + [m[|m| - 1].name]
  }

  /** `backupSize` counts only when it is given and positive. */
  predicate HasSize(backupSize: Option<int>) {
    backupSize.Some? && backupSize.value > 0
  }

  /** The metric list `putBackupMetrics` sends: executions, duration (in
      seconds), the size in gigabytes when there is one, and the outcome. */
  function BackupMetricData(jobId: string, resourceType: string, status: string, duration: int,
                            backupSize: Option<int>, timestamp: int): seq<Metric>
  {
    [ Metric("BackupExecutions", 1.0, Count, timestamp,
             [Dimension("JobId", jobId), Dimension("ResourceType", resourceType), Dimension("Status", status)]),
      Metric("BackupDuration", duration as real / 1000.0, Seconds, timestamp,
             [Dimension("JobId", jobId), Dimension("ResourceType", resourceType)]) ]
    + (if HasSize(backupSize)
       then [Metric("BackupSize", backupSize.value as real / Gigabyte as real, Gigabytes, timestamp,
                    [Dimension("JobId", jobId), Dimension("ResourceType", resourceType)])]
       else [])
    + [Metric(if status == "success" then "BackupSuccess" else "BackupFailures", 1.0, Count, timestamp,
              [Dimension("ResourceType", resourceType)])]
  }

  /** The backup metrics come in a fixed order, four of them with a size and
      three without, and the last one says whether the run succeeded. */
  lemma BackupMetricNames(jobId: string, resourceType: string, status: string, duration: int,
                          backupSize: Option<int>, timestamp: int)
    ensures var m := BackupMetricData(jobId, resourceType, status, duration, backupSize, timestamp);
      && |m| == (if HasSize(backupSize) then 4 else 3)
      && Names(m) == ["BackupExecutions", "BackupDuration"]
                     + (if HasSize(backupSize) then ["BackupSize"] else [])
                     + [if status == "success" then "BackupSuccess" else "BackupFailures"]
  {
    var m := BackupMetricData(jobId, resourceType, status, duration, backupSize, timestamp);
    var want := ["BackupExecutions", "BackupDuration"]
                + (if HasSize(backupSize) then ["BackupSize"] else [])
                + [if status == "success" then "BackupSuccess" else "BackupFailures"];
    assert |Names(m)| == |want|;
    assert forall i :: 0 <= i < |want| ==> Names(m)[i] == want[i];
  }

  /** Both count metrics record one event, the duration is in seconds, and
      the size (when sent) is in gigabytes; every metric shares the call's
      timestamp. The executions metric is split by job, type and status,
      the duration and size by job and type, and the outcome by type only. */
  lemma BackupMetricValues(jobId: string, resourceType: string, status: string, duration: int,
                           backupSize: Option<int>, timestamp: int)
    ensures var m := BackupMetricData(jobId, resourceType, status, duration, backupSize, timestamp);
      && m[0].value == 1.0 && m[0].unit == Count
      && m[|m| - 1].value == 1.0 && m[|m| - 1].unit == Count
      && m[1].value * 1000.0 == duration as real && m[1].unit == Seconds
      && (HasSize(backupSize) ==> m[2].value * Gigabyte as real == backupSize.value as real && m[2].unit == Gigabytes)
      && (forall i :: 0 <= i < |m| ==> m[i].timestamp == timestamp)
      && m[0].dimensions == [Dimension("JobId", jobId), Dimension("ResourceType", resourceType), Dimension("Status", status)]
      && (forall i :: 0 < i < |m| - 1 ==> m[i].dimensions == [Dimension("JobId", jobId), Dimension("ResourceType", resourceType)])
      && m[|m| - 1].dimensions == [Dimension("ResourceType", resourceType)]
  {
  }

  /** The success rate `putIntegrityMetrics` reports, in percent. */
  function IntegritySuccessRate(totalChecks: int, passedChecks: int): real {
    if totalChecks > 0 then passedChecks as real / totalChecks as real * 100.0 else 0.0
  }

  /** No checks give a rate of 0; otherwise, when the passed checks are
      between none and all, so is the rate between 0 and 100, reaching 100
      exactly when every check passed. */
  lemma IntegrityRateBounds(totalChecks: int, passedChecks: int)
    ensures totalChecks <= 0 ==> IntegritySuccessRate(totalChecks, passedChecks) == 0.0
    ensures totalChecks > 0 && 0 <= passedChecks <= totalChecks ==>
      0.0 <= IntegritySuccessRate(totalChecks, passedChecks) <= 100.0
    ensures totalChecks > 0 ==> (IntegritySuccessRate(totalChecks, passedChecks) == 100.0 <==> passedChecks == totalChecks)
  {
    if totalChecks > 0 {
      var t := totalChecks as real;
      var p := passedChecks as real;
      var q := p / t;
      assert q * t == p;
      if 0 <= passedChecks <= totalChecks {
        assert 0.0 <= q <= 1.0;
      }
      if q * 100.0 == 100.0 {
        assert q == 1.0;
      }
    }
  }

  /** The two metrics `putIntegrityMetrics` sends. */
  function IntegrityMetricData(runId: string, totalChecks: int, passedChecks: int, failedChecks: int,
                               timestamp: int): seq<Metric>
  {
    [ Metric("IntegrityCheckSuccessRate", IntegritySuccessRate(totalChecks, passedChecks), Percent, timestamp,
             [Dimension("RunId", runId)]),
      Metric("IntegrityCheckFailures", failedChecks as real, Count, timestamp, []) ]
  }

  /** The three metrics `putSystemHealthMetrics` sends. */
  function SystemHealthMetricData(totalJobs: int, activeJobs: int, recentFailures: int, timestamp: int)
    : seq<Metric>
  {
    [ Metric("TotalJobs", totalJobs as real, Count, timestamp, []),
      Metric("ActiveJobs", activeJobs as real, Count, timestamp, []),
      Metric("RecentFailures", recentFailures as real, Count, timestamp, []) ]
  }

  /** The reply to a send: `sendFails` is the error `client.send` rejects
      with, if any; the caught error is reported by its `message`. */
  function SendReply(sendFails: Option<Thrown>, onSuccess: Reply): (r: Reply)
    ensures sendFails.None? ==> r == onSuccess
    ensures sendFails.Some? ==> r == SendFailed(sendFails.value.message)
  {
    match sendFails
    case Some(e) => SendFailed(e.message)
    case None => onSuccess
  }

  class CloudWatchService {
    /** `client !== null`: constructing the SDK client did not throw. */
    const enabled: bool
    const region: string
    /** Every command handed to `client.send`, in order. */
    var commands: seq<PutMetricData>

    /** `awsRegion` is `AWS_REGION`; `clientThrows` says whether creating
        the client throws (the error is only logged). */
    constructor (awsRegion: Option<string>, clientThrows: bool)
      ensures enabled == !clientThrows
      ensures region == (if TruthyText(awsRegion) then awsRegion.value else DefaultRegion)
      ensures commands == []
    {
      region := if TruthyText(awsRegion) then awsRegion.value else DefaultRegion;
      enabled := !clientThrows;
      commands := [];
    }

    predicate IsEnabled()
    {
      enabled
    }

    /** `putBackupMetrics`. */
    method PutBackupMetrics(jobId: string, resourceType: string, status: string, duration: int,
                            backupSize: Option<int>, timestamp: int, sendFails: Option<Thrown>)
      returns (r: Reply)
      modifies this
      ensures !enabled ==> r == Skipped(Some("CloudWatch not enabled")) && commands == old(commands)
      ensures enabled ==>
        var m := BackupMetricData(jobId, resourceType, status, duration, backupSize, timestamp);
        && commands == old(commands) + [PutMetricData(Namespace, m)]
        && r == SendReply(sendFails, Sent(Some(|m|)))
    {
      if !IsEnabled() {
        return Skipped(Some("CloudWatch not enabled"));
      }
      var metricData := [
        Metric("BackupExecutions", 1.0, Count, timestamp,
               [Dimension("JobId", jobId), Dimension("ResourceType", resourceType), Dimension("Status", status)]),
        Metric("BackupDuration", duration as real / 1000.0, Seconds, timestamp,
               [Dimension("JobId", jobId), Dimension("ResourceType", resourceType)])
      ];
      if backupSize.Some? && backupSize.value > 0 {
        metricData := metricData + [Metric("BackupSize", backupSize.value as real / Gigabyte as real, Gigabytes,
                                           timestamp, [Dimension("JobId", jobId), Dimension("ResourceType", resourceType)])];
      }
      var name := if status == "success" then "BackupSuccess" else "BackupFailures";
      metricData := metricData + [Metric(name, 1.0, Count, timestamp, [Dimension("ResourceType", resourceType)])];
      assert metricData == BackupMetricData(jobId, resourceType, status, duration, backupSize, timestamp);
      commands := commands + [PutMetricData(Namespace, metricData)];
      r := SendReply(sendFails, Sent(Some(|metricData|)));
    }

    /** `putIntegrityMetrics`. */
    method PutIntegrityMetrics(runId: string, totalChecks: int, passedChecks: int, failedChecks: int,
                               timestamp: int, sendFails: Option<Thrown>)
      returns (r: Reply)
      modifies this
      ensures !enabled ==> r == Skipped(None) && commands == old(commands)
      ensures enabled ==>
        && commands == old(commands) + [PutMetricData(Namespace, IntegrityMetricData(runId, totalChecks, passedChecks, failedChecks, timestamp))]
        && |commands[|commands| - 1].metricData| == 2
        && r == SendReply(sendFails, Sent(None))
    {
      if !IsEnabled() {
        return Skipped(None);
      }
      var successRate := if totalChecks > 0 then passedChecks as real / totalChecks as real * 100.0 else 0.0;
      var metricData := [
        Metric("IntegrityCheckSuccessRate", successRate, Percent, timestamp, [Dimension("RunId", runId)]),
        Metric("IntegrityCheckFailures", failedChecks as real, Count, timestamp, [])
      ];
      commands := commands + [PutMetricData(Namespace, metricData)];
      r := SendReply(sendFails, Sent(None));
    }

    /** `putSystemHealthMetrics`. */
    method PutSystemHealthMetrics(totalJobs: int, activeJobs: int, recentFailures: int,
                                  timestamp: int, sendFails: Option<Thrown>)
      returns (r: Reply)
      modifies this
      ensures !enabled ==> r == Skipped(None) && commands == old(commands)
      ensures enabled ==>
        && commands == old(commands) + [PutMetricData(Namespace, SystemHealthMetricData(totalJobs, activeJobs, recentFailures, timestamp))]
        && Names(commands[|commands| - 1].metricData) == ["TotalJobs", "ActiveJobs", "RecentFailures"]
        && r == SendReply(sendFails, Sent(None))
    {
      if !IsEnabled() {
        return Skipped(None);
      }
      var metricData := SystemHealthMetricData(totalJobs, activeJobs, recentFailures, timestamp);
      commands := commands + [PutMetricData(Namespace, metricData)];
      r := SendReply(sendFails, Sent(None));
      assert Names(metricData) == ["TotalJobs", "ActiveJobs", "RecentFailures"];
    }
  }
}
