/** The scheduler: one cron task per active job with a valid schedule,
    rebuilt from the job table on start-up and on request. */
module Scheduler {

  import opened Common
  import opened Ledger
  import opened Jobs

  /** A scheduled cron task: its identity, the job it runs and its expression. */
  datatype Task = Task(handle: nat, jobId: string, schedule: string)

  /** A line written to the service's logger. */
  datatype LogLine = Info(text: string) | Warning(text: string) | Failure(text: string)

  /** The jobs `rebuildAll` reads: `status` is `active`. */
  function ActiveIds(jobs: map<string, Job>): set<string> {
    set k | k in jobs && jobs[k].status == "active"
  }

  /** `cron.validate` accepts the job's schedule and `cron.schedule`
      (`scheduleThrows`) does not throw on it. */
  predicate Schedulable(job: Job, validate: string -> bool, scheduleThrows: string -> Option<Thrown>) {
    validate(job.schedule) && scheduleThrows(job.schedule).None?
  }

  /** The jobs that end up with a task: the active, schedulable ones. */
  function ScheduledIds(jobs: map<string, Job>, validate: string -> bool, scheduleThrows: string -> Option<Thrown>)
    : set<string>
  {
    set k | k in ActiveIds(jobs) && Schedulable(jobs[k], validate, scheduleThrows)
  }

  /** The active jobs `rebuildAll` skips with a log line. */
  function SkippedIds(jobs: map<string, Job>, validate: string -> bool, scheduleThrows: string -> Option<Thrown>)
    : set<string>
  {
    set k | k in ActiveIds(jobs) && !Schedulable(jobs[k], validate, scheduleThrows)
  }

  /** Every active job is either scheduled or skipped, never both. */
  lemma ActivePartition(jobs: map<string, Job>, validate: string -> bool, scheduleThrows: string -> Option<Thrown>)
    ensures ScheduledIds(jobs, validate, scheduleThrows) !! SkippedIds(jobs, validate, scheduleThrows)
    ensures ScheduledIds(jobs, validate, scheduleThrows) + SkippedIds(jobs, validate, scheduleThrows) == ActiveIds(jobs)
    ensures |ScheduledIds(jobs, validate, scheduleThrows)| + |SkippedIds(jobs, validate, scheduleThrows)|
            == |ActiveIds(jobs)|
  {
  }

  /** The body of the loop of `rebuildAll` for one job: the line logged when
      it is skipped (its schedule is invalid, or scheduling it throws), or
      nothing when it gets a task. */
  function ScheduleOne(job: Job, validate: string -> bool, scheduleThrows: string -> Option<Thrown>)
    : (r: Option<LogLine>)
    ensures r.None? <==> Schedulable(job, validate, scheduleThrows)
    ensures !validate(job.schedule) ==> r == Some(Warning("Invalid cron for job " + job.id + ": " + job.schedule))
    ensures validate(job.schedule) && scheduleThrows(job.schedule).Some? ==>
      r == Some(Failure("Failed to schedule job " + job.id + ": " + ErrorToString(scheduleThrows(job.schedule).value)))
  {
    if !validate(job.schedule) then Some(Warning("Invalid cron for job " + job.id + ": " + job.schedule))
    else match scheduleThrows(job.schedule)
      case Some(e) => Some(Failure("Failed to schedule job " + job.id + ": " + ErrorToString(e)))
      case None => None
  }

  /** `lines` are the skip lines of the jobs listed in `order`, one each, in
      that order. */
  ghost predicate SkipLines(lines: seq<LogLine>, order: seq<string>, jobs: map<string, Job>,
                            validate: string -> bool, scheduleThrows: string -> Option<Thrown>)
  {
    && |lines| == |order|
    && forall i :: 0 <= i < |order| ==>
         order[i] in jobs && ScheduleOne(jobs[order[i]], validate, scheduleThrows) == Some(lines[i])
  }

  /** One more skipped job adds its line at the end. */
  lemma SkipLinesAppend(lines: seq<LogLine>, order: seq<string>, jobs: map<string, Job>,
                        validate: string -> bool, scheduleThrows: string -> Option<Thrown>,
                        k: string, line: LogLine)
    requires SkipLines(lines, order, jobs, validate, scheduleThrows)
    requires k in jobs && ScheduleOne(jobs[k], validate, scheduleThrows) == Some(line)
    ensures SkipLines(lines + [line], order + [k], jobs, validate, scheduleThrows)
  {
    var lines', order' := lines + [line], order + [k];
    forall i | 0 <= i < |order'|
      ensures order'[i] in jobs && ScheduleOne(jobs[order'[i]], validate, scheduleThrows) == Some(lines'[i])
    {
      if i < |order| {
        assert order'[i] == order[i] && lines'[i] == lines[i];
      }
    }
  }

  /** The final line of a rebuild. */
  function ScheduledLine(n: nat): LogLine {
    Info("Scheduled " + NatToString(n) + " job(s)")
  }

  class SchedulerService {
    const jobsService: JobsService
    var tasks: map<string, Task>
    /** Every task whose `stop()` was called, in order. */
    var stopped: seq<Task>
    /** The handle the next scheduled task gets. */
    var nextHandle: nat
    var log: seq<LogLine>
    /** How many rebuilds have started. */
    ghost var rebuilds: nat

    ghost predicate Valid()
      reads this
    {
      forall k :: k in tasks ==> tasks[k].jobId == k && tasks[k].handle < nextHandle
    }

    constructor (jobsService: JobsService)
      ensures Valid()
      ensures this.jobsService == jobsService
      ensures tasks == map[] && stopped == [] && log == [] && rebuilds == 0
    {
      this.jobsService := jobsService;
      tasks, stopped, nextHandle, log := map[], [], 0, [];
      rebuilds := 0;
    }

    /** `stopAll`: stop every held task, then empty the map. */
    method StopAll()
      modifies this
      ensures tasks == map[]
      ensures |stopped| == |old(stopped)| + |old(tasks).Values|
      ensures stopped[..|old(stopped)|] == old(stopped)
      ensures forall t :: t in stopped[|old(stopped)|..] <==> t in old(tasks).Values
      ensures nextHandle == old(nextHandle) && log == old(log) && rebuilds == old(rebuilds)
    {
      var pending := tasks.Values;
      ghost var done: set<Task> := {};
      ghost var newly: seq<Task> := [];
      while pending != {}
        invariant forall t :: t in old(tasks).Values <==> t in pending || t in done
        invariant forall t :: t in pending ==> t !in done
        invariant stopped == old(stopped) + newly
        invariant |newly| == |done|
        invariant forall t :: t in newly <==> t in done
        invariant tasks == old(tasks) && nextHandle == old(nextHandle) && log == old(log)
        invariant rebuilds == old(rebuilds)
        decreases pending
      {
        var t :| t in pending;
        stopped := stopped + [t];
        newly := newly + [t];
        pending := pending - {t};
        done := done + {t};
      }
      assert done == old(tasks).Values;
      assert stopped[|old(stopped)|..] == newly;
      tasks := map[];
    }

    /** `rebuildAll`: stop everything, then give each active job a task,
        skipping (with a log line) a job whose schedule is invalid or whose
        scheduling throws, and finally log how many jobs are scheduled. */
    method RebuildAll(validate: string -> bool, scheduleThrows: string -> Option<Thrown>)
      returns (ghost order: seq<string>)
      requires Valid() && jobsService.db.Valid()
      modifies this
      ensures Valid()
      ensures rebuilds == old(rebuilds) + 1
      // every task held before was stopped
      ensures forall t :: t in old(tasks).Values ==> t in stopped
      // exactly the schedulable active jobs have a task, each a new one
      ensures tasks.Keys == ScheduledIds(jobsService.db.jobs, validate, scheduleThrows)
      ensures forall k :: k in tasks ==>
        && k in jobsService.db.jobs && tasks[k].schedule == jobsService.db.jobs[k].schedule
        && tasks[k].handle >= old(nextHandle)
      // one log line per skipped job, then the summary
      ensures |log| == |old(log)| + |SkippedIds(jobsService.db.jobs, validate, scheduleThrows)| + 1
      ensures log[..|old(log)|] == old(log)
      // the skip lines are those of the skipped jobs, each job once
      ensures |order| == |SkippedIds(jobsService.db.jobs, validate, scheduleThrows)|
      ensures forall k :: k in order <==> k in SkippedIds(jobsService.db.jobs, validate, scheduleThrows)
      ensures SkipLines(log[|old(log)|..|log| - 1], order, jobsService.db.jobs, validate, scheduleThrows)
      ensures log[|log| - 1] == ScheduledLine(|tasks|)
    {
      rebuilds := rebuilds + 1;
      StopAll();
      assert forall t :: t in old(tasks).Values ==> t in stopped by {
        forall t | t in old(tasks).Values ensures t in stopped {
          assert t in stopped[|old(stopped)|..];
        }
      }
      order := ScheduleActive(validate, scheduleThrows);
      ghost var skipped := log[|old(log)|..];
      log := log + [ScheduledLine(|tasks|)];
      assert log[|old(log)|..|log| - 1] == skipped;
    }

    /** The loop of `rebuildAll` over the active jobs, starting from an
        empty task map. */
    method ScheduleActive(validate: string -> bool, scheduleThrows: string -> Option<Thrown>)
      returns (ghost order: seq<string>)
      requires tasks == map[] && jobsService.db.Valid()
      modifies this
      ensures Valid()
      ensures stopped == old(stopped) && rebuilds == old(rebuilds)
      ensures tasks.Keys == ScheduledIds(jobsService.db.jobs, validate, scheduleThrows)
      ensures forall k :: k in tasks ==>
        && k in jobsService.db.jobs && tasks[k].schedule == jobsService.db.jobs[k].schedule
        && tasks[k].handle >= old(nextHandle)
      ensures |log| == |old(log)| + |SkippedIds(jobsService.db.jobs, validate, scheduleThrows)|
      ensures log[..|old(log)|] == old(log)
      ensures |order| == |SkippedIds(jobsService.db.jobs, validate, scheduleThrows)|
      ensures forall k :: k in order <==> k in SkippedIds(jobsService.db.jobs, validate, scheduleThrows)
      ensures SkipLines(log[|old(log)|..], order, jobsService.db.jobs, validate, scheduleThrows)
    {
      var jobs := jobsService.db.jobs;
      var remaining := ActiveIds(jobs);
      var held: map<string, Task> := map[];
      var handle := nextHandle;
      var lines: seq<LogLine> := [];
      ghost var seen: set<string> := {};
      order := [];
      while remaining != {}
        invariant remaining <= ActiveIds(jobs)
        invariant forall k :: k in held <==>
          k in jobs && k !in remaining && k in ScheduledIds(jobs, validate, scheduleThrows)
        invariant forall k :: k in seen <==>
          k in jobs && k !in remaining && k in SkippedIds(jobs, validate, scheduleThrows)
        invariant |lines| == |seen| && |order| == |seen|
        invariant forall k :: k in order <==> k in seen
        invariant SkipLines(lines, order, jobs, validate, scheduleThrows)
        invariant forall k :: k in held ==>
          && held[k].jobId == k && held[k].schedule == jobs[k].schedule
          && nextHandle <= held[k].handle < handle
        invariant nextHandle <= handle
        modifies {}
        decreases remaining
      {
        var k :| k in remaining;
        var job := jobs[k];
        assert job.id == k;
        var line := ScheduleOne(job, validate, scheduleThrows);
        if line.Some? {
          SkipLinesAppend(lines, order, jobs, validate, scheduleThrows, k, line.value);
          lines := lines + [line.value];
          order := order + [k];
          seen := seen + {k};
        } else {
          held := held[job.id := Task(handle, job.id, job.schedule)];
          handle := handle + 1;
        }
        remaining := remaining - {k};
      }
      assert seen == SkippedIds(jobs, validate, scheduleThrows);
      assert held.Keys == ScheduledIds(jobs, validate, scheduleThrows);
      tasks, nextHandle, log := held, handle, log + lines;
      assert log[|old(log)|..] == lines;
    }

    /** `onModuleInit`: one rebuild. */
    method OnModuleInit(validate: string -> bool, scheduleThrows: string -> Option<Thrown>)
      requires Valid() && jobsService.db.Valid()
      modifies this
      ensures Valid()
      ensures rebuilds == old(rebuilds) + 1
      ensures tasks.Keys == ScheduledIds(jobsService.db.jobs, validate, scheduleThrows)
    {
      var _ := RebuildAll(validate, scheduleThrows);
    }

    /** A firing of the task of `jobId`: log, run the job, and log (never
        rethrow) the error the run rejects with. */
    method Fire(jobId: string, runId: string, o: RunOracle) returns (logged: Option<Thrown>)
      requires jobId in tasks
      requires jobsService.db.Valid() && runId !in jobsService.db.runs
      modifies this, jobsService, jobsService.db, jobsService.slack
      ensures tasks == old(tasks) && stopped == old(stopped) && nextHandle == old(nextHandle)
      ensures jobsService.db.Valid()
      ensures jobId !in old(jobsService.db.jobs) ==> logged == Some(Error("Job not found"))
      ensures jobId in old(jobsService.db.jobs) ==>
        var e := Execute(old(jobsService.db.jobs)[jobId], runId, o);
        && jobsService.db.runs == old(jobsService.db.runs)[runId := e.row]
        && logged == (if e.reply.Err? then Some(e.reply.error) else None)
      ensures log == old(log) + [Info("Running job " + jobId)]
                    + (if logged.Some? then [Failure(ErrorToString(logged.value))] else [])
    {
      log := log + [Info("Running job " + jobId)];
      var r := jobsService.Run(jobId, runId, o);
      if r.Err? {
        log := log + [Failure(ErrorToString(r.error))];
        return Some(r.error);
      }
      return None;
    }
  }
}
