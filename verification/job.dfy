/** Jobs: the tracker behind the HTTP routes, and the task that drives each job. */
module Job {
  import opened Types

  type Id = nat

  datatype JobStatus = Queued | SpawningVm | Bootstrapping | Uploading | Analyzing | Completed | Failed

  datatype JobEvent =
    | StatusChanged(name: string)
    | ErrorEvent(msg: string)
    | CompletedEvent(exitCode: I32, runtimeMs: nat)

  datatype AnalysisResult = AnalysisResult(exitCode: I32, runtimeMs: nat, featuresJson: string)

  /** `open` is whether the job still holds the sender of its event channel. */
  datatype Job = Job(status: JobStatus, sampleName: string, result: Option<AnalysisResult>, open: bool)

  datatype JobInfo = JobInfo(id: Id, status: JobStatus, sampleName: string, result: Option<AnalysisResult>)

  /** The job table, and for every id ever submitted what was sent on its channel. */
  datatype State = State(jobs: map<Id, Job>, logs: map<Id, seq<JobEvent>>)

  /** The status's name as the events spell it: its debug name in lower case. */
  function StatusName(s: JobStatus): string {
    match s
    case Queued => "queued"
    case SpawningVm => "spawningvm"
    case Bootstrapping => "bootstrapping"
    case Uploading => "uploading"
    case Analyzing => "analyzing"
    case Completed => "completed"
    case Failed => "failed"
  }

  // ----- what each tracker call does, all of it under the lock -----

  function Submitted(s: State, id: Id, name: string): State {
    State(s.jobs[id := Job(Queued, name, None, true)], s.logs[id := []])
  }

  function Cancelled(s: State, id: Id): State {
    s.(jobs := s.jobs - {id})
  }

  function Sent(s: State, id: Id, e: JobEvent): map<Id, seq<JobEvent>> {
    if id in s.jobs && s.jobs[id].open && id in s.logs then s.logs[id := s.logs[id] + [e]] else s.logs
  }

  function StatusSet(s: State, id: Id, status: JobStatus): State {
    if id in s.jobs
    then State(s.jobs[id := s.jobs[id].(status := status)], Sent(s, id, StatusChanged(StatusName(status))))
    else s
  }

  function ResultSet(s: State, id: Id, r: AnalysisResult): State {
    if id in s.jobs
    then State(s.jobs[id := s.jobs[id].(open := false, result := Some(r), status := Completed)],
               Sent(s, id, CompletedEvent(r.exitCode, r.runtimeMs)))
    else s
  }

  function ErrorEmitted(s: State, id: Id, msg: string): State {
    if id in s.jobs
    then State(s.jobs[id := s.jobs[id].(open := false)], Sent(s, id, ErrorEvent(msg)))
    else s
  }

  class JobTracker {
    var jobs: map<Id, Job>
    var logs: map<Id, seq<JobEvent>>

    function Value(): State
      reads this
    {
      State(jobs, logs)
    }

    constructor ()
      ensures Value() == State(map[], map[])
    {
      jobs, logs := map[], map[];
    }

    method Submit(id: Id, sampleName: string)
      modifies this
      ensures Value() == Submitted(old(Value()), id, sampleName)
    {
      var job := Job(Queued, sampleName, None, true);
      jobs := jobs[id := job];
      logs := logs[id := []];
    }

    method Get(id: Id) returns (info: Option<JobInfo>)
      ensures info.Some? <==> id in jobs
      ensures info.Some? ==> info.value == JobInfo(id, jobs[id].status, jobs[id].sampleName, jobs[id].result)
    {
      if id !in jobs {
        return None;
      }
      var j := jobs[id];
      return Some(JobInfo(id, j.status, j.sampleName, j.result));
    }

    /** A subscription starts after everything already sent; there is none once the sender is gone. */
    method Subscribe(id: Id) returns (since: Option<nat>)
      requires jobs.Keys <= logs.Keys
      ensures since == if id in jobs && jobs[id].open then Some(|logs[id]|) else None
    {
      if id !in jobs || !jobs[id].open {
        return None;
      }
      return Some(|logs[id]|);
    }

    method Cancel(id: Id) returns (was: bool)
      modifies this
      ensures was == (id in old(jobs)) && Value() == Cancelled(old(Value()), id)
    {
      was := id in jobs;
      jobs := jobs - {id};
    }

    method Has(id: Id) returns (b: bool)
      ensures b == (id in jobs)
    {
      b := id in jobs;
    }

    method Send(id: Id, e: JobEvent)
      modifies this`logs
      ensures logs == Sent(old(Value()), id, e)
    {
      if id in jobs && jobs[id].open && id in logs {
        logs := logs[id := logs[id] + [e]];
      }
    }

    method SetStatus(id: Id, status: JobStatus)
      modifies this
      ensures Value() == StatusSet(old(Value()), id, status)
    {
      if id in jobs {
        Send(id, StatusChanged(StatusName(status)));
        jobs := jobs[id := jobs[id].(status := status)];
      }
    }

    method SetResult(id: Id, result: AnalysisResult)
      modifies this
      ensures Value() == ResultSet(old(Value()), id, result)
    {
      if id in jobs {
        Send(id, CompletedEvent(result.exitCode, result.runtimeMs));
        jobs := jobs[id := jobs[id].(open := false)];
        jobs := jobs[id := jobs[id].(result := Some(result))];
        jobs := jobs[id := jobs[id].(status := Completed)];
      }
    }

    method EmitError(id: Id, msg: string)
      modifies this
      ensures Value() == ErrorEmitted(old(Value()), id, msg)
    {
      if id in jobs {
        Send(id, ErrorEvent(msg));
        jobs := jobs[id := jobs[id].(open := false)];
      }
    }
  }
}
