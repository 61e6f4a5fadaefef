/** Rows of `runner_jobs` and the lease rule: a job is offered while it is queued, or leased by a runner that has
    not renewed it for more than 45 seconds. */
module RunnerJobs {
  import opened Wrappers
  import opened Executions

  const LEASE_SECONDS := 45

  datatype Runner = Runner(id: int, pool: int)

  datatype AgentEvent = AgentEvent(kind: string, name: string)

  /** What a runner reports. The request schema refuses negative counts. */
  datatype Completion = Completion(
    agentSuccess: bool,
    validationPassed: bool,
    turns: nat,
    durationSeconds: nat,
    costMinor: nat,
    commitSha: string,
    events: seq<AgentEvent>)
  {
    predicate Evidence() {
      agentSuccess && validationPassed
    }

    /** One attempt, and what it cost. */
    function Charge(): Usage {
      Usage(1, turns, durationSeconds, costMinor)
    }
  }

  /** How a missing result document reads: every field takes its default. */
  const MISSING_RESULT := Completion(false, false, 0, 0, 0, "unknown", [])

  datatype JobStatus = JobQueued | JobLeased | JobCompleted

  datatype Job = Job(
    pool: int,
    status: JobStatus,
    result: Option<Completion>,
    leasedBy: Option<int>,
    leasedAt: Option<int>)
  {
    predicate Stale(now: int) {
      status == JobLeased && leasedAt.Some? && leasedAt.value < now - LEASE_SECONDS
    }

    predicate Offered(runner: Runner, now: int) {
      pool == runner.pool && (status == JobQueued || Stale(now))
    }

    /** The check behind heartbeats, completions and credential capabilities. */
    predicate HeldBy(runnerId: int) {
      status == JobLeased && leasedBy == Some(runnerId)
    }

    function LeasedTo(runner: Runner, now: int): Job {
      this.(status := JobLeased, leasedBy := Some(runner.id), leasedAt := Some(now))
    }

    function Lease(runner: Runner, now: int): Option<Job> {
      if Offered(runner, now) then Some(LeasedTo(runner, now)) else None
    }

    function Heartbeat(runnerId: int, now: int): Option<Job> {
      if HeldBy(runnerId) then Some(this.(leasedAt := Some(now))) else None
    }

    function Complete(runnerId: int, report: Completion): Option<Job> {
      if HeldBy(runnerId) then Some(this.(status := JobCompleted, result := Some(report))) else None
    }

    /** The reset that precedes a repair attempt. */
    function Requeued(): Job {
      this.(status := JobQueued, result := None, leasedBy := None, leasedAt := None)
    }
  }

  function NewJob(pool: int): Job {
    Job(pool, JobQueued, None, None, None)
  }

  /** A lease or a heartbeat at `now` keeps the job from every runner for 45 seconds, and from no runner of its pool
      after that; only the holder can renew or complete it meanwhile. */
  lemma RenewalLastsFortyFiveSeconds(job: Job, runner: Runner, now: int)
    ensures job.Lease(runner, now).Some? ==>
              var leased := job.Lease(runner, now).value;
              && (forall r: Runner, t: int :: leased.Offered(r, t) <==> r.pool == job.pool && t - now > 45)
              && (forall id :: leased.HeldBy(id) <==> id == runner.id)
              && leased.result == job.result && leased.pool == job.pool
    ensures job.HeldBy(runner.id) ==>
              && job.Heartbeat(runner.id, now).Some?
              && var renewed := job.Heartbeat(runner.id, now).value;
                 && (forall r: Runner, t: int :: renewed.Offered(r, t) <==> r.pool == job.pool && t - now > 45)
                 && (forall id :: renewed.HeldBy(id) <==> id == runner.id)
                 && renewed.result == job.result
    ensures job.Lease(runner, now).Some? <==>
              && job.pool == runner.pool
              && (job.status == JobQueued
                  || (job.status == JobLeased && job.leasedAt.Some? && now - job.leasedAt.value > 45))
  {
  }

  /** The `runner_jobs` table as one runner pool's lease transactions see it. */
  class RunnerJobTable {
    var jobs: map<int, Job>

    constructor ()
      ensures jobs == map[]
    {
      jobs := map[];
    }

    /** `select … for update skip locked limit 1`: any offered row may be picked. */
    method Lease(runner: Runner, now: int) returns (leased: Option<int>)
      modifies this
      ensures leased.None? ==> jobs == old(jobs) && forall id :: id in jobs ==> jobs[id].Lease(runner, now).None?
      ensures leased.Some? ==>
        && leased.value in old(jobs)
        && old(jobs)[leased.value].Lease(runner, now).Some?
        && jobs == old(jobs)[leased.value := old(jobs)[leased.value].Lease(runner, now).value]
      ensures leased.Some? ==>
        var job := jobs[leased.value];
        && job.status == JobLeased && job.leasedBy == Some(runner.id) && job.leasedAt == Some(now)
        && (forall r: Runner, t: int :: job.Offered(r, t) <==> r.pool == runner.pool && t - now > 45)
    {
      if id :| id in jobs && jobs[id].Offered(runner, now) {
        jobs := jobs[id := jobs[id].(status := JobLeased)];
        jobs := jobs[id := jobs[id].(leasedBy := Some(runner.id))];
        jobs := jobs[id := jobs[id].(leasedAt := Some(now))];
        return Some(id);
      }
      return None;
    }

    method Heartbeat(runner: Runner, id: int, now: int) returns (ok: bool)
      modifies this
      ensures ok <==> id in old(jobs) && old(jobs)[id].HeldBy(runner.id)
      ensures ok ==> jobs == old(jobs)[id := old(jobs)[id].(leasedAt := Some(now))]
      ensures id in old(jobs) ==>
                jobs == old(jobs)[id := old(jobs)[id].Heartbeat(runner.id, now).GetOr(old(jobs)[id])]
      ensures !ok ==> jobs == old(jobs)
    {
      if id !in jobs || jobs[id].leasedBy != Some(runner.id) || jobs[id].status != JobLeased {
        return false;
      }
      jobs := jobs[id := jobs[id].(leasedAt := Some(now))];
      return true;
    }

    method Complete(runner: Runner, id: int, report: Completion) returns (ok: bool)
      modifies this
      ensures ok <==> id in old(jobs) && old(jobs)[id].HeldBy(runner.id)
      ensures ok ==> jobs == old(jobs)[id := old(jobs)[id].(status := JobCompleted, result := Some(report))]
      ensures id in old(jobs) ==>
                jobs == old(jobs)[id := old(jobs)[id].Complete(runner.id, report).GetOr(old(jobs)[id])]
      ensures !ok ==> jobs == old(jobs)
    {
      if id !in jobs || jobs[id].leasedBy != Some(runner.id) || jobs[id].status != JobLeased {
        return false;
      }
      jobs := jobs[id := jobs[id].(result := Some(report))];
      jobs := jobs[id := jobs[id].(status := JobCompleted)];
      return true;
    }
  }
}
