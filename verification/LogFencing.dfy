// Log chunks and leases together: a Runner whose lease is gone writes nothing more.

module LogFencing {
  import opened Basics
  import R = RunModel
  import S = Scheduler
  import F = SchedulerSafety
  import opened JobLogs

  /** The row that the locking query finds for a job. */
  function RowOf(jobs: seq<R.Job>, jobId: nat): Option<R.Job> {
    if R.FindJob(jobs, jobId) < |jobs| then Some(jobs[R.FindJob(jobs, jobId)]) else None
  }

  /** From the moment a token is no longer the job's lease, no chunk sent with it is stored, in any later state. */
  lemma FencedRunnerLogsNothing(trace: seq<S.World>, m: nat, n: nat, jobId: nat, runner: nat, token: nat, now: Time,
                                log: Log, c: Chunk, expired: bool)
    requires S.Behaviour(trace) && m <= n < |trace| && token in trace[m].issued && token != R.NO_TOKEN
    requires forall i | 0 <= i < |trace[m].store.jobs| && trace[m].store.jobs[i].id == jobId :: trace[m].store.jobs[i].token != token
    ensures Append(log, c, Claimant(RowOf(trace[n].store.jobs, jobId), runner, token, now), expired).Refused?
  {
    F.FencedForever(trace, m, n, jobId, token);
  }
}
