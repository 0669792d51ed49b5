// The Postgres store statement by statement: each method is one transaction on the tables
// of runs, jobs and the commit-status outbox, proved against its function in PostgresRuns.

module PostgresStore {
  import opened DependencyGraph
  import opened PipelineCompiler
  import opened RunGraph
  import opened Basics
  import opened RunModel
  import opened JobInvariants
  import opened PostgresRuns

  class Tables {
    var runs: map<nat, RunRow>
    var jobs: seq<Job>
    var outbox: map<OutboxKey, CommitState>
    const repositories: set<nat>

    ghost function View(): Database
      reads this
    {
      Database(runs, jobs, outbox, repositories)
    }

    constructor (repositories: set<nat>)
      ensures View() == Database(map[], [], map[], repositories)
    {
      this.repositories := repositories;
      runs, jobs, outbox := map[], [], map[];
    }

    /** What a failing transaction leaves behind is what was there before it. */
    method Rollback(runs: map<nat, RunRow>, jobs: seq<Job>, outbox: map<OutboxKey, CommitState>)
      modifies this
      ensures View() == Database(runs, jobs, outbox, repositories)
    {
      this.runs, this.jobs, this.outbox := runs, jobs, outbox;
    }

    // Statements.

    method SetRunStatus(runId: nat, status: RunStatus)
      modifies this`runs
      ensures View() == SetStatus(old(View()), runId, status)
    {
      if runId in runs { runs := runs[runId := runs[runId].(status := status)]; }
    }

    /** Skips the blocked and queued jobs of the run. */
    method SkipWaiting(runId: nat)
      modifies this`jobs
      ensures jobs == Sweep(old(jobs), runId)
    {
      for i := 0 to |jobs|
        invariant |jobs| == |old(jobs)|
        invariant forall k | 0 <= k < |jobs| :: jobs[k] == if k < i then SweepOne(runId, old(jobs)[k]) else old(jobs)[k]
      {
        if jobs[i].runId == runId && (jobs[i].status == Blocked || jobs[i].status == Queued) {
          jobs := jobs[i := jobs[i].(status := Skipped)];
        }
      }
    }

    method HasSucceeded(rows: seq<Job>, runId: nat, key: string) returns (found: bool)
      ensures found <==> SucceededKey(rows, runId, key)
    {
      for k := 0 to |rows|
        invariant forall x | 0 <= x < k :: !(rows[x].runId == runId && rows[x].key == key && rows[x].status == Succeeded)
      {
        if rows[k].runId == runId && rows[k].key == key && rows[k].status == Succeeded { return true; }
      }
      return false;
    }

    method IsReady(rows: seq<Job>, runId: nat, dependencies: seq<string>) returns (ready: bool)
      ensures ready <==> Ready(rows, runId, dependencies)
    {
      for d := 0 to |dependencies|
        invariant forall x | 0 <= x < d :: SucceededKey(rows, runId, dependencies[x])
      {
        var succeeded := HasSucceeded(rows, runId, dependencies[d]);
        if !succeeded { return false; }
      }
      return true;
    }

    /** Queues the blocked jobs whose dependencies had all succeeded when the statement began. */
    method UnblockDependents(runId: nat)
      modifies this`jobs
      ensures jobs == UnblockReady(old(jobs), runId)
    {
      var rows := jobs;
      for i := 0 to |jobs|
        invariant |jobs| == |rows| && rows == old(jobs)
        invariant forall k | 0 <= k < |jobs| :: jobs[k] == if k < i then UnblockReadyOne(rows, runId, rows[k]) else rows[k]
      {
        if rows[i].runId == runId && rows[i].status == Blocked {
          var ready := IsReady(rows, runId, rows[i].dependencies);
          if ready { jobs := jobs[i := jobs[i].(status := Queued)]; }
        }
      }
    }

    method Summarize(runId: nat) returns (remaining: nat, failed: nat, canceled: nat)
      ensures remaining != 0 <==> RunUnfinished(jobs, runId)
      ensures failed != 0 <==> RunHas(jobs, runId, Failed)
      ensures canceled != 0 <==> RunHas(jobs, runId, Canceled)
    {
      remaining, failed, canceled := 0, 0, 0;
      for i := 0 to |jobs|
        invariant remaining != 0 <==> exists k | 0 <= k < i :: jobs[k].runId == runId && !JobTerminal(jobs[k].status)
        invariant failed != 0 <==> exists k | 0 <= k < i :: jobs[k].runId == runId && jobs[k].status == Failed
        invariant canceled != 0 <==> exists k | 0 <= k < i :: jobs[k].runId == runId && jobs[k].status == Canceled
      {
        if jobs[i].runId == runId {
          match jobs[i].status
          case Failed => failed := failed + 1;
          case Canceled => canceled := canceled + 1;
          case Succeeded =>
          case Skipped =>
          case _ => remaining := remaining + 1;
        }
      }
    }

    method HasStartedWork(runId: nat) returns (started: bool)
      ensures started <==> RunStartedWork(jobs, runId)
    {
      for i := 0 to |jobs|
        invariant forall k | 0 <= k < i && jobs[k].runId == runId ::
          jobs[k].status != Running && jobs[k].status != Succeeded && jobs[k].status != Failed && jobs[k].status != Canceled
      {
        if jobs[i].runId == runId && (jobs[i].status == Running || jobs[i].status == Succeeded ||
                                      jobs[i].status == Failed || jobs[i].status == Canceled)
        {
          return true;
        }
      }
      return false;
    }

    /** Inserts the commit status unless its key is taken, and then insists that the row says the same. */
    method EnqueueCommitStatus(runId: nat, status: RunStatus) returns (ok: bool)
      modifies this`outbox
      ensures match Enqueue(old(View()), runId, status)
              case Committed(after) => ok && View() == after
              case RolledBack(_) => !ok && View() == old(View())
    {
      if status != RunQueued && !RunTerminal(status) { return true; }
      if runId !in runs || runs[runId].repository == None || runs[runId].repository.value !in repositories { return true; }
      if |runs[runId].commitSha| != 40 { return true; }
      var state, final := StatePending, false;
      if RunTerminal(status) {
        final := true;
        match status
        case RunSucceeded => state := StateSuccess;
        case RunFailed => state := StateFailure;
        case RunCanceled => state := StateError;
        case _ =>
      }
      var key := OutboxKey(runId, final);
      if key !in outbox {
        outbox := outbox[key := state];
        return true;
      }
      return outbox[key] == state;
    }

    // Transactions.

    method ClaimRunnerJob(i: nat, runner: nat, token: nat, now: Time) returns (claimed: bool)
      modifies this
      ensures match ClaimTx(old(View()), i, runner, token, now)
              case Committed(after) => claimed && View() == after
              case RolledBack(_) => !claimed && View() == old(View())
    {
      if i >= |jobs| || jobs[i].status != Queued || jobs[i].runId !in runs { return false; }
      var runId := jobs[i].runId;
      if runs[runId].status != RunQueued && runs[runId].status != RunRunning { return false; }
      jobs := jobs[i := jobs[i].(status := Assigned, runnerId := runner, token := token, acceptedAt := None,
                                 expires := now + RUNNER_LEASE_DURATION)];
      if runs[runId].status == RunQueued { SetRunStatus(runId, RunRunning); }
      return true;
    }

    method FinalizeRun(runId: nat, status: JobStatus) returns (ok: bool)
      modifies this
      ensures match FinalizeRunJobs(old(View()), runId, status)
              case Committed(after) => ok && View() == after
              case RolledBack(_) => !ok
    {
      if status == Succeeded {
        UnblockDependents(runId);
      } else if status == Failed || status == Canceled {
        SkipWaiting(runId);
      }
      var remaining, failed, canceled := Summarize(runId);
      if remaining != 0 { return true; }
      var final := RunSucceeded;
      if failed > 0 { final := RunFailed; } else if canceled > 0 { final := RunCanceled; }
      SetRunStatus(runId, final);
      ok := EnqueueCommitStatus(runId, final);
    }

    method CompleteRunnerJob(runner: nat, jobId: nat, token: nat, status: JobStatus, now: Time) returns (ok: bool)
      modifies this
      ensures match CompleteTx(old(View()), runner, jobId, token, status, now)
              case Committed(after) => ok && View() == after
              case RolledBack(_) => !ok && View() == old(View())
    {
      if status != Succeeded && status != Failed && status != Canceled { return false; }
      var i := FindRow(jobId);
      if i == |jobs| || !ValidLease(jobs[i], runner, token, now) || !Leased(jobs[i].status) { return false; }
      var oldRuns, oldJobs, oldOutbox := runs, jobs, outbox;
      jobs := jobs[i := jobs[i].(status := status, token := NO_TOKEN, expires := ZERO_TIME)];
      ok := FinalizeRun(jobs[i].runId, status);
      if !ok { Rollback(oldRuns, oldJobs, oldOutbox); }
    }

    method FindRow(jobId: nat) returns (i: nat)
      ensures i == FindJob(jobs, jobId)
    {
      i := 0;
      while i < |jobs| && jobs[i].id != jobId
        invariant i <= |jobs| && FindFrom(jobs, jobId, i) == FindJob(jobs, jobId)
      {
        i := i + 1;
      }
    }

    /** Recovers the expired jobs of one locked run, in the order in which the locking query returned them. */
    method RecoverRun(runId: nat, picks: seq<nat>, now: Time) returns (ok: bool, requeued: nat, failed: nat)
      requires Picked(jobs, runId, picks, now)
      modifies this
      ensures match RecoverRunTx(old(View()), runId, picks)
              case Committed(after) => ok && View() == after
              case RolledBack(_) => !ok && View() == old(View())
      ensures ok ==> requeued + failed == |picks| && (failed > 0 <==> AnyRunning(old(jobs), picks))
    {
      requeued, failed := 0, 0;
      var oldRuns, oldJobs, oldOutbox := runs, jobs, outbox;
      for x := 0 to |picks|
        invariant runs == oldRuns && outbox == oldOutbox
        invariant jobs == RecoverRows(oldJobs, runId, picks[..x]) && requeued + failed == x
        invariant failed > 0 <==> AnyRunning(oldJobs, picks[..x])
      {
        PicksAt(oldJobs, runId, picks, x);
        if oldJobs[picks[x]].status == Assigned {
          jobs := jobs[picks[x] := RequeueRow(jobs[picks[x]])];
          requeued := requeued + 1;
        } else {
          jobs := jobs[picks[x] := EndOne(jobs[picks[x]], Failed)];
          SkipWaiting(runId);
          failed := failed + 1;
        }
      }
      assert picks[..|picks|] == picks;
      ok := FinishRun(runId, failed > 0, |picks| > 0);
      if !ok { Rollback(oldRuns, oldJobs, oldOutbox); }
    }

    method FinishRun(runId: nat, failed: bool, requeued: bool) returns (ok: bool)
      modifies this
      ensures match FinishRecovery(old(View()), runId, failed, requeued)
              case Committed(after) => ok && View() == after
              case RolledBack(_) => !ok
    {
      if failed {
        SetRunStatus(runId, RunFailed);
        ok := EnqueueCommitStatus(runId, RunFailed);
      } else {
        ok := true;
        if requeued {
          var started := HasStartedWork(runId);
          if !started { SetRunStatus(runId, RunQueued); }
        }
      }
    }

    method CancelRun(runId: nat) returns (ok: bool)
      modifies this
      ensures match CancelTx(old(View()), runId)
              case Committed(after) => ok && View() == after
              case RolledBack(_) => !ok && View() == old(View())
    {
      if runId !in runs { return false; }
      if RunTerminal(runs[runId].status) { return true; }
      var oldRuns, oldJobs, oldOutbox := runs, jobs, outbox;
      for i := 0 to |jobs|
        invariant runs == oldRuns && outbox == oldOutbox && |jobs| == |oldJobs|
        invariant forall k | 0 <= k < |jobs| :: jobs[k] == if k < i then CancelOne(runId, oldJobs[k]) else oldJobs[k]
      {
        if jobs[i].runId == runId && (jobs[i].status == Blocked || jobs[i].status == Queued || Leased(jobs[i].status)) {
          jobs := jobs[i := jobs[i].(status := Canceled, token := NO_TOKEN, expires := ZERO_TIME)];
        }
      }
      SetRunStatus(runId, RunCanceled);
      ok := EnqueueCommitStatus(runId, RunCanceled);
      if !ok { Rollback(oldRuns, oldJobs, oldOutbox); }
    }

    method InsertRun(runId: nat, row: RunRow, ids: seq<nat>) returns (ok: bool)
      requires |ids| == |Flatten(row.stages)|
      modifies this
      ensures match CreateTx(old(View()), runId, row, ids)
              case Committed(after) => ok && View() == after
              case RolledBack(_) => !ok && View() == old(View())
    {
      if runId in runs { return false; }
      var oldRuns, oldJobs, oldOutbox := runs, jobs, outbox;
      runs := runs[runId := row];
      jobs := jobs + NewJobs(row.stages, runId, ids);
      ok := EnqueueCommitStatus(runId, row.status);
      if !ok { Rollback(oldRuns, oldJobs, oldOutbox); }
    }

    /** Marks the jobs of the new run whose key succeeded in the old one. */
    method ReuseSucceeded(newId: nat, oldId: nat)
      modifies this`jobs
      ensures jobs == Reuse(old(jobs), newId, oldId)
    {
      var rows := jobs;
      for i := 0 to |jobs|
        invariant |jobs| == |rows| && rows == old(jobs)
        invariant forall k | 0 <= k < |jobs| :: jobs[k] == if k < i then ReuseOne(rows, newId, oldId, rows[k]) else rows[k]
      {
        if rows[i].runId == newId {
          var succeeded := HasSucceeded(rows, oldId, rows[i].key);
          if succeeded { jobs := jobs[i := jobs[i].(status := Succeeded)]; }
        }
      }
    }

    method CountJobs(runId: nat) returns (count: nat)
      ensures count != 0 <==> HasJobs(jobs, runId)
    {
      count := 0;
      for i := 0 to |jobs|
        invariant count != 0 <==> exists k | 0 <= k < i :: jobs[k].runId == runId
      {
        if jobs[i].runId == runId { count := count + 1; }
      }
    }

    method RerunRun(oldId: nat, newId: nat, ids: seq<nat>, failedMode: bool) returns (ok: bool)
      requires oldId in runs ==> |ids| == |Flatten(runs[oldId].stages)|
      modifies this
      ensures match RerunTx(old(View()), oldId, newId, ids, failedMode)
              case Committed(after) => ok && View() == after
              case RolledBack(_) => !ok && View() == old(View())
    {
      if oldId !in runs { return false; }
      if !RunTerminal(runs[oldId].status) || (failedMode && runs[oldId].status != RunFailed) { return false; }
      var executable := CountJobs(oldId);
      if executable == 0 { return false; }
      ok := InsertRun(newId, runs[oldId].(status := RunQueued), ids);
      if ok && failedMode {
        ReuseSucceeded(newId, oldId);
        UnblockDependents(newId);
      }
    }
  }

  /** The next pick is still leased as it was when it was locked: skipping touches only waiting jobs. */
  lemma PicksAt(jobs: seq<Job>, runId: nat, picks: seq<nat>, x: nat)
    requires x < |picks| && (forall y | 0 <= y < |picks| :: picks[y] < |jobs| && Leased(jobs[picks[y]].status))
    requires forall y, z | 0 <= y < z < |picks| :: picks[y] != picks[z]
    ensures RecoverRows(jobs, runId, picks[..x])[picks[x]] == jobs[picks[x]]
    ensures RecoverRows(jobs, runId, picks[..x + 1]) == RecoverRow(RecoverRows(jobs, runId, picks[..x]), runId, picks[x])
    ensures AnyRunning(jobs, picks[..x + 1]) <==> AnyRunning(jobs, picks[..x]) || jobs[picks[x]].status == Running
  {
    assert picks[..x + 1][..x] == picks[..x];
    UnpickedStay(jobs, runId, picks[..x], picks[x]);
    if AnyRunning(jobs, picks[..x]) {
      var y :| 0 <= y < x && picks[..x][y] < |jobs| && jobs[picks[..x][y]].status == Running;
      assert picks[..x + 1][y] == picks[..x][y];
    }
    if AnyRunning(jobs, picks[..x + 1]) {
      var y :| 0 <= y <= x && picks[..x + 1][y] < |jobs| && jobs[picks[..x + 1][y]].status == Running;
      assert y < x ==> picks[..x][y] == picks[..x + 1][y];
    }
    assert picks[..x + 1][x] == picks[x];
  }
}
