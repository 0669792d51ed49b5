// Every transaction keeps the database invariant, never meets a conflicting commit status,
// and leaves the status of a run that has ended alone.

module PostgresTransactions {
  import opened DependencyGraph
  import opened PipelineCompiler
  import opened RunGraph
  import opened Basics
  import opened RunModel
  import opened JobInvariants
  import opened SchedulerSafety
  import opened LeaseLedger
  import opened PostgresRuns
  import opened PostgresOutcome

  /** Runs stay, with their plan, and one that has ended keeps its status. */
  predicate RunsStay(a: Database, b: Database) {
    forall r {:trigger a.runs[r]} | r in a.runs ::
      r in b.runs && b.runs[r].stages == a.runs[r].stages && (RunTerminal(a.runs[r].status) ==> b.runs[r].status == a.runs[r].status)
  }

  /** What is proved of the outcome of each transaction. */
  ghost predicate GoodOutcome(db: Database, outcome: PostgresRuns.Outcome<Database>) {
    outcome != RolledBack(StatusMismatch) && (outcome.Committed? ==> DatabaseOk(outcome.value) && RunsStay(db, outcome.value))
  }

  // Claims and the holder's requests.

  /** A job that holds a lease belongs to a run that has not succeeded and was not canceled. */
  lemma LeasedRunIsOpen(db: Database, i: nat)
    requires DatabaseOk(db) && i < |db.jobs| && Leased(db.jobs[i].status)
    ensures var r := db.jobs[i].runId;
            r in db.runs && db.runs[r].status != RunSucceeded && db.runs[r].status != RunCanceled &&
            (db.runs[r].status == RunFailed ==> RunHas(db.jobs, r, Failed))
  {
    assert RunOk(db, db.jobs[i].runId);
  }

  predicate QuietChange(a: seq<Job>, b: seq<Job>) {
    NothingNew(a, b) && forall i | 0 <= i < |a| && Unsuccessful(b[i].status) :: Unsuccessful(a[i].status)
  }

  lemma OneJobIsQuiet(jobs: seq<Job>, i: nat, j': Job)
    requires i < |jobs| && SameShape(jobs[i], j') && Open(jobs[i].status) && Open(j'.status)
    ensures QuietChange(jobs, jobs[i := j'])
  {
  }

  lemma QuietChangeKeeps(db: Database, jobs: seq<Job>)
    requires DatabaseOk(db) && QuietChange(db.jobs, jobs)
    ensures DatabaseOk(db.(jobs := jobs))
  {
    NothingNewKeepsJobsFine(db.jobs, jobs);
    JobsChange(db, jobs);
  }

  lemma OneJobChange(db: Database, i: nat, j': Job)
    requires DatabaseOk(db) && i < |db.jobs| && SameShape(db.jobs[i], j') && Open(db.jobs[i].status) && Open(j'.status)
    ensures DatabaseOk(db.(jobs := db.jobs[i := j']))
  {
    OneJobIsQuiet(db.jobs, i, j');
    QuietChangeKeeps(db, db.jobs[i := j']);
  }

  lemma ClaimKeeps(db: Database, i: nat, runner: nat, token: nat, now: Time)
    requires DatabaseOk(db)
    ensures GoodOutcome(db, ClaimTx(db, i, runner, token, now))
  {
    ClaimLeavesEnded(db, i, runner, token, now);
    if PostgresRuns.Offered(db, i) {
      var j' := ClaimOne(db.jobs[i], runner, token, now);
      OneJobChange(db, i, j');
      ClaimedRunStarts(db.(jobs := db.jobs[i := j']), db.jobs[i].runId);
    }
  }

  function Started(db: Database, runId: nat): Database
    requires runId in db.runs
  {
    if db.runs[runId].status == RunQueued then SetStatus(db, runId, RunRunning) else db
  }

  lemma ClaimedRunStarts(db: Database, runId: nat)
    requires DatabaseOk(db) && runId in db.runs && !RunTerminal(db.runs[runId].status)
    ensures DatabaseOk(Started(db, runId))
  {
    if db.runs[runId].status == RunQueued { StatusChange(db, runId, RunRunning); }
  }

  lemma ClaimLeavesEnded(db: Database, i: nat, runner: nat, token: nat, now: Time)
    ensures var outcome := ClaimTx(db, i, runner, token, now);
            if PostgresRuns.Offered(db, i)
            then RunsStay(db, outcome.value) &&
                 outcome == Committed(Started(db.(jobs := db.jobs[i := ClaimOne(db.jobs[i], runner, token, now)]), db.jobs[i].runId))
            else outcome == RolledBack(NothingToDo)
  {
  }

  lemma HolderKeeps(db: Database, runner: nat, jobId: nat, token: nat, now: Time)
    requires DatabaseOk(db)
    ensures GoodOutcome(db, AcknowledgeTx(db, runner, jobId, token, now))
    ensures GoodOutcome(db, ReleaseTx(db, runner, jobId, token, now))
    ensures GoodOutcome(db, StartTx(db, runner, jobId, token, now))
  {
    if Authorized(db.jobs, runner, jobId, token, now) {
      var i := FindJob(db.jobs, jobId);
      OneJobChange(db, i, AcknowledgeOne(db.jobs[i], now));
      OneJobChange(db, i, ReleaseOne(db.jobs[i]));
      OneJobChange(db, i, db.jobs[i].(status := Running));
    }
  }

  lemma RenewKeeps(db: Database, runner: nat, leases: seq<ActiveLease>, now: Time)
    requires DatabaseOk(db)
    ensures GoodOutcome(db, RenewTx(db, runner, leases, now))
  {
    var after := RenewAll(db.jobs, runner, leases, now);
    forall i | 0 <= i < |db.jobs| ensures SameShape(db.jobs[i], after[i]) && after[i].status == db.jobs[i].status {
      RenewExtends(db.jobs, runner, leases, now, i);
    }
    QuietChangeKeeps(db, after);
  }

  // Completion.

  lemma FinalIsBacked(jobs: seq<Job>, runId: nat)
    requires SkipOk(jobs) && !RunUnfinished(jobs, runId)
    ensures StatusBacked(jobs, runId, FinalStatus(jobs, runId))
  {
    forall i | 0 <= i < |jobs| && jobs[i].runId == runId ensures JobTerminal(jobs[i].status) {
    }
    if FinalStatus(jobs, runId) == RunSucceeded {
      forall i | 0 <= i < |jobs| && jobs[i].runId == runId ensures jobs[i].status == Succeeded {
        assert jobs[i].status != Failed && jobs[i].status != Canceled;
      }
    }
  }

  function JobsAfterEnd(jobs: seq<Job>, i: nat, status: JobStatus): (r: seq<Job>)
    requires i < |jobs|
    ensures |r| == |jobs|
  {
    var done := jobs[i := EndOne(jobs[i], status)];
    if status == Succeeded then UnblockReady(done, jobs[i].runId) else Sweep(done, jobs[i].runId)
  }

  lemma EndKeepsJobs(jobs: seq<Job>, i: nat, status: JobStatus)
    requires JobsFine(jobs) && i < |jobs| && Leased(jobs[i].status) && CompletionStatus(status)
    ensures JobsFine(JobsAfterEnd(jobs, i, status)) && EndedStay(jobs, JobsAfterEnd(jobs, i, status))
  {
    if status == Succeeded {
      SuccessKeepsJobsFine(jobs, i);
    } else {
      FailureKeepsJobsFine(jobs, i, EndOne(jobs[i], status));
    }
  }

  /** If the run has already failed, the summary of its jobs says so again. */
  lemma FinalAgrees(db: Database, i: nat, jobs: seq<Job>)
    requires DatabaseOk(db) && i < |db.jobs| && Leased(db.jobs[i].status) && EndedStay(db.jobs, jobs)
    ensures var r := db.jobs[i].runId;
            r in db.runs && (RunTerminal(db.runs[r].status) ==> db.runs[r].status == RunFailed && FinalStatus(jobs, r) == RunFailed)
  {
    LeasedRunIsOpen(db, i);
    RunHasKept(db.jobs, jobs, db.jobs[i].runId, Failed);
  }

  lemma CompleteKeeps(db: Database, runner: nat, jobId: nat, token: nat, status: JobStatus, now: Time)
    requires DatabaseOk(db)
    ensures GoodOutcome(db, CompleteTx(db, runner, jobId, token, status, now))
  {
    if CompletionStatus(status) && Authorized(db.jobs, runner, jobId, token, now) {
      CompletedKeeps(db, FindJob(db.jobs, jobId), status);
    }
  }

  lemma CompletedKeeps(db: Database, i: nat, status: JobStatus)
    requires DatabaseOk(db) && i < |db.jobs| && Leased(db.jobs[i].status) && CompletionStatus(status)
    ensures GoodOutcome(db, FinalizeRunJobs(db.(jobs := db.jobs[i := EndOne(db.jobs[i], status)]), db.jobs[i].runId, status))
  {
    var runId, jobs := db.jobs[i].runId, JobsAfterEnd(db.jobs, i, status);
    EndKeepsJobs(db.jobs, i, status);
    JobsChange(db, jobs);
    FinalAgrees(db, i, jobs);
    EndedRunKeeps(db.(jobs := jobs), runId);
  }

  /** The end of `finalizeRunJobs`, once the jobs are unblocked or skipped. */
  lemma EndedRunKeeps(db: Database, runId: nat)
    requires DatabaseOk(db) && runId in db.runs
    requires RunTerminal(db.runs[runId].status) ==> db.runs[runId].status == FinalStatus(db.jobs, runId)
    ensures var final := FinalStatus(db.jobs, runId);
            GoodOutcome(db, if RunUnfinished(db.jobs, runId) then Committed(db) else Enqueue(SetStatus(db, runId, final), runId, final))
  {
    if !RunUnfinished(db.jobs, runId) {
      FinalIsBacked(db.jobs, runId);
      EndRun(db, runId, FinalStatus(db.jobs, runId));
    }
  }

  // Recovery.

  lemma RecoverRowKeeps(jobs: seq<Job>, runId: nat, i: nat)
    requires JobsFine(jobs) && i < |jobs| && jobs[i].runId == runId
    ensures var after := RecoverRow(jobs, runId, i);
            JobsFine(after) && EndedStay(jobs, after) && (jobs[i].status == Running ==> after[i].status == Failed) &&
            forall k | 0 <= k < |jobs| && k != i && Leased(jobs[k].status) :: after[k] == jobs[k]
  {
    if jobs[i].status == Assigned {
      NothingNewKeepsJobsFine(jobs, jobs[i := RequeueRow(jobs[i])]);
    } else if jobs[i].status == Running {
      FailureKeepsJobsFine(jobs, i, EndOne(jobs[i], Failed));
    }
  }

  lemma {:induction false} RecoverRowsKeep(jobs: seq<Job>, runId: nat, picks: seq<nat>)
    requires JobsFine(jobs) && (forall x | 0 <= x < |picks| :: picks[x] < |jobs| && jobs[picks[x]].runId == runId && Leased(jobs[picks[x]].status))
    requires forall x, y | 0 <= x < y < |picks| :: picks[x] != picks[y]
    ensures var after := RecoverRows(jobs, runId, picks);
            JobsFine(after) && EndedStay(jobs, after) && (AnyRunning(jobs, picks) ==> RunHas(after, runId, Failed)) &&
            forall k | 0 <= k < |jobs| && k !in picks && Leased(jobs[k].status) :: after[k] == jobs[k]
  {
    if picks != [] {
      var n := |picks| - 1;
      var init, i := picks[..n], picks[n];
      RecoverRowsKeep(jobs, runId, init);
      var before := RecoverRows(jobs, runId, init);
      assert SameShape(jobs[i], before[i]);
      RecoverRowKeeps(before, runId, i);
      PicksSplit(jobs, picks);
      RunHasKept(before, RecoverRow(before, runId, i), runId, Failed);
    }
  }

  lemma PicksSplit(jobs: seq<Job>, picks: seq<nat>)
    requires picks != [] && picks[|picks| - 1] < |jobs|
    ensures AnyRunning(jobs, picks) <==> AnyRunning(jobs, picks[..|picks| - 1]) || jobs[picks[|picks| - 1]].status == Running
    ensures forall k: nat | k !in picks :: k !in picks[..|picks| - 1] && k != picks[|picks| - 1]
  {
    var n := |picks| - 1;
    if AnyRunning(jobs, picks[..n]) {
      var x :| 0 <= x < n && picks[..n][x] < |jobs| && jobs[picks[..n][x]].status == Running;
      assert picks[x] == picks[..n][x];
    }
    if AnyRunning(jobs, picks) {
      var x :| 0 <= x < |picks| && picks[x] < |jobs| && jobs[picks[x]].status == Running;
      assert x < n ==> picks[..n][x] == picks[x];
    }
  }

  /** The run may have ended only by failing, and then a job of it has failed. */
  predicate OpenOrFailed(db: Database, runId: nat) {
    runId in db.runs &&
    (RunTerminal(db.runs[runId].status) ==> db.runs[runId].status == RunFailed && RunHas(db.jobs, runId, Failed))
  }

  lemma FinishRecoveryKeeps(db: Database, runId: nat, failed: bool, requeued: bool)
    requires DatabaseOk(db) && (failed || requeued ==> OpenOrFailed(db, runId)) && (failed ==> RunHas(db.jobs, runId, Failed))
    ensures var outcome := FinishRecovery(db, runId, failed, requeued); outcome.Committed? && DatabaseOk(outcome.value)
  {
    if failed {
      EndRun(db, runId, RunFailed);
    } else if requeued && !RunStartedWork(db.jobs, runId) {
      StatusChange(db, runId, RunQueued);
    }
  }

  lemma FinishRecoveryLeavesEnded(db: Database, runId: nat, failed: bool, requeued: bool)
    requires failed || requeued ==> OpenOrFailed(db, runId)
    ensures var outcome := FinishRecovery(db, runId, failed, requeued); outcome.Committed? ==> RunsStay(db, outcome.value)
  {
  }

  lemma RecoveredRunIsOpen(db: Database, runId: nat, picks: seq<nat>)
    requires DatabaseOk(db) && (forall x | 0 <= x < |picks| :: picks[x] < |db.jobs| && db.jobs[picks[x]].runId == runId && Leased(db.jobs[picks[x]].status))
    requires EndedStay(db.jobs, RecoverRows(db.jobs, runId, picks)) && picks != []
    ensures OpenOrFailed(db.(jobs := RecoverRows(db.jobs, runId, picks)), runId)
  {
    LeasedRunIsOpen(db, picks[0]);
    RunHasKept(db.jobs, RecoverRows(db.jobs, runId, picks), runId, Failed);
  }

  lemma RecoverKeeps(db: Database, runId: nat, picks: seq<nat>, now: Time)
    requires DatabaseOk(db) && Picked(db.jobs, runId, picks, now)
    ensures GoodOutcome(db, RecoverRunTx(db, runId, picks))
  {
    var failed, jobs := AnyRunning(db.jobs, picks), RecoverRows(db.jobs, runId, picks);
    RecoverRowsKeep(db.jobs, runId, picks);
    JobsChange(db, jobs);
    if picks != [] { RecoveredRunIsOpen(db, runId, picks); }
    FinishRecoveryKeeps(db.(jobs := jobs), runId, failed, picks != []);
    FinishRecoveryLeavesEnded(db.(jobs := jobs), runId, failed, picks != []);
  }

  // Cancellation.

  lemma CancelKeepsJobs(jobs: seq<Job>, runId: nat)
    requires JobsFine(jobs)
    ensures JobsFine(CancelJobs(jobs, runId)) && EndedStay(jobs, CancelJobs(jobs, runId))
    ensures StatusBacked(CancelJobs(jobs, runId), runId, RunCanceled)
  {
    var after := CancelJobs(jobs, runId);
    ShapePreserved(jobs, after);
    NothingNewKeepsDependencies(jobs, after);
    SkipKept(jobs, after);
    forall i, k | 0 <= i < |after| && 0 <= k < |after| && after[i].runId == after[k].runId && Unsuccessful(after[i].status)
      ensures after[k].status != Blocked
    {
      if after[i].runId != runId { assert jobs[i] == after[i] && jobs[k] == after[k]; }
    }
  }

  lemma CancelKeeps(db: Database, runId: nat)
    requires DatabaseOk(db)
    ensures GoodOutcome(db, CancelTx(db, runId))
  {
    if runId in db.runs && !RunTerminal(db.runs[runId].status) {
      CancelKeepsJobs(db.jobs, runId);
      JobsChange(db, CancelJobs(db.jobs, runId));
      EndRun(db.(jobs := CancelJobs(db.jobs, runId)), runId, RunCanceled);
    }
  }
}
