// When a run of the Postgres store ends, and as what: exactly when all its jobs have ended,
// or earlier by a failure of recovery; and as canceled only if a job was.

module PostgresEndings {
  import opened DependencyGraph
  import opened PipelineCompiler
  import opened RunGraph
  import opened Basics
  import opened RunModel
  import opened JobInvariants
  import opened LeaseLedger
  import opened PostgresRuns
  import opened PostgresOutcome
  import opened PostgresTransactions
  import opened PostgresRerun
  import opened PostgresHistory
  import opened PostgresStranding

  /** A run with jobs has ended or has one that has not, and was canceled only if one of them was. */
  predicate EndsRight(db: Database, r: nat) {
    r in db.runs && HasJobs(db.jobs, r) ==>
      (RunTerminal(db.runs[r].status) || RunUnfinished(db.jobs, r)) &&
      (db.runs[r].status == RunCanceled ==> RunHas(db.jobs, r, Canceled))
  }

  /** A run whose jobs and status a transaction leaves alone. */
  predicate LeftAlone(db: Database, after: Database, r: nat) {
    Untouched(db.jobs, after.jobs, r) && (r in after.runs ==> r in db.runs && after.runs[r].status == db.runs[r].status)
  }

  lemma LeftAloneEndsRight(db: Database, after: Database, r: nat)
    requires LeftAlone(db, after, r) && EndsRight(db, r)
    ensures EndsRight(after, r)
  {
    if r in after.runs && HasJobs(after.jobs, r) {
      var i :| 0 <= i < |after.jobs| && after.jobs[i].runId == r;
      assert db.jobs[i].runId == r;
      assert HasJobs(db.jobs, r);
      if RunUnfinished(db.jobs, r) {
        var k :| 0 <= k < |db.jobs| && db.jobs[k].runId == r && !JobTerminal(db.jobs[k].status);
        assert after.jobs[k] == db.jobs[k];
      }
      if RunHas(db.jobs, r, Canceled) {
        var k :| 0 <= k < |db.jobs| && db.jobs[k].runId == r && db.jobs[k].status == Canceled;
        assert after.jobs[k] == db.jobs[k];
      }
    }
  }

  lemma OpenJobUnfinished(jobs: seq<Job>, i: nat)
    requires i < |jobs| && !JobTerminal(jobs[i].status)
    ensures RunUnfinished(jobs, jobs[i].runId)
  {
  }

  // New runs.

  /** The jobs of a new run are all open. */
  lemma NewRunUnfinished(jobs: seq<Job>, stages: seq<Stage>, runId: nat, ids: seq<nat>)
    requires |ids| == |Flatten(stages)| && forall i | 0 <= i < |jobs| :: jobs[i].runId != runId
    ensures HasJobs(jobs + NewJobs(stages, runId, ids), runId) ==> RunUnfinished(jobs + NewJobs(stages, runId, ids), runId)
  {
    var all := jobs + NewJobs(stages, runId, ids);
    if HasJobs(all, runId) {
      var i :| 0 <= i < |all| && all[i].runId == runId;
      OpenJobUnfinished(all, i);
    }
  }

  lemma CreateEndsRight(db: Database, runId: nat, row: RunRow, ids: seq<nat>, now: Time, r: nat)
    requires RunsKnown(db) && Enabled(db, Create(runId, row, ids), now) && EndsRight(db, r)
    ensures EndsRight(After(db, Create(runId, row, ids), now), r)
  {
    var after := After(db, Create(runId, row, ids), now);
    CreateEffect(db, runId, row, ids, r);
    if r != runId || after == db {
      LeftAloneEndsRight(db, after, r);
    } else {
      NewRunUnfinished(db.jobs, row.stages, runId, ids);
    }
  }

  lemma RerunOthersAlone(db: Database, oldId: nat, newId: nat, ids: seq<nat>, failedMode: bool, now: Time, r: nat)
    requires Enabled(db, Rerun(oldId, newId, ids, failedMode), now) && EndsRight(db, r)
    requires r != newId || After(db, Rerun(oldId, newId, ids, failedMode), now) == db
    ensures EndsRight(After(db, Rerun(oldId, newId, ids, failedMode), now), r)
  {
    RerunEffect(db, oldId, newId, ids, failedMode, r);
    LeftAloneEndsRight(db, After(db, Rerun(oldId, newId, ids, failedMode), now), r);
  }

  lemma RerunUnfinished(db: Database, oldId: nat, newId: nat, ids: seq<nat>, failedMode: bool)
    requires DatabaseOk(db) && Rerunnable(db, oldId, failedMode) && FreshRow(db, newId, db.runs[oldId].stages, ids)
    ensures var outcome := RerunTx(db, oldId, newId, ids, failedMode);
            outcome.Committed? ==>
              newId in outcome.value.runs && outcome.value.runs[newId].status == RunQueued &&
              (HasJobs(outcome.value.jobs, newId) ==> RunUnfinished(outcome.value.jobs, newId))
  {
    RerunEffect(db, oldId, newId, ids, failedMode, newId);
    if failedMode {
      FailedRerun(db, oldId, newId, ids);
    } else {
      NewJobsUnfinished(db, oldId, newId, ids);
    }
  }

  lemma NewJobsUnfinished(db: Database, oldId: nat, newId: nat, ids: seq<nat>)
    requires RunsKnown(db) && Rerunnable(db, oldId, false) && FreshRow(db, newId, db.runs[oldId].stages, ids)
    ensures var outcome := RerunTx(db, oldId, newId, ids, false);
            outcome.Committed? && HasJobs(outcome.value.jobs, newId) ==> RunUnfinished(outcome.value.jobs, newId)
  {
    CreateEffect(db, newId, db.runs[oldId].(status := RunQueued), ids, newId);
    NewRunUnfinished(db.jobs, db.runs[oldId].stages, newId, ids);
  }

  lemma RerunEndsRight(db: Database, oldId: nat, newId: nat, ids: seq<nat>, failedMode: bool, now: Time, r: nat)
    requires DatabaseOk(db) && Enabled(db, Rerun(oldId, newId, ids, failedMode), now) && EndsRight(db, r)
    ensures EndsRight(After(db, Rerun(oldId, newId, ids, failedMode), now), r)
  {
    if r == newId && Rerunnable(db, oldId, failedMode) && RerunTx(db, oldId, newId, ids, failedMode).Committed? {
      RerunUnfinished(db, oldId, newId, ids, failedMode);
    } else {
      RerunOthersAlone(db, oldId, newId, ids, failedMode, now, r);
    }
  }

  // Claims and the holder's requests leave a job open.

  lemma ClaimEndsRight(db: Database, i: nat, runner: nat, token: nat, now: Time, r: nat)
    requires EndsRight(db, r)
    ensures EndsRight(After(db, Claim(i, runner, token), now), r)
  {
    var after := After(db, Claim(i, runner, token), now);
    if PostgresRuns.Offered(db, i) && db.jobs[i].runId == r {
      OpenJobUnfinished(after.jobs, i);
    } else {
      LeftAloneEndsRight(db, after, r);
    }
  }

  /** One open job changed and stays open. */
  lemma OpenChangeEndsRight(db: Database, k: nat, j': Job, r: nat)
    requires k < |db.jobs| && !JobTerminal(db.jobs[k].status) && !JobTerminal(j'.status) && j'.runId == db.jobs[k].runId && EndsRight(db, r)
    ensures EndsRight(db.(jobs := db.jobs[k := j']), r)
  {
    var after := db.(jobs := db.jobs[k := j']);
    if db.jobs[k].runId != r {
      LeftAloneEndsRight(db, after, r);
    } else {
      OpenJobUnfinished(after.jobs, k);
      assert HasJobs(db.jobs, r);
      if RunHas(db.jobs, r, Canceled) {
        var i :| 0 <= i < |db.jobs| && db.jobs[i].runId == r && db.jobs[i].status == Canceled;
        assert after.jobs[i] == db.jobs[i];
      }
    }
  }

  lemma HolderEndsRight(db: Database, tx: Tx, now: Time, r: nat)
    requires EndsRight(db, r) && (tx.Acknowledge? || tx.Release? || tx.Start?)
    ensures EndsRight(After(db, tx, now), r)
  {
    if Authorized(db.jobs, tx.runner, tx.job, tx.token, now) {
      var k := FindJob(db.jobs, tx.job);
      OpenChangeEndsRight(db, k, AcknowledgeOne(db.jobs[k], now), r);
      OpenChangeEndsRight(db, k, ReleaseOne(db.jobs[k]), r);
      OpenChangeEndsRight(db, k, db.jobs[k].(status := Running), r);
    }
  }

  lemma RenewEndsRight(db: Database, runner: nat, leases: seq<ActiveLease>, now: Time, r: nat)
    requires EndsRight(db, r)
    ensures EndsRight(After(db, Renew(runner, leases), now), r)
  {
    var jobs := RenewAll(db.jobs, runner, leases, now);
    forall i | 0 <= i < |jobs| ensures jobs[i].runId == db.jobs[i].runId && jobs[i].status == db.jobs[i].status {
      RenewExtends(db.jobs, runner, leases, now, i);
    }
    if RunUnfinished(db.jobs, r) {
      var i :| 0 <= i < |db.jobs| && db.jobs[i].runId == r && !JobTerminal(db.jobs[i].status);
      OpenJobUnfinished(jobs, i);
    }
    if RunHas(db.jobs, r, Canceled) {
      var i :| 0 <= i < |db.jobs| && db.jobs[i].runId == r && db.jobs[i].status == Canceled;
      assert jobs[i].status == Canceled;
    }
    if HasJobs(jobs, r) {
      var i :| 0 <= i < |jobs| && jobs[i].runId == r;
      assert db.jobs[i].runId == r;
    }
  }

  // Completion, recovery and cancellation.

  /** A completion that leaves no job open ends the run as its jobs have it. */
  lemma CompletionEnds(db: Database, i: nat, status: JobStatus)
    requires i < |db.jobs| && CompletionStatus(status) && db.jobs[i].runId in db.runs
    ensures var r, jobs := db.jobs[i].runId, JobsAfterEnd(db.jobs, i, status);
            var outcome := FinalizeRunJobs(db.(jobs := db.jobs[i := EndOne(db.jobs[i], status)]), r, status);
            outcome.Committed? ==>
              (RunUnfinished(jobs, r) ==> outcome.value.runs == db.runs) &&
              (!RunUnfinished(jobs, r) ==> r in outcome.value.runs && outcome.value.runs[r].status == FinalStatus(jobs, r)) &&
              forall x | x != r :: (x in outcome.value.runs <==> x in db.runs) && (x in db.runs ==> outcome.value.runs[x] == db.runs[x])
  {
  }

  lemma CompletionLeavesOthers(jobs: seq<Job>, i: nat, status: JobStatus, r: nat)
    requires i < |jobs| && jobs[i].runId != r
    ensures Untouched(jobs, JobsAfterEnd(jobs, i, status), r)
  {
  }

  lemma FinishedEndsRight(after: Database, r: nat, before: RunStatus)
    requires r in after.runs && before != RunCanceled
    requires RunUnfinished(after.jobs, r) ==> after.runs[r].status == before
    requires !RunUnfinished(after.jobs, r) ==> after.runs[r].status == FinalStatus(after.jobs, r)
    ensures EndsRight(after, r)
  {
  }

  lemma CompletedEndsRight(db: Database, i: nat, status: JobStatus, after: Database, r: nat)
    requires i < |db.jobs| && CompletionStatus(status) && EndsRight(db, r)
    requires db.jobs[i].runId in db.runs && db.runs[db.jobs[i].runId].status != RunCanceled
    requires FinalizeRunJobs(db.(jobs := db.jobs[i := EndOne(db.jobs[i], status)]), db.jobs[i].runId, status) == Committed(after)
    ensures EndsRight(after, r)
  {
    CompletionEnds(db, i, status);
    CompleteEffect(db, i, status);
    if db.jobs[i].runId != r {
      CompletionLeavesOthers(db.jobs, i, status, r);
      LeftAloneEndsRight(db, after, r);
    } else {
      FinishedEndsRight(after, r, db.runs[r].status);
    }
  }

  lemma CompleteEndsRight(db: Database, tx: Tx, now: Time, r: nat)
    requires DatabaseOk(db) && tx.Complete? && EndsRight(db, r)
    ensures EndsRight(After(db, tx, now), r)
  {
    if CompletionStatus(tx.status) && Authorized(db.jobs, tx.runner, tx.job, tx.token, now) {
      var outcome := CompleteTx(db, tx.runner, tx.job, tx.token, tx.status, now);
      LeasedRunIsOpen(db, FindJob(db.jobs, tx.job));
      if outcome.Committed? { CompletedEndsRight(db, FindJob(db.jobs, tx.job), tx.status, outcome.value, r); }
    }
  }

  lemma RecoveryRuns(db: Database, runId: nat, picks: seq<nat>)
    requires forall x | 0 <= x < |picks| :: picks[x] < |db.jobs|
    ensures var outcome := RecoverRunTx(db, runId, picks);
            outcome.Committed? ==> forall x | x != runId ::
              (x in outcome.value.runs <==> x in db.runs) && (x in db.runs ==> outcome.value.runs[x] == db.runs[x])
    ensures var outcome := RecoverRunTx(db, runId, picks);
            outcome.Committed? && runId in outcome.value.runs ==>
              runId in db.runs &&
              (outcome.value.runs[runId].status == RunFailed || outcome.value.runs[runId].status == RunQueued ||
               outcome.value.runs[runId].status == db.runs[runId].status)
  {
  }

  lemma RecoveredRunEndsRight(db: Database, runId: nat, picks: seq<nat>, now: Time)
    requires DatabaseOk(db) && Picked(db.jobs, runId, picks, now) && picks != []
    ensures var outcome := RecoverRunTx(db, runId, picks); outcome.Committed? && EndsRight(outcome.value, runId)
  {
    RecoverEffect(db, runId, picks, now);
    RecoveredQueue(db.jobs, runId, picks, now);
    RecoveryRuns(db, runId, picks);
    LeasedRunIsOpen(db, picks[0]);
    QueuedIsUnfinished(RecoverRows(db.jobs, runId, picks), runId);
    LastPickFails(db.jobs, runId, picks, now);
  }

  lemma LastPickFails(jobs: seq<Job>, runId: nat, picks: seq<nat>, now: Time)
    requires Picked(jobs, runId, picks, now) && picks != []
    ensures jobs[picks[|picks| - 1]].status == Assigned || AnyRunning(jobs, picks)
  {
  }

  lemma RecoverEndsRight(db: Database, run: nat, picks: seq<nat>, now: Time, r: nat)
    requires DatabaseOk(db) && Picked(db.jobs, run, picks, now) && EndsRight(db, r)
    ensures EndsRight(After(db, RecoverRun(run, picks), now), r)
  {
    if picks == [] {
      assert After(db, RecoverRun(run, picks), now) == db;
    } else if run == r {
      RecoveredRunEndsRight(db, run, picks, now);
    } else {
      RecoverEffect(db, run, picks, now);
      RecoverLeavesOthers(db.jobs, run, picks, r);
      RecoveryRuns(db, run, picks);
      LeftAloneEndsRight(db, After(db, RecoverRun(run, picks), now), r);
    }
  }

  lemma CancelEndsRight(db: Database, run: nat, now: Time, r: nat)
    requires EndsRight(db, r)
    ensures EndsRight(After(db, Cancel(run), now), r)
  {
    var after := After(db, Cancel(run), now);
    if run != r || after == db {
      LeftAloneEndsRight(db, after, r);
    } else if HasJobs(after.jobs, r) {
      var i :| 0 <= i < |after.jobs| && after.jobs[i].runId == r;
      assert db.jobs[i].runId == r;
      assert HasJobs(db.jobs, r);
      var k :| 0 <= k < |db.jobs| && db.jobs[k].runId == r && !JobTerminal(db.jobs[k].status);
      assert after.jobs[k].status == Canceled;
    }
  }

  // Over whole runs of the store.

  lemma StepEndsRight(db: Database, tx: Tx, now: Time, r: nat)
    requires DatabaseOk(db) && Enabled(db, tx, now) && EndsRight(db, r)
    ensures EndsRight(After(db, tx, now), r)
  {
    match tx
    case Create(run, row, ids) => CreateEndsRight(db, run, row, ids, now, r);
    case Rerun(oldRun, newRun, ids, failedMode) => RerunEndsRight(db, oldRun, newRun, ids, failedMode, now, r);
    case Claim(i, runner, token) => ClaimEndsRight(db, i, runner, token, now, r);
    case Renew(runner, leases) => RenewEndsRight(db, runner, leases, now, r);
    case Complete(_, _, _, _) => CompleteEndsRight(db, tx, now, r);
    case RecoverRun(run, picks) => RecoverEndsRight(db, run, picks, now, r);
    case Cancel(run) => CancelEndsRight(db, run, now, r);
    case _ => HolderEndsRight(db, tx, now, r);
  }

  lemma {:induction false} AlwaysEndsRight(trace: seq<Moment>, n: nat, r: nat)
    requires Behaviour(trace) && n < |trace|
    ensures EndsRight(trace[n].db, r)
  {
    if n > 0 {
      AlwaysEndsRight(trace, n - 1, r);
      StepOfTraceEndsRight(trace, n, r);
    }
  }

  lemma StepOfTraceEndsRight(trace: seq<Moment>, n: nat, r: nat)
    requires Behaviour(trace) && 0 < n < |trace| && EndsRight(trace[n - 1].db, r)
    ensures EndsRight(trace[n].db, r)
  {
    AlwaysOk(trace, n - 1);
    assert Next(trace[n - 1], trace[n]);
    var tx :| trace[n - 1].now <= trace[n].now && Enabled(trace[n - 1].db, tx, trace[n].now) &&
              trace[n].db == After(trace[n - 1].db, tx, trace[n].now);
    StepEndsRight(trace[n - 1].db, tx, trace[n].now, r);
  }

  /** A run with jobs has succeeded exactly when all of them have; if all have ended otherwise, it has failed or was canceled. */
  lemma OutcomeIs(trace: seq<Moment>, n: nat, r: nat)
    requires Behaviour(trace) && n < |trace| && r in trace[n].db.runs && HasJobs(trace[n].db.jobs, r)
    ensures var jobs, status := trace[n].db.jobs, trace[n].db.runs[r].status;
            (status == RunSucceeded <==> forall i | 0 <= i < |jobs| && jobs[i].runId == r :: jobs[i].status == Succeeded) &&
            ((forall i | 0 <= i < |jobs| && jobs[i].runId == r :: JobTerminal(jobs[i].status)) ==> RunTerminal(status)) &&
            (status == RunFailed ==> exists i :: 0 <= i < |jobs| && jobs[i].runId == r && jobs[i].status == Failed) &&
            (status == RunCanceled ==> exists i :: 0 <= i < |jobs| && jobs[i].runId == r && jobs[i].status == Canceled)
  {
    AlwaysEndsRight(trace, n, r);
    OutcomeIsBacked(trace, n, r);
  }
}
