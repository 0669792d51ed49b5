// Jobs that stay queued in a run of the Postgres store that has ended: which transaction
// leaves one behind, and what can still become of it.

module PostgresStranding {
  import opened DependencyGraph
  import opened PipelineCompiler
  import opened RunGraph
  import opened Basics
  import opened RunModel
  import opened JobInvariants
  import opened PostgresRuns
  import opened PostgresOutcome
  import opened PostgresTransactions
  import opened PostgresHistory
  import opened SchedulerSafety
  import opened LeaseLedger

  predicate Ended(db: Database, r: nat) {
    r in db.runs && RunTerminal(db.runs[r].status)
  }

  /** The run has ended with a job still queued. */
  predicate Stranded(db: Database, r: nat) {
    Ended(db, r) && RunHas(db.jobs, r, Queued)
  }

  // Recovery, pick by pick.

  /** After the picks are handled, a job of the run is queued exactly when the last one was an assignment. */
  lemma RecoveredQueue(jobs: seq<Job>, runId: nat, picks: seq<nat>, now: Time)
    requires Picked(jobs, runId, picks, now) && picks != []
    ensures RunHas(RecoverRows(jobs, runId, picks), runId, Queued) <==> jobs[picks[|picks| - 1]].status == Assigned
  {
    var n := |picks| - 1;
    var init, i := picks[..n], picks[n];
    UnpickedStay(jobs, runId, init, i);
    var before := RecoverRows(jobs, runId, init);
    if jobs[i].status == Assigned { RequeuedIsQueued(before, runId, i); } else { SweptQueuesNothing(before, runId, i); }
  }

  lemma RequeuedIsQueued(jobs: seq<Job>, runId: nat, i: nat)
    requires i < |jobs| && jobs[i].status == Assigned && jobs[i].runId == runId
    ensures RunHas(RecoverRow(jobs, runId, i), runId, Queued)
  {
    assert RecoverRow(jobs, runId, i)[i].status == Queued;
  }

  lemma SweptQueuesNothing(jobs: seq<Job>, runId: nat, i: nat)
    requires i < |jobs| && jobs[i].status == Running
    ensures !RunHas(RecoverRow(jobs, runId, i), runId, Queued)
  {
  }

  lemma FinishRecoveryEnds(db: Database, runId: nat, failed: bool, requeued: bool)
    requires OpenOrFailed(db, runId)
    ensures var outcome := FinishRecovery(db, runId, failed, requeued);
            (outcome.RolledBack? ==> outcome.reason == StatusMismatch) &&
            (outcome.Committed? ==>
              outcome.value.jobs == db.jobs && (Ended(outcome.value, runId) <==> failed || Ended(db, runId)) &&
              (failed ==> outcome.value.runs[runId].status == RunFailed) &&
              forall r | r != runId :: Ended(outcome.value, r) <==> Ended(db, r))
  {
  }

  /** A recovery that handles something always commits; it ends the run exactly when it fails an execution. */
  lemma RecoverEffect(db: Database, runId: nat, picks: seq<nat>, now: Time)
    requires DatabaseOk(db) && Picked(db.jobs, runId, picks, now) && picks != []
    ensures var outcome := RecoverRunTx(db, runId, picks);
            outcome.Committed? && outcome.value.jobs == RecoverRows(db.jobs, runId, picks) &&
            (Ended(outcome.value, runId) <==> AnyRunning(db.jobs, picks) || Ended(db, runId)) &&
            (AnyRunning(db.jobs, picks) ==> outcome.value.runs[runId].status == RunFailed) &&
            forall r | r != runId :: Ended(outcome.value, r) <==> Ended(db, r)
  {
    RecoverKeeps(db, runId, picks, now);
    RecoverRowsKeep(db.jobs, runId, picks);
    RecoveredRunIsOpen(db, runId, picks);
    FinishRecoveryEnds(db.(jobs := RecoverRows(db.jobs, runId, picks)), runId, AnyRunning(db.jobs, picks), true);
  }

  /** Recovery that fails a run leaves a job of it queued exactly when the last lease it handles is an assignment. */
  lemma RecoveryStrandsIff(db: Database, runId: nat, picks: seq<nat>, now: Time)
    requires DatabaseOk(db) && Picked(db.jobs, runId, picks, now) && AnyRunning(db.jobs, picks)
    ensures var outcome := RecoverRunTx(db, runId, picks);
            outcome.Committed? && Ended(outcome.value, runId) && outcome.value.runs[runId].status == RunFailed &&
            (RunHas(outcome.value.jobs, runId, Queued) <==> db.jobs[picks[|picks| - 1]].status == Assigned)
  {
    RecoverEffect(db, runId, picks, now);
    RecoveredQueue(db.jobs, runId, picks, now);
  }

  // Every transaction.

  /** The transactions that leave a queued job in a run that has ended: a recovery, or a late release. */
  predicate Strands(db: Database, tx: Tx, now: Time, r: nat) {
    match tx
    case RecoverRun(run, picks) =>
      run == r && picks != [] && picks[|picks| - 1] < |db.jobs| && db.jobs[picks[|picks| - 1]].status == Assigned &&
      (AnyRunning(db.jobs, picks) || Ended(db, r))
    case Release(runner, job, token) =>
      Authorized(db.jobs, runner, job, token, now) && Ended(db, r) &&
      var j := db.jobs[FindJob(db.jobs, job)]; j.runId == r && j.status == Assigned && j.acceptedAt == None
    case _ => false
  }

  /** The jobs of the run are the same, and it gets no new ones. */
  predicate Untouched(a: seq<Job>, b: seq<Job>, r: nat) {
    |a| <= |b| && (forall i | 0 <= i < |a| :: a[i].runId == b[i].runId && (a[i].runId == r ==> a[i] == b[i])) &&
    forall i | |a| <= i < |b| :: b[i].runId != r
  }

  lemma UntouchedSameQueue(a: seq<Job>, b: seq<Job>, r: nat)
    requires Untouched(a, b, r)
    ensures RunHas(a, r, Queued) <==> RunHas(b, r, Queued)
  {
    if RunHas(b, r, Queued) {
      var i :| 0 <= i < |b| && b[i].runId == r && b[i].status == Queued;
      assert a[i].status == Queued;
    }
  }

  /** Once a run has ended nothing of it is blocked. */
  lemma EndedBlocksNothing(db: Database, r: nat)
    requires DatabaseOk(db) && Ended(db, r)
    ensures !RunHas(db.jobs, r, Blocked)
  {
    assert RunOk(db, r);
    if db.runs[r].status == RunFailed && HasJobs(db.jobs, r) {
      var k :| 0 <= k < |db.jobs| && db.jobs[k].runId == r && db.jobs[k].status == Failed;
      assert Unsuccessful(db.jobs[k].status);
    }
  }

  lemma CreateEffect(db: Database, runId: nat, row: RunRow, ids: seq<nat>, r: nat)
    requires |ids| == |Flatten(row.stages)|
    ensures var outcome := CreateTx(db, runId, row, ids);
            outcome.Committed? ==>
              outcome.value.runs == db.runs[runId := row] && outcome.value.jobs == db.jobs + NewJobs(row.stages, runId, ids) &&
              (r != runId ==> Untouched(db.jobs, outcome.value.jobs, r))
  {
  }

  lemma RerunEffect(db: Database, oldId: nat, newId: nat, ids: seq<nat>, failedMode: bool, r: nat)
    requires oldId in db.runs ==> |ids| == |Flatten(db.runs[oldId].stages)|
    ensures var outcome := RerunTx(db, oldId, newId, ids, failedMode);
            outcome.Committed? ==>
              oldId in db.runs && outcome.value.runs == db.runs[newId := db.runs[oldId].(status := RunQueued)] &&
              (r != newId ==> Untouched(db.jobs, outcome.value.jobs, r))
  {
    if Rerunnable(db, oldId, failedMode) { CreateEffect(db, newId, db.runs[oldId].(status := RunQueued), ids, r); }
  }

  lemma CreateStrandsNothing(db: Database, runId: nat, row: RunRow, ids: seq<nat>, now: Time, r: nat)
    requires RunsKnown(db) && Enabled(db, Create(runId, row, ids), now) && !Stranded(db, r)
    ensures !Stranded(After(db, Create(runId, row, ids), now), r)
  {
    var after := After(db, Create(runId, row, ids), now);
    CreateEffect(db, runId, row, ids, r);
    if r != runId {
      UntouchedSameQueue(db.jobs, after.jobs, r);
    } else if row.status == RunFailed {
      assert NewJobs(row.stages, runId, ids) == [];
    }
  }

  lemma RerunStrandsNothing(db: Database, oldId: nat, newId: nat, ids: seq<nat>, failedMode: bool, now: Time, r: nat)
    requires Enabled(db, Rerun(oldId, newId, ids, failedMode), now) && !Stranded(db, r)
    ensures !Stranded(After(db, Rerun(oldId, newId, ids, failedMode), now), r)
  {
    var after := After(db, Rerun(oldId, newId, ids, failedMode), now);
    RerunEffect(db, oldId, newId, ids, failedMode, r);
    if r != newId && after != db { UntouchedSameQueue(db.jobs, after.jobs, r); }
  }

  lemma CompleteEffect(db: Database, i: nat, status: JobStatus)
    requires i < |db.jobs| && CompletionStatus(status)
    ensures var runId, jobs := db.jobs[i].runId, JobsAfterEnd(db.jobs, i, status);
            var outcome := FinalizeRunJobs(db.(jobs := db.jobs[i := EndOne(db.jobs[i], status)]), runId, status);
            outcome.Committed? ==>
              outcome.value.jobs == jobs && (RunUnfinished(jobs, runId) ==> outcome.value.runs == db.runs) &&
              forall r | r != runId :: Ended(outcome.value, r) <==> Ended(db, r)
  {
  }

  /** Completing a job queues nothing in a run where nothing is blocked or queued. */
  lemma CompletedQueuesNothing(jobs: seq<Job>, i: nat, status: JobStatus, r: nat)
    requires i < |jobs| && CompletionStatus(status) && !RunHas(jobs, r, Queued) && !RunHas(jobs, r, Blocked)
    ensures !RunHas(JobsAfterEnd(jobs, i, status), r, Queued)
  {
    var after := JobsAfterEnd(jobs, i, status);
    forall k | 0 <= k < |after| && after[k].runId == r ensures after[k].status != Queued {
      assert jobs[k].runId == r && jobs[k].status != Queued && jobs[k].status != Blocked;
    }
  }

  lemma CompletedStrandsNothing(db: Database, i: nat, status: JobStatus, r: nat)
    requires DatabaseOk(db) && i < |db.jobs| && CompletionStatus(status) && !Stranded(db, r)
    ensures var outcome := FinalizeRunJobs(db.(jobs := db.jobs[i := EndOne(db.jobs[i], status)]), db.jobs[i].runId, status);
            outcome.Committed? ==> !Stranded(outcome.value, r)
  {
    CompleteEffect(db, i, status);
    if Ended(db, r) {
      EndedBlocksNothing(db, r);
      CompletedQueuesNothing(db.jobs, i, status, r);
    } else {
      QueuedIsUnfinished(JobsAfterEnd(db.jobs, i, status), r);
    }
  }

  lemma QueuedIsUnfinished(jobs: seq<Job>, r: nat)
    ensures RunHas(jobs, r, Queued) ==> RunUnfinished(jobs, r)
  {
  }

  lemma CompleteStrandsNothing(db: Database, tx: Tx, now: Time, r: nat)
    requires DatabaseOk(db) && tx.Complete? && !Stranded(db, r)
    ensures !Stranded(After(db, tx, now), r)
  {
    if CompletionStatus(tx.status) && Authorized(db.jobs, tx.runner, tx.job, tx.token, now) {
      CompletedStrandsNothing(db, FindJob(db.jobs, tx.job), tx.status, r);
    }
  }

  lemma ReleaseStrandsIff(db: Database, tx: Tx, now: Time, r: nat)
    requires tx.Release? && !Stranded(db, r)
    ensures Stranded(After(db, tx, now), r) <==> Strands(db, tx, now, r)
  {
    var after := After(db, tx, now);
    if after != db {
      var i := FindJob(db.jobs, tx.job);
      assert after.jobs[i].status == Queued;
      if db.jobs[i].runId != r {
        assert Untouched(db.jobs, after.jobs, r);
        UntouchedSameQueue(db.jobs, after.jobs, r);
      }
    }
  }

  lemma RecoverStrandsIff(db: Database, run: nat, picks: seq<nat>, now: Time, r: nat)
    requires DatabaseOk(db) && Picked(db.jobs, run, picks, now) && !Stranded(db, r)
    ensures Stranded(After(db, RecoverRun(run, picks), now), r) <==> Strands(db, RecoverRun(run, picks), now, r)
  {
    if picks != [] {
      RecoverEffect(db, run, picks, now);
      if run == r {
        RecoveredQueue(db.jobs, run, picks, now);
      } else {
        RecoverLeavesOthers(db.jobs, run, picks, r);
        UntouchedSameQueue(db.jobs, RecoverRows(db.jobs, run, picks), r);
      }
    } else {
      assert After(db, RecoverRun(run, picks), now) == db;
    }
  }

  lemma {:induction false} RecoverLeavesOthers(jobs: seq<Job>, run: nat, picks: seq<nat>, r: nat)
    requires run != r && forall x | 0 <= x < |picks| :: picks[x] < |jobs| && jobs[picks[x]].runId == run
    ensures Untouched(jobs, RecoverRows(jobs, run, picks), r)
  {
    if picks != [] { RecoverLeavesOthers(jobs, run, picks[..|picks| - 1], r); }
  }

  /** No job of the run is newly queued. */
  predicate QueuesNothing(a: seq<Job>, b: seq<Job>, r: nat) {
    |a| == |b| && forall k | 0 <= k < |b| && b[k].runId == r && b[k].status == Queued :: a[k].runId == r && a[k].status == Queued
  }

  lemma ClaimQueuesNothing(db: Database, i: nat, runner: nat, token: nat, now: Time, r: nat)
    ensures var outcome := ClaimTx(db, i, runner, token, now);
            outcome.Committed? ==> QueuesNothing(db.jobs, outcome.value.jobs, r) && (Ended(outcome.value, r) ==> Ended(db, r))
  {
  }

  lemma HolderQueuesNothing(db: Database, runner: nat, job: nat, token: nat, now: Time, r: nat)
    ensures var outcome := AcknowledgeTx(db, runner, job, token, now);
            outcome.Committed? ==> QueuesNothing(db.jobs, outcome.value.jobs, r) && outcome.value.runs == db.runs
    ensures var outcome := StartTx(db, runner, job, token, now);
            outcome.Committed? ==> QueuesNothing(db.jobs, outcome.value.jobs, r) && outcome.value.runs == db.runs
  {
  }

  lemma RenewQueuesNothing(db: Database, runner: nat, leases: seq<ActiveLease>, now: Time, r: nat)
    ensures QueuesNothing(db.jobs, RenewAll(db.jobs, runner, leases, now), r)
  {
    forall k | 0 <= k < |db.jobs| ensures SameShape(db.jobs[k], RenewAll(db.jobs, runner, leases, now)[k]) &&
                                          db.jobs[k].status == RenewAll(db.jobs, runner, leases, now)[k].status
    {
      RenewExtends(db.jobs, runner, leases, now, k);
    }
  }

  lemma CancelQueuesNothing(db: Database, run: nat, r: nat)
    ensures var outcome := CancelTx(db, run);
            outcome.Committed? ==>
              QueuesNothing(db.jobs, outcome.value.jobs, r) && (r != run && Ended(outcome.value, r) ==> Ended(db, r)) &&
              (Ended(db, r) || r != run || !RunHas(outcome.value.jobs, r, Queued))
  {
  }

  lemma NothingQueuedStrandsNothing(db: Database, after: Database, r: nat)
    requires QueuesNothing(db.jobs, after.jobs, r) && !Stranded(db, r)
    requires Ended(after, r) && RunHas(after.jobs, r, Queued) ==> Ended(db, r)
    ensures !Stranded(after, r)
  {
  }

  lemma QuietStrandsNothing(db: Database, tx: Tx, now: Time, r: nat)
    requires !Stranded(db, r) && (tx.Claim? || tx.Acknowledge? || tx.Start? || tx.Renew? || tx.Cancel?)
    ensures !Stranded(After(db, tx, now), r)
  {
    match tx
    case Claim(i, runner, token) => ClaimQueuesNothing(db, i, runner, token, now, r);
    case Acknowledge(runner, job, token) => HolderQueuesNothing(db, runner, job, token, now, r);
    case Start(runner, job, token) => HolderQueuesNothing(db, runner, job, token, now, r);
    case Renew(runner, leases) => RenewQueuesNothing(db, runner, leases, now, r);
    case Cancel(run) => CancelQueuesNothing(db, run, r);
    NothingQueuedStrandsNothing(db, After(db, tx, now), r);
  }

  /** A transaction leaves a queued job in a run that has ended exactly in these two ways. */
  lemma StrandsIff(db: Database, tx: Tx, now: Time, r: nat)
    requires DatabaseOk(db) && Enabled(db, tx, now) && !Stranded(db, r)
    ensures Stranded(After(db, tx, now), r) <==> Strands(db, tx, now, r)
  {
    match tx
    case Create(run, row, ids) => CreateStrandsNothing(db, run, row, ids, now, r);
    case Rerun(oldRun, newRun, ids, failedMode) => RerunStrandsNothing(db, oldRun, newRun, ids, failedMode, now, r);
    case Complete(_, _, _, _) => CompleteStrandsNothing(db, tx, now, r);
    case Release(_, _, _) => ReleaseStrandsIff(db, tx, now, r);
    case RecoverRun(run, picks) => RecoverStrandsIff(db, run, picks, now, r);
    case _ => QuietStrandsNothing(db, tx, now, r);
  }

  // What becomes of a job that stays queued.

  /** A job of the run can still fail: it is running, or assigned under a live lease. */
  predicate MayFail(j: Job, r: nat, now: Time) {
    j.runId == r && (j.status == Running || (j.status == Assigned && LeaseAlive(j, now)))
  }

  predicate NoneMayFail(jobs: seq<Job>, r: nat, now: Time) {
    forall k | 0 <= k < |jobs| :: !MayFail(jobs[k], r, now)
  }

  /** A job of an ended run: never handed out, and changed only by requeueing once no job of the run can fail. */
  predicate LateJob(j: Job, j': Job, quiet: bool) {
    (j.status == Queued || j.status == Skipped ==> j'.status == j.status || j'.status == Skipped) &&
    (quiet ==> j' == j || (j.status == Assigned && j'.status == Queued))
  }

  predicate LateRun(a: seq<Job>, b: seq<Job>, r: nat, now: Time) {
    |a| <= |b| &&
    (forall i {:trigger a[i]} {:trigger b[i]} | 0 <= i < |a| ::
      b[i].runId == a[i].runId && (a[i].runId == r ==> LateJob(a[i], b[i], NoneMayFail(a, r, now)))) &&
    forall i | |a| <= i < |b| :: b[i].runId != r
  }

  lemma UntouchedIsLate(a: seq<Job>, b: seq<Job>, r: nat, now: Time)
    requires Untouched(a, b, r)
    ensures LateRun(a, b, r, now)
  {
  }

  lemma LateCreate(db: Database, tx: Tx, now: Time, r: nat)
    requires Ended(db, r) && Enabled(db, tx, now) && (tx.Create? || tx.Rerun?)
    ensures LateRun(db.jobs, After(db, tx, now).jobs, r, now)
  {
    if tx.Create? {
      CreateEffect(db, tx.run, tx.row, tx.ids, r);
    } else {
      RerunEffect(db, tx.oldRun, tx.newRun, tx.ids, tx.failedMode, r);
    }
    UntouchedIsLate(db.jobs, After(db, tx, now).jobs, r, now);
  }

  lemma LateClaim(db: Database, tx: Tx, now: Time, r: nat)
    requires Ended(db, r) && tx.Claim?
    ensures LateRun(db.jobs, After(db, tx, now).jobs, r, now)
  {
  }

  lemma LateHolder(db: Database, tx: Tx, now: Time, r: nat)
    requires Ended(db, r) && (tx.Acknowledge? || tx.Release? || tx.Start?)
    ensures LateRun(db.jobs, After(db, tx, now).jobs, r, now)
  {
    if Authorized(db.jobs, tx.runner, tx.job, tx.token, now) {
      var k := FindJob(db.jobs, tx.job);
      assert db.jobs[k].runId == r ==> MayFail(db.jobs[k], r, now);
    }
  }

  lemma LateRenew(db: Database, runner: nat, leases: seq<ActiveLease>, now: Time, r: nat)
    ensures LateRun(db.jobs, RenewAll(db.jobs, runner, leases, now), r, now)
  {
    forall i | 0 <= i < |db.jobs|
      ensures var j, j' := db.jobs[i], RenewAll(db.jobs, runner, leases, now)[i];
              j'.runId == j.runId && (j.runId == r ==> LateJob(j, j', NoneMayFail(db.jobs, r, now)))
    {
      RenewExtends(db.jobs, runner, leases, now, i);
      RenewHolds(db.jobs, runner, leases, now, i);
    }
  }

  lemma LateCompletion(jobs: seq<Job>, k: nat, status: JobStatus, now: Time, r: nat)
    requires k < |jobs| && Leased(jobs[k].status) && LeaseAlive(jobs[k], now) && CompletionStatus(status)
    ensures LateRun(jobs, JobsAfterEnd(jobs, k, status), r, now)
  {
    assert jobs[k].runId == r ==> MayFail(jobs[k], r, now);
  }

  lemma LateComplete(db: Database, tx: Tx, now: Time, r: nat)
    requires Ended(db, r) && tx.Complete?
    ensures LateRun(db.jobs, After(db, tx, now).jobs, r, now)
  {
    UntouchedIsLate(db.jobs, db.jobs, r, now);
    if CompletionStatus(tx.status) && Authorized(db.jobs, tx.runner, tx.job, tx.token, now) {
      var k := FindJob(db.jobs, tx.job);
      CompleteEffect(db, k, tx.status);
      LateCompletion(db.jobs, k, tx.status, now, r);
    }
  }

  lemma {:induction false} LateRecovery(jobs: seq<Job>, run: nat, picks: seq<nat>, now: Time, r: nat)
    requires Picked(jobs, run, picks, now)
    ensures LateRun(jobs, RecoverRows(jobs, run, picks), r, now)
  {
    if picks != [] {
      var n := |picks| - 1;
      var init, i := picks[..n], picks[n];
      assert Picked(jobs, run, init, now) && i !in init;
      UnpickedStay(jobs, run, init, i);
      LateRecovery(jobs, run, init, now, r);
      LateRow(jobs, RecoverRows(jobs, run, init), run, i, now, r);
    }
  }

  lemma LateRow(jobs: seq<Job>, before: seq<Job>, run: nat, i: nat, now: Time, r: nat)
    requires i < |jobs| && |before| == |jobs| && LateRun(jobs, before, r, now) && before[i] == jobs[i]
    requires jobs[i].runId == run && Leased(jobs[i].status)
    ensures LateRun(jobs, RecoverRow(before, run, i), r, now)
  {
    assert run == r && jobs[i].status == Running ==> MayFail(jobs[i], r, now);
  }

  lemma LateRecover(db: Database, run: nat, picks: seq<nat>, now: Time, r: nat)
    requires Picked(db.jobs, run, picks, now)
    ensures LateRun(db.jobs, After(db, RecoverRun(run, picks), now).jobs, r, now)
  {
    LateRecovery(db.jobs, run, picks, now, r);
    UntouchedIsLate(db.jobs, db.jobs, r, now);
  }

  lemma LateCancel(db: Database, run: nat, now: Time, r: nat)
    requires Ended(db, r)
    ensures LateRun(db.jobs, After(db, Cancel(run), now).jobs, r, now)
  {
    assert Untouched(db.jobs, After(db, Cancel(run), now).jobs, r);
  }

  /** Any transaction, seen from the jobs of a run that has ended. */
  lemma AfterIsLate(db: Database, tx: Tx, now: Time, r: nat)
    requires Ended(db, r) && Enabled(db, tx, now)
    ensures LateRun(db.jobs, After(db, tx, now).jobs, r, now)
  {
    match tx
    case Renew(runner, leases) => LateRenew(db, runner, leases, now, r);
    case Complete(_, _, _, _) => LateComplete(db, tx, now, r);
    case RecoverRun(run, picks) => LateRecover(db, run, picks, now, r);
    case Cancel(run) => LateCancel(db, run, now, r);
    case Create(_, _, _) => LateCreate(db, tx, now, r);
    case Rerun(_, _, _, _) => LateCreate(db, tx, now, r);
    case Claim(_, _, _) => LateClaim(db, tx, now, r);
    case _ => LateHolder(db, tx, now, r);
  }

  // Over whole runs of the store.

  ghost predicate Continues(trace: seq<Moment>, longer: seq<Moment>) {
    trace != [] && trace <= longer && Behaviour(longer)
  }

  predicate StillThere(m: Moment, i: nat, j: Job) {
    i < |m.db.jobs| && m.db.jobs[i] == j
  }

  /** Job `i` waits in a run that has ended. */
  predicate Left(m: Moment, i: nat) {
    i < |m.db.jobs| && m.db.jobs[i].status == Queued && Ended(m.db, m.db.jobs[i].runId)
  }

  lemma NoneMayFailStays(a: seq<Job>, b: seq<Job>, r: nat, now: Time)
    requires LateRun(a, b, r, now) && NoneMayFail(a, r, now)
    ensures NoneMayFail(b, r, now)
  {
    forall k | 0 <= k < |b| ensures !MayFail(b[k], r, now) {
      assert k < |a| ==> !MayFail(a[k], r, now) && b[k].runId == a[k].runId;
    }
  }

  lemma StepIsLate(m: Moment, m': Moment, r: nat)
    requires DatabaseOk(m.db) && Next(m, m') && Ended(m.db, r)
    ensures Ended(m'.db, r) && LateRun(m.db.jobs, m'.db.jobs, r, m'.now)
    ensures NoneMayFail(m.db.jobs, r, m.now) ==> NoneMayFail(m.db.jobs, r, m'.now) && NoneMayFail(m'.db.jobs, r, m'.now)
  {
    var tx :| m.now <= m'.now && Enabled(m.db, tx, m'.now) && m'.db == After(m.db, tx, m'.now);
    StepIsGood(m, m');
    assert m.db.runs[r].status == m'.db.runs[r].status;
    AfterIsLate(m.db, tx, m'.now, r);
    if NoneMayFail(m.db.jobs, r, m.now) {
      forall k | 0 <= k < |m.db.jobs| ensures !MayFail(m.db.jobs[k], r, m'.now) { assert !MayFail(m.db.jobs[k], r, m.now); }
      NoneMayFailStays(m.db.jobs, m'.db.jobs, r, m'.now);
    }
  }

  /** The job of an ended run is queued or skipped. */
  predicate WaitsOrSkipped(m: Moment, i: nat, r: nat) {
    Ended(m.db, r) && i < |m.db.jobs| && m.db.jobs[i].runId == r &&
    (m.db.jobs[i].status == Queued || m.db.jobs[i].status == Skipped)
  }

  lemma TraceStepIsLate(trace: seq<Moment>, n: nat, r: nat)
    requires Behaviour(trace) && 0 < n < |trace| && Ended(trace[n - 1].db, r)
    ensures Ended(trace[n].db, r) && LateRun(trace[n - 1].db.jobs, trace[n].db.jobs, r, trace[n].now)
    ensures NoneMayFail(trace[n - 1].db.jobs, r, trace[n - 1].now) ==>
              NoneMayFail(trace[n - 1].db.jobs, r, trace[n].now) && NoneMayFail(trace[n].db.jobs, r, trace[n].now)
  {
    AlwaysOk(trace, n - 1);
    assert Next(trace[n - 1], trace[n]);
    StepIsLate(trace[n - 1], trace[n], r);
  }

  lemma WaitsOrSkippedStays(m: Moment, m': Moment, i: nat, r: nat)
    requires WaitsOrSkipped(m, i, r) && Ended(m'.db, r) && LateRun(m.db.jobs, m'.db.jobs, r, m'.now)
    ensures WaitsOrSkipped(m', i, r)
  {
    assert LateJob(m.db.jobs[i], m'.db.jobs[i], NoneMayFail(m.db.jobs, r, m'.now));
  }

  /** A job left queued is never handed out: it stays queued or is skipped. */
  lemma {:induction false} LeftIsNeverHandedOut(trace: seq<Moment>, m: nat, n: nat, i: nat)
    requires Behaviour(trace) && m <= n < |trace| && Left(trace[m], i)
    ensures WaitsOrSkipped(trace[n], i, trace[m].db.jobs[i].runId)
    decreases n
  {
    if m < n {
      LeftIsNeverHandedOut(trace, m, n - 1, i);
      TraceStepIsLate(trace, n, trace[m].db.jobs[i].runId);
      WaitsOrSkippedStays(trace[n - 1], trace[n], i, trace[m].db.jobs[i].runId);
    }
  }

  /** The run has ended, none of its jobs can fail any more, and job `i` is `j`, still queued. */
  predicate WaitsForGood(m: Moment, i: nat, j: Job) {
    Ended(m.db, j.runId) && NoneMayFail(m.db.jobs, j.runId, m.now) && StillThere(m, i, j) && j.status == Queued
  }

  lemma WaitsForGoodStays(m: Moment, m': Moment, i: nat, j: Job)
    requires WaitsForGood(m, i, j) && Ended(m'.db, j.runId) && LateRun(m.db.jobs, m'.db.jobs, j.runId, m'.now)
    requires NoneMayFail(m.db.jobs, j.runId, m'.now) && NoneMayFail(m'.db.jobs, j.runId, m'.now)
    ensures WaitsForGood(m', i, j)
  {
    assert LateJob(m.db.jobs[i], m'.db.jobs[i], true);
  }

  lemma {:induction false} WaitsForGoodForever(trace: seq<Moment>, m: nat, n: nat, i: nat, j: Job)
    requires Behaviour(trace) && m <= n < |trace| && WaitsForGood(trace[m], i, j)
    ensures WaitsForGood(trace[n], i, j)
    decreases n
  {
    if m < n {
      WaitsForGoodForever(trace, m, n - 1, i, j);
      TraceStepIsLate(trace, n, j.runId);
      WaitsForGoodStays(trace[n - 1], trace[n], i, j);
    }
  }

  // If a job of the run can still fail, it may, and then the waiting one is skipped.

  lemma Continue(trace: seq<Moment>, tx: Tx, now: Time) returns (longer: seq<Moment>)
    requires Behaviour(trace) && Last(trace).now <= now && Enabled(Last(trace).db, tx, now)
    ensures Continues(trace, longer) && Last(longer) == Moment(After(Last(trace).db, tx, now), now)
  {
    var m' := Moment(After(Last(trace).db, tx, now), now);
    longer := trace + [m'];
    assert Next(Last(trace), m');
    forall i, j | 0 <= i < |longer| && j == i + 1 && j < |longer| ensures Next(longer[i], longer[j]) {
      assert j < |trace| ==> Next(trace[i], trace[j]);
    }
  }

  lemma FailingSkips(jobs: seq<Job>, k: nat, i: nat)
    requires k < |jobs| && i < |jobs| && k != i && jobs[k].runId == jobs[i].runId && jobs[i].status == Queued
    ensures JobsAfterEnd(jobs, k, Failed)[i].status == Skipped
    ensures jobs[k].status == Running ==> RecoverRows(jobs, jobs[k].runId, [k])[i].status == Skipped
  {
    assert [k][..0] == [] && RecoverRows(jobs, jobs[k].runId, []) == jobs;
  }

  lemma HolderCompletes(db: Database, k: nat, now: Time)
    requires DistinctIds(db.jobs) && k < |db.jobs| && Leased(db.jobs[k].status) && LeaseAlive(db.jobs[k], now)
    ensures var j := db.jobs[k];
            CompleteTx(db, j.runnerId, j.id, j.token, Failed, now) ==
            FinalizeRunJobs(db.(jobs := db.jobs[k := EndOne(j, Failed)]), j.runId, Failed)
  {
    assert FindJob(db.jobs, db.jobs[k].id) == k;
  }

  lemma FailureCommits(db: Database, k: nat)
    requires DatabaseOk(db) && k < |db.jobs| && Leased(db.jobs[k].status)
    ensures var outcome := FinalizeRunJobs(db.(jobs := db.jobs[k := EndOne(db.jobs[k], Failed)]), db.jobs[k].runId, Failed);
            outcome.Committed? && outcome.value.jobs == JobsAfterEnd(db.jobs, k, Failed)
  {
    CompletedKeeps(db, k, Failed);
    CompleteEffect(db, k, Failed);
    OnlyMismatchRollsBack(db.(jobs := db.jobs[k := EndOne(db.jobs[k], Failed)]), db.jobs[k].runId);
  }

  lemma OnlyMismatchRollsBack(db: Database, runId: nat)
    ensures var outcome := FinalizeRunJobs(db, runId, Failed); outcome.RolledBack? ==> outcome.reason == StatusMismatch
  {
  }

  lemma LastIsOk(trace: seq<Moment>)
    requires Behaviour(trace)
    ensures DatabaseOk(Last(trace).db) && DistinctIds(Last(trace).db.jobs)
  {
    AlwaysOk(trace, |trace| - 1);
  }

  /** Any transaction that commits leaves what it says. */
  lemma CommittedIsAfter(db: Database, tx: Tx, now: Time, outcome: PostgresRuns.Outcome<Database>)
    requires Enabled(db, tx, now) && Run(db, tx, now) == outcome && outcome.Committed?
    ensures After(db, tx, now) == outcome.value
  {
  }

  lemma RecoveryCommits(trace: seq<Moment>, k: nat, late: Time)
    requires Behaviour(trace) && k < |Last(trace).db.jobs|
    requires Leased(Last(trace).db.jobs[k].status) && !LeaseAlive(Last(trace).db.jobs[k], late)
    ensures var db, r := Last(trace).db, Last(trace).db.jobs[k].runId;
            Picked(db.jobs, r, [k], late) && After(db, RecoverRun(r, [k]), late).jobs == RecoverRows(db.jobs, r, [k])
  {
    var db, r := Last(trace).db, Last(trace).db.jobs[k].runId;
    assert Picked(db.jobs, r, [k], late);
    var outcome := RecoverRunTx(db, r, [k]);
    assert outcome.Committed? && outcome.value.jobs == RecoverRows(db.jobs, r, [k]) by {
      LastIsOk(trace);
      RecoverEffect(db, r, [k], late);
    }
    CommittedIsAfter(db, RecoverRun(r, [k]), late, outcome);
  }

  lemma HolderFailureCommits(trace: seq<Moment>, k: nat, now: Time)
    requires Behaviour(trace) && k < |Last(trace).db.jobs|
    requires Leased(Last(trace).db.jobs[k].status) && LeaseAlive(Last(trace).db.jobs[k], now)
    ensures var db, j := Last(trace).db, Last(trace).db.jobs[k];
            After(db, Complete(j.runnerId, j.id, j.token, Failed), now).jobs == JobsAfterEnd(db.jobs, k, Failed)
  {
    var db, j := Last(trace).db, Last(trace).db.jobs[k];
    var outcome := FinalizeRunJobs(db.(jobs := db.jobs[k := EndOne(j, Failed)]), j.runId, Failed);
    assert outcome.Committed? && outcome.value.jobs == JobsAfterEnd(db.jobs, k, Failed) by {
      LastIsOk(trace);
      FailureCommits(db, k);
    }
    assert CompleteTx(db, j.runnerId, j.id, j.token, Failed, now) == outcome by {
      LastIsOk(trace);
      HolderCompletes(db, k, now);
    }
    CommittedIsAfter(db, Complete(j.runnerId, j.id, j.token, Failed), now, outcome);
  }

  lemma MayStillBeSkipped(trace: seq<Moment>, i: nat, k: nat) returns (longer: seq<Moment>)
    requires Behaviour(trace) && Left(Last(trace), i) && k < |Last(trace).db.jobs|
    requires MayFail(Last(trace).db.jobs[k], Last(trace).db.jobs[i].runId, Last(trace).now)
    ensures Continues(trace, longer) && i < |Last(longer).db.jobs| && Last(longer).db.jobs[i].status == Skipped
  {
    var j, now := Last(trace).db.jobs[k], Last(trace).now;
    FailingSkips(Last(trace).db.jobs, k, i);
    if j.status == Running {
      var late := if now < j.expires then j.expires else now;
      RecoveryCommits(trace, k, late);
      longer := Continue(trace, RecoverRun(j.runId, [k]), late);
    } else {
      HolderFailureCommits(trace, k, now);
      longer := Continue(trace, Complete(j.runnerId, j.id, j.token, Failed), now);
    }
  }

  /** A job left queued in an ended run stays so for good exactly when no job of that run is running or holds a live lease. */
  lemma LeftForGoodIff(trace: seq<Moment>, i: nat)
    requires Behaviour(trace) && Left(Last(trace), i)
    ensures var j := Last(trace).db.jobs[i];
            (forall longer | Continues(trace, longer) :: StillThere(Last(longer), i, j)) <==>
            NoneMayFail(Last(trace).db.jobs, j.runId, Last(trace).now)
  {
    var j := Last(trace).db.jobs[i];
    if NoneMayFail(Last(trace).db.jobs, j.runId, Last(trace).now) {
      forall longer | Continues(trace, longer) ensures StillThere(Last(longer), i, j) {
        assert longer[|trace| - 1] == Last(trace);
        WaitsForGoodForever(longer, |trace| - 1, |longer| - 1, i, j);
      }
    } else {
      var k :| 0 <= k < |Last(trace).db.jobs| && MayFail(Last(trace).db.jobs[k], j.runId, Last(trace).now);
      var longer := MayStillBeSkipped(trace, i, k);
      assert !StillThere(Last(longer), i, j);
    }
  }
}
