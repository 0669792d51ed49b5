// What the transactions of the Postgres store make of each job and of its run, written out on
// the rows: claims, the requests of a lease's holder, recovery, cancellation and reruns.

module PostgresLaws {
  import opened DependencyGraph
  import opened PipelineCompiler
  import opened RunGraph
  import opened Basics
  import opened RunModel
  import opened JobInvariants
  import opened StoreLaws
  import opened PostgresRuns
  import opened PostgresOutcome
  import opened PostgresTransactions
  import opened PostgresRerun
  import opened PostgresHistory

  // Claims and the requests of the holder.

  /** Only a queued job of a run that is queued or running is handed out, and its run is running from then on. */
  lemma ClaimIs(db: Database, i: nat, runner: nat, t: nat, now: Time)
    ensures var outcome := ClaimTx(db, i, runner, t, now);
            (outcome.Committed? <==>
              i < |db.jobs| && db.jobs[i].status == Queued && db.jobs[i].runId in db.runs &&
              (db.runs[db.jobs[i].runId].status == RunQueued || db.runs[db.jobs[i].runId].status == RunRunning)) &&
            (outcome.Committed? ==>
              var j, row := db.jobs[i], db.runs[db.jobs[i].runId];
              outcome.value == db.(
                jobs := db.jobs[i := j.(status := Assigned, runnerId := runner, token := t, acceptedAt := None, expires := now + 30_000_000_000)],
                runs := db.runs[j.runId := row.(status := RunRunning)]))
  {
    if PostgresRuns.Offered(db, i) {
      var runs, r := db.runs, db.jobs[i].runId;
      assert runs[r].status == RunRunning ==> runs[r := runs[r].(status := RunRunning)] == runs;
    }
  }

  lemma AuthorizedIs(jobs: seq<Job>, k: nat, r: nat, jobId: nat, t: nat, now: Time)
    requires DistinctIds(jobs) && k < |jobs|
    ensures NamesLease(jobs, k, r, jobId, t, now) <==> Authorized(jobs, r, jobId, t, now) && FindJob(jobs, jobId) == k
  {
    FoundIs(jobs, k);
  }

  /** Acceptance, release and start change only the job whose live lease they name, and only if it may be released or started. */
  lemma RequestIs(db: Database, tx: Tx, now: Time, k: nat)
    requires DistinctIds(db.jobs) && k < |db.jobs| && (tx.Acknowledge? || tx.Release? || tx.Start?)
    ensures var after, j := After(db, tx, now), db.jobs[k];
            var named := NamesLease(db.jobs, k, tx.runner, tx.job, tx.token, now);
            after == db.(jobs := after.jobs) && |after.jobs| == |db.jobs| &&
            (named && tx.Acknowledge? ==> after.jobs[k] == if j.acceptedAt.Some? then j else j.(acceptedAt := Some(now))) &&
            (named && tx.Release? ==>
              after.jobs[k] ==
                if j.status == Assigned && j.acceptedAt == None then j.(status := Queued, runnerId := 0, token := 0, expires := 0) else j) &&
            (named && tx.Start? ==> after.jobs[k] == if j.acceptedAt.Some? then j.(status := Running) else j) &&
            (!named ==> after.jobs[k] == j)
  {
    AuthorizedIs(db.jobs, k, tx.runner, tx.job, tx.token, now);
  }

  // Commit statuses.

  /** A commit status that fits is enqueued beside everything else. */
  lemma EnqueueIs(db: Database, runId: nat, status: RunStatus)
    requires Enqueue(db, runId, status) != RolledBack(StatusMismatch)
    ensures var outcome := Enqueue(db, runId, status);
            outcome.Committed? && outcome.value.jobs == db.jobs && outcome.value.runs == db.runs
  {
  }

  // Completion.

  /** A job after the completion of another one, `succeeded` or not. */
  predicate AfterCompletion(j: Job, j': Job, succeeded: bool, ready: bool) {
    if j.status != Blocked && j.status != Queued then j' == j
    else if !succeeded then j' == j.(status := Skipped)
    else j' == if j.status == Blocked && ready then j.(status := Queued) else j
  }

  lemma CompletedRows(jobs: seq<Job>, i: nat, status: JobStatus, k: nat)
    requires i < |jobs| && k < |jobs| && CompletionStatus(status) && (jobs[i].status == Assigned || jobs[i].status == Running)
    ensures var after, j := JobsAfterEnd(jobs, i, status), jobs[k];
            |after| == |jobs| && after[i] == jobs[i].(status := status, token := 0, expires := 0) &&
            (k != i && j.runId != jobs[i].runId ==> after[k] == j) &&
            (k != i && j.runId == jobs[i].runId ==> AfterCompletion(j, after[k], status == Succeeded, Ready(after, j.runId, j.dependencies)))
  {
    var done, after, j := jobs[i := EndOne(jobs[i], status)], JobsAfterEnd(jobs, i, status), jobs[k];
    if status == Succeeded && j.runId == jobs[i].runId {
      if Ready(done, j.runId, j.dependencies) { ReadyStays(done, after, j.runId, j.dependencies); }
      if Ready(after, j.runId, j.dependencies) { NotReadyStays(done, after, j.runId, j.dependencies); }
    }
  }

  /**
   * A completion commits exactly when it names a live lease and one of the three conclusions. The job ends so; of
   * its run, a success queues what is ready by now and anything else skips what waits; other jobs do not change.
   */
  lemma CompletionIs(db: Database, runner: nat, jobId: nat, t: nat, status: JobStatus, now: Time, i: nat, k: nat)
    requires DatabaseOk(db) && i < |db.jobs| && db.jobs[i].id == jobId && k < |db.jobs|
    ensures var outcome := CompleteTx(db, runner, jobId, t, status, now);
            (outcome.Committed? <==>
              NamesLease(db.jobs, i, runner, jobId, t, now) && (status == Succeeded || status == Failed || status == Canceled)) &&
            (outcome.Committed? ==>
              var jobs, after := db.jobs, outcome.value.jobs;
              |after| == |jobs| && after[i] == jobs[i].(status := status, token := 0, expires := 0) &&
              (k != i && jobs[k].runId != jobs[i].runId ==> after[k] == jobs[k]) &&
              (k != i && jobs[k].runId == jobs[i].runId ==>
                AfterCompletion(jobs[k], after[k], status == Succeeded,
                  forall d | d in jobs[k].dependencies ::
                    exists m :: 0 <= m < |after| && after[m].runId == jobs[k].runId && after[m].key == d && after[m].status == Succeeded)))
  {
    AuthorizedIs(db.jobs, i, runner, jobId, t, now);
    FoundIs(db.jobs, i);
    if NamesLease(db.jobs, i, runner, jobId, t, now) && CompletionStatus(status) {
      CompletionCommits(db, i, status);
      CompletedRows(db.jobs, i, status, k);
      ReadyIs(JobsAfterEnd(db.jobs, i, status), db.jobs[k].runId, db.jobs[k].dependencies);
    }
  }

  lemma ReadyIs(jobs: seq<Job>, runId: nat, dependencies: seq<string>)
    ensures Ready(jobs, runId, dependencies) <==>
            forall d | d in dependencies ::
              exists m :: 0 <= m < |jobs| && jobs[m].runId == runId && jobs[m].key == d && jobs[m].status == Succeeded
  {
    if Ready(jobs, runId, dependencies) {
      forall d | d in dependencies ensures exists m :: 0 <= m < |jobs| && jobs[m].runId == runId && jobs[m].key == d && jobs[m].status == Succeeded {
        assert SucceededKey(jobs, runId, d);
      }
    }
  }

  lemma CompletionCommits(db: Database, i: nat, status: JobStatus)
    requires DatabaseOk(db) && i < |db.jobs| && Leased(db.jobs[i].status) && CompletionStatus(status)
    ensures var outcome := FinalizeRunJobs(db.(jobs := db.jobs[i := EndOne(db.jobs[i], status)]), db.jobs[i].runId, status);
            outcome.Committed? && outcome.value.jobs == JobsAfterEnd(db.jobs, i, status)
  {
    CompletionFits(db, i, status);
    CompletionShape(db, i, status);
  }

  lemma CompletionFits(db: Database, i: nat, status: JobStatus)
    requires DatabaseOk(db) && i < |db.jobs| && Leased(db.jobs[i].status) && CompletionStatus(status)
    ensures FinalizeRunJobs(db.(jobs := db.jobs[i := EndOne(db.jobs[i], status)]), db.jobs[i].runId, status) != RolledBack(StatusMismatch)
  {
    CompletedKeeps(db, i, status);
  }

  lemma CompletionShape(db: Database, i: nat, status: JobStatus)
    requires i < |db.jobs| && CompletionStatus(status)
    requires FinalizeRunJobs(db.(jobs := db.jobs[i := EndOne(db.jobs[i], status)]), db.jobs[i].runId, status) != RolledBack(StatusMismatch)
    ensures var outcome := FinalizeRunJobs(db.(jobs := db.jobs[i := EndOne(db.jobs[i], status)]), db.jobs[i].runId, status);
            outcome.Committed? && outcome.value.jobs == JobsAfterEnd(db.jobs, i, status)
  {
    var r, jobs := db.jobs[i].runId, JobsAfterEnd(db.jobs, i, status);
    if !RunUnfinished(jobs, r) { EnqueueIs(SetStatus(db.(jobs := jobs), r, FinalStatus(jobs, r)), r, FinalStatus(jobs, r)); }
  }

  // Cancellation.

  /** A cancellation ends every job of an open run that has not ended, takes its lease, and cancels the run; an ended run stays as it is. */
  lemma CancellationIs(db: Database, runId: nat, k: nat)
    requires DatabaseOk(db) && runId in db.runs && k < |db.jobs|
    ensures var outcome, j, row := CancelTx(db, runId), db.jobs[k], db.runs[runId];
            outcome.Committed? &&
            if row.status == RunSucceeded || row.status == RunFailed || row.status == RunCanceled then outcome.value == db
            else
              outcome.value.runs == db.runs[runId := row.(status := RunCanceled)] && |outcome.value.jobs| == |db.jobs| &&
              outcome.value.jobs[k] ==
                if j.runId == runId && (j.status == Blocked || j.status == Queued || j.status == Assigned || j.status == Running)
                then j.(status := Canceled, token := 0, expires := 0) else j
  {
    CancellationFits(db, runId);
    CanceledRow(db, runId, k);
  }

  lemma CancellationFits(db: Database, runId: nat)
    requires DatabaseOk(db)
    ensures CancelTx(db, runId) != RolledBack(StatusMismatch)
  {
    CancelKeeps(db, runId);
  }

  lemma CanceledRow(db: Database, runId: nat, k: nat)
    requires runId in db.runs && k < |db.jobs| && CancelTx(db, runId) != RolledBack(StatusMismatch)
    ensures var outcome, j, row := CancelTx(db, runId), db.jobs[k], db.runs[runId];
            outcome.Committed? &&
            if RunTerminal(row.status) then outcome.value == db
            else
              outcome.value.runs == db.runs[runId := row.(status := RunCanceled)] && |outcome.value.jobs| == |db.jobs| &&
              outcome.value.jobs[k] ==
                if j.runId == runId && (j.status == Blocked || j.status == Queued || j.status == Assigned || j.status == Running)
                then j.(status := Canceled, token := 0, expires := 0) else j
  {
    if !RunTerminal(db.runs[runId].status) {
      EnqueueIs(SetStatus(db.(jobs := CancelJobs(db.jobs, runId)), runId, RunCanceled), runId, RunCanceled);
    }
  }

  // Recovery.

  /** Recovery handles the job, and after it an execution. */
  predicate ThenFails(jobs: seq<Job>, picks: seq<nat>, k: nat) {
    exists x, y :: 0 <= x < y < |picks| && picks[x] == k && picks[y] < |jobs| && jobs[picks[y]].status == Running
  }

  lemma ThenFailsSplits(jobs: seq<Job>, picks: seq<nat>, k: nat)
    requires picks != [] && picks[|picks| - 1] < |jobs|
    ensures var n := |picks| - 1;
            ThenFails(jobs, picks, k) <==> ThenFails(jobs, picks[..n], k) || (k in picks[..n] && jobs[picks[n]].status == Running)
  {
    var n := |picks| - 1;
    var init := picks[..n];
    if ThenFails(jobs, picks, k) {
      var x, y :| 0 <= x < y < |picks| && picks[x] == k && picks[y] < |jobs| && jobs[picks[y]].status == Running;
      assert init[x] == k && (y < n ==> init[y] == picks[y]);
    }
    if ThenFails(jobs, init, k) {
      var x, y :| 0 <= x < y < n && init[x] == k && init[y] < |jobs| && jobs[init[y]].status == Running;
      assert picks[x] == k && picks[y] == init[y];
    }
    if k in init && jobs[picks[n]].status == Running {
      var x :| 0 <= x < n && init[x] == k;
      assert picks[x] == k;
    }
  }

  /** What one recovery makes of a job of its run. */
  function RecoveredRow(jobs: seq<Job>, picks: seq<nat>, j: Job, k: nat): Job {
    if k in picks && j.status == Running then j.(status := Failed, token := 0, expires := 0)
    else if k in picks then
      j.(status := if ThenFails(jobs, picks, k) then Skipped else Queued, runnerId := 0, token := 0, expires := 0, acceptedAt := None)
    else if (j.status == Blocked || j.status == Queued) && AnyRunning(jobs, picks) then j.(status := Skipped)
    else j
  }

  lemma {:induction false} RecoveredRows(jobs: seq<Job>, runId: nat, picks: seq<nat>, now: Time, k: nat)
    requires Picked(jobs, runId, picks, now) && k < |jobs|
    ensures RecoverRows(jobs, runId, picks)[k] == if jobs[k].runId == runId then RecoveredRow(jobs, picks, jobs[k], k) else jobs[k]
  {
    if picks != [] {
      var n := |picks| - 1;
      var init, i := picks[..n], picks[n];
      assert i !in init;
      RecoveredRows(jobs, runId, init, now, k);
      UnpickedStay(jobs, runId, init, i);
      NextRow(jobs, RecoverRows(jobs, runId, init), runId, picks, k);
    }
  }

  /** One more job is handled. */
  lemma NextRow(jobs: seq<Job>, before: seq<Job>, runId: nat, picks: seq<nat>, k: nat)
    requires picks != [] && |before| == |jobs| && k < |jobs|
    requires var i := picks[|picks| - 1];
             i < |jobs| && i !in picks[..|picks| - 1] && jobs[i].runId == runId && Leased(jobs[i].status) && before[i] == jobs[i]
    requires before[k] == if jobs[k].runId == runId then RecoveredRow(jobs, picks[..|picks| - 1], jobs[k], k) else jobs[k]
    requires k in picks ==> jobs[k].runId == runId && Leased(jobs[k].status)
    ensures RecoverRow(before, runId, picks[|picks| - 1])[k] ==
            if jobs[k].runId == runId then RecoveredRow(jobs, picks, jobs[k], k) else jobs[k]
  {
    var n := |picks| - 1;
    PicksSplit(jobs, picks);
    ThenFailsSplits(jobs, picks, k);
    assert k in picks <==> k in picks[..n] || k == picks[n];
  }

  /**
   * Recovery fails the executions that it handles and skips what waits then; an assignment that it handles is queued,
   * unless an execution handled after it fails. The run fails if an execution of it was handled, and is queued again
   * if only assignments were and nothing of it runs or has succeeded, failed or been canceled.
   */
  lemma RecoveryIs(db: Database, runId: nat, picks: seq<nat>, now: Time, k: nat)
    requires DatabaseOk(db) && Picked(db.jobs, runId, picks, now) && k < |db.jobs|
    ensures var outcome, jobs := RecoverRunTx(db, runId, picks), db.jobs;
            outcome.Committed? && |outcome.value.jobs| == |jobs| &&
            outcome.value.jobs[k] == (if jobs[k].runId == runId then RecoveredRow(jobs, picks, jobs[k], k) else jobs[k]) &&
            if exists x :: 0 <= x < |picks| && jobs[picks[x]].status == Running
            then runId in db.runs && outcome.value.runs == db.runs[runId := db.runs[runId].(status := RunFailed)]
            else if picks != [] &&
                    forall m | 0 <= m < |jobs| && jobs[m].runId == runId ::
                      jobs[m].status != Running && jobs[m].status != Succeeded && jobs[m].status != Failed && jobs[m].status != Canceled
            then runId in db.runs && outcome.value.runs == db.runs[runId := db.runs[runId].(status := RunQueued)]
            else outcome.value.runs == db.runs
  {
    var jobs, after := db.jobs, RecoverRows(db.jobs, runId, picks);
    RecoveryCommits(db, runId, picks, now);
    RecoveredRows(jobs, runId, picks, now, k);
    assert AnyRunning(jobs, picks) <==> exists x :: 0 <= x < |picks| && jobs[picks[x]].status == Running;
    if !AnyRunning(jobs, picks) { StartedStays(jobs, runId, picks, now); }
  }

  lemma RecoveryCommits(db: Database, runId: nat, picks: seq<nat>, now: Time)
    requires DatabaseOk(db) && Picked(db.jobs, runId, picks, now)
    ensures var outcome, after := RecoverRunTx(db, runId, picks), RecoverRows(db.jobs, runId, picks);
            outcome.Committed? && outcome.value.jobs == after && (picks != [] ==> runId in db.runs) &&
            outcome.value.runs ==
              if AnyRunning(db.jobs, picks) then SetStatus(db, runId, RunFailed).runs
              else if picks != [] && !RunStartedWork(after, runId) then SetStatus(db, runId, RunQueued).runs
              else db.runs
  {
    RecoveryFits(db, runId, picks, now);
    RecoveryShape(db, runId, picks);
  }

  lemma RecoveryFits(db: Database, runId: nat, picks: seq<nat>, now: Time)
    requires DatabaseOk(db) && Picked(db.jobs, runId, picks, now)
    ensures RecoverRunTx(db, runId, picks) != RolledBack(StatusMismatch)
    ensures picks != [] ==> runId in db.runs
  {
    RecoverKeeps(db, runId, picks, now);
    if picks != [] { LeasedRunIsOpen(db, picks[0]); }
  }

  lemma RecoveryShape(db: Database, runId: nat, picks: seq<nat>)
    requires forall x | 0 <= x < |picks| :: picks[x] < |db.jobs|
    requires RecoverRunTx(db, runId, picks) != RolledBack(StatusMismatch)
    ensures var outcome, after := RecoverRunTx(db, runId, picks), RecoverRows(db.jobs, runId, picks);
            outcome.Committed? && outcome.value.jobs == after &&
            outcome.value.runs ==
              if AnyRunning(db.jobs, picks) then SetStatus(db, runId, RunFailed).runs
              else if picks != [] && !RunStartedWork(after, runId) then SetStatus(db, runId, RunQueued).runs
              else db.runs
  {
    if AnyRunning(db.jobs, picks) {
      EnqueueIs(SetStatus(db.(jobs := RecoverRows(db.jobs, runId, picks)), runId, RunFailed), runId, RunFailed);
    }
  }

  /** If no execution is handled, nothing of the run that runs or has ended changes. */
  lemma StartedStays(jobs: seq<Job>, runId: nat, picks: seq<nat>, now: Time)
    requires Picked(jobs, runId, picks, now) && !AnyRunning(jobs, picks)
    ensures RunStartedWork(RecoverRows(jobs, runId, picks), runId) <==>
            exists m :: 0 <= m < |jobs| && jobs[m].runId == runId &&
              (jobs[m].status == Running || jobs[m].status == Succeeded || jobs[m].status == Failed || jobs[m].status == Canceled)
  {
    var after := RecoverRows(jobs, runId, picks);
    forall m | 0 <= m < |jobs|
      ensures after[m].runId == jobs[m].runId && (after[m].status == jobs[m].status || (jobs[m].status == Assigned && after[m].status == Queued))
    {
      RecoveredRows(jobs, runId, picks, now, m);
      assert m in picks ==> jobs[m].status == Assigned;
      NothingFails(jobs, picks, m);
    }
    if m :| 0 <= m < |jobs| && jobs[m].runId == runId &&
            (jobs[m].status == Running || jobs[m].status == Succeeded || jobs[m].status == Failed || jobs[m].status == Canceled)
    {
      assert RunHas(after, runId, jobs[m].status);
    }
  }

  lemma NothingFails(jobs: seq<Job>, picks: seq<nat>, k: nat)
    requires !AnyRunning(jobs, picks)
    ensures !ThenFails(jobs, picks, k)
  {
  }

  // Reruns.

  /** A rerun is granted exactly for an ended run with jobs, and in failed mode only if it failed; the new run has its plan and is queued. */
  lemma RerunIs(db: Database, oldId: nat, newId: nat, ids: seq<nat>, failedMode: bool)
    requires DatabaseOk(db) && oldId in db.runs && FreshRow(db, newId, db.runs[oldId].stages, ids)
    ensures var outcome, old_ := RerunTx(db, oldId, newId, ids, failedMode), db.runs[oldId];
            (outcome.Committed? <==>
              (old_.status == RunFailed || (!failedMode && (old_.status == RunSucceeded || old_.status == RunCanceled))) &&
              exists i :: 0 <= i < |db.jobs| && db.jobs[i].runId == oldId) &&
            (outcome.Committed? ==>
              outcome.value.runs == db.runs[newId := old_.(status := RunQueued)] &&
              |outcome.value.jobs| == |db.jobs| + |ids| && outcome.value.jobs[..|db.jobs|] == db.jobs)
  {
    if Rerunnable(db, oldId, failedMode) {
      var created := CreatedAgainCommits(db, oldId, newId, ids);
      OldJobsStay(db.jobs, created.jobs, oldId, newId) by {
        assert RunsKnown(db);
        assert created.jobs[..|db.jobs|] == db.jobs;
      }
      RerunShape(db, oldId, newId, ids, failedMode, created);
    }
  }

  lemma RerunShape(db: Database, oldId: nat, newId: nat, ids: seq<nat>, failedMode: bool, created: Database)
    requires Rerunnable(db, oldId, failedMode) && |ids| == |Flatten(db.runs[oldId].stages)|
    requires CreatedAgain(db, oldId, newId, ids) == Committed(created)
    ensures RerunTx(db, oldId, newId, ids, failedMode) ==
            Committed(if failedMode then created.(jobs := UnblockReady(Reuse(created.jobs, newId, oldId), newId)) else created)
  {
  }

  lemma OldJobsStay(jobs: seq<Job>, created: seq<Job>, oldId: nat, newId: nat)
    requires |created| >= |jobs| && created[..|jobs|] == jobs && forall k | 0 <= k < |jobs| :: jobs[k].runId != newId
    ensures UnblockReady(Reuse(created, newId, oldId), newId)[..|jobs|] == jobs
  {
    var after := UnblockReady(Reuse(created, newId, oldId), newId);
    forall k | 0 <= k < |jobs| ensures after[k] == jobs[k] { assert created[k] == jobs[k]; }
  }
}
