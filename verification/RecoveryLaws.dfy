// What recovery of expired leases makes of each job and of the record of each run, from the
// store it finds.

module RecoveryLaws {
  import opened Basics
  import opened RunModel
  import opened JobInvariants
  import opened Scheduler
  import opened SchedulerSafety
  import opened TransitionTable
  import opened RunOutcome

  /** Among the first `n` jobs, one of the run with this status is handled. */
  predicate HandlesOf(jobs: seq<Job>, n: nat, runId: nat, status: JobStatus, limit: int, now: Time)
    requires n <= |jobs|
  {
    exists i :: 0 <= i < n && jobs[i].runId == runId && jobs[i].status == status && Handled(jobs, i, limit, now)
  }

  lemma HandlesGrows(jobs: seq<Job>, n: nat, runId: nat, status: JobStatus, limit: int, now: Time)
    requires n < |jobs|
    ensures HandlesOf(jobs, n + 1, runId, status, limit, now) <==>
            HandlesOf(jobs, n, runId, status, limit, now) ||
            (jobs[n].runId == runId && jobs[n].status == status && Handled(jobs, n, limit, now))
  {
  }

  // Jobs.

  /** An execution fails exactly when it is handled. */
  lemma {:induction false} RunningRecovers(s: Store, n: nat, limit: int, now: Time, i: nat)
    requires n <= |s.jobs| && limit >= 1 && i < |s.jobs| && s.jobs[i].status == Running
    ensures RecoverUpTo(s, n, limit, now).store.jobs[i].status ==
            if i < n && Handled(s.jobs, i, limit, now) then Failed else Running
  {
    if n > 0 {
      RunningRecovers(s, n - 1, limit, now, i);
      TurnStatus(s, n - 1, limit, now, i);
    }
  }

  /** A job that waits is skipped exactly when an execution of its run is handled. */
  lemma {:induction false} WaitingRecovers(s: Store, n: nat, limit: int, now: Time, i: nat)
    requires n <= |s.jobs| && limit >= 1 && i < |s.jobs| && (s.jobs[i].status == Blocked || s.jobs[i].status == Queued)
    ensures RecoverUpTo(s, n, limit, now).store.jobs[i].status ==
            if HandlesOf(s.jobs, n, s.jobs[i].runId, Running, limit, now) then Skipped else s.jobs[i].status
  {
    if n > 0 {
      WaitingRecovers(s, n - 1, limit, now, i);
      TurnStatus(s, n - 1, limit, now, i);
      HandlesGrows(s.jobs, n - 1, s.jobs[i].runId, Running, limit, now);
    }
  }

  /** What is left of the lease of a handled job. */
  function Released(j: Job, now: Time): Job {
    if j.status == Assigned then j.(runnerId := 0, acceptedAt := None, token := 0, expires := now) else j.(token := 0)
  }

  /** The rows differ at most in their status. */
  predicate SameButStatus(j: Job, j': Job) {
    j'.(status := j.status) == j
  }

  lemma RecoveredRow(s: Store, k: nat, now: Time, i: nat)
    requires k < |s.jobs| && i < |s.jobs|
    ensures SameButStatus(if i == k then Released(s.jobs[k], now) else s.jobs[i], RecoverAt(s, k, now).jobs[i])
  {
  }

  lemma RowTurn(s: Store, n: nat, limit: int, now: Time, i: nat)
    requires n < |s.jobs| && limit >= 1 && i < |s.jobs|
    ensures SameButStatus(
              if i == n && Handled(s.jobs, n, limit, now) then Released(s.jobs[n], now) else RecoverUpTo(s, n, limit, now).store.jobs[i],
              RecoverUpTo(s, n + 1, limit, now).store.jobs[i])
  {
    RecoverTurn(s, n, limit, now);
    if Handled(s.jobs, n, limit, now) { RecoveredRow(RecoverUpTo(s, n, limit, now).store, n, now, i); }
  }

  /** Whatever its status becomes, a handled assignment is free for anybody, a handled execution has no token, and other rows keep their lease. */
  lemma {:induction false} RowsRecover(s: Store, n: nat, limit: int, now: Time, i: nat)
    requires n <= |s.jobs| && limit >= 1 && i < |s.jobs|
    ensures SameButStatus(if i < n && Handled(s.jobs, i, limit, now) then Released(s.jobs[i], now) else s.jobs[i],
                          RecoverUpTo(s, n, limit, now).store.jobs[i])
  {
    if n > 0 {
      RowsRecover(s, n - 1, limit, now, i);
      RowTurn(s, n - 1, limit, now, i);
    }
  }

  /** The jobs of this status that recovery handles among the first `n`. */
  function HandledOf(jobs: seq<Job>, n: nat, status: JobStatus, limit: int, now: Time): set<nat>
    requires n <= |jobs|
  {
    set i: nat | i < n && jobs[i].status == status && Handled(jobs, i, limit, now)
  }

  lemma CountGrows(picked: nat -> bool, n: nat)
    ensures |set i: nat | i < n + 1 && picked(i)| == |set i: nat | i < n && picked(i)| + if picked(n) then 1 else 0
  {
    var before := set i: nat | i < n && picked(i);
    assert (set i: nat | i < n + 1 && picked(i)) == before + if picked(n) then {n} else {};
  }

  lemma HandledOfGrows(jobs: seq<Job>, n: nat, status: JobStatus, limit: int, now: Time)
    requires n < |jobs|
    ensures |HandledOf(jobs, n + 1, status, limit, now)| ==
            |HandledOf(jobs, n, status, limit, now)| + if jobs[n].status == status && Handled(jobs, n, limit, now) then 1 else 0
  {
    var picked := (i: nat) => i < |jobs| && jobs[i].status == status && Handled(jobs, i, limit, now);
    CountGrows(picked, n);
    assert HandledOf(jobs, n, status, limit, now) == set i: nat | i < n && picked(i);
    assert HandledOf(jobs, n + 1, status, limit, now) == set i: nat | i < n + 1 && picked(i);
  }

  lemma {:induction false} CountsRecover(s: Store, n: nat, limit: int, now: Time)
    requires n <= |s.jobs| && limit >= 1
    ensures RecoverUpTo(s, n, limit, now).requeued == |HandledOf(s.jobs, n, Assigned, limit, now)|
    ensures RecoverUpTo(s, n, limit, now).failed == |HandledOf(s.jobs, n, Running, limit, now)|
  {
    if n == 0 {
      assert HandledOf(s.jobs, 0, Assigned, limit, now) == {} && HandledOf(s.jobs, 0, Running, limit, now) == {};
    } else {
      CountsRecover(s, n - 1, limit, now);
      HandledOfGrows(s.jobs, n - 1, Assigned, limit, now);
      HandledOfGrows(s.jobs, n - 1, Running, limit, now);
      RecoverCounts(s, n - 1, limit, now);
      UnhandledKeepsLeased(s, n - 1, limit, now);
    }
  }

  /** Recovery answers how many assignments it requeued and how many executions it failed; a limit outside 1 to 100 is refused. */
  lemma RecoveryAnswers(s: Store, limit: int, now: Time)
    ensures if 1 <= limit <= 100
            then RecoverResult(s, limit, now) ==
                   Success((|set i: nat | i < |s.jobs| && s.jobs[i].status == Assigned && Handled(s.jobs, i, limit, now)|,
                            |set i: nat | i < |s.jobs| && s.jobs[i].status == Running && Handled(s.jobs, i, limit, now)|))
            else RecoverResult(s, limit, now) == Failure(InvalidLimit) && Recover(s, limit, now) == s
  {
    if 1 <= limit <= 100 { CountsRecover(s, |s.jobs|, limit, now); }
  }

  // Runs.

  lemma RequeueKeepsStarted(jobs: seq<Job>, k: nat, now: Time, runId: nat)
    requires k < |jobs| && jobs[k].status == Assigned
    ensures RunStartedWork(jobs[k := RequeueOne(jobs[k], now)], runId) <==> RunStartedWork(jobs, runId)
  {
    var after := jobs[k := RequeueOne(jobs[k], now)];
    forall status | status != Assigned && status != Queued ensures RunHas(after, runId, status) <==> RunHas(jobs, runId, status) {
      HasElsewhere(jobs, after, k, runId, status);
    }
  }

  lemma HasElsewhere(a: seq<Job>, b: seq<Job>, k: nat, runId: nat, status: JobStatus)
    requires |a| == |b| && k < |a| && a[k].status != status && b[k].status != status
    requires forall i | 0 <= i < |a| && i != k :: a[i] == b[i]
    ensures RunHas(a, runId, status) <==> RunHas(b, runId, status)
  {
    if RunHas(a, runId, status) {
      var i :| 0 <= i < |a| && a[i].runId == runId && a[i].status == status;
      assert b[i] == a[i];
    }
    if RunHas(b, runId, status) {
      var i :| 0 <= i < |b| && b[i].runId == runId && b[i].status == status;
      assert b[i] == a[i];
    }
  }

  lemma FailKeepsStarted(jobs: seq<Job>, k: nat, runId: nat)
    requires k < |jobs| && jobs[k].status == Running
    ensures RunStartedWork(Sweep(jobs[k := FailOne(jobs[k])], jobs[k].runId), runId) <==> RunStartedWork(jobs, runId)
  {
    var after := Sweep(jobs[k := FailOne(jobs[k])], jobs[k].runId);
    if jobs[k].runId == runId {
      assert after[k].status == Failed;
      assert RunHas(jobs, runId, Running) && RunHas(after, runId, Failed);
    } else {
      forall status | status == Running || status == Succeeded || status == Failed || status == Canceled
        ensures RunHas(after, runId, status) <==> RunHas(jobs, runId, status)
      {
        OtherRunHas(jobs, after, runId, status);
      }
    }
  }

  lemma OtherRunHas(a: seq<Job>, b: seq<Job>, runId: nat, status: JobStatus)
    requires |a| == |b| && forall i | 0 <= i < |a| :: a[i].runId == b[i].runId && (a[i].runId == runId ==> a[i] == b[i])
    ensures RunHas(a, runId, status) <==> RunHas(b, runId, status)
  {
    if RunHas(a, runId, status) {
      var i :| 0 <= i < |a| && a[i].runId == runId && a[i].status == status;
      assert b[i] == a[i];
    }
    if RunHas(b, runId, status) {
      var i :| 0 <= i < |b| && b[i].runId == runId && b[i].status == status;
      assert b[i] == a[i];
    }
  }

  lemma RecoverAtKeepsStarted(s: Store, k: nat, now: Time, runId: nat)
    requires k < |s.jobs| && Leased(s.jobs[k].status)
    ensures RunStartedWork(RecoverAt(s, k, now).jobs, runId) <==> RunStartedWork(s.jobs, runId)
  {
    if s.jobs[k].status == Assigned { RequeueKeepsStarted(s.jobs, k, now, runId); } else { FailKeepsStarted(s.jobs, k, runId); }
  }

  lemma {:induction false} RecoverKeepsStarted(s: Store, n: nat, limit: int, now: Time, runId: nat)
    requires n <= |s.jobs| && limit >= 1
    ensures RunStartedWork(RecoverUpTo(s, n, limit, now).store.jobs, runId) <==> RunStartedWork(s.jobs, runId)
  {
    if n > 0 {
      RecoverKeepsStarted(s, n - 1, limit, now, runId);
      RecoverTurn(s, n - 1, limit, now);
      if Handled(s.jobs, n - 1, limit, now) { RecoverAtKeepsStarted(RecoverUpTo(s, n - 1, limit, now).store, n - 1, now, runId); }
    }
  }

  /** One recovered job and the record of one run. */
  lemma RecoverAtRecord(s: Store, k: nat, now: Time, x: nat)
    requires k < |s.jobs| && Leased(s.jobs[k].status) && DistinctRecords(s.records) && x < |s.records|
    ensures var rec, records := s.records[x], RecoverAt(s, k, now).records;
            |records| == |s.records| && DistinctRecords(records) &&
            records[x] ==
              if s.jobs[k].runId != rec.id then rec
              else if s.jobs[k].status == Running then rec.(status := RunFailed, finishedAt := Some(now))
              else if RunStartedWork(s.jobs, rec.id) then rec
              else rec.(status := RunQueued, startedAt := None, finishedAt := None)
  {
    var after := RecoverAt(s, k, now);
    if s.jobs[k].status == Assigned {
      RequeueKeepsStarted(s.jobs, k, now, s.jobs[k].runId);
      SameIdsDistinct(s.records, after.records);
    } else {
      var set_ := SetRunStatus(s.records, s.jobs[k].runId, RunFailed);
      SetStatusAt(s.records, s.jobs[k].runId, RunFailed, x);
      SameIdsDistinct(s.records, after.records);
    }
  }

  /** The record of a run after recovery. */
  function RecordAfter(rec: Record, failed: bool, requeued: bool, started: bool, now: Time): Record {
    if failed then rec.(status := RunFailed, finishedAt := Some(now))
    else if requeued && !started then rec.(status := RunQueued, startedAt := None, finishedAt := None)
    else rec
  }

  lemma {:induction false} RecordsRecover(s: Store, n: nat, limit: int, now: Time, x: nat)
    requires n <= |s.jobs| && limit >= 1 && DistinctRecords(s.records) && x < |s.records|
    ensures var records, runId := RecoverUpTo(s, n, limit, now).store.records, s.records[x].id;
            |records| == |s.records| && DistinctRecords(records) &&
            records[x] == RecordAfter(s.records[x], HandlesOf(s.jobs, n, runId, Running, limit, now),
                                      HandlesOf(s.jobs, n, runId, Assigned, limit, now), RunStartedWork(s.jobs, runId), now)
  {
    if n > 0 {
      var k, runId := n - 1, s.records[x].id;
      var before := RecoverUpTo(s, k, limit, now).store;
      RecordsRecover(s, k, limit, now, x);
      RecoverTurn(s, k, limit, now);
      HandlesGrows(s.jobs, k, runId, Running, limit, now);
      HandlesGrows(s.jobs, k, runId, Assigned, limit, now);
      RecoverKeepsStarted(s, k, limit, now, runId);
      if Handled(s.jobs, k, limit, now) {
        RecoverAtRecord(before, k, now, x);
        if HandlesOf(s.jobs, n, runId, Running, limit, now) { RunningIsStarted(s.jobs, n, runId, limit, now); }
      }
    }
  }

  lemma RunningIsStarted(jobs: seq<Job>, n: nat, runId: nat, limit: int, now: Time)
    requires n <= |jobs| && HandlesOf(jobs, n, runId, Running, limit, now)
    ensures RunStartedWork(jobs, runId)
  {
    var i :| 0 <= i < n && jobs[i].runId == runId && jobs[i].status == Running && Handled(jobs, i, limit, now);
    assert RunHas(jobs, runId, Running);
  }

  /**
   * A recovery fails a run exactly when it handles an execution of it. Otherwise a run of which it handles an
   * assignment is queued again if no job of it runs or ever ended by succeeding, failing or being canceled,
   * and everything else about runs stays as it was.
   */
  lemma RecoveredRunIs(s: Store, limit: int, now: Time, x: nat)
    requires 1 <= limit <= 100 && x < |s.records|
    requires forall y, z | 0 <= y < z < |s.records| :: s.records[y].id != s.records[z].id
    ensures var rec, jobs, records := s.records[x], s.jobs, Recover(s, limit, now).records;
            |records| == |s.records| &&
            records[x] ==
              if exists i :: 0 <= i < |jobs| && jobs[i].runId == rec.id && jobs[i].status == Running && Handled(jobs, i, limit, now)
              then rec.(status := RunFailed, finishedAt := Some(now))
              else if (exists i :: 0 <= i < |jobs| && jobs[i].runId == rec.id && jobs[i].status == Assigned && Handled(jobs, i, limit, now)) &&
                      !exists i :: 0 <= i < |jobs| && jobs[i].runId == rec.id &&
                                   (jobs[i].status == Running || jobs[i].status == Succeeded || jobs[i].status == Failed || jobs[i].status == Canceled)
              then rec.(status := RunQueued, startedAt := None, finishedAt := None)
              else rec
  {
    RecordsRecover(s, |s.jobs|, limit, now, x);
    StartedIs(s.jobs, s.records[x].id);
  }

  lemma StartedIs(jobs: seq<Job>, runId: nat)
    ensures RunStartedWork(jobs, runId) <==>
            exists i :: 0 <= i < |jobs| && jobs[i].runId == runId &&
              (jobs[i].status == Running || jobs[i].status == Succeeded || jobs[i].status == Failed || jobs[i].status == Canceled)
  {
    if i :| 0 <= i < |jobs| && jobs[i].runId == runId &&
            (jobs[i].status == Running || jobs[i].status == Succeeded || jobs[i].status == Failed || jobs[i].status == Canceled)
    {
      assert RunHas(jobs, runId, jobs[i].status);
    }
  }
}
