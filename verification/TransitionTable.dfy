// When a step of the in-memory store leaves the documented transition table of jobs.

module TransitionTable {
  import opened Basics
  import opened RunModel
  import opened JobInvariants
  import opened Scheduler
  import opened SchedulerSafety

  /** The status changes, and not by one step of the table. */
  predicate OffTable(from: JobStatus, to: JobStatus) {
    from != to && !ValidJobTransition(from, to)
  }

  // Which jobs recovery handles, by the state it finds.

  function ExpiredCount(jobs: seq<Job>, n: nat, now: Time): nat
    requires n <= |jobs|
  {
    if n == 0 then 0 else ExpiredCount(jobs, n - 1, now) + if Expired(jobs[n - 1], now) then 1 else 0
  }

  /** The lease of the job has expired, and fewer than `limit` leases of earlier jobs have. */
  predicate Handled(jobs: seq<Job>, i: nat, limit: int, now: Time)
    requires i < |jobs|
  {
    Expired(jobs[i], now) && ExpiredCount(jobs, i, now) < limit
  }

  /** A job of the same run between `i` and `n` was running and is handled. */
  predicate FailsBehind(jobs: seq<Job>, i: nat, n: nat, limit: int, now: Time)
    requires i < |jobs| && n <= |jobs|
  {
    exists k :: i < k < n && jobs[k].runId == jobs[i].runId && jobs[k].status == Running && Handled(jobs, k, limit, now)
  }

  lemma UnhandledKeepsLeased(s: Store, n: nat, limit: int, now: Time)
    requires n < |s.jobs|
    ensures var j := RecoverUpTo(s, n, limit, now).store.jobs[n];
            (Leased(s.jobs[n].status) || Leased(j.status) ==> j == s.jobs[n])
  {
    RecoverTouches(s, n, limit, now, n);
  }

  lemma {:induction false} RecoverCounts(s: Store, n: nat, limit: int, now: Time)
    requires n <= |s.jobs| && limit >= 1
    ensures var done, found := RecoverUpTo(s, n, limit, now).processed, ExpiredCount(s.jobs, n, now);
            done == if found < limit then found else limit
  {
    if n > 0 {
      RecoverCounts(s, n - 1, limit, now);
      UnhandledKeepsLeased(s, n - 1, limit, now);
    }
  }

  /** One turn of recovery: the handled jobs, and only those, are recovered. */
  lemma RecoverTurn(s: Store, n: nat, limit: int, now: Time)
    requires n < |s.jobs| && limit >= 1
    ensures var before, after := RecoverUpTo(s, n, limit, now).store, RecoverUpTo(s, n + 1, limit, now).store;
            if Handled(s.jobs, n, limit, now) then before.jobs[n] == s.jobs[n] && after == RecoverAt(before, n, now)
            else after == before
  {
    RecoverCounts(s, n, limit, now);
    UnhandledKeepsLeased(s, n, limit, now);
  }

  /** What one turn of recovery does to the status of one job. */
  function StatusAfterTurn(jobs: seq<Job>, n: nat, limit: int, now: Time, i: nat, status: JobStatus): JobStatus
    requires n < |jobs| && i < |jobs|
  {
    if !Handled(jobs, n, limit, now) then status
    else if i == n then (if jobs[n].status == Running then Failed else Queued)
    else if jobs[n].status == Running && jobs[i].runId == jobs[n].runId && (status == Blocked || status == Queued) then Skipped
    else status
  }

  lemma TurnStatus(s: Store, n: nat, limit: int, now: Time, i: nat)
    requires n < |s.jobs| && limit >= 1 && i < |s.jobs|
    ensures RecoverUpTo(s, n + 1, limit, now).store.jobs[i].status ==
            StatusAfterTurn(s.jobs, n, limit, now, i, RecoverUpTo(s, n, limit, now).store.jobs[i].status)
  {
    RecoverTurn(s, n, limit, now);
    RecoverTouches(s, n, limit, now, i);
  }

  /** An assigned job that is handled is queued again, and skipped if an execution of its run is failed behind it. */
  lemma {:induction false} AssignedRecovers(s: Store, n: nat, limit: int, now: Time, i: nat)
    requires n <= |s.jobs| && limit >= 1 && i < |s.jobs| && s.jobs[i].status == Assigned
    ensures RecoverUpTo(s, n, limit, now).store.jobs[i].status ==
            if n <= i || !Handled(s.jobs, i, limit, now) then Assigned
            else if FailsBehind(s.jobs, i, n, limit, now) then Skipped else Queued
  {
    if n > 0 {
      AssignedRecovers(s, n - 1, limit, now, i);
      TurnStatus(s, n - 1, limit, now, i);
      HandledInOrder(s.jobs, i, n - 1, limit, now);
      FailsBehindGrows(s.jobs, i, n, limit, now);
    }
  }

  lemma {:induction false} ExpiredCountGrows(jobs: seq<Job>, i: nat, n: nat, now: Time)
    requires i <= n <= |jobs|
    ensures ExpiredCount(jobs, i, now) <= ExpiredCount(jobs, n, now)
    decreases n
  {
    if i < n { ExpiredCountGrows(jobs, i, n - 1, now); }
  }

  /** An expired job before a handled one is handled too. */
  lemma HandledInOrder(jobs: seq<Job>, i: nat, k: nat, limit: int, now: Time)
    requires i < |jobs| && k < |jobs|
    ensures i < k && Handled(jobs, k, limit, now) && Expired(jobs[i], now) ==> Handled(jobs, i, limit, now)
  {
    if i < k { ExpiredCountGrows(jobs, i, k, now); }
  }

  lemma FailsBehindGrows(jobs: seq<Job>, i: nat, n: nat, limit: int, now: Time)
    requires i < |jobs| && 0 < n <= |jobs|
    ensures FailsBehind(jobs, i, n, limit, now) <==>
            FailsBehind(jobs, i, n - 1, limit, now) ||
            (i < n - 1 && jobs[n - 1].runId == jobs[i].runId && jobs[n - 1].status == Running && Handled(jobs, n - 1, limit, now))
  {
  }

  /** A handled job gives up its lease. */
  lemma {:induction false} HandledIsReleased(s: Store, n: nat, limit: int, now: Time, i: nat)
    requires i < n <= |s.jobs| && limit >= 1 && Handled(s.jobs, i, limit, now)
    ensures !Leased(RecoverUpTo(s, n, limit, now).store.jobs[i].status)
  {
    TurnStatus(s, n - 1, limit, now, i);
    if i < n - 1 { HandledIsReleased(s, n - 1, limit, now, i); }
  }

  // The two ways off the table.

  /** The holder completes job `i`, which never started, as succeeded or failed. */
  predicate CompletesUnstarted(s: Store, op: Op, now: Time, i: nat)
    requires i < |s.jobs|
  {
    op.CompleteJob? && ValidLeaseRequest(op.runnerId, op.jobId, op.token) && (op.status == Succeeded || op.status == Failed) &&
    Authorized(s.jobs, op.runnerId, op.jobId, op.token, now) && FindJob(s.jobs, op.jobId) == i && s.jobs[i].status == Assigned
  }

  /** Recovery takes the assigned job `i` back and then fails a later job of its run. */
  predicate SkipsRequeued(s: Store, op: Op, now: Time, i: nat)
    requires i < |s.jobs|
  {
    op.RecoverLeases? && ValidLimit(op.limit) && s.jobs[i].status == Assigned && Handled(s.jobs, i, op.limit, now) &&
    FailsBehind(s.jobs, i, |s.jobs|, op.limit, now)
  }

  lemma RecoverLeavesTableIff(s: Store, limit: int, now: Time, i: nat)
    requires i < |s.jobs|
    ensures OffTable(s.jobs[i].status, Recover(s, limit, now).jobs[i].status) <==> SkipsRequeued(s, RecoverLeases(limit), now, i)
  {
    if ValidLimit(limit) {
      RecoverTouches(s, |s.jobs|, limit, now, i);
      if s.jobs[i].status == Assigned { AssignedRecovers(s, |s.jobs|, limit, now, i); }
    }
  }

  lemma CompleteLeavesTableIff(s: Store, op: Op, now: Time, i: nat)
    requires i < |s.jobs| && op.CompleteJob?
    ensures OffTable(s.jobs[i].status, Effect(s, op, now).jobs[i].status) <==> CompletesUnstarted(s, op, now, i)
  {
    if ValidLeaseRequest(op.runnerId, op.jobId, op.token) && CompletionStatus(op.status) &&
       Authorized(s.jobs, op.runnerId, op.jobId, op.token, now)
    {
      var c := FindJob(s.jobs, op.jobId);
      CompletedJob(s.jobs, c, op.status, i);
      CompletedStatus(s.jobs, c, op.status);
      assert Effect(s, op, now).jobs == CompleteJobs(s.jobs, c, op.status);
    }
  }

  lemma CompletedStatus(jobs: seq<Job>, c: nat, status: JobStatus)
    requires c < |jobs| && CompletionStatus(status)
    ensures CompleteJobs(jobs, c, status)[c].status == status
  {
  }

  /** In a step a job leaves the table exactly when it is completed unstarted, or requeued and then skipped by one recovery. */
  lemma LeavesTableIff(w: World, op: Op, now: Time, i: nat)
    requires Enabled(w, op) && i < |w.store.jobs|
    ensures i < |Effect(w.store, op, now).jobs|
    ensures OffTable(w.store.jobs[i].status, Effect(w.store, op, now).jobs[i].status) <==>
            CompletesUnstarted(w.store, op, now, i) || SkipsRequeued(w.store, op, now, i)
  {
    var s := w.store;
    EveryStepIsJobStep(w, op, now, i);
    match op
    case CompleteJob(_, _, _, _) => CompleteLeavesTableIff(s, op, now, i);
    case RecoverLeases(limit) => RecoverLeavesTableIff(s, limit, now, i);
    case Heartbeat(runner, leases) => if ValidHeartbeat(runner, leases) { RenewTouches(s.jobs, runner.id, leases, now, i); }
    case _ =>
  }
}
