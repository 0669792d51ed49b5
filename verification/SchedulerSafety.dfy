// Consequences over whole runs of the scheduler: which status changes happen, fencing
// of old lease tokens, Runner capacity, and the outcome recorded for a run.

module SchedulerSafety {
  import opened PipelineCompiler
  import opened RunGraph
  import opened Basics
  import opened RunModel
  import opened JobInvariants
  import opened Scheduler

  /** At most two steps of the documented transition table. */
  ghost predicate TwoStepTransition(from: JobStatus, to: JobStatus) {
    from == to || ValidJobTransition(from, to) ||
    exists mid {:trigger ValidJobTransition(from, mid)} :: ValidJobTransition(from, mid) && ValidJobTransition(mid, to)
  }

  /** What one operation may do to one job. */
  ghost predicate JobStep(j: Job, j': Job, issued: set<nat>) {
    SameShape(j, j') && TwoStepTransition(j.status, j'.status) && (JobTerminal(j.status) ==> j' == j) &&
    (j'.token == j.token || j'.token == NO_TOKEN || j'.token !in issued)
  }

  lemma HandedOverTransitions()
    ensures forall to | CompletionStatus(to) || to == Running || to == Queued || to == Skipped :: TwoStepTransition(Assigned, to)
    ensures forall to | CompletionStatus(to) :: TwoStepTransition(Running, to)
  {
    assert ValidJobTransition(Assigned, Running) && ValidJobTransition(Assigned, Queued);
  }

  // Renewal and recovery, job by job.

  predicate RenewedJob(j: Job, j': Job) {
    j' == j || (Leased(j.status) && j' == j.(expires := j'.expires))
  }

  lemma {:induction false} RenewTouches(jobs: seq<Job>, runnerId: nat, leases: seq<ActiveLease>, now: Time, i: nat)
    requires i < |jobs|
    ensures RenewedJob(jobs[i], RenewAll(jobs, runnerId, leases, now)[i])
  {
    if leases != [] { RenewTouches(jobs, runnerId, leases[..|leases| - 1], now, i); }
  }

  /** Recovery requeues expired assignments, fails expired executions and sweeps what was not handed out. */
  predicate RecoveredJob(j: Job, j': Job, now: Time) {
    j' == j ||
    ((j.status == Blocked || j.status == Queued) && j' == j.(status := Skipped)) ||
    (j.status == Assigned && Expired(j, now) && (j' == RequeueOne(j, now) || j' == RequeueOne(j, now).(status := Skipped))) ||
    (j.status == Running && Expired(j, now) && j' == FailOne(j))
  }

  lemma RecoverNextTouches(before: Recovery, i: nat, limit: int, now: Time, k: nat, j: Job)
    requires i < |before.store.jobs| && k < |before.store.jobs|
    requires RecoveredJob(j, before.store.jobs[k], now)
    requires k >= i ==> before.store.jobs[k] == SweepOne(j.runId, j) || before.store.jobs[k] == j
    ensures RecoveredJob(j, RecoverNext(before, i, limit, now).store.jobs[k], now)
    ensures k > i ==> RecoverNext(before, i, limit, now).store.jobs[k] == SweepOne(j.runId, j) ||
                      RecoverNext(before, i, limit, now).store.jobs[k] == j
  {
  }

  lemma {:induction false} RecoverTouches(s: Store, n: nat, limit: int, now: Time, k: nat)
    requires n <= |s.jobs| && k < |s.jobs|
    ensures var j' := RecoverUpTo(s, n, limit, now).store.jobs[k];
            RecoveredJob(s.jobs[k], j', now) &&
            (k >= n ==> j' == SweepOne(s.jobs[k].runId, s.jobs[k]) || j' == s.jobs[k])
  {
    if n > 0 {
      RecoverTouches(s, n - 1, limit, now, k);
      RecoverNextTouches(RecoverUpTo(s, n - 1, limit, now), n - 1, limit, now, k, s.jobs[k]);
    }
  }

  // Every step of every job.

  lemma CompletedJob(jobs: seq<Job>, c: nat, status: JobStatus, i: nat)
    requires c < |jobs| && i < |jobs|
    ensures var j, j' := jobs[i], CompleteJobs(jobs, c, status)[i];
            (i == c && j' == CompleteOne(j, status)) || j' == j ||
            (i != c && j.status == Blocked && j' == j.(status := Queued)) ||
            (i != c && (j.status == Blocked || j.status == Queued) && j' == j.(status := Skipped)) ||
            (i == c && !CompletionStatus(status))
  {
  }

  lemma CompleteJobStep(s: Store, r: nat, j: nat, t: nat, status: JobStatus, now: Time, i: nat, issued: set<nat>)
    requires i < |s.jobs|
    ensures JobStep(s.jobs[i], Complete(s, r, j, t, status, now).jobs[i], issued)
  {
    HandedOverTransitions();
    if ValidLeaseRequest(r, j, t) && CompletionStatus(status) && Authorized(s.jobs, r, j, t, now) {
      CompletedJob(s.jobs, FindJob(s.jobs, j), status, i);
      assert Complete(s, r, j, t, status, now).jobs == CompleteJobs(s.jobs, FindJob(s.jobs, j), status);
    }
  }

  lemma HolderJobStep(s: Store, r: nat, j: nat, t: nat, now: Time, i: nat, issued: set<nat>)
    requires i < |s.jobs|
    ensures JobStep(s.jobs[i], Acknowledge(s, r, j, t, now).jobs[i], issued)
    ensures JobStep(s.jobs[i], Release(s, r, j, t, now).jobs[i], issued)
    ensures JobStep(s.jobs[i], Start(s, r, j, t, now).jobs[i], issued)
  {
  }

  lemma ClaimJobStep(s: Store, r: nat, t: nat, now: Time, i: nat, issued: set<nat>)
    requires i < |s.jobs| && t !in issued
    ensures JobStep(s.jobs[i], Claim(s, r, t, now).jobs[i], issued)
  {
  }

  /** Each operation moves each job by at most two table steps, leaves terminal jobs alone, and never reuses a token. */
  lemma EveryStepIsJobStep(w: World, op: Op, now: Time, i: nat)
    requires Enabled(w, op) && i < |w.store.jobs|
    ensures i < |Effect(w.store, op, now).jobs| && JobStep(w.store.jobs[i], Effect(w.store, op, now).jobs[i], w.issued)
  {
    var s := w.store;
    match op
    case CreateRun(_, _, _) =>
    case ClaimJob(r, t) => ClaimJobStep(s, r, t, now, i, w.issued);
    case AcknowledgeJob(r, j, t) => HolderJobStep(s, r, j, t, now, i, w.issued);
    case ReleaseJob(r, j, t) => HolderJobStep(s, r, j, t, now, i, w.issued);
    case StartJob(r, j, t) => HolderJobStep(s, r, j, t, now, i, w.issued);
    case CompleteJob(r, j, t, status) => CompleteJobStep(s, r, j, t, status, now, i, w.issued);
    case Heartbeat(runner, leases) => if ValidHeartbeat(runner, leases) { RenewTouches(s.jobs, runner.id, leases, now, i); }
    case RecoverLeases(limit) =>
      RecoverTouches(s, |s.jobs|, limit, now, i);
      HandedOverTransitions();
  }

  lemma TerminalStays(w: World, w': World, i: nat)
    requires Next(w, w') && i < |w.store.jobs| && JobTerminal(w.store.jobs[i].status)
    ensures i < |w'.store.jobs| && w'.store.jobs[i] == w.store.jobs[i]
  {
    var op, now :| w.now <= now && Enabled(w, op) && w' == Apply(w, op, now);
    EveryStepIsJobStep(w, op, now, i);
  }

  /** A job that ended is never changed again: in particular it is completed at most once. */
  lemma {:induction false} TerminalForever(trace: seq<World>, m: nat, n: nat, i: nat)
    requires Behaviour(trace) && m <= n < |trace| && i < |trace[m].store.jobs| && JobTerminal(trace[m].store.jobs[i].status)
    ensures i < |trace[n].store.jobs| && trace[n].store.jobs[i] == trace[m].store.jobs[i]
    decreases n
  {
    if m < n {
      TerminalForever(trace, m, n - 1, i);
      assert Next(trace[n - 1], trace[n]);
      TerminalStays(trace[n - 1], trace[n], i);
    }
  }

  // Dependencies and progress.

  lemma {:induction false} LastStatusNamesJob(jobs: seq<Job>, runId: nat, key: string)
    requires LastStatus(jobs, runId, key) == Some(Succeeded)
    ensures SucceededKey(jobs, runId, key)
  {
    var n := |jobs| - 1;
    if !(jobs[n].runId == runId && jobs[n].key == key) {
      LastStatusNamesJob(jobs[..n], runId, key);
      var k :| 0 <= k < n && jobs[..n][k].runId == runId && jobs[..n][k].key == key && jobs[..n][k].status == Succeeded;
      assert jobs[k] == jobs[..n][k];
    }
  }

  lemma SatisfiedMeansSucceeded(jobs: seq<Job>, runId: nat, key: string)
    requires DistinctKeys(jobs)
    ensures LastStatus(jobs, runId, key) == Some(Succeeded) <==> SucceededKey(jobs, runId, key)
  {
    if LastStatus(jobs, runId, key) == Some(Succeeded) { LastStatusNamesJob(jobs, runId, key); }
    if SucceededKey(jobs, runId, key) {
      var k :| 0 <= k < |jobs| && jobs[k].runId == runId && jobs[k].key == key && jobs[k].status == Succeeded;
      LastStatusAt(jobs, k);
    }
  }

  lemma JobDependencies(jobs: seq<Job>, issued: set<nat>, i: nat)
    requires JobsOk(jobs, issued) && i < |jobs|
    ensures jobs[i].status != Blocked && jobs[i].status != Skipped ==>
      forall d | d in jobs[i].dependencies :: SucceededKey(jobs, jobs[i].runId, d)
    ensures jobs[i].status == Blocked ==>
      exists d :: d in jobs[i].dependencies && !SucceededKey(jobs, jobs[i].runId, d)
  {
    assert ReadinessOk(jobs, jobs[i]);
    forall d | d in jobs[i].dependencies
      ensures LastStatus(jobs, jobs[i].runId, d) == Some(Succeeded) <==> SucceededKey(jobs, jobs[i].runId, d)
    {
      SatisfiedMeansSucceeded(jobs, jobs[i].runId, d);
    }
  }

  /** In every reachable state a job that was let go has all its dependencies succeeded, and a blocked one has one that has not. */
  lemma DependencySafety(trace: seq<World>, n: nat, i: nat)
    requires Behaviour(trace) && n < |trace| && i < |trace[n].store.jobs|
    ensures var jobs := trace[n].store.jobs;
            (jobs[i].status != Blocked && jobs[i].status != Skipped ==>
              forall d | d in jobs[i].dependencies :: SucceededKey(jobs, jobs[i].runId, d)) &&
            (jobs[i].status == Blocked ==>
              exists d :: d in jobs[i].dependencies && !SucceededKey(jobs, jobs[i].runId, d))
  {
    BehaviourKeepsInv(trace, n);
    JobDependencies(trace[n].store.jobs, trace[n].issued, i);
  }

  /** In every reachable state a run with a blocked job has a job that is queued, assigned or running. */
  lemma NeverDeadlocked(trace: seq<World>, n: nat, i: nat)
    requires Behaviour(trace) && n < |trace| && i < |trace[n].store.jobs| && trace[n].store.jobs[i].status == Blocked
    ensures var jobs := trace[n].store.jobs;
            exists k :: 0 <= k < |jobs| && jobs[k].runId == jobs[i].runId && Open(jobs[k].status)
  {
    BehaviourKeepsInv(trace, n);
    NoDeadlock(trace[n].store.jobs, trace[n].issued, i);
  }

  // Fencing.

  /** The token is not the current lease of the job. */
  predicate Stale(jobs: seq<Job>, jobId: nat, token: nat) {
    forall i | 0 <= i < |jobs| && jobs[i].id == jobId :: jobs[i].token != token
  }

  lemma StaleStaysStale(w: World, op: Op, now: Time, jobId: nat, token: nat)
    requires Enabled(w, op) && token in w.issued && token != NO_TOKEN && Stale(w.store.jobs, jobId, token)
    ensures Stale(Effect(w.store, op, now).jobs, jobId, token)
  {
    var after := Effect(w.store, op, now);
    forall i | 0 <= i < |after.jobs| && after.jobs[i].id == jobId ensures after.jobs[i].token != token {
      if i < |w.store.jobs| {
        EveryStepIsJobStep(w, op, now, i);
      } else {
        assert op.CreateRun? by { if !op.CreateRun? { EffectKeepsShapes(w.store, op, now); } }
      }
    }
  }

  /** Once a lease has ended or was reissued, its token is stale for ever. */
  lemma {:induction false} FencedForever(trace: seq<World>, m: nat, n: nat, jobId: nat, token: nat)
    requires Behaviour(trace) && m <= n < |trace| && token in trace[m].issued && token != NO_TOKEN
    requires Stale(trace[m].store.jobs, jobId, token)
    ensures token in trace[n].issued && Stale(trace[n].store.jobs, jobId, token)
    decreases n
  {
    if m < n {
      FencedForever(trace, m, n - 1, jobId, token);
      assert Next(trace[n - 1], trace[n]);
      var op, now :| trace[n - 1].now <= now && Enabled(trace[n - 1], op) && trace[n] == Apply(trace[n - 1], op, now);
      StaleStaysStale(trace[n - 1], op, now, jobId, token);
    }
  }

  /** A request that carries a stale token is refused and changes nothing. */
  lemma StaleIsRefused(s: Store, r: nat, jobId: nat, token: nat, status: JobStatus, now: Time)
    requires Stale(s.jobs, jobId, token) && ValidLeaseRequest(r, jobId, token) && CompletionStatus(status)
    ensures AcknowledgeResult(s, r, jobId, token, now) == Failure(LeaseInvalid) && Acknowledge(s, r, jobId, token, now) == s
    ensures ReleaseResult(s, r, jobId, token, now) == Failure(LeaseInvalid) && Release(s, r, jobId, token, now) == s
    ensures StartResult(s, r, jobId, token, now) == Failure(LeaseInvalid) && Start(s, r, jobId, token, now) == s
    ensures CompleteResult(s, r, jobId, token, status, now) == Failure(LeaseInvalid) && Complete(s, r, jobId, token, status, now) == s
  {
  }

  /** From the moment a token is no longer the job's lease, every request that carries it is refused and changes nothing. */
  lemma FencedOff(trace: seq<World>, m: nat, n: nat, r: nat, jobId: nat, token: nat, status: JobStatus, now: Time)
    requires Behaviour(trace) && m <= n < |trace| && token in trace[m].issued && Stale(trace[m].store.jobs, jobId, token)
    requires ValidLeaseRequest(r, jobId, token) && CompletionStatus(status)
    ensures var s := trace[n].store;
            AcknowledgeResult(s, r, jobId, token, now) == Failure(LeaseInvalid) && Acknowledge(s, r, jobId, token, now) == s &&
            ReleaseResult(s, r, jobId, token, now) == Failure(LeaseInvalid) && Release(s, r, jobId, token, now) == s &&
            StartResult(s, r, jobId, token, now) == Failure(LeaseInvalid) && Start(s, r, jobId, token, now) == s &&
            CompleteResult(s, r, jobId, token, status, now) == Failure(LeaseInvalid) &&
            Complete(s, r, jobId, token, status, now) == s
  {
    FencedForever(trace, m, n, jobId, token);
    StaleIsRefused(trace[n].store, r, jobId, token, status, now);
  }

  /** A heartbeat that lists a stale token gets a revocation, and the job's lease is not extended. */
  lemma {:induction false} StaleIsRevoked(jobs: seq<Job>, r: nat, leases: seq<ActiveLease>, now: Time, x: nat)
    requires x < |leases| && DistinctJobs(leases) && Stale(jobs, leases[x].jobId, leases[x].token)
    ensures |RenewResults(jobs, r, leases, now)| == |leases| && RenewResults(jobs, r, leases, now)[x] == Revoked(leases[x].jobId)
    ensures forall i | 0 <= i < |jobs| && jobs[i].id == leases[x].jobId :: RenewAll(jobs, r, leases, now)[i] == jobs[i]
  {
    var n := |leases| - 1;
    var init := leases[..n];
    if x < n {
      StaleIsRevoked(jobs, r, init, now, x);
    } else {
      RenewOthers(jobs, r, init, now, leases[x].jobId);
      RenewResultsLength(jobs, r, init, now);
    }
  }

  lemma {:induction false} RenewResultsLength(jobs: seq<Job>, r: nat, leases: seq<ActiveLease>, now: Time)
    ensures |RenewResults(jobs, r, leases, now)| == |leases|
  {
    if leases != [] { RenewResultsLength(jobs, r, leases[..|leases| - 1], now); }
  }

  lemma {:induction false} RenewOthers(jobs: seq<Job>, r: nat, leases: seq<ActiveLease>, now: Time, jobId: nat)
    requires forall x | 0 <= x < |leases| :: leases[x].jobId != jobId
    ensures var after := RenewAll(jobs, r, leases, now);
            forall i | 0 <= i < |jobs| :: after[i].id == jobs[i].id && (jobs[i].id == jobId ==> after[i] == jobs[i])
  {
    if leases != [] { RenewOthers(jobs, r, leases[..|leases| - 1], now, jobId); }
  }

  // Capacity.

  lemma {:induction false} HeldCountMonotone(a: seq<Job>, b: seq<Job>, r: nat, now: Time, later: Time)
    requires |a| == |b| && forall i | 0 <= i < |a| && Holds(b[i], r, later) :: Holds(a[i], r, now)
    ensures HeldCount(b, r, later) <= HeldCount(a, r, now)
  {
    if a != [] {
      var n := |a| - 1;
      assert forall i | 0 <= i < n :: a[..n][i] == a[i] && b[..n][i] == b[i];
      HeldCountMonotone(a[..n], b[..n], r, now, later);
    }
  }

  lemma {:induction false} HeldCountUpdate(jobs: seq<Job>, i: nat, j': Job, r: nat, now: Time)
    requires i < |jobs|
    ensures HeldCount(jobs[i := j'], r, now) ==
            HeldCount(jobs, r, now) - (if Holds(jobs[i], r, now) then 1 else 0) + if Holds(j', r, now) then 1 else 0
  {
    var n := |jobs| - 1;
    if i < n {
      assert jobs[i := j'][..n] == jobs[..n][i := j'];
      HeldCountUpdate(jobs[..n], i, j', r, now);
    } else {
      assert jobs[i := j'][..n] == jobs[..n];
    }
  }

  lemma {:induction false} HeldCountAppend(jobs: seq<Job>, added: seq<Job>, r: nat, now: Time)
    requires forall i | 0 <= i < |added| :: !Holds(added[i], r, now)
    ensures HeldCount(jobs + added, r, now) == HeldCount(jobs, r, now)
    decreases |added|
  {
    if added == [] {
      assert jobs + added == jobs;
    } else {
      var n := |added| - 1;
      assert (jobs + added)[..|jobs| + n] == jobs + added[..n];
      HeldCountAppend(jobs, added[..n], r, now);
    }
  }

  function Allowed(peak: map<nat, int>, r: nat): int {
    if r in peak then peak[r] else 0
  }

  /** Registered capacities are recorded, and no Runner holds more than the largest it ever registered. */
  ghost predicate CapacityOk(w: World) {
    w.store.runners.Keys == w.peak.Keys &&
    (forall r | r in w.peak :: 0 <= w.store.runners[r].capacity <= w.peak[r]) &&
    forall r: nat :: HeldCount(w.store.jobs, r, w.now) <= Allowed(w.peak, r)
  }

  /** Apart from a claim, no operation makes a Runner hold a job that it did not hold. */
  lemma OnlyClaimsHold(w: World, op: Op, now: Time, r: nat)
    requires Enabled(w, op) && w.now <= now && !op.ClaimJob?
    ensures HeldCount(Effect(w.store, op, now).jobs, r, now) <= HeldCount(w.store.jobs, r, w.now)
  {
    var jobs, after := w.store.jobs, Effect(w.store, op, now).jobs;
    if op.CreateRun? {
      HeldCountMonotone(jobs, jobs, r, w.now, now);
      if op.plan.Some? { HeldCountAppend(jobs, NewJobs(op.plan.value, op.record.id, op.ids), r, now); }
    } else {
      EffectKeepsShapes(w.store, op, now);
      forall i | 0 <= i < |jobs| && Holds(after[i], r, now) ensures Holds(jobs[i], r, w.now) {
        NothingElseHolds(w.store, op, now, i);
      }
      HeldCountMonotone(jobs, after, r, w.now, now);
    }
  }

  lemma NothingElseHolds(s: Store, op: Op, now: Time, i: nat)
    requires !op.ClaimJob? && !op.CreateRun? && i < |s.jobs| && |Effect(s, op, now).jobs| == |s.jobs|
    ensures forall r: nat | Holds(Effect(s, op, now).jobs[i], r, now) :: Holds(s.jobs[i], r, now)
  {
    match op
    case Heartbeat(runner, leases) => if ValidHeartbeat(runner, leases) { RenewHolds(s.jobs, runner.id, leases, now, i); }
    case RecoverLeases(limit) => RecoverTouches(s, |s.jobs|, limit, now, i);
    case CompleteJob(r, j, t, status) => CompleteHolds(s, r, j, t, status, now, i);
    case _ =>
  }

  lemma CompleteHolds(s: Store, r: nat, j: nat, t: nat, status: JobStatus, now: Time, i: nat)
    requires i < |s.jobs|
    ensures var after := Complete(s, r, j, t, status, now).jobs[i];
            Leased(after.status) ==> after == s.jobs[i]
  {
  }

  lemma {:induction false} RenewHolds(jobs: seq<Job>, runnerId: nat, leases: seq<ActiveLease>, now: Time, i: nat)
    requires i < |jobs|
    ensures var j' := RenewAll(jobs, runnerId, leases, now)[i];
            RenewedJob(jobs[i], j') && (LeaseAlive(j', now) ==> LeaseAlive(jobs[i], now))
  {
    if leases != [] { RenewHolds(jobs, runnerId, leases[..|leases| - 1], now, i); }
  }

  lemma ClaimWithinCapacity(w: World, op: Op, now: Time, r: nat)
    requires CapacityOk(w) && Enabled(w, op) && w.now <= now && op.ClaimJob?
    ensures HeldCount(Effect(w.store, op, now).jobs, r, now) <= Allowed(w.peak, r)
  {
    var s := w.store;
    HeldCountMonotone(s.jobs, s.jobs, r, w.now, now);
    if !ClaimRefused(s, op.runnerId) && ClaimIndex(s, op.runnerId, now) < |s.jobs| {
      var i := ClaimIndex(s, op.runnerId, now);
      HeldCountUpdate(s.jobs, i, ClaimOne(s.jobs[i], op.runnerId, op.token, now), r, now);
    }
  }

  lemma StepKeepsCapacityOk(w: World, op: Op, now: Time)
    requires CapacityOk(w) && Enabled(w, op) && w.now <= now
    ensures CapacityOk(Apply(w, op, now))
  {
    var after := Apply(w, op, now);
    EffectKeepsRunners(w.store, op, now);
    forall r: nat ensures HeldCount(after.store.jobs, r, now) <= Allowed(after.peak, r) {
      if op.ClaimJob? { ClaimWithinCapacity(w, op, now, r); } else { OnlyClaimsHold(w, op, now, r); }
    }
  }

  lemma EffectKeepsRunners(s: Store, op: Op, now: Time)
    requires op.CreateRun? && op.plan.Some? ==> |op.ids| == |Flatten(op.plan.value)|
    ensures Effect(s, op, now).runners ==
      if op.Heartbeat? && ValidHeartbeat(op.runner, op.leases) then s.runners[op.runner.id := op.runner] else s.runners
  {
    if op.RecoverLeases? { RecoverKeepsRunners(s, |s.jobs|, op.limit, now); }
  }

  lemma {:induction false} RecoverKeepsRunners(s: Store, n: nat, limit: int, now: Time)
    requires n <= |s.jobs|
    ensures RecoverUpTo(s, n, limit, now).store.runners == s.runners
  {
    if n > 0 { RecoverKeepsRunners(s, n - 1, limit, now); }
  }

  /** In every reachable state a Runner holds at most the largest capacity it ever registered. */
  lemma {:induction false} CapacityNeverExceeded(trace: seq<World>, n: nat)
    requires Behaviour(trace) && n < |trace|
    ensures CapacityOk(trace[n])
  {
    if n > 0 {
      CapacityNeverExceeded(trace, n - 1);
      assert Next(trace[n - 1], trace[n]);
      var op, now :| trace[n - 1].now <= now && Enabled(trace[n - 1], op) && trace[n] == Apply(trace[n - 1], op, now);
      StepKeepsCapacityOk(trace[n - 1], op, now);
    }
  }
}
