// The status that the in-memory store records for a run, against the jobs of the run.

module RunOutcome {
  import opened DependencyGraph
  import opened PipelineCompiler
  import opened RunGraph
  import opened Basics
  import opened RunModel
  import opened JobInvariants
  import opened Scheduler
  import opened SchedulerSafety

  predicate AllSucceeded(jobs: seq<Job>, runId: nat) {
    forall i | 0 <= i < |jobs| && jobs[i].runId == runId :: jobs[i].status == Succeeded
  }

  /** A recorded outcome is backed by the jobs, and a run whose jobs have all ended has an outcome. */
  predicate OutcomeOk(jobs: seq<Job>, runId: nat, status: RunStatus) {
    (status == RunSucceeded ==> AllSucceeded(jobs, runId)) &&
    (status == RunFailed ==> RunHas(jobs, runId, Failed)) &&
    (status == RunCanceled ==> !RunUnfinished(jobs, runId) && RunHas(jobs, runId, Canceled) && !RunHas(jobs, runId, Failed)) &&
    (HasJobs(jobs, runId) && !RunUnfinished(jobs, runId) ==> RunTerminal(status))
  }

  predicate DistinctRecords(records: seq<Record>) {
    forall x, y | 0 <= x < y < |records| :: records[x].id != records[y].id
  }

  predicate RecordsOk(s: Store) {
    DistinctRecords(s.records) && forall x {:trigger s.records[x]} | 0 <= x < |s.records| :: OutcomeOk(s.jobs, s.records[x].id, s.records[x].status)
  }

  /** The run still has work: its outcome can only be none, or the early failure of recovery. */
  lemma OpenRun(jobs: seq<Job>, runId: nat, status: RunStatus, i: nat)
    requires i < |jobs| && jobs[i].runId == runId && Open(jobs[i].status) && OutcomeOk(jobs, runId, status)
    ensures status != RunSucceeded && status != RunCanceled
  {
    assert RunUnfinished(jobs, runId);
  }

  // One job touched, still open.

  lemma TouchKeepsOutcome(jobs: seq<Job>, i: nat, j': Job, runId: nat, status: RunStatus)
    requires i < |jobs| && SameShape(jobs[i], j') && Open(jobs[i].status) && Open(j'.status) && OutcomeOk(jobs, runId, status)
    ensures OutcomeOk(jobs[i := j'], runId, status)
  {
    var after := jobs[i := j'];
    RunHasKept(jobs, after, runId, Failed);
    if jobs[i].runId == runId {
      OpenRun(jobs, runId, status, i);
      assert RunUnfinished(after, runId) by { assert after[i] == j'; }
    } else {
      UnfinishedKept(jobs, after, runId);
    }
  }

  lemma UnfinishedGoesOver(a: seq<Job>, b: seq<Job>, runId: nat)
    requires SameShapes(a, b) && forall i | 0 <= i < |a| && a[i].runId == runId :: b[i].status == a[i].status
    ensures RunUnfinished(a, runId) ==> RunUnfinished(b, runId)
    ensures HasJobs(a, runId) ==> HasJobs(b, runId)
    ensures AllSucceeded(b, runId) ==> AllSucceeded(a, runId)
  {
    assert forall i | 0 <= i < |a| :: SameShape(a[i], b[i]);
    if RunUnfinished(a, runId) {
      var i :| 0 <= i < |a| && a[i].runId == runId && !JobTerminal(a[i].status);
      assert b[i].runId == runId && !JobTerminal(b[i].status);
    }
    if HasJobs(a, runId) {
      var i :| 0 <= i < |a| && a[i].runId == runId;
      assert b[i].runId == runId;
    }
  }

  lemma UnfinishedKept(a: seq<Job>, b: seq<Job>, runId: nat)
    requires SameShapes(a, b) && forall i | 0 <= i < |a| && a[i].runId == runId :: b[i].status == a[i].status
    ensures RunUnfinished(a, runId) <==> RunUnfinished(b, runId)
    ensures HasJobs(a, runId) <==> HasJobs(b, runId)
    ensures AllSucceeded(a, runId) <==> AllSucceeded(b, runId)
  {
    assert forall i | 0 <= i < |a| :: SameShape(a[i], b[i]);
    UnfinishedGoesOver(a, b, runId);
    UnfinishedGoesOver(b, a, runId);
  }

  /** Other runs do not notice. */
  lemma OtherRunKeepsOutcome(a: seq<Job>, b: seq<Job>, runId: nat, status: RunStatus)
    requires SameShapes(a, b) && (forall i | 0 <= i < |a| && a[i].runId == runId :: b[i].status == a[i].status)
    requires OutcomeOk(a, runId, status)
    ensures OutcomeOk(b, runId, status)
  {
    UnfinishedKept(a, b, runId);
    if RunHas(a, runId, Failed) {
      var i :| 0 <= i < |a| && a[i].runId == runId && a[i].status == Failed;
      assert SameShape(a[i], b[i]) && b[i].status == Failed;
    }
  }

  // Writing records.

  lemma SetStatusAt(records: seq<Record>, runId: nat, status: RunStatus, x: nat)
    requires DistinctRecords(records) && x < |records|
    ensures SetRunStatus(records, runId, status)[x] == if records[x].id == runId then records[x].(status := status) else records[x]
  {
  }

  lemma SetFinishedAt(records: seq<Record>, runId: nat, now: Time, x: nat)
    requires DistinctRecords(records) && x < |records|
    ensures SetRunFinished(records, runId, now)[x].status == records[x].status && SetRunFinished(records, runId, now)[x].id == records[x].id
    ensures SetRunStarted(records, runId, now)[x].status == records[x].status && SetRunStarted(records, runId, now)[x].id == records[x].id
  {
  }

  /** The status recorded for a run, given that identifiers are distinct. */
  lemma FinalizeAt(s: Store, runId: nat, now: Time, x: nat)
    requires DistinctRecords(s.records) && x < |s.records|
    ensures var after := FinalizeRun(s, runId, now).records;
            |after| == |s.records| && after[x].id == s.records[x].id &&
            after[x].status == if s.records[x].id == runId && !RunUnfinished(s.jobs, runId) then FinalStatus(s.jobs, runId) else s.records[x].status
  {
    if !RunUnfinished(s.jobs, runId) {
      var set_ := SetRunStatus(s.records, runId, FinalStatus(s.jobs, runId));
      SetStatusAt(s.records, runId, FinalStatus(s.jobs, runId), x);
      assert SameRecordIds(s.records, set_);
      assert DistinctRecords(set_) by { SameIdsDistinct(s.records, set_); }
      SetFinishedAt(set_, runId, now, x);
    }
  }

  lemma SameIdsDistinct(a: seq<Record>, b: seq<Record>)
    requires SameRecordIds(a, b) && DistinctRecords(a)
    ensures DistinctRecords(b)
  {
  }

  /** Succeeded is recorded only when every job succeeded: something skipped means something failed. */
  lemma FinalStatusOk(jobs: seq<Job>, runId: nat)
    requires SkipOk(jobs) && !RunUnfinished(jobs, runId)
    ensures OutcomeOk(jobs, runId, FinalStatus(jobs, runId))
  {
    if FinalStatus(jobs, runId) == RunSucceeded {
      forall i | 0 <= i < |jobs| && jobs[i].runId == runId ensures jobs[i].status == Succeeded {
        assert JobTerminal(jobs[i].status);
      }
    }
  }

  lemma CompleteJobsStatuses(jobs: seq<Job>, i: nat, status: JobStatus)
    requires i < |jobs| && CompletionStatus(status)
    ensures var after := CompleteJobs(jobs, i, status);
            SameShapes(jobs, after) &&
            (forall k | 0 <= k < |jobs| && jobs[k].runId != jobs[i].runId :: after[k].status == jobs[k].status) &&
            (forall k | 0 <= k < |jobs| && k != i && JobTerminal(jobs[k].status) :: after[k] == jobs[k]) &&
            after[i].status == status
  {
  }

  lemma CompleteKeepsFailed(jobs: seq<Job>, i: nat, status: JobStatus, runId: nat)
    requires i < |jobs| && Leased(jobs[i].status) && CompletionStatus(status)
    ensures RunHas(jobs, runId, Failed) ==> RunHas(CompleteJobs(jobs, i, status), runId, Failed)
  {
    CompleteJobsStatuses(jobs, i, status);
    RunHasKept(jobs, CompleteJobs(jobs, i, status), runId, Failed);
  }

  lemma CompleteKeepsOutcome(s: Store, i: nat, status: JobStatus, now: Time, x: nat)
    requires RecordsOk(s) && i < |s.jobs| && Leased(s.jobs[i].status) && CompletionStatus(status) && x < |s.records|
    requires SkipOk(CompleteJobs(s.jobs, i, status))
    ensures var after := CompleteAt(s, i, status, now);
            |after.records| == |s.records| && OutcomeOk(after.jobs, after.records[x].id, after.records[x].status)
  {
    var jobs := CompleteJobs(s.jobs, i, status);
    var rec, runId := s.records[x], s.jobs[i].runId;
    CompleteJobsStatuses(s.jobs, i, status);
    FinalizeAt(s.(jobs := jobs), runId, now, x);
    assert OutcomeOk(s.jobs, rec.id, rec.status);
    if rec.id != runId {
      OtherRunKeepsOutcome(s.jobs, jobs, rec.id, rec.status);
    } else if RunUnfinished(jobs, runId) {
      OpenRun(s.jobs, runId, rec.status, i);
      CompleteKeepsFailed(s.jobs, i, status, runId);
    } else {
      FinalStatusOk(jobs, runId);
    }
  }

  // Recovery.

  lemma ResetAt(records: seq<Record>, runId: nat, x: nat)
    requires DistinctRecords(records) && x < |records|
    ensures ResetRecord(records, runId)[x].id == records[x].id
    ensures ResetRecord(records, runId)[x].status == if records[x].id == runId then RunQueued else records[x].status
  {
  }

  lemma RequeueKeepsOutcome(s: Store, i: nat, now: Time, x: nat)
    requires RecordsOk(s) && i < |s.jobs| && s.jobs[i].status == Assigned && x < |s.records|
    ensures var after := RecoverAt(s, i, now);
            |after.records| == |s.records| && OutcomeOk(after.jobs, after.records[x].id, after.records[x].status)
  {
    var j' := RequeueOne(s.jobs[i], now);
    var jobs := s.jobs[i := j'];
    TouchKeepsOutcome(s.jobs, i, j', s.records[x].id, s.records[x].status);
    ResetAt(s.records, s.jobs[i].runId, x);
    assert RunUnfinished(jobs, s.jobs[i].runId) by { assert jobs[i] == j'; }
  }

  lemma FailKeepsOutcome(s: Store, i: nat, now: Time, x: nat)
    requires RecordsOk(s) && i < |s.jobs| && s.jobs[i].status == Running && x < |s.records|
    ensures var after := RecoverAt(s, i, now);
            |after.records| == |s.records| && OutcomeOk(after.jobs, after.records[x].id, after.records[x].status)
  {
    var runId := s.jobs[i].runId;
    var jobs := Sweep(s.jobs[i := FailOne(s.jobs[i])], runId);
    SetStatusAt(s.records, runId, RunFailed, x);
    assert jobs[i].status == Failed && jobs[i].runId == runId;
    if s.records[x].id != runId { OtherRunKeepsOutcome(s.jobs, jobs, s.records[x].id, s.records[x].status); }
  }

  lemma RecoverNextKeepsRecordsOk(before: Recovery, i: nat, limit: int, now: Time)
    requires RecordsOk(before.store) && i < |before.store.jobs|
    ensures RecordsOk(RecoverNext(before, i, limit, now).store)
  {
    var s := before.store;
    if before.processed < limit && Expired(s.jobs[i], now) {
      var after := RecoverAt(s, i, now);
      forall x | 0 <= x < |after.records| ensures OutcomeOk(after.jobs, after.records[x].id, after.records[x].status) {
        if s.jobs[i].status == Assigned { RequeueKeepsOutcome(s, i, now, x); } else { FailKeepsOutcome(s, i, now, x); }
      }
      RecoverNextKeepsIds(before, i, limit, now);
      SameIdsDistinct(s.records, after.records);
    }
  }

  lemma RecoverKeepsRecordsOk(s: Store, n: nat, limit: int, now: Time)
    requires RecordsOk(s) && n <= |s.jobs|
    ensures RecordsOk(RecoverUpTo(s, n, limit, now).store)
  {
    var kept := (x: Store) => RecordsOk(x);
    forall r: Recovery, i: nat | i < |r.store.jobs| && kept(r.store) ensures kept(RecoverNext(r, i, limit, now).store) {
      RecoverNextKeepsRecordsOk(r, i, limit, now);
    }
    RecoverInduction(s, n, limit, now, kept);
  }

  // The other operations.

  lemma ClaimKeepsRecordsOk(s: Store, r: nat, t: nat, now: Time)
    requires RecordsOk(s)
    ensures RecordsOk(Claim(s, r, t, now))
  {
    if !ClaimRefused(s, r) && ClaimIndex(s, r, now) < |s.jobs| {
      var i := ClaimIndex(s, r, now);
      var j', runId := ClaimOne(s.jobs[i], r, t, now), s.jobs[i].runId;
      var started := SetRunStarted(s.records, runId, now);
      SameIdsDistinct(s.records, started);
      SameIdsDistinct(s.records, SetRunStatus(started, runId, RunRunning));
      forall x | 0 <= x < |s.records|
        ensures OutcomeOk(s.jobs[i := j'], s.records[x].id, SetRunStatus(started, runId, RunRunning)[x].status)
        ensures SetRunStatus(started, runId, RunRunning)[x].id == s.records[x].id
      {
        ClaimKeepsOutcome(s, i, j', x);
        SetFinishedAt(s.records, runId, now, x);
        SetStatusAt(started, runId, RunRunning, x);
      }
    }
  }

  lemma ClaimKeepsOutcome(s: Store, i: nat, j': Job, x: nat)
    requires RecordsOk(s) && i < |s.jobs| && x < |s.records| && s.jobs[i].status == Queued && SameShape(s.jobs[i], j') && j'.status == Assigned
    ensures OutcomeOk(s.jobs[i := j'], s.records[x].id, if s.records[x].id == s.jobs[i].runId then RunRunning else s.records[x].status)
  {
    TouchKeepsOutcome(s.jobs, i, j', s.records[x].id, s.records[x].status);
    assert RunUnfinished(s.jobs[i := j'], s.jobs[i].runId) by { assert s.jobs[i := j'][i] == j'; }
  }

  lemma {:induction false} RenewKeepsOutcome(jobs: seq<Job>, runnerId: nat, leases: seq<ActiveLease>, now: Time, runId: nat, status: RunStatus)
    requires OutcomeOk(jobs, runId, status)
    ensures OutcomeOk(RenewAll(jobs, runnerId, leases, now), runId, status)
  {
    var after := RenewAll(jobs, runnerId, leases, now);
    RenewKeepsShapes(jobs, runnerId, leases, now);
    forall i | 0 <= i < |jobs| ensures after[i].status == jobs[i].status { RenewTouches(jobs, runnerId, leases, now, i); }
    OtherRunKeepsOutcome(jobs, after, runId, status);
  }

  lemma HolderKeepsOutcome(s: Store, r: nat, j: nat, t: nat, now: Time, x: nat)
    requires RecordsOk(s) && x < |s.records|
    ensures OutcomeOk(Acknowledge(s, r, j, t, now).jobs, s.records[x].id, s.records[x].status)
    ensures OutcomeOk(Release(s, r, j, t, now).jobs, s.records[x].id, s.records[x].status)
    ensures OutcomeOk(Start(s, r, j, t, now).jobs, s.records[x].id, s.records[x].status)
  {
    if Authorized(s.jobs, r, j, t, now) {
      var i, rec := FindJob(s.jobs, j), s.records[x];
      TouchKeepsOutcome(s.jobs, i, AcknowledgeOne(s.jobs[i], now), rec.id, rec.status);
      TouchKeepsOutcome(s.jobs, i, ReleaseOne(s.jobs[i]), rec.id, rec.status);
      TouchKeepsOutcome(s.jobs, i, s.jobs[i].(status := Running), rec.id, rec.status);
    }
  }

  lemma CreateKeepsRecordsOk(s: Store, record: Record, stages: seq<Stage>, ids: seq<nat>)
    requires RecordsOk(s) && RunsRecorded(s) && |ids| == |Flatten(stages)| && record.status == RunQueued
    ensures RecordsOk(Create(s, record, Some(stages), ids))
  {
    if FindRecord(s.records, record.id, 0) == |s.records| {
      var added := NewJobs(stages, record.id, ids);
      var after := Create(s, record, Some(stages), ids);
      assert forall y | 0 <= y < |s.records| :: after.records[y + 1] == s.records[y];
      forall x | 0 <= x < |after.records| ensures OutcomeOk(after.jobs, after.records[x].id, after.records[x].status) {
        if x == 0 {
          forall i | 0 <= i < |s.jobs| ensures s.jobs[i].runId != record.id { assert Recorded(s.records, s.jobs[i].runId); }
          NewRunIsOpen(s.jobs, added, record.id);
        } else {
          AppendKeepsOutcome(s.jobs, added, record.id, s.records[x - 1].id, s.records[x - 1].status);
        }
      }
    }
  }

  lemma NewRunIsOpen(jobs: seq<Job>, added: seq<Job>, newRun: nat)
    requires (forall i | 0 <= i < |jobs| :: jobs[i].runId != newRun) && forall i | 0 <= i < |added| :: !JobTerminal(added[i].status)
    ensures OutcomeOk(jobs + added, newRun, RunQueued)
  {
    var after := jobs + added;
    if HasJobs(after, newRun) {
      var i :| 0 <= i < |after| && after[i].runId == newRun;
      assert !JobTerminal(after[i].status);
    }
  }

  lemma AppendKeepsOutcome(jobs: seq<Job>, added: seq<Job>, newRun: nat, runId: nat, status: RunStatus)
    requires OutcomeOk(jobs, runId, status) && runId != newRun && forall i | 0 <= i < |added| :: added[i].runId == newRun
    ensures OutcomeOk(jobs + added, runId, status)
  {
    var all := jobs + added;
    RunHasPrefix(jobs, added, runId, Failed);
    RunHasPrefix(jobs, added, runId, Canceled);
    if RunHas(all, runId, Failed) {
      var i :| 0 <= i < |all| && all[i].runId == runId && all[i].status == Failed;
      assert jobs[i] == all[i];
    }
    if RunUnfinished(all, runId) {
      var i :| 0 <= i < |all| && all[i].runId == runId && !JobTerminal(all[i].status);
      assert jobs[i] == all[i];
    }
    if RunUnfinished(jobs, runId) {
      var i :| 0 <= i < |jobs| && jobs[i].runId == runId && !JobTerminal(jobs[i].status);
      assert jobs[i] == all[i];
    }
    if HasJobs(all, runId) {
      var i :| 0 <= i < |all| && all[i].runId == runId;
      assert jobs[i].runId == runId;
    }
  }

  lemma CompleteStepKeepsRecordsOk(w: World, op: Op, now: Time)
    requires RecordsOk(w.store) && Inv(w) && op.CompleteJob?
    ensures RecordsOk(Effect(w.store, op, now))
  {
    var s := w.store;
    if ValidLeaseRequest(op.runnerId, op.jobId, op.token) && CompletionStatus(op.status) &&
       Authorized(s.jobs, op.runnerId, op.jobId, op.token, now)
    {
      var i := FindJob(s.jobs, op.jobId);
      CompleteKeepsJobsOk(s, op.runnerId, op.jobId, op.token, op.status, w.issued, now);
      EffectKeepsRecordIds(s, op, now);
      SameIdsDistinct(s.records, Effect(s, op, now).records);
      assert CompleteAt(s, i, op.status, now).jobs == CompleteJobs(s.jobs, i, op.status);
      forall x | 0 <= x < |s.records|
        ensures var after := CompleteAt(s, i, op.status, now); OutcomeOk(after.jobs, after.records[x].id, after.records[x].status)
      {
        CompleteKeepsOutcome(s, i, op.status, now, x);
      }
    }
  }

  /** Every operation keeps the recorded outcomes backed by the jobs. */
  lemma StepKeepsRecordsOk(w: World, op: Op, now: Time)
    requires RecordsOk(w.store) && Inv(w) && Enabled(w, op)
    ensures RecordsOk(Effect(w.store, op, now))
  {
    var s := w.store;
    match op
    case CreateRun(record, plan, ids) => if plan.Some? { CreateKeepsRecordsOk(s, record, plan.value, ids); }
    case ClaimJob(r, t) => ClaimKeepsRecordsOk(s, r, t, now);
    case CompleteJob(_, _, _, _) => CompleteStepKeepsRecordsOk(w, op, now);
    case RecoverLeases(limit) => RecoverKeepsRecordsOk(s, |s.jobs|, limit, now);
    case Heartbeat(runner, leases) =>
      forall x | 0 <= x < |s.records| ensures OutcomeOk(RenewAll(s.jobs, runner.id, leases, now), s.records[x].id, s.records[x].status) {
        RenewKeepsOutcome(s.jobs, runner.id, leases, now, s.records[x].id, s.records[x].status);
      }
    case AcknowledgeJob(r, j, t) =>
      forall x | 0 <= x < |s.records| ensures OutcomeOk(Acknowledge(s, r, j, t, now).jobs, s.records[x].id, s.records[x].status) {
        HolderKeepsOutcome(s, r, j, t, now, x);
      }
    case ReleaseJob(r, j, t) =>
      forall x | 0 <= x < |s.records| ensures OutcomeOk(Release(s, r, j, t, now).jobs, s.records[x].id, s.records[x].status) {
        HolderKeepsOutcome(s, r, j, t, now, x);
      }
    case StartJob(r, j, t) =>
      forall x | 0 <= x < |s.records| ensures OutcomeOk(Start(s, r, j, t, now).jobs, s.records[x].id, s.records[x].status) {
        HolderKeepsOutcome(s, r, j, t, now, x);
      }
  }

  /** In every reachable state: succeeded means every job succeeded, and a run whose jobs ended has an outcome. */
  lemma {:induction false} OutcomesAreBacked(trace: seq<World>, n: nat)
    requires Behaviour(trace) && n < |trace|
    ensures RecordsOk(trace[n].store)
  {
    if n > 0 {
      OutcomesAreBacked(trace, n - 1);
      BehaviourKeepsInv(trace, n - 1);
      assert Next(trace[n - 1], trace[n]);
      var op, now :| trace[n - 1].now <= now && Enabled(trace[n - 1], op) && trace[n] == Apply(trace[n - 1], op, now);
      StepKeepsRecordsOk(trace[n - 1], op, now);
    }
  }

  /** Once all jobs of a run have ended, in whatever order, its record says what they came to. */
  lemma OutcomeIs(trace: seq<World>, n: nat, x: nat)
    requires Behaviour(trace) && n < |trace| && x < |trace[n].store.records|
    requires var jobs, runId := trace[n].store.jobs, trace[n].store.records[x].id;
             HasJobs(jobs, runId) && forall i | 0 <= i < |jobs| && jobs[i].runId == runId :: JobTerminal(jobs[i].status)
    ensures var jobs, rec := trace[n].store.jobs, trace[n].store.records[x];
            (rec.status == RunSucceeded <==> forall i | 0 <= i < |jobs| && jobs[i].runId == rec.id :: jobs[i].status == Succeeded) &&
            (rec.status == RunFailed <==> exists i :: 0 <= i < |jobs| && jobs[i].runId == rec.id && jobs[i].status == Failed) &&
            (rec.status == RunCanceled <==>
              (exists i :: 0 <= i < |jobs| && jobs[i].runId == rec.id && jobs[i].status == Canceled) &&
              forall i | 0 <= i < |jobs| && jobs[i].runId == rec.id :: jobs[i].status != Failed)
  {
    OutcomesAreBacked(trace, n);
    var jobs, rec := trace[n].store.jobs, trace[n].store.records[x];
    assert OutcomeOk(jobs, rec.id, rec.status);
    var i :| 0 <= i < |jobs| && jobs[i].runId == rec.id;
  }

  // Whether an outcome is final. In this store it is not: recovery fails a run early, and
  // a job of the run that is requeued afterwards can be claimed.

  /** The operation is a claim that takes a job of this run. */
  predicate ClaimsFrom(s: Store, op: Op, now: Time, runId: nat) {
    op.ClaimJob? && !ClaimRefused(s, op.runnerId) && ClaimIndex(s, op.runnerId, now) < |s.jobs| &&
    s.jobs[ClaimIndex(s, op.runnerId, now)].runId == runId
  }

  lemma RecoverNextKeepsTerminal(before: Recovery, i: nat, limit: int, now: Time, x: nat)
    requires RecordsOk(before.store) && i < |before.store.jobs| && x < |before.store.records|
    requires RunTerminal(before.store.records[x].status)
    ensures var after := RecoverNext(before, i, limit, now).store.records;
            |after| == |before.store.records| && after[x].status == before.store.records[x].status
  {
    var s := before.store;
    var rec, runId := s.records[x], s.jobs[i].runId;
    assert OutcomeOk(s.jobs, rec.id, rec.status);
    if before.processed < limit && Expired(s.jobs[i], now) {
      if rec.id == runId { OpenRun(s.jobs, runId, rec.status, i); }
      if s.jobs[i].status == Assigned {
        var jobs := s.jobs[i := RequeueOne(s.jobs[i], now)];
        RunHasKept(s.jobs, jobs, runId, Failed);
        ResetAt(s.records, runId, x);
      } else {
        SetStatusAt(s.records, runId, RunFailed, x);
      }
    }
  }

  lemma RecoverKeepsTerminal(s: Store, n: nat, limit: int, now: Time, x: nat)
    requires RecordsOk(s) && n <= |s.jobs| && x < |s.records| && RunTerminal(s.records[x].status)
    ensures var after := RecoverUpTo(s, n, limit, now).store.records;
            |after| == |s.records| && after[x].status == s.records[x].status
  {
    var kept := (y: Store) => RecordsOk(y) && |y.records| == |s.records| && y.records[x].status == s.records[x].status;
    forall r: Recovery, i: nat | i < |r.store.jobs| && kept(r.store) ensures kept(RecoverNext(r, i, limit, now).store) {
      RecoverNextKeepsRecordsOk(r, i, limit, now);
      RecoverNextKeepsTerminal(r, i, limit, now, x);
    }
    RecoverInduction(s, n, limit, now, kept);
  }

  lemma CompleteKeepsTerminal(s: Store, i: nat, status: JobStatus, now: Time, x: nat)
    requires RecordsOk(s) && i < |s.jobs| && Leased(s.jobs[i].status) && CompletionStatus(status)
    requires x < |s.records| && RunTerminal(s.records[x].status)
    ensures var after := CompleteAt(s, i, status, now).records;
            |after| == |s.records| && after[x].status == s.records[x].status
  {
    var rec, runId := s.records[x], s.jobs[i].runId;
    FinalizeAt(s.(jobs := CompleteJobs(s.jobs, i, status)), runId, now, x);
    assert OutcomeOk(s.jobs, rec.id, rec.status);
    if rec.id == runId {
      OpenRun(s.jobs, runId, rec.status, i);
      CompleteKeepsFailed(s.jobs, i, status, runId);
    }
  }

  lemma ClaimChangesStatus(s: Store, op: Op, now: Time, x: nat)
    requires RecordsOk(s) && op.ClaimJob? && x < |s.records|
    ensures var after := Claim(s, op.runnerId, op.token, now).records;
            |after| == |s.records| &&
            after[x].status == if ClaimsFrom(s, op, now, s.records[x].id) then RunRunning else s.records[x].status
  {
    if !ClaimRefused(s, op.runnerId) && ClaimIndex(s, op.runnerId, now) < |s.jobs| {
      var runId := s.jobs[ClaimIndex(s, op.runnerId, now)].runId;
      var started := SetRunStarted(s.records, runId, now);
      SetFinishedAt(s.records, runId, now, x);
      SameIdsDistinct(s.records, started);
      SetStatusAt(started, runId, RunRunning, x);
    }
  }

  /** A recorded outcome changes in a step exactly when the step claims a job of that run. */
  lemma TerminalRunChangesIffClaimed(w: World, op: Op, now: Time, x: nat)
    requires Inv(w) && RecordsOk(w.store) && Enabled(w, op) && x < |w.store.records| && RunTerminal(w.store.records[x].status)
    ensures var records := Effect(w.store, op, now).records;
            var y := x + |records| - |w.store.records|;
            |w.store.records| <= |records| && records[y].id == w.store.records[x].id &&
            (records[y].status != w.store.records[x].status <==> ClaimsFrom(w.store, op, now, w.store.records[x].id))
  {
    var s := w.store;
    if !op.CreateRun? { EffectKeepsRecordIds(s, op, now); }
    match op
    case ClaimJob(_, _) => ClaimChangesStatus(s, op, now, x);
    case RecoverLeases(limit) => RecoverKeepsTerminal(s, |s.jobs|, limit, now, x);
    case CompleteJob(r, j, t, status) =>
      if ValidLeaseRequest(r, j, t) && CompletionStatus(status) && Authorized(s.jobs, r, j, t, now) {
        CompleteKeepsTerminal(s, FindJob(s.jobs, j), status, now, x);
      }
    case _ => OthersKeepRecords(s, op, now);
  }

  /** The other operations leave the records as they are, but for a new one in front. */
  lemma OthersKeepRecords(s: Store, op: Op, now: Time)
    requires !op.ClaimJob? && !op.RecoverLeases? && !op.CompleteJob?
    requires op.CreateRun? && op.plan.Some? ==> |op.ids| == |Flatten(op.plan.value)|
    ensures var records := Effect(s, op, now).records;
            records == s.records || (op.CreateRun? && records == [op.record] + s.records)
  {
  }
}
