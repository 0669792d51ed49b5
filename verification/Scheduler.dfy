// The scheduler as a state machine: any sequence of store operations, with a clock
// that never goes back and lease tokens that are never issued twice.

module Scheduler {
  import opened PipelineCompiler
  import opened RunGraph
  import opened Basics
  import opened RunModel
  import opened JobInvariants

  datatype Op =
    | CreateRun(record: Record, plan: Option<seq<Stage>>, ids: seq<nat>)
    | ClaimJob(runnerId: nat, token: nat)
    | AcknowledgeJob(runnerId: nat, jobId: nat, token: nat)
    | ReleaseJob(runnerId: nat, jobId: nat, token: nat)
    | StartJob(runnerId: nat, jobId: nat, token: nat)
    | Heartbeat(runner: Runner, leases: seq<ActiveLease>)
    | CompleteJob(runnerId: nat, jobId: nat, token: nat, status: JobStatus)
    | RecoverLeases(limit: int)

  /** The store, its clock, every token ever issued and the largest capacity each Runner registered. */
  datatype World = World(store: Store, now: Time, issued: set<nat>, peak: map<nat, int>)

  const EMPTY_STORE := Store([], [], map[])

  ghost predicate Initial(w: World) {
    w.store == EMPTY_STORE && w.issued == {} && w.peak == map[]
  }

  /** Plans come from the compiler; identifiers and tokens are fresh random values. */
  ghost predicate Enabled(w: World, op: Op) {
    match op
    case CreateRun(record, plan, ids) =>
      record.status == RunQueued &&
      (plan.Some? ==> SoundStages(plan.value) && |ids| == |Flatten(plan.value)| && FreshIds(w.store.jobs, ids))
    case ClaimJob(_, token) => token != NO_TOKEN && token !in w.issued
    case _ => true
  }

  ghost function Effect(s: Store, op: Op, now: Time): Store
    requires op.CreateRun? && op.plan.Some? ==> |op.ids| == |Flatten(op.plan.value)|
  {
    match op
    case CreateRun(record, plan, ids) => Create(s, record, plan, ids)
    case ClaimJob(r, t) => Claim(s, r, t, now)
    case AcknowledgeJob(r, j, t) => Acknowledge(s, r, j, t, now)
    case ReleaseJob(r, j, t) => Release(s, r, j, t, now)
    case StartJob(r, j, t) => Start(s, r, j, t, now)
    case Heartbeat(runner, leases) => Renew(s, runner, leases, now)
    case CompleteJob(r, j, t, status) => Complete(s, r, j, t, status, now)
    case RecoverLeases(limit) => Recover(s, limit, now)
  }

  function Largest(peak: map<nat, int>, r: Runner): int {
    if r.id in peak && peak[r.id] > r.capacity then peak[r.id] else r.capacity
  }

  ghost function Apply(w: World, op: Op, now: Time): World
    requires Enabled(w, op)
  {
    World(Effect(w.store, op, now), now,
          if op.ClaimJob? then w.issued + {op.token} else w.issued,
          if op.Heartbeat? && ValidHeartbeat(op.runner, op.leases)
          then w.peak[op.runner.id := Largest(w.peak, op.runner)] else w.peak)
  }

  ghost predicate Next(w: World, w': World) {
    exists op, now :: w.now <= now && Enabled(w, op) && w' == Apply(w, op, now)
  }

  ghost predicate Behaviour(trace: seq<World>) {
    trace != [] && Initial(trace[0]) &&
    forall i, j {:trigger Next(trace[i], trace[j])} | 0 <= i < |trace| && j == i + 1 && j < |trace| :: Next(trace[i], trace[j])
  }

  // Recovery, one job at a time.

  lemma RecoverAtKeepsJobsOk(s: Store, i: nat, issued: set<nat>, now: Time)
    requires JobsOk(s.jobs, issued) && i < |s.jobs| && Expired(s.jobs[i], now)
    ensures JobsOk(RecoverAt(s, i, now).jobs, issued)
  {
    assert LeaseOk(s.jobs[i], issued);
    if s.jobs[i].status == Assigned {
      TouchKeepsJobsOk(s.jobs, i, RequeueOne(s.jobs[i], now), issued, issued);
    } else {
      FailKeepsJobsOk(s.jobs, i, FailOne(s.jobs[i]), issued);
    }
  }

  lemma RecoverNextKeepsJobsOk(before: Recovery, i: nat, limit: int, issued: set<nat>, now: Time)
    requires JobsOk(before.store.jobs, issued) && i < |before.store.jobs|
    ensures JobsOk(RecoverNext(before, i, limit, now).store.jobs, issued)
  {
    if before.processed < limit && Expired(before.store.jobs[i], now) {
      RecoverAtKeepsJobsOk(before.store, i, issued, now);
    }
  }

  lemma RecoverKeepsJobsOk(s: Store, n: nat, limit: int, issued: set<nat>, now: Time)
    requires JobsOk(s.jobs, issued) && n <= |s.jobs|
    ensures JobsOk(RecoverUpTo(s, n, limit, now).store.jobs, issued)
  {
    var kept := (x: Store) => JobsOk(x.jobs, issued);
    forall r: Recovery, i: nat | i < |r.store.jobs| && kept(r.store) ensures kept(RecoverNext(r, i, limit, now).store) {
      RecoverNextKeepsJobsOk(r, i, limit, issued, now);
    }
    RecoverInduction(s, n, limit, now, kept);
  }

  lemma {:induction false} RenewKeepsJobsOk(jobs: seq<Job>, runnerId: nat, leases: seq<ActiveLease>, issued: set<nat>, now: Time)
    requires JobsOk(jobs, issued)
    ensures JobsOk(RenewAll(jobs, runnerId, leases, now), issued)
  {
    if leases != [] {
      var init, a := leases[..|leases| - 1], leases[|leases| - 1];
      RenewKeepsJobsOk(jobs, runnerId, init, issued, now);
      var before := RenewAll(jobs, runnerId, init, now);
      if Authorized(before, runnerId, a.jobId, a.token, now) {
        var i := FindJob(before, a.jobId);
        assert LeaseOk(before[i], issued);
        TouchKeepsJobsOk(before, i, before[i].(expires := now + RUNNER_LEASE_DURATION), issued, issued);
      }
    }
  }

  lemma CreateStepKeepsJobsOk(s: Store, issued: set<nat>, record: Record, stages: seq<Stage>, ids: seq<nat>)
    requires JobsOk(s.jobs, issued) && RunsRecorded(s)
    requires SoundStages(stages) && |ids| == |Flatten(stages)| && FreshIds(s.jobs, ids)
    ensures JobsOk(Create(s, record, Some(stages), ids).jobs, issued)
  {
    if FindRecord(s.records, record.id, 0) == |s.records| {
      var added := NewJobs(stages, record.id, ids);
      SoundStagesFlattenSoundly(stages);
      assert FreshRun(s.jobs, record.id) by {
        forall k | 0 <= k < |s.jobs| ensures s.jobs[k].runId != record.id { assert Recorded(s.records, s.jobs[k].runId); }
      }
      assert NewGraph(added, record.id, Flatten(stages));
      CreateKeepsJobsOk(s.jobs, added, record.id, Flatten(stages), ids, issued);
    }
  }

  // Every job belongs to a recorded run.

  predicate Recorded(records: seq<Record>, runId: nat) {
    exists x | 0 <= x < |records| :: records[x].id == runId
  }

  predicate RunsRecorded(s: Store) {
    forall i | 0 <= i < |s.jobs| :: Recorded(s.records, s.jobs[i].runId)
  }

  predicate SameRecordIds(a: seq<Record>, b: seq<Record>) {
    |a| == |b| && forall x | 0 <= x < |a| :: a[x].id == b[x].id
  }

  lemma RecoverNextKeepsIds(before: Recovery, i: nat, limit: int, now: Time)
    requires i < |before.store.jobs|
    ensures var after := RecoverNext(before, i, limit, now);
            SameRecordIds(before.store.records, after.store.records) && SameShapes(before.store.jobs, after.store.jobs)
  {
  }

  lemma {:induction false} RecoverKeepsIds(s: Store, n: nat, limit: int, now: Time)
    requires n <= |s.jobs|
    ensures var after := RecoverUpTo(s, n, limit, now);
            SameRecordIds(s.records, after.store.records) && SameShapes(s.jobs, after.store.jobs)
  {
    if n > 0 {
      RecoverKeepsIds(s, n - 1, limit, now);
      RecoverUnfolds(s, n - 1, limit, now);
      RecoverNextKeepsIds(RecoverUpTo(s, n - 1, limit, now), n - 1, limit, now);
    }
  }

  lemma EffectKeepsRecordIds(s: Store, op: Op, now: Time)
    requires !op.CreateRun?
    ensures SameRecordIds(s.records, Effect(s, op, now).records)
  {
    if op.RecoverLeases? { RecoverKeepsIds(s, |s.jobs|, op.limit, now); }
  }

  lemma {:induction false} RenewKeepsShapes(jobs: seq<Job>, runnerId: nat, leases: seq<ActiveLease>, now: Time)
    ensures SameShapes(jobs, RenewAll(jobs, runnerId, leases, now))
  {
    if leases != [] { RenewKeepsShapes(jobs, runnerId, leases[..|leases| - 1], now); }
  }

  /** Only creating a run adds jobs; nothing changes their identity or their dependencies. */
  lemma EffectKeepsShapes(s: Store, op: Op, now: Time)
    requires !op.CreateRun?
    ensures SameShapes(s.jobs, Effect(s, op, now).jobs)
  {
    match op
    case Heartbeat(runner, leases) => RenewKeepsShapes(s.jobs, runner.id, leases, now);
    case RecoverLeases(limit) => RecoverKeepsIds(s, |s.jobs|, limit, now);
    case CompleteJob(r, j, t, status) => CompleteKeepsShapes(s, r, j, t, status, now);
    case _ =>
  }

  lemma CompleteKeepsShapes(s: Store, r: nat, j: nat, t: nat, status: JobStatus, now: Time)
    ensures SameShapes(s.jobs, Complete(s, r, j, t, status, now).jobs)
  {
  }

  lemma StepKeepsRunsRecorded(w: World, op: Op, now: Time)
    requires RunsRecorded(w.store) && Enabled(w, op)
    ensures RunsRecorded(Effect(w.store, op, now))
  {
    var s, after := w.store, Effect(w.store, op, now);
    if !op.CreateRun? {
      EffectKeepsRecordIds(s, op, now);
      EffectKeepsShapes(s, op, now);
    }
    forall i | 0 <= i < |after.jobs| ensures Recorded(after.records, after.jobs[i].runId) {
      if i < |s.jobs| {
        assert after.jobs[i].runId == s.jobs[i].runId by { assert op.CreateRun? || SameShape(s.jobs[i], after.jobs[i]); }
        var x :| 0 <= x < |s.records| && s.records[x].id == s.jobs[i].runId;
        assert after.records[if |after.records| == |s.records| then x else x + 1].id == s.jobs[i].runId;
      } else {
        assert after.records[0].id == after.jobs[i].runId;
      }
    }
  }

  // The central invariant.

  ghost predicate Inv(w: World) {
    JobsOk(w.store.jobs, w.issued) && RunsRecorded(w.store)
  }

  lemma StepKeepsInv(w: World, op: Op, now: Time)
    requires Inv(w) && Enabled(w, op)
    ensures Inv(Apply(w, op, now))
  {
    StepKeepsRunsRecorded(w, op, now);
    StepKeepsJobsOk(w, op, now);
  }

  lemma StepKeepsJobsOk(w: World, op: Op, now: Time)
    requires Inv(w) && Enabled(w, op)
    ensures JobsOk(Effect(w.store, op, now).jobs, Apply(w, op, now).issued)
  {
    var s := w.store;
    match op
    case CreateRun(record, plan, ids) =>
      if plan.Some? { CreateStepKeepsJobsOk(s, w.issued, record, plan.value, ids); }
    case Heartbeat(runner, leases) => RenewKeepsJobsOk(s.jobs, runner.id, leases, w.issued, now);
    case RecoverLeases(limit) => RecoverKeepsJobsOk(s, |s.jobs|, limit, w.issued, now);
    case ClaimJob(r, t) => ClaimKeepsJobsOk(s, r, t, w.issued, now);
    case CompleteJob(r, j, t, status) => CompleteKeepsJobsOk(s, r, j, t, status, w.issued, now);
    case AcknowledgeJob(r, j, t) => HolderKeepsJobsOk(s, r, j, t, w.issued, now);
    case ReleaseJob(r, j, t) => HolderKeepsJobsOk(s, r, j, t, w.issued, now);
    case StartJob(r, j, t) => HolderKeepsJobsOk(s, r, j, t, w.issued, now);
  }

  lemma ClaimKeepsJobsOk(s: Store, r: nat, t: nat, issued: set<nat>, now: Time)
    requires JobsOk(s.jobs, issued) && t != NO_TOKEN && t !in issued
    ensures JobsOk(Claim(s, r, t, now).jobs, issued + {t})
  {
    if ClaimRefused(s, r) || ClaimIndex(s, r, now) == |s.jobs| {
      assert forall i | 0 <= i < |s.jobs| :: LeaseOk(s.jobs[i], issued) ==> LeaseOk(s.jobs[i], issued + {t});
    } else {
      var i := ClaimIndex(s, r, now);
      TouchKeepsJobsOk(s.jobs, i, ClaimOne(s.jobs[i], r, t, now), issued, issued + {t});
    }
  }

  lemma CompleteKeepsJobsOk(s: Store, r: nat, j: nat, t: nat, status: JobStatus, issued: set<nat>, now: Time)
    requires JobsOk(s.jobs, issued)
    ensures JobsOk(Complete(s, r, j, t, status, now).jobs, issued)
  {
    if ValidLeaseRequest(r, j, t) && CompletionStatus(status) && Authorized(s.jobs, r, j, t, now) {
      var i := FindJob(s.jobs, j);
      if status == Succeeded {
        SucceedKeepsJobsOk(s.jobs, i, issued);
      } else {
        FailKeepsJobsOk(s.jobs, i, CompleteOne(s.jobs[i], status), issued);
      }
    }
  }

  /** Acknowledging, releasing and starting touch only the holder's job. */
  lemma HolderKeepsJobsOk(s: Store, r: nat, j: nat, t: nat, issued: set<nat>, now: Time)
    requires JobsOk(s.jobs, issued)
    ensures JobsOk(Acknowledge(s, r, j, t, now).jobs, issued)
    ensures JobsOk(Release(s, r, j, t, now).jobs, issued)
    ensures JobsOk(Start(s, r, j, t, now).jobs, issued)
  {
    if Authorized(s.jobs, r, j, t, now) {
      var i := FindJob(s.jobs, j);
      var job := s.jobs[i];
      assert LeaseOk(job, issued);
      TouchKeepsJobsOk(s.jobs, i, AcknowledgeOne(job, now), issued, issued);
      TouchKeepsJobsOk(s.jobs, i, ReleaseOne(job), issued, issued);
      if job.acceptedAt.Some? { TouchKeepsJobsOk(s.jobs, i, job.(status := Running), issued, issued); }
    }
  }

  /** Every reachable state keeps dependency safety, exact readiness and the lease discipline. */
  lemma {:induction false} BehaviourKeepsInv(trace: seq<World>, n: nat)
    requires Behaviour(trace) && n < |trace|
    ensures Inv(trace[n])
  {
    if n == 0 {
      forall r: nat ensures Acyclic([], r) { assert RanksRun([], r, map[]); }
    } else {
      BehaviourKeepsInv(trace, n - 1);
      assert Next(trace[n - 1], trace[n]);
      var op, now :| trace[n - 1].now <= now && Enabled(trace[n - 1], op) && trace[n] == Apply(trace[n - 1], op, now);
      StepKeepsInv(trace[n - 1], op, now);
    }
  }
}
