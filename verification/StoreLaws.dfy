// What the in-memory store answers, written out on its fields: the limit on a Runner's leases,
// who gets a job, which requests are honoured, and which leases a heartbeat prolongs.

module StoreLaws {
  import opened PipelineCompiler
  import opened RunGraph
  import opened Basics
  import opened RunModel
  import opened JobInvariants
  import opened Scheduler
  import opened SchedulerSafety

  // Capacity.

  /** The jobs that the Runner holds under leases that have not run out. */
  function LiveLeases(jobs: seq<Job>, r: nat, now: Time): set<nat> {
    set i: nat | i < |jobs| && jobs[i].runnerId == r && (jobs[i].status == Assigned || jobs[i].status == Running) && now < jobs[i].expires
  }

  lemma {:induction false} CountIsLiveLeases(jobs: seq<Job>, r: nat, now: Time)
    ensures HeldCount(jobs, r, now) == |LiveLeases(jobs, r, now)|
  {
    if jobs == [] {
      assert LiveLeases(jobs, r, now) == {};
    } else {
      var init, last := jobs[..|jobs| - 1], jobs[|jobs| - 1];
      CountIsLiveLeases(init, r, now);
      LiveLeasesGrow(init, last, r, now);
      assert jobs == init + [last];
    }
  }

  lemma LiveLeasesGrow(jobs: seq<Job>, j: Job, r: nat, now: Time)
    ensures |LiveLeases(jobs + [j], r, now)| ==
            |LiveLeases(jobs, r, now)| + if j.runnerId == r && (j.status == Assigned || j.status == Running) && now < j.expires then 1 else 0
  {
    var added := if j.runnerId == r && (j.status == Assigned || j.status == Running) && now < j.expires then {|jobs|} else {};
    assert LiveLeases(jobs + [j], r, now) == LiveLeases(jobs, r, now) + added;
  }

  /** The largest capacity recorded for a Runner is one that it registered. */
  ghost predicate PeakRegistered(trace: seq<World>, n: nat, r: nat)
    requires n < |trace|
  {
    r in trace[n].peak ==>
      exists k: nat :: k <= n && r in trace[k].store.runners && trace[k].store.runners[r].capacity == trace[n].peak[r]
  }

  lemma {:induction false} AlwaysPeakRegistered(trace: seq<World>, n: nat, r: nat)
    requires Behaviour(trace) && n < |trace|
    ensures PeakRegistered(trace, n, r)
  {
    if n > 0 {
      AlwaysPeakRegistered(trace, n - 1, r);
      assert Next(trace[n - 1], trace[n]);
      var op, now :| trace[n - 1].now <= now && Enabled(trace[n - 1], op) && trace[n] == Apply(trace[n - 1], op, now);
      EffectKeepsRunners(trace[n - 1].store, op, now);
      if r in trace[n].peak && !(r in trace[n - 1].peak && trace[n - 1].peak[r] == trace[n].peak[r]) {
        assert r in trace[n].store.runners && trace[n].store.runners[r].capacity == trace[n].peak[r];
      }
    }
  }

  /** In every reachable state the live leases of a Runner are no more than some capacity that it has registered. */
  lemma LeasesWithinCapacity(trace: seq<World>, n: nat, r: nat)
    requires Behaviour(trace) && n < |trace|
    ensures var jobs, now := trace[n].store.jobs, trace[n].now;
            var held := set i: nat | i < |jobs| && jobs[i].runnerId == r &&
                                     (jobs[i].status == Assigned || jobs[i].status == Running) && now < jobs[i].expires;
            held == {} ||
            exists k: nat :: k <= n && r in trace[k].store.runners && |held| <= trace[k].store.runners[r].capacity
  {
    CapacityNeverExceeded(trace, n);
    AlwaysPeakRegistered(trace, n, r);
    CountIsLiveLeases(trace[n].store.jobs, r, trace[n].now);
    if r in trace[n].peak {
      var k: nat :| k <= n && r in trace[k].store.runners && trace[k].store.runners[r].capacity == trace[n].peak[r];
    }
  }

  // Claims.

  /** A claim by a registered Runner, seen from the job it hands out. */
  lemma ClaimedJobFits(s: Store, r: nat, t: nat, now: Time)
    requires r != NIL && r in s.runners && ClaimResult(s, r, t, now).Success? && ClaimResult(s, r, t, now).value.Some?
    ensures var job, runner, after := ClaimResult(s, r, t, now).value.value, s.runners[r], Claim(s, r, t, now);
            |LiveLeases(s.jobs, r, now)| < runner.capacity && |after.jobs| == |s.jobs| &&
            exists i :: 0 <= i < |s.jobs| && s.jobs[i].status == Queued && after.jobs == s.jobs[i := job] &&
              job == s.jobs[i].(status := Assigned, runnerId := r, acceptedAt := None, token := t, expires := now + 30_000_000_000)
    ensures var q, runner := ClaimResult(s, r, t, now).value.value.requirements, s.runners[r];
            runner.poolType == "standard" && q.os == runner.os && q.executor == runner.executor &&
            (q.architecture == "" || q.architecture == runner.architecture) && q.diskBytes <= runner.availableDiskBytes &&
            forall key | key in q.labels :: (if key in runner.labels then runner.labels[key] else "") == q.labels[key]
  {
    CountIsLiveLeases(s.jobs, r, now);
    assert s.jobs[ClaimIndex(s, r, now)].status == Queued;
  }

  /** A Runner with room gets a job whenever one that fits is queued, and none of the queued jobs before it fits. */
  lemma FittingJobIsClaimed(s: Store, r: nat, t: nat, now: Time, i: nat)
    requires r != NIL && r in s.runners && |LiveLeases(s.jobs, r, now)| < s.runners[r].capacity
    requires i < |s.jobs| && s.jobs[i].status == Queued
    requires var q, runner := s.jobs[i].requirements, s.runners[r];
             runner.poolType == "standard" && q.os == runner.os && q.executor == runner.executor &&
             (q.architecture == "" || q.architecture == runner.architecture) && q.diskBytes <= runner.availableDiskBytes &&
             forall key | key in q.labels :: (if key in runner.labels then runner.labels[key] else "") == q.labels[key]
    ensures ClaimResult(s, r, t, now).Success? && ClaimResult(s, r, t, now).value.Some?
    ensures exists k :: 0 <= k <= i && ClaimResult(s, r, t, now).value.value.id == s.jobs[k].id && s.jobs[k].status == Queued
  {
    CountIsLiveLeases(s.jobs, r, now);
    assert Claimable(s.jobs[i], s.runners[r]);
    assert ClaimIndex(s, r, now) <= i;
  }

  /** A claim records that the run of the job has started. */
  lemma ClaimStartsRun(s: Store, r: nat, t: nat, now: Time, x: nat)
    requires r != NIL && r in s.runners && ClaimResult(s, r, t, now).Success? && ClaimResult(s, r, t, now).value.Some?
    requires x < |s.records| && s.records[x].id == ClaimResult(s, r, t, now).value.value.runId
    requires forall y, z | 0 <= y < z < |s.records| :: s.records[y].id != s.records[z].id
    ensures var records := Claim(s, r, t, now).records;
            |records| == |s.records| && records[x].id == s.records[x].id && records[x].status == RunRunning &&
            records[x].startedAt == (if s.records[x].startedAt.Some? then s.records[x].startedAt else Some(now))
  {
  }

  // The requests of the holder.

  /** The request names the job's current lease: its Runner and its token, before the deadline. */
  predicate NamesLease(jobs: seq<Job>, i: nat, r: nat, jobId: nat, t: nat, now: Time) {
    i < |jobs| && jobs[i].id == jobId && jobs[i].runnerId == r && jobs[i].token == t && now < jobs[i].expires &&
    (jobs[i].status == Assigned || jobs[i].status == Running)
  }

  lemma FoundIs(jobs: seq<Job>, i: nat)
    requires DistinctIds(jobs) && i < |jobs|
    ensures FindJob(jobs, jobs[i].id) == i
  {
  }

  /** An acknowledgement is granted exactly to the holder of the lease; the first one is recorded, and the deadline answered. */
  lemma AcknowledgeLaw(s: Store, r: nat, jobId: nat, t: nat, now: Time, i: nat)
    requires DistinctIds(s.jobs) && r != NIL && jobId != NIL && t != NO_TOKEN && i < |s.jobs| && s.jobs[i].id == jobId
    ensures AcknowledgeResult(s, r, jobId, t, now).Success? <==> NamesLease(s.jobs, i, r, jobId, t, now)
    ensures NamesLease(s.jobs, i, r, jobId, t, now) ==>
              AcknowledgeResult(s, r, jobId, t, now).value == s.jobs[i].expires &&
              Acknowledge(s, r, jobId, t, now) == s.(jobs := s.jobs[i := s.jobs[i].(acceptedAt :=
                if s.jobs[i].acceptedAt.Some? then s.jobs[i].acceptedAt else Some(now))])
    ensures !NamesLease(s.jobs, i, r, jobId, t, now) ==> Acknowledge(s, r, jobId, t, now) == s
  {
    FoundIs(s.jobs, i);
  }

  /** Only an assignment that was never accepted goes back to the queue, free for anybody. */
  lemma ReleaseLaw(s: Store, r: nat, jobId: nat, t: nat, now: Time, i: nat)
    requires DistinctIds(s.jobs) && r != NIL && jobId != NIL && t != NO_TOKEN && i < |s.jobs| && s.jobs[i].id == jobId
    ensures var granted := NamesLease(s.jobs, i, r, jobId, t, now) && s.jobs[i].status == Assigned && s.jobs[i].acceptedAt == None;
            (ReleaseResult(s, r, jobId, t, now).Success? <==> granted) &&
            Release(s, r, jobId, t, now) ==
              if granted then s.(jobs := s.jobs[i := s.jobs[i].(status := Queued, runnerId := 0, token := 0, expires := 0)]) else s
  {
    FoundIs(s.jobs, i);
  }

  /** Only a job whose assignment was accepted starts. */
  lemma StartLaw(s: Store, r: nat, jobId: nat, t: nat, now: Time, i: nat)
    requires DistinctIds(s.jobs) && r != NIL && jobId != NIL && t != NO_TOKEN && i < |s.jobs| && s.jobs[i].id == jobId
    ensures var granted := NamesLease(s.jobs, i, r, jobId, t, now) && s.jobs[i].acceptedAt.Some?;
            (StartResult(s, r, jobId, t, now).Success? <==> granted) &&
            (granted ==> StartResult(s, r, jobId, t, now).value == s.jobs[i].expires) &&
            Start(s, r, jobId, t, now) == if granted then s.(jobs := s.jobs[i := s.jobs[i].(status := Running)]) else s
  {
    FoundIs(s.jobs, i);
  }

  /** A completion is accepted exactly from the holder and with a conclusion; the job ends so and gives up its lease. */
  lemma CompleteLaw(s: Store, r: nat, jobId: nat, t: nat, status: JobStatus, now: Time, i: nat)
    requires DistinctIds(s.jobs) && r != NIL && jobId != NIL && t != NO_TOKEN && i < |s.jobs| && s.jobs[i].id == jobId
    ensures var granted := NamesLease(s.jobs, i, r, jobId, t, now) && (status == Succeeded || status == Failed || status == Canceled);
            (CompleteResult(s, r, jobId, t, status, now).Success? <==> granted) &&
            (!granted ==> Complete(s, r, jobId, t, status, now) == s)
    ensures CompleteResult(s, r, jobId, t, status, now).Success? ==>
              |Complete(s, r, jobId, t, status, now).jobs| == |s.jobs| &&
              Complete(s, r, jobId, t, status, now).jobs[i] == s.jobs[i].(status := status, token := 0, runnerId := 0)
  {
    FoundIs(s.jobs, i);
    if CompleteResult(s, r, jobId, t, status, now).Success? {
      assert Complete(s, r, jobId, t, status, now).jobs == CompleteJobs(s.jobs, i, status);
      CompletedJob(s.jobs, i, status, i);
      CompletedRow(s.jobs, i, status);
    }
  }

  lemma CompletedRow(jobs: seq<Job>, i: nat, status: JobStatus)
    requires i < |jobs| && (status == Succeeded || status == Failed || status == Canceled)
    ensures CompleteJobs(jobs, i, status)[i] == jobs[i].(status := status, token := 0, runnerId := 0)
  {
  }

  /** A completion that leaves a job of the run open leaves its record alone; the one that ends the last job records the outcome and the time. */
  lemma CompletionEndsRun(s: Store, r: nat, jobId: nat, t: nat, status: JobStatus, now: Time, i: nat, x: nat)
    requires DistinctIds(s.jobs) && i < |s.jobs| && s.jobs[i].id == jobId && x < |s.records| && s.records[x].id == s.jobs[i].runId
    requires CompleteResult(s, r, jobId, t, status, now).Success?
    requires forall y, z | 0 <= y < z < |s.records| :: s.records[y].id != s.records[z].id
    ensures var after, rec := Complete(s, r, jobId, t, status, now), s.records[x];
            |after.records| == |s.records| &&
            (forall y | 0 <= y < |s.records| && y != x :: after.records[y] == s.records[y]) &&
            if exists k :: 0 <= k < |after.jobs| && after.jobs[k].runId == rec.id && !JobTerminal(after.jobs[k].status)
            then after.records[x] == rec
            else after.records[x].finishedAt == Some(now) && after.records[x].startedAt == rec.startedAt && after.records[x].id == rec.id
  {
    FoundIs(s.jobs, i);
    var jobs := CompleteJobs(s.jobs, i, status);
    assert Complete(s, r, jobId, t, status, now) == FinalizeRun(s.(jobs := jobs), s.jobs[i].runId, now);
  }

  // Heartbeats.

  predicate Listed(jobs: seq<Job>, i: nat, r: nat, leases: seq<ActiveLease>, now: Time) {
    exists x | 0 <= x < |leases| :: NamesLease(jobs, i, r, leases[x].jobId, leases[x].token, now)
  }

  lemma ListedSplits(jobs: seq<Job>, i: nat, r: nat, leases: seq<ActiveLease>, now: Time)
    requires leases != []
    ensures var n := |leases| - 1;
            Listed(jobs, i, r, leases, now) <==>
            Listed(jobs, i, r, leases[..n], now) || NamesLease(jobs, i, r, leases[n].jobId, leases[n].token, now)
  {
    var n := |leases| - 1;
    if Listed(jobs, i, r, leases, now) {
      var x :| 0 <= x < |leases| && NamesLease(jobs, i, r, leases[x].jobId, leases[x].token, now);
      assert x < n ==> leases[..n][x] == leases[x];
    }
    if Listed(jobs, i, r, leases[..n], now) {
      var x :| 0 <= x < n && NamesLease(jobs, i, r, leases[..n][x].jobId, leases[..n][x].token, now);
      assert leases[x] == leases[..n][x];
    }
  }

  /** A heartbeat prolongs exactly the leases that it names and that are the Runner's own, current and alive. */
  lemma {:induction false} RenewLaw(jobs: seq<Job>, r: nat, leases: seq<ActiveLease>, now: Time, i: nat)
    requires DistinctIds(jobs) && DistinctJobs(leases) && i < |jobs|
    ensures RenewAll(jobs, r, leases, now)[i] ==
            if exists x | 0 <= x < |leases| :: NamesLease(jobs, i, r, leases[x].jobId, leases[x].token, now)
            then jobs[i].(expires := now + 30_000_000_000) else jobs[i]
  {
    if leases != [] {
      var n := |leases| - 1;
      RenewLaw(jobs, r, leases[..n], now, i);
      ListedSplits(jobs, i, r, leases, now);
      RenewLast(jobs, r, leases[..n], leases[n], now, i);
    }
  }

  /** The last lease of a list is judged as if it stood alone. */
  lemma RenewLast(jobs: seq<Job>, r: nat, init: seq<ActiveLease>, a: ActiveLease, now: Time, i: nat)
    requires DistinctIds(jobs) && i < |jobs| && forall x | 0 <= x < |init| :: init[x].jobId != a.jobId
    ensures var before := RenewAll(jobs, r, init, now);
            RenewOne(before, r, a, now)[i] ==
            if NamesLease(jobs, i, r, a.jobId, a.token, now) then jobs[i].(expires := now + 30_000_000_000) else before[i]
  {
    var before := RenewAll(jobs, r, init, now);
    RenewOthers(jobs, r, init, now, a.jobId);
    var k := FindJob(before, a.jobId);
    if jobs[i].id == a.jobId {
      forall y | 0 <= y < i ensures before[y].id != a.jobId { assert before[y].id == jobs[y].id; }
      assert k == i;
    }
  }

  /** Each lease of a heartbeat is answered: renewed until the new deadline if it is current and alive, revoked otherwise. */
  lemma {:induction false} RenewAnswers(jobs: seq<Job>, r: nat, leases: seq<ActiveLease>, now: Time, x: nat)
    requires DistinctIds(jobs) && DistinctJobs(leases) && x < |leases|
    ensures |RenewResults(jobs, r, leases, now)| == |leases|
    ensures RenewResults(jobs, r, leases, now)[x] ==
            if exists i | 0 <= i < |jobs| :: NamesLease(jobs, i, r, leases[x].jobId, leases[x].token, now)
            then Renewed(leases[x].jobId, now + 30_000_000_000) else Revoked(leases[x].jobId)
  {
    var n := |leases| - 1;
    RenewResultsLength(jobs, r, leases[..n], now);
    if x < n {
      RenewAnswers(jobs, r, leases[..n], now, x);
    } else {
      LastAnswer(jobs, r, leases[..n], leases[n], now);
    }
  }

  lemma LastAnswer(jobs: seq<Job>, r: nat, init: seq<ActiveLease>, a: ActiveLease, now: Time)
    requires DistinctIds(jobs) && forall x | 0 <= x < |init| :: init[x].jobId != a.jobId
    ensures Authorized(RenewAll(jobs, r, init, now), r, a.jobId, a.token, now) <==>
            exists i | 0 <= i < |jobs| :: NamesLease(jobs, i, r, a.jobId, a.token, now)
  {
    var before := RenewAll(jobs, r, init, now);
    RenewOthers(jobs, r, init, now, a.jobId);
    if Authorized(before, r, a.jobId, a.token, now) { assert NamesLease(jobs, FindJob(before, a.jobId), r, a.jobId, a.token, now); }
    if i :| 0 <= i < |jobs| && NamesLease(jobs, i, r, a.jobId, a.token, now) {
      forall y | 0 <= y < i ensures before[y].id != a.jobId { assert before[y].id == jobs[y].id; }
      assert FindJob(before, a.jobId) == i;
    }
  }

  /** A heartbeat is accepted, and registers the Runner as it describes itself, exactly when it is well-formed. */
  lemma HeartbeatLaw(s: Store, r: Runner, leases: seq<ActiveLease>, now: Time)
    ensures var valid :=
              r.id != 0 && (r.poolType == "standard" || r.poolType == "privileged" || r.poolType == "deployment") &&
              0 < |r.os| <= 64 && 0 < |r.architecture| <= 64 && 0 < |r.executor| <= 64 && 0 < r.capacity <= 256 &&
              r.availableDiskBytes >= 0 && 0 < r.protocolVersion <= 2 && |r.labels| <= 128 &&
              |leases| <= r.capacity &&
              (forall key | key in r.labels :: ValidLabel(key, r.labels[key])) &&
              (forall x | 0 <= x < |leases| ::
                leases[x].jobId != 0 && leases[x].token != 0 && (leases[x].state == "received" || leases[x].state == "running")) &&
              forall x, y | 0 <= x < |leases| && 0 <= y < |leases| && leases[x].jobId == leases[y].jobId :: x == y;
            (RenewResult(s, r, leases, now).Success? <==> valid) &&
            (valid ==> Renew(s, r, leases, now) == s.(runners := s.runners[r.id := r], jobs := RenewAll(s.jobs, r.id, leases, now))) &&
            (!valid ==> Renew(s, r, leases, now) == s)
  {
  }

  // Refusals.

  /** A request that names no Runner, no job or no token is refused before anything is looked up. */
  lemma NilIsRefused(s: Store, r: nat, jobId: nat, t: nat, status: JobStatus, now: Time)
    requires r == 0 || jobId == 0 || t == 0
    ensures AcknowledgeResult(s, r, jobId, t, now) == Failure(InvalidRequest) && Acknowledge(s, r, jobId, t, now) == s
    ensures ReleaseResult(s, r, jobId, t, now) == Failure(InvalidRequest) && Release(s, r, jobId, t, now) == s
    ensures StartResult(s, r, jobId, t, now) == Failure(InvalidRequest) && Start(s, r, jobId, t, now) == s
    ensures CompleteResult(s, r, jobId, t, status, now) == Failure(InvalidRequest) && Complete(s, r, jobId, t, status, now) == s
  {
  }

  // Creation.

  lemma {:induction false} SpecAt(stages: seq<Stage>, n: nat, a: nat, b: nat)
    requires a < n <= |stages| && b < |stages[a].jobs|
    ensures var k := |FlatPrefix(stages, a)| + b;
            k < |FlatPrefix(stages, n)| && SpecPrefix(stages, n)[k] == stages[a].jobs[b].runsOn &&
            FlatPrefix(stages, n)[k] == FlatJob(stages, stages[a], stages[a].jobs[b])
  {
    if a < n - 1 { SpecAt(stages, n - 1, a, b); }
  }

  /** A new run comes in front of the others; its jobs come behind theirs, in the order of the plan and free of any lease. */
  lemma CreationLaw(s: Store, record: Record, plan: seq<Stage>, ids: seq<nat>, a: nat, b: nat)
    requires |ids| == |Flatten(plan)| && a < |plan| && b < |plan[a].jobs|
    ensures var after, known := Create(s, record, Some(plan), ids), exists x :: 0 <= x < |s.records| && s.records[x].id == record.id;
            (CreateResult(s, record, Some(plan)).Success? <==> !known) && (known ==> after == s) &&
            (!known ==>
              after.records == [record] + s.records && after.runners == s.runners &&
              |after.jobs| == |s.jobs| + |ids| && after.jobs[..|s.jobs|] == s.jobs &&
              var k := |FlatPrefix(plan, a)| + b;
              k < |ids| &&
              var job := after.jobs[|s.jobs| + k];
              job.id == ids[k] && job.runId == record.id && job.key == plan[a].name + "/" + plan[a].jobs[b].name &&
              job.requirements == plan[a].jobs[b].runsOn && job.runnerId == 0 && job.token == 0 && job.acceptedAt == None &&
              job.status == if job.dependencies == [] then Queued else Blocked)
  {
    SpecAt(plan, |plan|, a, b);
    var after := Create(s, record, Some(plan), ids);
    if FindRecord(s.records, record.id, 0) < |s.records| {
      assert s.records[FindRecord(s.records, record.id, 0)].id == record.id;
    } else {
      assert after.jobs[..|s.jobs|] == s.jobs;
      assert after.jobs[|s.jobs| + |FlatPrefix(plan, a)| + b] == NewJobs(plan, record.id, ids)[|FlatPrefix(plan, a)| + b];
    }
  }
}
