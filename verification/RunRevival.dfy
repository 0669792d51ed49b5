// Which outcomes of the in-memory store are final: the exact condition under which a run
// that has ended is set running again by what may still happen.

module RunRevival {
  import opened PipelineCompiler
  import opened Basics
  import opened RunModel
  import opened JobInvariants
  import opened Scheduler
  import opened SchedulerSafety
  import opened TransitionTable
  import opened RunOutcome

  /** `longer` is a way in which the run of the system may go on. */
  ghost predicate Continues(trace: seq<World>, longer: seq<World>) {
    trace != [] && trace <= longer && Behaviour(longer)
  }

  predicate HasStatus(s: Store, runId: nat, status: RunStatus) {
    exists x | 0 <= x < |s.records| :: s.records[x].id == runId && s.records[x].status == status
  }

  /** Some Runner that may register can take a job with these requirements. */
  ghost predicate Serviceable(q: Requirements) {
    exists r: Runner :: ValidHeartbeat(r, []) && RunnerMatches(q, r)
  }

  predicate Waits(j: Job, runId: nat) {
    j.runId == runId && (j.status == Queued || j.status == Assigned)
  }

  /** A job of the run is queued or assigned, and some Runner can take it. */
  ghost predicate Revivable(s: Store, runId: nat) {
    exists i :: 0 <= i < |s.jobs| && Waits(s.jobs[i], runId) && Serviceable(s.jobs[i].requirements)
  }

  // Continuing a run of the system.

  lemma Continue(trace: seq<World>, op: Op, now: Time) returns (longer: seq<World>)
    requires Behaviour(trace) && Last(trace).now <= now && Enabled(Last(trace), op)
    ensures Continues(trace, longer) && Last(longer) == Apply(Last(trace), op, now)
  {
    var w' := Apply(Last(trace), op, now);
    longer := trace + [w'];
    assert Next(Last(trace), w');
    forall i, j | 0 <= i < |longer| && j == i + 1 && j < |longer| ensures Next(longer[i], longer[j]) {
      assert j < |trace| ==> Next(trace[i], trace[j]);
    }
  }

  lemma StateIsOk(trace: seq<World>)
    requires Behaviour(trace)
    ensures Inv(Last(trace)) && RecordsOk(Last(trace).store)
  {
    BehaviourKeepsInv(trace, |trace| - 1);
    OutcomesAreBacked(trace, |trace| - 1);
  }

  // An assigned job comes back to the queue.

  lemma {:induction false} FirstExpired(jobs: seq<Job>, n: nat, now: Time) returns (f: nat)
    requires n <= |jobs| && ExpiredCount(jobs, n, now) > 0
    ensures f < n && Handled(jobs, f, 1, now)
  {
    if ExpiredCount(jobs, n - 1, now) > 0 { f := FirstExpired(jobs, n - 1, now); } else { f := n - 1; }
  }

  lemma {:induction false} FewerExpired(a: seq<Job>, b: seq<Job>, n: nat, now: Time, f: nat)
    requires |a| == |b| && n <= |a| && f < |a| && Expired(a[f], now) && !Expired(b[f], now)
    requires forall i | 0 <= i < |a| && Expired(b[i], now) :: Expired(a[i], now)
    ensures ExpiredCount(b, n, now) + (if f < n then 1 else 0) <= ExpiredCount(a, n, now)
  {
    if n > 0 { FewerExpired(a, b, n - 1, now, f); }
  }

  /** A recovery of one lease: it requeues job `i`, or an earlier expired lease comes first. */
  lemma RecoverOne(s: Store, i: nat, now: Time)
    requires i < |s.jobs| && s.jobs[i].status == Assigned && Expired(s.jobs[i], now)
    ensures var jobs := Recover(s, 1, now).jobs;
            |jobs| == |s.jobs| && SameShape(s.jobs[i], jobs[i]) &&
            if ExpiredCount(s.jobs, i, now) == 0 then jobs[i].status == Queued
            else jobs[i] == s.jobs[i] && ExpiredCount(jobs, i, now) < ExpiredCount(s.jobs, i, now)
  {
    var n := |s.jobs|;
    var jobs := Recover(s, 1, now).jobs;
    AssignedRecovers(s, n, 1, now, i);
    RecoverTouches(s, n, 1, now, i);
    if ExpiredCount(s.jobs, i, now) == 0 {
      forall k | i < k < n ensures !Handled(s.jobs, k, 1, now) { ExpiredCountGrows(s.jobs, i + 1, k, now); }
    } else {
      var f := FirstExpired(s.jobs, i, now);
      HandledIsReleased(s, n, 1, now, f);
      forall k | 0 <= k < n && Expired(jobs[k], now) ensures Expired(s.jobs[k], now) { RecoverTouches(s, n, 1, now, k); }
      FewerExpired(s.jobs, jobs, i, now, f);
    }
  }

  lemma {:induction false} Requeue(trace: seq<World>, i: nat, now: Time) returns (longer: seq<World>)
    requires Behaviour(trace) && Last(trace).now <= now && i < |Last(trace).store.jobs|
    requires Last(trace).store.jobs[i].status == Assigned && Expired(Last(trace).store.jobs[i], now)
    ensures Continues(trace, longer) && i < |Last(longer).store.jobs| && Last(longer).store.jobs[i].status == Queued
    ensures SameShape(Last(trace).store.jobs[i], Last(longer).store.jobs[i])
    decreases ExpiredCount(Last(trace).store.jobs, i, now)
  {
    RecoverOne(Last(trace).store, i, now);
    var next := Continue(trace, RecoverLeases(1), now);
    if ExpiredCount(Last(trace).store.jobs, i, now) == 0 {
      longer := next;
    } else {
      longer := Requeue(next, i, now);
    }
  }

  // A queued job, or one before it of the same run, is claimed.

  lemma {:induction false} LatestExpiry(jobs: seq<Job>, from: Time) returns (t: Time)
    ensures from <= t && forall i | 0 <= i < |jobs| :: jobs[i].expires <= t
  {
    if jobs == [] {
      t := from;
    } else {
      var n := |jobs| - 1;
      t := LatestExpiry(jobs[..n], from);
      assert forall i | 0 <= i < n :: jobs[..n][i] == jobs[i];
      if t < jobs[n].expires { t := jobs[n].expires; }
    }
  }

  lemma {:induction false} NobodyHolds(jobs: seq<Job>, r: nat, now: Time)
    requires forall i | 0 <= i < |jobs| :: jobs[i].expires <= now
    ensures HeldCount(jobs, r, now) == 0
  {
    if jobs != [] { NobodyHolds(jobs[..|jobs| - 1], r, now); }
  }

  lemma {:induction false} FreshToken(issued: set<nat>) returns (t: nat)
    ensures t != NO_TOKEN && forall x | x in issued :: x < t
  {
    if issued == {} {
      t := 1;
    } else {
      var x :| x in issued;
      t := FreshToken(issued - {x});
      if t <= x { t := x + 1; }
      assert issued == issued - {x} + {x};
    }
  }

  function QueuedCount(jobs: seq<Job>, n: nat): nat
    requires n <= |jobs|
  {
    if n == 0 then 0 else QueuedCount(jobs, n - 1) + if jobs[n - 1].status == Queued then 1 else 0
  }

  lemma {:induction false} FewerQueued(jobs: seq<Job>, n: nat, f: nat, j': Job)
    requires n <= |jobs| && f < |jobs| && jobs[f].status == Queued && j'.status != Queued
    ensures QueuedCount(jobs[f := j'], n) == QueuedCount(jobs, n) - if f < n then 1 else 0
  {
    if n > 0 { FewerQueued(jobs, n - 1, f, j'); }
  }

  /** The Runner registers once every lease has expired. */
  lemma Register(trace: seq<World>, r: Runner) returns (longer: seq<World>)
    requires Behaviour(trace) && ValidHeartbeat(r, [])
    ensures Continues(trace, longer)
    ensures var s := Last(longer).store;
            s.jobs == Last(trace).store.jobs && r.id in s.runners && s.runners[r.id] == r &&
            HeldCount(s.jobs, r.id, Last(longer).now) == 0
  {
    var jobs := Last(trace).store.jobs;
    var now := LatestExpiry(jobs, Last(trace).now);
    NobodyHolds(jobs, r.id, now);
    longer := Continue(trace, Heartbeat(r, []), now);
  }

  /** One claim by a matching Runner: it takes job `i` or a queued one before it. */
  lemma ClaimFirst(trace: seq<World>, i: nat, r: Runner) returns (longer: seq<World>, f: nat)
    requires Behaviour(trace) && ValidHeartbeat(r, []) && i < |Last(trace).store.jobs|
    requires Claimable(Last(trace).store.jobs[i], r)
    ensures Continues(trace, longer)
    ensures var before, after := Last(trace).store, Last(longer).store;
            f <= i && before.jobs[f].status == Queued && |after.jobs| == |before.jobs| &&
            after.jobs == before.jobs[f := after.jobs[f]] && after.jobs[f].status == Assigned &&
            HasStatus(after, before.jobs[f].runId, RunRunning)
  {
    var ready := Register(trace, r);
    var s, now := Last(ready).store, Last(ready).now;
    var token := FreshToken(Last(ready).issued);
    f := FirstClaimable(s.jobs, r, 0);
    assert ClaimIndex(s, r.id, now) == f;
    longer := Continue(ready, ClaimJob(r.id, token), now);
    StateIsOk(ready);
    ClaimedRunRuns(s, ClaimJob(r.id, token), now, f);
  }

  lemma ClaimedRunRuns(s: Store, op: Op, now: Time, f: nat)
    requires RecordsOk(s) && RunsRecorded(s) && op.ClaimJob? && !ClaimRefused(s, op.runnerId)
    requires f == ClaimIndex(s, op.runnerId, now) < |s.jobs|
    ensures HasStatus(Claim(s, op.runnerId, op.token, now), s.jobs[f].runId, RunRunning)
  {
    assert Recorded(s.records, s.jobs[f].runId);
    var x :| 0 <= x < |s.records| && s.records[x].id == s.jobs[f].runId;
    ClaimChangesStatus(s, op, now, x);
    EffectKeepsRecordIds(s, op, now);
    assert Claim(s, op.runnerId, op.token, now).records[x].id == s.records[x].id;
  }

  lemma {:induction false} ClaimUntil(trace: seq<World>, i: nat, r: Runner) returns (longer: seq<World>)
    requires Behaviour(trace) && ValidHeartbeat(r, []) && i < |Last(trace).store.jobs|
    requires Claimable(Last(trace).store.jobs[i], r)
    ensures Continues(trace, longer) && HasStatus(Last(longer).store, Last(trace).store.jobs[i].runId, RunRunning)
    decreases QueuedCount(Last(trace).store.jobs, i)
  {
    var jobs := Last(trace).store.jobs;
    var next, f := ClaimFirst(trace, i, r);
    if f == i {
      longer := next;
    } else {
      FewerQueued(jobs, i, f, Last(next).store.jobs[f]);
      longer := ClaimUntil(next, i, r);
    }
  }

  /** A queued or assigned job that some Runner can take will, if things go that way, set its run running. */
  lemma WaitingJobRevives(trace: seq<World>, i: nat, runId: nat) returns (longer: seq<World>)
    requires Behaviour(trace) && i < |Last(trace).store.jobs| && Waits(Last(trace).store.jobs[i], runId)
    requires Serviceable(Last(trace).store.jobs[i].requirements)
    ensures Continues(trace, longer) && HasStatus(Last(longer).store, runId, RunRunning)
  {
    var j := Last(trace).store.jobs[i];
    var r: Runner :| ValidHeartbeat(r, []) && RunnerMatches(j.requirements, r);
    if j.status == Queued {
      longer := ClaimUntil(trace, i, r);
    } else {
      var now := if Last(trace).now < j.expires then j.expires else Last(trace).now;
      var queued := Requeue(trace, i, now);
      longer := ClaimUntil(queued, i, r);
    }
  }

  // Nothing else changes the outcome.

  /** The run has this outcome, and no job of it can be handed out any more. */
  ghost predicate Settled(s: Store, runId: nat, status: RunStatus) {
    HasStatus(s, runId, status) &&
    forall i | 0 <= i < |s.jobs| && s.jobs[i].runId == runId ::
      s.jobs[i].status != Blocked && (Waits(s.jobs[i], runId) ==> !Serviceable(s.jobs[i].requirements))
  }

  ghost predicate RunnersValid(s: Store) {
    forall r | r in s.runners :: ValidHeartbeat(s.runners[r], [])
  }

  lemma {:induction false} AlwaysRunnersValid(trace: seq<World>, n: nat)
    requires Behaviour(trace) && n < |trace|
    ensures RunnersValid(trace[n].store)
  {
    if n > 0 {
      AlwaysRunnersValid(trace, n - 1);
      assert Next(trace[n - 1], trace[n]);
      var op, now :| trace[n - 1].now <= now && Enabled(trace[n - 1], op) && trace[n] == Apply(trace[n - 1], op, now);
      EffectKeepsRunners(trace[n - 1].store, op, now);
    }
  }

  /** Once a run has ended, nothing of it is blocked. */
  lemma EndedRunBlocksNothing(s: Store, x: nat, issued: set<nat>, i: nat)
    requires JobsOk(s.jobs, issued) && RecordsOk(s) && x < |s.records| && RunTerminal(s.records[x].status)
    requires i < |s.jobs| && s.jobs[i].runId == s.records[x].id
    ensures s.jobs[i].status != Blocked
  {
    assert OutcomeOk(s.jobs, s.records[x].id, s.records[x].status);
    if s.records[x].status == RunFailed {
      var k :| 0 <= k < |s.jobs| && s.jobs[k].runId == s.records[x].id && s.jobs[k].status == Failed;
      assert Unsuccessful(s.jobs[k].status);
    }
  }

  lemma SettledJobStays(w: World, op: Op, now: Time, runId: nat, status: RunStatus, i: nat)
    requires Settled(w.store, runId, status) && RunsRecorded(w.store) && Enabled(w, op)
    requires i < |Effect(w.store, op, now).jobs| && Effect(w.store, op, now).jobs[i].runId == runId
    ensures var j' := Effect(w.store, op, now).jobs[i];
            j'.status != Blocked && (Waits(j', runId) ==> !Serviceable(j'.requirements))
  {
    if i < |w.store.jobs| {
      EveryStepIsJobStep(w, op, now, i);
    } else if !op.CreateRun? {
      EffectKeepsShapes(w.store, op, now);
    }
  }

  /** Nobody claims from a run whose waiting jobs nobody can take. */
  lemma SettledIsNotClaimed(s: Store, op: Op, now: Time, runId: nat, status: RunStatus)
    requires RunnersValid(s) && Settled(s, runId, status)
    ensures !ClaimsFrom(s, op, now, runId)
  {
    if op.ClaimJob? && !ClaimRefused(s, op.runnerId) && ClaimIndex(s, op.runnerId, now) < |s.jobs| {
      var i := ClaimIndex(s, op.runnerId, now);
      assert RunnerMatches(s.jobs[i].requirements, s.runners[op.runnerId]) && ValidHeartbeat(s.runners[op.runnerId], []);
    }
  }

  lemma UnclaimedStatusStays(w: World, op: Op, now: Time, x: nat)
    requires Inv(w) && RecordsOk(w.store) && Enabled(w, op) && x < |w.store.records| && RunTerminal(w.store.records[x].status)
    requires !ClaimsFrom(w.store, op, now, w.store.records[x].id)
    ensures HasStatus(Effect(w.store, op, now), w.store.records[x].id, w.store.records[x].status)
  {
    TerminalRunChangesIffClaimed(w, op, now, x);
    var records := Effect(w.store, op, now).records;
    assert records[x + |records| - |w.store.records|].id == w.store.records[x].id;
  }

  lemma SettledStatusStays(w: World, op: Op, now: Time, runId: nat, status: RunStatus)
    requires Inv(w) && RecordsOk(w.store) && RunnersValid(w.store) && Enabled(w, op)
    requires Settled(w.store, runId, status) && RunTerminal(status)
    ensures HasStatus(Effect(w.store, op, now), runId, status)
  {
    SettledIsNotClaimed(w.store, op, now, runId, status);
    var x :| 0 <= x < |w.store.records| && w.store.records[x].id == runId && w.store.records[x].status == status;
    UnclaimedStatusStays(w, op, now, x);
  }

  lemma SettledJobsStay(w: World, op: Op, now: Time, runId: nat, status: RunStatus)
    requires RunsRecorded(w.store) && Enabled(w, op) && Settled(w.store, runId, status)
    requires HasStatus(Effect(w.store, op, now), runId, status)
    ensures Settled(Effect(w.store, op, now), runId, status)
  {
    var after := Effect(w.store, op, now);
    forall i | 0 <= i < |after.jobs| && after.jobs[i].runId == runId
      ensures after.jobs[i].status != Blocked && (Waits(after.jobs[i], runId) ==> !Serviceable(after.jobs[i].requirements))
    {
      SettledJobStays(w, op, now, runId, status, i);
    }
  }

  lemma {:induction false} SettledForever(trace: seq<World>, m: nat, n: nat, runId: nat, status: RunStatus)
    requires Behaviour(trace) && m <= n < |trace| && Settled(trace[m].store, runId, status) && RunTerminal(status)
    ensures Settled(trace[n].store, runId, status)
    decreases n
  {
    if m < n {
      SettledForever(trace, m, n - 1, runId, status);
      BehaviourKeepsInv(trace, n - 1);
      OutcomesAreBacked(trace, n - 1);
      AlwaysRunnersValid(trace, n - 1);
      assert Next(trace[n - 1], trace[n]);
      var op, now :| trace[n - 1].now <= now && Enabled(trace[n - 1], op) && trace[n] == Apply(trace[n - 1], op, now);
      SettledStatusStays(trace[n - 1], op, now, runId, status);
      SettledJobsStay(trace[n - 1], op, now, runId, status);
    }
  }

  // The exact condition.

  lemma OneStatus(s: Store, runId: nat, a: RunStatus, b: RunStatus)
    requires DistinctRecords(s.records) && HasStatus(s, runId, a) && HasStatus(s, runId, b)
    ensures a == b
  {
  }

  /** An outcome that no job can revive stays for ever. */
  lemma SettledOutcomeIsFinal(trace: seq<World>, x: nat, longer: seq<World>)
    requires Behaviour(trace) && x < |Last(trace).store.records| && RunTerminal(Last(trace).store.records[x].status)
    requires !Revivable(Last(trace).store, Last(trace).store.records[x].id) && Continues(trace, longer)
    ensures HasStatus(Last(longer).store, Last(trace).store.records[x].id, Last(trace).store.records[x].status)
  {
    var s := Last(trace).store;
    var rec := s.records[x];
    StateIsOk(trace);
    forall i | 0 <= i < |s.jobs| && s.jobs[i].runId == rec.id ensures s.jobs[i].status != Blocked {
      EndedRunBlocksNothing(s, x, Last(trace).issued, i);
    }
    assert longer[|trace| - 1] == Last(trace);
    SettledForever(longer, |trace| - 1, |longer| - 1, rec.id, rec.status);
  }

  /** A run that has ended can be set running again exactly when a job of it is queued or assigned and some Runner can take that job. */
  lemma RevivedIff(trace: seq<World>, x: nat)
    requires Behaviour(trace) && x < |Last(trace).store.records| && RunTerminal(Last(trace).store.records[x].status)
    ensures var rec := Last(trace).store.records[x];
            (exists longer :: Continues(trace, longer) && HasStatus(Last(longer).store, rec.id, RunRunning)) <==>
            Revivable(Last(trace).store, rec.id)
    ensures var rec := Last(trace).store.records[x];
            (forall longer | Continues(trace, longer) :: HasStatus(Last(longer).store, rec.id, rec.status)) <==>
            !Revivable(Last(trace).store, rec.id)
  {
    var s := Last(trace).store;
    var rec := s.records[x];
    if Revivable(s, rec.id) {
      var i :| 0 <= i < |s.jobs| && Waits(s.jobs[i], rec.id) && Serviceable(s.jobs[i].requirements);
      var longer := WaitingJobRevives(trace, i, rec.id);
      StateIsOk(longer);
      if HasStatus(Last(longer).store, rec.id, rec.status) { OneStatus(Last(longer).store, rec.id, rec.status, RunRunning); }
    } else {
      forall longer | Continues(trace, longer)
        ensures HasStatus(Last(longer).store, rec.id, rec.status) && !HasStatus(Last(longer).store, rec.id, RunRunning)
      {
        SettledOutcomeIsFinal(trace, x, longer);
        StateIsOk(longer);
        if HasStatus(Last(longer).store, rec.id, RunRunning) { OneStatus(Last(longer).store, rec.id, rec.status, RunRunning); }
      }
    }
  }
}
