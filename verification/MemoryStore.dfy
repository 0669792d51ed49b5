// The in-memory store as the source writes it: job objects updated in place inside
// loops over the job list. Each method is proved against its function in RunModel.

module MemoryStore {
  import opened DependencyGraph
  import opened PipelineCompiler
  import opened RunGraph
  import opened Basics
  import opened RunModel

  class MemoryJob {
    const id: nat
    const runId: nat
    const key: string
    const dependencies: seq<string>
    const spec: Requirements
    var status: JobStatus
    var runnerId: nat
    var acceptedAt: Option<Time>
    var token: nat
    var expires: Time

    ghost function View(): Job
      reads this
    {
      Job(id, runId, key, dependencies, spec, status, runnerId, acceptedAt, token, expires)
    }

    constructor (id: nat, runId: nat, key: string, dependencies: seq<string>, spec: Requirements, status: JobStatus)
      ensures View() == Job(id, runId, key, dependencies, spec, status, NIL, None, NO_TOKEN, ZERO_TIME)
    {
      this.id, this.runId, this.key, this.dependencies, this.spec, this.status := id, runId, key, dependencies, spec, status;
      runnerId, acceptedAt, token, expires := NIL, None, NO_TOKEN, ZERO_TIME;
    }
  }

  ghost function Views(jobs: seq<MemoryJob>): (r: seq<Job>)
    reads jobs
    ensures |r| == |jobs| && forall i | 0 <= i < |jobs| :: r[i] == jobs[i].View()
  {
    seq(|jobs|, i requires 0 <= i < |jobs| reads jobs => jobs[i].View())
  }

  // Where the jobs of a run stand in its flattened job list.

  function Position(stages: seq<Stage>, i: nat, k: nat): nat
    requires i <= |stages|
  {
    |FlatPrefix(stages, i)| + k
  }

  lemma {:induction false} PrefixGrows(stages: seq<Stage>, i: nat, n: nat)
    requires i <= n <= |stages|
    ensures |FlatPrefix(stages, i)| <= |FlatPrefix(stages, n)|
  {
    if i < n { PrefixGrows(stages, i, n - 1); }
  }

  lemma NextPosition(stages: seq<Stage>, i: nat)
    requires i < |stages|
    ensures Position(stages, i, |stages[i].jobs|) == Position(stages, i + 1, 0) <= |Flatten(stages)|
  {
    PrefixGrows(stages, i + 1, |stages|);
  }

  /** Each job of each stage appears at its position, with its own requirements. */
  lemma {:induction false} PositionInRun(stages: seq<Stage>, n: nat, i: nat, k: nat)
    requires i < n <= |stages| && k < |stages[i].jobs|
    ensures Position(stages, i, k) < |FlatPrefix(stages, n)|
    ensures FlatPrefix(stages, n)[Position(stages, i, k)] == FlatJob(stages, stages[i], stages[i].jobs[k])
    ensures SpecPrefix(stages, n)[Position(stages, i, k)] == stages[i].jobs[k].runsOn
  {
    if i < n - 1 { PositionInRun(stages, n - 1, i, k); }
  }

  lemma ExtendSlice<T>(front: seq<T>, s: seq<T>, lo: nat, hi: nat)
    requires lo <= hi < |s|
    ensures front + s[lo..hi] + [s[hi]] == front + s[lo..hi + 1]
  {
  }

  lemma JoinSlice<T>(front: seq<T>, s: seq<T>, lo: nat, hi: nat)
    requires lo <= hi <= |s|
    ensures front + s[..lo] + s[lo..hi] == front + s[..hi]
  {
  }

  class MemoryStore {
    var records: seq<Record>
    var jobs: seq<MemoryJob>
    var runners: map<nat, Runner>

    /** The list holds each job object once. */
    ghost predicate Valid()
      reads this
    {
      forall i, j | 0 <= i < j < |jobs| :: jobs[i] != jobs[j]
    }

    ghost function View(): Store
      reads this, jobs
    {
      Store(records, Views(jobs), runners)
    }

    /** Only job objects changed. */
    twostate predicate Same()
      reads this
    {
      records == old(records) && jobs == old(jobs) && runners == old(runners)
    }

    constructor ()
      ensures Valid() && View() == Store([], [], map[])
    {
      records, jobs, runners := [], [], map[];
    }

    method FindJob(id: nat) returns (i: nat)
      ensures i == RunModel.FindJob(Views(jobs), id)
    {
      i := 0;
      while i < |jobs|
        invariant i <= |jobs| && FindFrom(Views(jobs), id, i) == RunModel.FindJob(Views(jobs), id)
      {
        if jobs[i].id == id { return; }
        i := i + 1;
      }
    }

    /** Looks a job up and checks its lease, as every lease operation does first. */
    method FindLeased(runnerId: nat, jobId: nat, token: nat, now: Time) returns (i: nat, valid: bool)
      ensures i == RunModel.FindJob(Views(jobs), jobId)
      ensures valid <==> i < |jobs| && ValidLease(Views(jobs)[i], runnerId, token, now)
    {
      i := FindJob(jobId);
      valid := i < |jobs| && jobs[i].runnerId == runnerId && now < jobs[i].expires && jobs[i].token == token;
    }

    method SetStatusOfRun(runId: nat, status: RunStatus)
      modifies this`records
      ensures Views(jobs) == old(Views(jobs))
      ensures records == SetRunStatus(old(records), runId, status)
    {
      var i := 0;
      while i < |records|
        invariant i <= |records| && FindRecord(records, runId, i) == FindRecord(records, runId, 0)
        invariant records == old(records)
      {
        if records[i].id == runId {
          records := records[i := records[i].(status := status)];
          return;
        }
        i := i + 1;
      }
    }

    method SetStartOfRun(runId: nat, now: Time)
      modifies this`records
      ensures Views(jobs) == old(Views(jobs))
      ensures records == SetRunStarted(old(records), runId, now)
    {
      var i := 0;
      while i < |records|
        invariant i <= |records| && FindUnstarted(records, runId, i) == FindUnstarted(records, runId, 0)
        invariant records == old(records)
      {
        if records[i].id == runId && records[i].startedAt == None {
          records := records[i := records[i].(startedAt := Some(now))];
          return;
        }
        i := i + 1;
      }
    }

    method SetEndOfRun(runId: nat, now: Time)
      modifies this`records
      ensures Views(jobs) == old(Views(jobs))
      ensures records == SetRunFinished(old(records), runId, now)
    {
      var i := 0;
      while i < |records|
        invariant i <= |records| && FindRecord(records, runId, i) == FindRecord(records, runId, 0)
        invariant records == old(records)
      {
        if records[i].id == runId {
          records := records[i := records[i].(finishedAt := Some(now))];
          return;
        }
        i := i + 1;
      }
    }

    // Creating a run.

    /** Stage names to the keys of their jobs, as `Create` collects them before it adds any job. */
    method CollectStageJobs(stages: seq<Stage>) returns (stageJobs: map<string, seq<string>>)
      ensures forall name :: KeysUnder(stageJobs, name) == KeysOfStage(stages, name)
    {
      stageJobs := map[];
      for i := 0 to |stages|
        invariant forall name :: KeysUnder(stageJobs, name) == KeysOfStage(stages[..i], name)
      {
        assert stages[..i + 1][..i] == stages[..i];
        stageJobs := AddKeys(stageJobs, stages[i]);
      }
      assert stages[..|stages|] == stages;
    }

    method AddKeys(before: map<string, seq<string>>, stage: Stage) returns (stageJobs: map<string, seq<string>>)
      ensures forall name | name != stage.name :: KeysUnder(stageJobs, name) == KeysUnder(before, name)
      ensures KeysUnder(stageJobs, stage.name) == KeysUnder(before, stage.name) + StageKeys(stage)
    {
      stageJobs := before;
      for k := 0 to |stage.jobs|
        invariant forall name | name != stage.name :: KeysUnder(stageJobs, name) == KeysUnder(before, name)
        invariant KeysUnder(stageJobs, stage.name) == KeysUnder(before, stage.name) + StageKeys(stage)[..k]
      {
        stageJobs := stageJobs[stage.name := KeysUnder(stageJobs, stage.name) + [Key(stage.name, stage.jobs[k].name)]];
      }
    }

    static function KeysUnder(stageJobs: map<string, seq<string>>, name: string): seq<string> {
      if name in stageJobs then stageJobs[name] else []
    }

    method CollectDependencies(stages: seq<Stage>, stageJobs: map<string, seq<string>>, stage: Stage, job: JobSpec)
      returns (dependencies: seq<string>)
      requires forall name :: KeysUnder(stageJobs, name) == KeysOfStage(stages, name)
      ensures dependencies == FlatJob(stages, stage, job).dependsOn
    {
      dependencies := [];
      for d := 0 to |stage.dependsOn|
        invariant dependencies == StageDependencyKeys(stages, stage.dependsOn[..d])
      {
        assert stage.dependsOn[..d + 1][..d] == stage.dependsOn[..d];
        dependencies := dependencies + KeysUnder(stageJobs, stage.dependsOn[d]);
      }
      assert stage.dependsOn[..|stage.dependsOn|] == stage.dependsOn;
      for d := 0 to |job.dependsOn|
        invariant dependencies == StageDependencyKeys(stages, stage.dependsOn) + JobDependencyKeys(stage.name, job.dependsOn)[..d]
      {
        dependencies := dependencies + [Key(stage.name, job.dependsOn[d])];
      }
    }

    method AddJob(id: nat, runId: nat, key: string, dependencies: seq<string>, spec: Requirements)
      requires Valid()
      modifies this`jobs
      ensures Valid() && Views(jobs) == old(Views(jobs)) + [NewJob(Node(key, dependencies), spec, runId, id)]
    {
      var status := Blocked;
      if |dependencies| == 0 { status := Queued; }
      var job := new MemoryJob(id, runId, key, dependencies, spec, status);
      jobs := jobs + [job];
    }

    method AddStage(stages: seq<Stage>, i: nat, stageJobs: map<string, seq<string>>, runId: nat, ids: seq<nat>)
      requires Valid() && i < |stages| && |ids| == |Flatten(stages)|
      requires forall name :: KeysUnder(stageJobs, name) == KeysOfStage(stages, name)
      requires Position(stages, i, |stages[i].jobs|) <= |ids|
      modifies this`jobs
      ensures Valid() && Views(jobs) ==
        old(Views(jobs)) + NewJobs(stages, runId, ids)[Position(stages, i, 0)..Position(stages, i, |stages[i].jobs|)]
    {
      ghost var added, base := NewJobs(stages, runId, ids), Position(stages, i, 0);
      for k := 0 to |stages[i].jobs|
        invariant Valid() && Views(jobs) == old(Views(jobs)) + added[base..base + k]
      {
        ExtendSlice(old(Views(jobs)), added, base, base + k);
        AddJobOf(stages, i, k, stageJobs, runId, ids);
      }
    }

    method AddJobOf(stages: seq<Stage>, i: nat, k: nat, stageJobs: map<string, seq<string>>, runId: nat, ids: seq<nat>)
      requires Valid() && i < |stages| && k < |stages[i].jobs| && |ids| == |Flatten(stages)|
      requires Position(stages, i, k) < |ids|
      requires forall name :: KeysUnder(stageJobs, name) == KeysOfStage(stages, name)
      modifies this`jobs
      ensures Valid() && Views(jobs) == old(Views(jobs)) + [NewJobs(stages, runId, ids)[Position(stages, i, k)]]
    {
      var stage, job := stages[i], stages[i].jobs[k];
      var dependencies := CollectDependencies(stages, stageJobs, stage, job);
      PositionInRun(stages, |stages|, i, k);
      AddJob(ids[Position(stages, i, k)], runId, Key(stage.name, job.name), dependencies, job.runsOn);
    }

    /** Adds the run in front of the records and its jobs behind the others; `ids` are the new job identifiers. */
    method Create(record: Record, plan: Option<seq<Stage>>, ids: seq<nat>) returns (result: Result<Record>)
      requires Valid() && (plan.Some? ==> |ids| == |Flatten(plan.value)|)
      modifies this`records, this`jobs
      ensures Valid() && View() == RunModel.Create(old(View()), record, plan, ids)
      ensures result == CreateResult(old(View()), record, plan)
    {
      if plan == None { return Failure(InvalidPlan); }
      var stages := plan.value;
      var x := 0;
      while x < |records|
        invariant x <= |records| && FindRecord(records, record.id, x) == FindRecord(records, record.id, 0)
      {
        if records[x].id == record.id { return Failure(RunExists); }
        x := x + 1;
      }
      AddJobs(stages, record.id, ids);
      records := [record] + records;
      return Success(record);
    }

    method AddJobs(stages: seq<Stage>, runId: nat, ids: seq<nat>)
      requires Valid() && |ids| == |Flatten(stages)|
      modifies this`jobs
      ensures Valid() && Views(jobs) == old(Views(jobs)) + NewJobs(stages, runId, ids)
    {
      var stageJobs := CollectStageJobs(stages);
      ghost var added := NewJobs(stages, runId, ids);
      for i := 0 to |stages|
        invariant Position(stages, i, 0) <= |added|
        invariant Valid() && Views(jobs) == old(Views(jobs)) + added[..Position(stages, i, 0)]
      {
        NextPosition(stages, i);
        JoinSlice(old(Views(jobs)), added, Position(stages, i, 0), Position(stages, i + 1, 0));
        AddStage(stages, i, stageJobs, runId, ids);
      }
      assert added[..|added|] == added;
    }

    // Claiming.

    method CountHeld(runnerId: nat, now: Time) returns (active: nat)
      ensures active == HeldCount(Views(jobs), runnerId, now)
    {
      active := 0;
      ghost var views := Views(jobs);
      for i := 0 to |jobs|
        invariant active == HeldCount(views[..i], runnerId, now)
      {
        assert views[..i + 1][..i] == views[..i];
        if jobs[i].runnerId == runnerId && (jobs[i].status == Assigned || jobs[i].status == Running) && now < jobs[i].expires {
          active := active + 1;
        }
      }
      assert views[..|jobs|] == views;
    }

    method MatchRunner(spec: Requirements, r: Runner) returns (ok: bool)
      ensures ok <==> RunnerMatches(spec, r)
    {
      if r.poolType != "standard" || spec.os != r.os || spec.executor != r.executor ||
         (spec.architecture != "" && spec.architecture != r.architecture) || spec.diskBytes > r.availableDiskBytes
      {
        return false;
      }
      var rest := spec.labels.Keys;
      while rest != {}
        invariant rest <= spec.labels.Keys
        invariant forall key | key in spec.labels && key !in rest :: LabelOf(r.labels, key) == spec.labels[key]
        decreases |rest|
      {
        var key :| key in rest;
        if LabelOf(r.labels, key) != spec.labels[key] { return false; }
        rest := rest - {key};
      }
      return true;
    }

    /** The first queued job that the Runner can take, or the number of jobs. */
    method FindClaimable(r: Runner) returns (i: nat)
      ensures i == FirstClaimable(Views(jobs), r, 0)
    {
      i := 0;
      while i < |jobs|
        invariant i <= |jobs| && FirstClaimable(Views(jobs), r, i) == FirstClaimable(Views(jobs), r, 0)
      {
        var matches := MatchRunner(jobs[i].spec, r);
        if jobs[i].status == Queued && matches { return; }
        i := i + 1;
      }
    }

    /** Hands the first matching queued job to the Runner; `token` is the fresh random token. */
    method ClaimRunnerJob(runnerId: nat, token: nat, now: Time) returns (result: Result<Option<Job>>)
      requires Valid()
      modifies this`records, jobs
      ensures View() == Claim(old(View()), runnerId, token, now)
      ensures result == ClaimResult(old(View()), runnerId, token, now)
    {
      if runnerId == NIL { return Failure(InvalidRequest); }
      if runnerId !in runners { return Failure(InvalidRequest); }
      var active := CountHeld(runnerId, now);
      if active >= runners[runnerId].capacity { return Success(None); }
      var i := FindClaimable(runners[runnerId]);
      if i == |jobs| { return Success(None); }
      var assignment := TakeJob(i, runnerId, token, now);
      return Success(Some(assignment));
    }

    method TakeJob(i: nat, runnerId: nat, token: nat, now: Time) returns (assignment: Job)
      requires Valid() && i < |jobs|
      modifies this`records, jobs
      ensures View() == ClaimAt(old(View()), i, runnerId, token, now)
      ensures assignment == ClaimOne(old(Views(jobs)[i]), runnerId, token, now)
    {
      assignment := Assign(i, runnerId, token, now);
      SetStartOfRun(jobs[i].runId, now);
      SetStatusOfRun(jobs[i].runId, RunRunning);
    }

    method Assign(i: nat, runnerId: nat, token: nat, now: Time) returns (assignment: Job)
      requires Valid() && i < |jobs|
      modifies jobs[i]
      ensures Same()
      ensures assignment == ClaimOne(old(Views(jobs)[i]), runnerId, token, now)
      ensures Views(jobs) == old(Views(jobs))[i := assignment]
    {
      var job := jobs[i];
      job.status := Assigned;
      job.runnerId := runnerId;
      job.acceptedAt := None;
      job.token := token;
      job.expires := now + RUNNER_LEASE_DURATION;
      assignment := Job(job.id, job.runId, job.key, job.dependencies, job.spec, job.status,
                        job.runnerId, job.acceptedAt, job.token, job.expires);
    }

    // The holder's requests.

    method AcknowledgeRunnerJob(runnerId: nat, jobId: nat, token: nat, now: Time) returns (result: Result<Time>)
      requires Valid()
      modifies jobs
      ensures View() == Acknowledge(old(View()), runnerId, jobId, token, now)
      ensures result == AcknowledgeResult(old(View()), runnerId, jobId, token, now)
    {
      if !ValidLeaseRequest(runnerId, jobId, token) { return Failure(InvalidRequest); }
      var i, valid := FindLeased(runnerId, jobId, token, now);
      if !valid || (jobs[i].status != Assigned && jobs[i].status != Running) { return Failure(LeaseInvalid); }
      SetAccepted(i, now);
      return Success(jobs[i].expires);
    }

    method SetAccepted(i: nat, now: Time)
      requires Valid() && i < |jobs|
      modifies jobs[i]
      ensures Same()
      ensures Views(jobs) == old(Views(jobs))[i := AcknowledgeOne(old(Views(jobs)[i]), now)]
    {
      if jobs[i].acceptedAt == None { jobs[i].acceptedAt := Some(now); }
    }

    method ReleaseRunnerJob(runnerId: nat, jobId: nat, token: nat, now: Time) returns (result: Result<()>)
      requires Valid()
      modifies jobs
      ensures View() == Release(old(View()), runnerId, jobId, token, now)
      ensures result == ReleaseResult(old(View()), runnerId, jobId, token, now)
    {
      if !ValidLeaseRequest(runnerId, jobId, token) { return Failure(InvalidRequest); }
      var i, valid := FindLeased(runnerId, jobId, token, now);
      if !valid || jobs[i].status != Assigned || jobs[i].acceptedAt != None { return Failure(LeaseInvalid); }
      SetReleased(i);
      return Success(());
    }

    method SetReleased(i: nat)
      requires Valid() && i < |jobs|
      modifies jobs[i]
      ensures Same()
      ensures Views(jobs) == old(Views(jobs))[i := ReleaseOne(old(Views(jobs)[i]))]
    {
      jobs[i].status := Queued;
      jobs[i].runnerId := NIL;
      jobs[i].token := NO_TOKEN;
      jobs[i].expires := ZERO_TIME;
    }

    method StartRunnerJob(runnerId: nat, jobId: nat, token: nat, now: Time) returns (result: Result<Time>)
      requires Valid()
      modifies jobs
      ensures View() == Start(old(View()), runnerId, jobId, token, now)
      ensures result == StartResult(old(View()), runnerId, jobId, token, now)
    {
      if !ValidLeaseRequest(runnerId, jobId, token) { return Failure(InvalidRequest); }
      var i, valid := FindLeased(runnerId, jobId, token, now);
      if !valid || jobs[i].acceptedAt == None || (jobs[i].status != Assigned && jobs[i].status != Running) {
        return Failure(LeaseInvalid);
      }
      SetRunning(i);
      return Success(jobs[i].expires);
    }

    method SetRunning(i: nat)
      requires Valid() && i < |jobs|
      modifies jobs[i]
      ensures Same()
      ensures Views(jobs) == old(Views(jobs))[i := old(Views(jobs)[i]).(status := Running)]
    {
      jobs[i].status := Running;
    }

    method ValidateLeases(leases: seq<ActiveLease>) returns (ok: bool)
      ensures ok <==> (forall i | 0 <= i < |leases| :: ValidActiveLease(leases[i])) && DistinctJobs(leases)
    {
      var seen: set<nat> := {};
      for i := 0 to |leases|
        invariant forall k | 0 <= k < i :: ValidActiveLease(leases[k])
        invariant forall k, l | 0 <= k < l < i :: leases[k].jobId != leases[l].jobId
        invariant forall id :: id in seen <==> exists k | 0 <= k < i :: leases[k].jobId == id
      {
        if !ValidActiveLease(leases[i]) { return false; }
        if leases[i].jobId in seen { return false; }
        seen := seen + {leases[i].jobId};
      }
      return true;
    }

    /** Registers the Runner and extends every lease it still holds. */
    method RenewRunnerLeases(r: Runner, leases: seq<ActiveLease>, now: Time) returns (result: Result<seq<LeaseResult>>)
      requires Valid()
      modifies this`runners, jobs
      ensures View() == Renew(old(View()), r, leases, now)
      ensures result == RenewResult(old(View()), r, leases, now)
    {
      var distinct := ValidateLeases(leases);
      if !ValidRunner(r) || |leases| > MAXIMUM_HEARTBEAT_JOB_COUNT || |leases| > r.capacity ||
         !(forall key | key in r.labels :: ValidLabel(key, r.labels[key])) || !distinct
      {
        return Failure(InvalidRequest);
      }
      runners := runners[r.id := r];
      var results := RenewLeases(r.id, leases, now);
      return Success(results);
    }

    method RenewLeases(runnerId: nat, leases: seq<ActiveLease>, now: Time) returns (results: seq<LeaseResult>)
      requires Valid()
      modifies jobs
      ensures Same()
      ensures Views(jobs) == RenewAll(old(Views(jobs)), runnerId, leases, now)
      ensures results == RenewResults(old(Views(jobs)), runnerId, leases, now)
    {
      ghost var before := Views(jobs);
      results := [];
      for n := 0 to |leases|
        invariant Same() && Valid() && Views(jobs) == RenewAll(before, runnerId, leases[..n], now)
        invariant results == RenewResults(before, runnerId, leases[..n], now)
      {
        assert leases[..n + 1][..n] == leases[..n];
        var one := RenewLease(runnerId, leases[n], now);
        results := results + [one];
      }
      assert leases[..|leases|] == leases;
    }

    method RenewLease(runnerId: nat, a: ActiveLease, now: Time) returns (result: LeaseResult)
      requires Valid()
      modifies jobs
      ensures Same()
      ensures Views(jobs) == RenewOne(old(Views(jobs)), runnerId, a, now)
      ensures result == if Authorized(old(Views(jobs)), runnerId, a.jobId, a.token, now)
                        then Renewed(a.jobId, now + RUNNER_LEASE_DURATION) else Revoked(a.jobId)
    {
      var i, valid := FindLeased(runnerId, a.jobId, a.token, now);
      if !valid || (jobs[i].status != Assigned && jobs[i].status != Running) { return Revoked(a.jobId); }
      SetExpires(i, now + RUNNER_LEASE_DURATION);
      return Renewed(a.jobId, now + RUNNER_LEASE_DURATION);
    }

    method SetExpires(i: nat, expires: Time)
      requires Valid() && i < |jobs|
      modifies jobs[i]
      ensures Same()
      ensures Views(jobs) == old(Views(jobs))[i := old(Views(jobs)[i]).(expires := expires)]
    {
      jobs[i].expires := expires;
    }

    // Completion.

    /** Collects the status of each key of the run; the last job with a key wins. */
    method CollectStates(runId: nat) returns (states: map<string, JobStatus>)
      ensures forall key :: (key in states <==> LastStatus(Views(jobs), runId, key).Some?)
      ensures forall key | key in states :: LastStatus(Views(jobs), runId, key) == Some(states[key])
    {
      states := map[];
      ghost var views := Views(jobs);
      for i := 0 to |jobs|
        invariant forall key :: (key in states <==> LastStatus(views[..i], runId, key).Some?)
        invariant forall key | key in states :: LastStatus(views[..i], runId, key) == Some(states[key])
      {
        assert views[..i + 1][..i] == views[..i];
        if jobs[i].runId == runId { states := states[jobs[i].key := jobs[i].status]; }
      }
      assert views[..|jobs|] == views;
    }

    method UnblockRun(runId: nat)
      requires Valid()
      modifies jobs
      ensures Same()
      ensures Views(jobs) == Unblock(old(Views(jobs)), runId)
    {
      var states := CollectStates(runId);
      ghost var before := Views(jobs);
      for i := 0 to |jobs|
        invariant forall k | 0 <= k < |jobs| :: jobs[k].View() == if k < i then UnblockOne(before, runId, before[k]) else before[k]
      {
        if jobs[i].runId == runId && jobs[i].status == Blocked {
          var ready := true;
          var dependencies := jobs[i].dependencies;
          for d := 0 to |dependencies|
            invariant ready <==> forall k | 0 <= k < d :: LastStatus(before, runId, dependencies[k]) == Some(Succeeded)
          {
            if !(dependencies[d] in states && states[dependencies[d]] == Succeeded) {
              ready := false;
              break;
            }
          }
          assert ready <==> Satisfied(before, runId, dependencies);
          if ready { jobs[i].status := Queued; }
        }
      }
    }

    method SweepRun(runId: nat)
      requires Valid()
      modifies jobs
      ensures Same()
      ensures Views(jobs) == Sweep(old(Views(jobs)), runId)
    {
      ghost var before := Views(jobs);
      for i := 0 to |jobs|
        invariant forall k | 0 <= k < |jobs| :: jobs[k].View() == if k < i then SweepOne(runId, before[k]) else before[k]
      {
        if jobs[i].runId == runId && (jobs[i].status == Blocked || jobs[i].status == Queued) {
          jobs[i].status := Skipped;
        }
      }
    }

    /** The loop of `finalizeRun`: stops at the first job of the run that has not ended. */
    method SummarizeRun(runId: nat) returns (unfinished: bool, failed: bool, canceled: bool)
      ensures unfinished <==> RunUnfinished(Views(jobs), runId)
      ensures !unfinished ==> (failed <==> RunHas(Views(jobs), runId, Failed)) && (canceled <==> RunHas(Views(jobs), runId, Canceled))
    {
      failed, canceled := false, false;
      ghost var views := Views(jobs);
      for i := 0 to |jobs|
        invariant forall k | 0 <= k < i && views[k].runId == runId :: JobTerminal(views[k].status)
        invariant failed <==> exists k | 0 <= k < i :: views[k].runId == runId && views[k].status == Failed
        invariant canceled <==> exists k | 0 <= k < i :: views[k].runId == runId && views[k].status == Canceled
      {
        assert views[i] == jobs[i].View();
        if jobs[i].runId == runId {
          if jobs[i].status == Blocked || jobs[i].status == Queued || jobs[i].status == Assigned || jobs[i].status == Running {
            return true, failed, canceled;
          }
          if jobs[i].status == Failed { failed := true; }
          if jobs[i].status == Canceled { canceled := true; }
        }
      }
      return false, failed, canceled;
    }

    method Finalize(runId: nat, now: Time)
      requires Valid()
      modifies this`records
      ensures View() == FinalizeRun(old(View()), runId, now)
    {
      var unfinished, failed, canceled := SummarizeRun(runId);
      if unfinished { return; }
      if failed {
        SetStatusOfRun(runId, RunFailed);
      } else if canceled {
        SetStatusOfRun(runId, RunCanceled);
      } else {
        SetStatusOfRun(runId, RunSucceeded);
      }
      SetEndOfRun(runId, now);
    }

    method CompleteRunnerJob(runnerId: nat, jobId: nat, token: nat, status: JobStatus, now: Time) returns (result: Result<()>)
      requires Valid()
      modifies this`records, jobs
      ensures View() == Complete(old(View()), runnerId, jobId, token, status, now)
      ensures result == CompleteResult(old(View()), runnerId, jobId, token, status, now)
    {
      if !ValidLeaseRequest(runnerId, jobId, token) { return Failure(InvalidRequest); }
      if status != Succeeded && status != Failed && status != Canceled { return Failure(InvalidStatus); }
      var i, valid := FindLeased(runnerId, jobId, token, now);
      if !valid || (jobs[i].status != Running && jobs[i].status != Assigned) { return Failure(LeaseInvalid); }
      CompleteFound(i, status, now);
      return Success(());
    }

    method CompleteFound(i: nat, status: JobStatus, now: Time)
      requires Valid() && i < |jobs|
      modifies this`records, jobs
      ensures View() == CompleteAt(old(View()), i, status, now)
    {
      EndJob(i, status);
      Finalize(jobs[i].runId, now);
    }

    method EndJob(i: nat, status: JobStatus)
      requires Valid() && i < |jobs|
      modifies jobs
      ensures Same()
      ensures Views(jobs) == CompleteJobs(old(Views(jobs)), i, status)
    {
      SetCompleted(i, status);
      if status == Succeeded {
        UnblockRun(jobs[i].runId);
      } else {
        SweepRun(jobs[i].runId);
      }
    }

    method SetCompleted(i: nat, status: JobStatus)
      requires Valid() && i < |jobs|
      modifies jobs[i]
      ensures Same()
      ensures Views(jobs) == old(Views(jobs))[i := CompleteOne(old(Views(jobs)[i]), status)]
    {
      jobs[i].status := status;
      jobs[i].token := NO_TOKEN;
      jobs[i].runnerId := NIL;
    }

    // Recovery.

    method HasStartedWork(runId: nat) returns (started: bool)
      ensures started <==> RunStartedWork(Views(jobs), runId)
    {
      ghost var views := Views(jobs);
      for i := 0 to |jobs|
        invariant forall k | 0 <= k < i && views[k].runId == runId ::
          views[k].status != Running && views[k].status != Succeeded && views[k].status != Failed && views[k].status != Canceled
      {
        assert views[i] == jobs[i].View();
        if jobs[i].runId == runId && (jobs[i].status == Running || jobs[i].status == Succeeded ||
                                      jobs[i].status == Failed || jobs[i].status == Canceled)
        {
          return true;
        }
      }
      return false;
    }

    method ResetRunAfterRequeue(runId: nat)
      requires Valid()
      modifies this`records
      ensures View() == RunModel.ResetRunAfterRequeue(old(View()), runId)
    {
      var started := HasStartedWork(runId);
      if started { return; }
      var x := 0;
      while x < |records|
        invariant x <= |records| && FindRecord(records, runId, x) == FindRecord(records, runId, 0)
        invariant records == old(records)
      {
        if records[x].id == runId {
          records := records[x := records[x].(status := RunQueued, startedAt := None, finishedAt := None)];
          return;
        }
        x := x + 1;
      }
    }

    method FinishRecords(runId: nat, now: Time)
      modifies this`records
      ensures Views(jobs) == old(Views(jobs))
      ensures records == FinishAllRecords(old(records), runId, now)
    {
      for x := 0 to |records|
        invariant |records| == |old(records)|
        invariant forall k | 0 <= k < |records| ::
          records[k] == if k < x then FinishAllRecords(old(records), runId, now)[k] else old(records)[k]
      {
        if records[x].id == runId { records := records[x := records[x].(finishedAt := Some(now))]; }
      }
    }

    method SetRequeued(i: nat, now: Time)
      requires Valid() && i < |jobs|
      modifies jobs[i]
      ensures Same()
      ensures Views(jobs) == old(Views(jobs))[i := RequeueOne(old(Views(jobs)[i]), now)]
    {
      var job := jobs[i];
      job.status := Queued;
      job.runnerId := NIL;
      job.acceptedAt := None;
      job.token := NO_TOKEN;
      job.expires := now;
    }

    method SetLost(i: nat)
      requires Valid() && i < |jobs|
      modifies jobs[i]
      ensures Same()
      ensures Views(jobs) == old(Views(jobs))[i := FailOne(old(Views(jobs)[i]))]
    {
      jobs[i].status := Failed;
      jobs[i].token := NO_TOKEN;
    }

    method RecoverJob(i: nat, now: Time)
      requires Valid() && i < |jobs|
      modifies this`records, jobs
      ensures jobs == old(jobs)
      ensures View() == RecoverAt(old(View()), i, now)
    {
      if jobs[i].status == Assigned {
        SetRequeued(i, now);
        ResetRunAfterRequeue(jobs[i].runId);
      } else {
        SetLost(i);
        SweepRun(jobs[i].runId);
        SetStatusOfRun(jobs[i].runId, RunFailed);
        FinishRecords(jobs[i].runId, now);
      }
    }

    /** Requeues or fails up to `limit` jobs whose lease has expired. */
    method RecoverExpiredRunnerLeases(limit: int, now: Time) returns (result: Result<(nat, nat)>)
      requires Valid()
      modifies this`records, jobs
      ensures View() == Recover(old(View()), limit, now)
      ensures result == RecoverResult(old(View()), limit, now)
    {
      if limit < 1 || limit > MAXIMUM_RECOVERY_BATCH { return Failure(InvalidLimit); }
      var processed, requeued, failed := 0, 0, 0;
      for i := 0 to |jobs|
        invariant Valid() && jobs == old(jobs)
        invariant Recovery(View(), processed, requeued, failed) == RecoverUpTo(old(View()), i, limit, now)
      {
        RecoverUnfolds(old(View()), i, limit, now);
        processed, requeued, failed := RecoverTurn(i, limit, now, processed, requeued, failed);
      }
      return Success((requeued, failed));
    }

    method RecoverTurn(i: nat, limit: int, now: Time, processed: nat, requeued: nat, failed: nat)
      returns (processed': nat, requeued': nat, failed': nat)
      requires Valid() && i < |jobs|
      modifies this`records, jobs
      ensures jobs == old(jobs)
      ensures Recovery(View(), processed', requeued', failed') ==
              RecoverNext(Recovery(old(View()), processed, requeued, failed), i, limit, now)
    {
      processed', requeued', failed' := processed, requeued, failed;
      var status := jobs[i].status;
      if processed >= limit || (status != Assigned && status != Running) || now < jobs[i].expires { return; }
      processed' := processed + 1;
      RecoverJob(i, now);
      if status == Assigned { requeued' := requeued + 1; } else { failed' := failed + 1; }
    }
  }
}
