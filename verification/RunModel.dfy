// Runs, jobs, leases and Runners, and what each operation of the in-memory store
// does to them (internal/run: state.go, store.go, runner_store.go, runner_memory.go,
// recovery_memory.go). Identifiers and tokens are numbers; zero is the nil UUID and
// the empty token. Times are nanoseconds; each operation reads the clock once.

module RunModel {
  import opened Basics
  import opened PipelineCompiler
  import opened DependencyGraph
  import opened RunGraph

  const NIL := 0
  const NO_TOKEN := 0
  const ZERO_TIME: Time := 0
  const RUNNER_LEASE_DURATION: Time := 30 * SECOND
  const MAXIMUM_HEARTBEAT_JOB_COUNT := 256
  const MAXIMUM_RECOVERY_BATCH := 100

  datatype RunStatus = RunQueued | RunRunning | WaitingApproval | RunSucceeded | RunFailed | RunCanceled

  datatype JobStatus = Blocked | Queued | Assigned | Running | Succeeded | Failed | Canceled | Skipped

  predicate RunTerminal(s: RunStatus) {
    s == RunSucceeded || s == RunFailed || s == RunCanceled
  }

  predicate JobTerminal(s: JobStatus) {
    s == Succeeded || s == Failed || s == Canceled || s == Skipped
  }

  /** The statuses that hold a lease. */
  predicate Leased(s: JobStatus) {
    s == Assigned || s == Running
  }

  predicate CompletionStatus(s: JobStatus) {
    s == Succeeded || s == Failed || s == Canceled
  }

  /** The documented job transition table. */
  predicate ValidJobTransition(from: JobStatus, to: JobStatus) {
    match from
    case Blocked => to == Queued || to == Canceled || to == Skipped
    case Queued => to == Assigned || to == Canceled || to == Skipped
    case Assigned => to == Running || to == Queued || to == Canceled
    case Running => to == Succeeded || to == Failed || to == Canceled
    case _ => false
  }

  datatype Record = Record(id: nat, status: RunStatus, startedAt: Option<Time>, finishedAt: Option<Time>)

  datatype Job = Job(
    id: nat, runId: nat, key: string, dependencies: seq<string>, requirements: Requirements,
    status: JobStatus, runnerId: nat, acceptedAt: Option<Time>, token: nat, expires: Time)

  datatype Runner = Runner(
    id: nat, poolType: string, os: string, architecture: string, executor: string, labels: map<string, string>,
    capacity: int, availableDiskBytes: int, protocolVersion: int)

  datatype ActiveLease = ActiveLease(jobId: nat, token: nat, state: string)

  datatype LeaseResult = Renewed(jobId: nat, expires: Time) | Revoked(jobId: nat)

  datatype Error = InvalidRequest | LeaseInvalid | InvalidStatus | InvalidLimit | RunExists | InvalidPlan

  datatype Result<+T> = Success(value: T) | Failure(error: Error)

  datatype Store = Store(records: seq<Record>, jobs: seq<Job>, runners: map<nat, Runner>)

  // Creating a run.

  /** The requirements of the flattened jobs, in the order of `FlatPrefix`. */
  function SpecPrefix(stages: seq<Stage>, n: nat): (r: seq<Requirements>)
    requires n <= |stages|
    ensures |r| == |FlatPrefix(stages, n)|
  {
    if n == 0 then []
    else
      var jobs := stages[n - 1].jobs;
      SpecPrefix(stages, n - 1) + seq(|jobs|, i requires 0 <= i < |jobs| => jobs[i].runsOn)
  }

  /** A job of a new run: queued when it depends on nothing, else blocked. */
  function NewJob(n: Node, spec: Requirements, runId: nat, id: nat): Job {
    Job(id, runId, n.name, n.dependsOn, spec, if n.dependsOn == [] then Queued else Blocked, NIL, None, NO_TOKEN, ZERO_TIME)
  }

  function NewJobs(stages: seq<Stage>, runId: nat, ids: seq<nat>): seq<Job>
    requires |ids| == |Flatten(stages)|
  {
    seq(|ids|, i requires 0 <= i < |ids| =>
      NewJob(Flatten(stages)[i], SpecPrefix(stages, |stages|)[i], runId, ids[i]))
  }

  /** `plan` is None when the stored plan does not decode; `ids` are the new job identifiers. */
  function Create(s: Store, record: Record, plan: Option<seq<Stage>>, ids: seq<nat>): Store
    requires plan.Some? ==> |ids| == |Flatten(plan.value)|
  {
    if plan == None || FindRecord(s.records, record.id, 0) < |s.records| then s
    else s.(records := [record] + s.records, jobs := s.jobs + NewJobs(plan.value, record.id, ids))
  }

  function CreateResult(s: Store, record: Record, plan: Option<seq<Stage>>): Result<Record> {
    if plan == None then Failure(InvalidPlan)
    else if FindRecord(s.records, record.id, 0) < |s.records| then Failure(RunExists)
    else Success(record)
  }

  // Leases.

  predicate LeaseAlive(j: Job, now: Time) {
    now < j.expires
  }

  predicate ValidLease(j: Job, runnerId: nat, token: nat, now: Time) {
    j.runnerId == runnerId && LeaseAlive(j, now) && j.token == token
  }

  predicate ValidLeaseRequest(runnerId: nat, jobId: nat, token: nat) {
    runnerId != NIL && jobId != NIL && token != NO_TOKEN
  }

  /** First job with this identifier at or after `k`, or the length. */
  function FindFrom(jobs: seq<Job>, id: nat, k: nat): (r: nat)
    requires k <= |jobs|
    ensures k <= r <= |jobs| && (r < |jobs| ==> jobs[r].id == id)
    ensures forall i | k <= i < r :: jobs[i].id != id
    decreases |jobs| - k
  {
    if k == |jobs| || jobs[k].id == id then k else FindFrom(jobs, id, k + 1)
  }

  function FindJob(jobs: seq<Job>, id: nat): (r: nat)
    ensures r <= |jobs| && (r < |jobs| ==> jobs[r].id == id)
    ensures forall i | 0 <= i < r :: jobs[i].id != id
  {
    FindFrom(jobs, id, 0)
  }

  /** The job a request may act on: found, its lease valid and its status one that holds a lease. */
  predicate Authorized(jobs: seq<Job>, runnerId: nat, jobId: nat, token: nat, now: Time) {
    var i := FindJob(jobs, jobId);
    i < |jobs| && ValidLease(jobs[i], runnerId, token, now) && Leased(jobs[i].status)
  }

  // Run records.

  function FindRecord(records: seq<Record>, id: nat, k: nat): (r: nat)
    requires k <= |records|
    ensures k <= r <= |records| && (r < |records| ==> records[r].id == id)
    ensures forall i | k <= i < r :: records[i].id != id
    decreases |records| - k
  {
    if k == |records| || records[k].id == id then k else FindRecord(records, id, k + 1)
  }

  function SetRunStatus(records: seq<Record>, runId: nat, status: RunStatus): (r: seq<Record>)
    ensures |r| == |records|
  {
    var i := FindRecord(records, runId, 0);
    if i < |records| then records[i := records[i].(status := status)] else records
  }

  /** The first record of the run that has not started gets a start time. */
  function FindUnstarted(records: seq<Record>, id: nat, k: nat): (r: nat)
    requires k <= |records|
    ensures k <= r <= |records| && (r < |records| ==> records[r].id == id && records[r].startedAt == None)
    ensures forall i | k <= i < r :: !(records[i].id == id && records[i].startedAt == None)
    decreases |records| - k
  {
    if k == |records| || (records[k].id == id && records[k].startedAt == None) then k else FindUnstarted(records, id, k + 1)
  }

  function SetRunStarted(records: seq<Record>, runId: nat, now: Time): (r: seq<Record>)
    ensures |r| == |records|
  {
    var i := FindUnstarted(records, runId, 0);
    if i < |records| then records[i := records[i].(startedAt := Some(now))] else records
  }

  function SetRunFinished(records: seq<Record>, runId: nat, now: Time): (r: seq<Record>)
    ensures |r| == |records|
  {
    var i := FindRecord(records, runId, 0);
    if i < |records| then records[i := records[i].(finishedAt := Some(now))] else records
  }

  /** Recovery stamps every record of the run. */
  function FinishAllRecords(records: seq<Record>, runId: nat, now: Time): (r: seq<Record>)
    ensures |r| == |records|
  {
    seq(|records|, i requires 0 <= i < |records| =>
      if records[i].id == runId then records[i].(finishedAt := Some(now)) else records[i])
  }

  function ResetRecord(records: seq<Record>, runId: nat): (r: seq<Record>)
    ensures |r| == |records|
  {
    var i := FindRecord(records, runId, 0);
    if i < |records| then records[i := records[i].(status := RunQueued, startedAt := None, finishedAt := None)] else records
  }

  // The job graph of a run.

  /** The status the last job with this key has, as the map `states` of `unblock` records it. */
  function LastStatus(jobs: seq<Job>, runId: nat, key: string): Option<JobStatus> {
    if jobs == [] then None
    else
      var last := jobs[|jobs| - 1];
      if last.runId == runId && last.key == key then Some(last.status) else LastStatus(jobs[..|jobs| - 1], runId, key)
  }

  predicate Satisfied(jobs: seq<Job>, runId: nat, dependencies: seq<string>) {
    forall d | d in dependencies :: LastStatus(jobs, runId, d) == Some(Succeeded)
  }

  function UnblockOne(jobs: seq<Job>, runId: nat, j: Job): Job {
    if j.runId == runId && j.status == Blocked && Satisfied(jobs, runId, j.dependencies) then j.(status := Queued) else j
  }

  function Unblock(jobs: seq<Job>, runId: nat): (r: seq<Job>)
    ensures |r| == |jobs|
  {
    seq(|jobs|, i requires 0 <= i < |jobs| => UnblockOne(jobs, runId, jobs[i]))
  }

  function SweepOne(runId: nat, j: Job): Job {
    if j.runId == runId && (j.status == Blocked || j.status == Queued) then j.(status := Skipped) else j
  }

  /** After a failure, what has not been handed out is skipped. */
  function Sweep(jobs: seq<Job>, runId: nat): (r: seq<Job>)
    ensures |r| == |jobs|
  {
    seq(|jobs|, i requires 0 <= i < |jobs| => SweepOne(runId, jobs[i]))
  }

  predicate RunHas(jobs: seq<Job>, runId: nat, status: JobStatus) {
    exists i | 0 <= i < |jobs| :: jobs[i].runId == runId && jobs[i].status == status
  }

  predicate HasJobs(jobs: seq<Job>, runId: nat) {
    exists i | 0 <= i < |jobs| :: jobs[i].runId == runId
  }

  predicate RunUnfinished(jobs: seq<Job>, runId: nat) {
    exists i | 0 <= i < |jobs| :: jobs[i].runId == runId && !JobTerminal(jobs[i].status)
  }

  function FinalStatus(jobs: seq<Job>, runId: nat): RunStatus {
    if RunHas(jobs, runId, Failed) then RunFailed else if RunHas(jobs, runId, Canceled) then RunCanceled else RunSucceeded
  }

  function FinalizeRun(s: Store, runId: nat, now: Time): Store {
    if RunUnfinished(s.jobs, runId) then s
    else s.(records := SetRunFinished(SetRunStatus(s.records, runId, FinalStatus(s.jobs, runId)), runId, now))
  }

  // Matching and capacity.

  function LabelOf(labels: map<string, string>, key: string): string {
    if key in labels then labels[key] else ""
  }

  predicate RunnerMatches(q: Requirements, r: Runner) {
    r.poolType == "standard" && q.os == r.os && q.executor == r.executor &&
    (q.architecture != "" ==> q.architecture == r.architecture) && q.diskBytes <= r.availableDiskBytes &&
    forall key | key in q.labels :: LabelOf(r.labels, key) == q.labels[key]
  }

  /** The job counts against the Runner's capacity. */
  predicate Holds(j: Job, runnerId: nat, now: Time) {
    j.runnerId == runnerId && Leased(j.status) && LeaseAlive(j, now)
  }

  function HeldCount(jobs: seq<Job>, runnerId: nat, now: Time): nat {
    if jobs == [] then 0
    else HeldCount(jobs[..|jobs| - 1], runnerId, now) + if Holds(jobs[|jobs| - 1], runnerId, now) then 1 else 0
  }

  predicate Claimable(j: Job, r: Runner) {
    j.status == Queued && RunnerMatches(j.requirements, r)
  }

  function FirstClaimable(jobs: seq<Job>, r: Runner, k: nat): (n: nat)
    requires k <= |jobs|
    ensures k <= n <= |jobs| && (n < |jobs| ==> Claimable(jobs[n], r))
    ensures forall i | k <= i < n :: !Claimable(jobs[i], r)
    decreases |jobs| - k
  {
    if k == |jobs| || Claimable(jobs[k], r) then k else FirstClaimable(jobs, r, k + 1)
  }

  // The operations.

  function ClaimOne(j: Job, runnerId: nat, token: nat, now: Time): Job {
    j.(status := Assigned, runnerId := runnerId, acceptedAt := None, token := token, expires := now + RUNNER_LEASE_DURATION)
  }

  /** The index that a claim takes, or the number of jobs when it takes none. */
  function ClaimIndex(s: Store, runnerId: nat, now: Time): (n: nat)
    requires runnerId in s.runners
    ensures n <= |s.jobs|
  {
    if HeldCount(s.jobs, runnerId, now) >= s.runners[runnerId].capacity then |s.jobs|
    else FirstClaimable(s.jobs, s.runners[runnerId], 0)
  }

  function ClaimAt(s: Store, i: nat, runnerId: nat, token: nat, now: Time): Store
    requires i < |s.jobs|
  {
    var runId := s.jobs[i].runId;
    s.(jobs := s.jobs[i := ClaimOne(s.jobs[i], runnerId, token, now)],
       records := SetRunStatus(SetRunStarted(s.records, runId, now), runId, RunRunning))
  }

  predicate ClaimRefused(s: Store, runnerId: nat) {
    runnerId == NIL || runnerId !in s.runners
  }

  function Claim(s: Store, runnerId: nat, token: nat, now: Time): Store {
    if ClaimRefused(s, runnerId) || ClaimIndex(s, runnerId, now) == |s.jobs| then s
    else ClaimAt(s, ClaimIndex(s, runnerId, now), runnerId, token, now)
  }

  /** The assigned job, None when there is nothing to do, or an error. */
  function ClaimResult(s: Store, runnerId: nat, token: nat, now: Time): Result<Option<Job>> {
    if ClaimRefused(s, runnerId) then Failure(InvalidRequest)
    else if ClaimIndex(s, runnerId, now) == |s.jobs| then Success(None)
    else Success(Some(ClaimOne(s.jobs[ClaimIndex(s, runnerId, now)], runnerId, token, now)))
  }

  function AcknowledgeOne(j: Job, now: Time): Job {
    if j.acceptedAt == None then j.(acceptedAt := Some(now)) else j
  }

  function Acknowledge(s: Store, runnerId: nat, jobId: nat, token: nat, now: Time): Store {
    if ValidLeaseRequest(runnerId, jobId, token) && Authorized(s.jobs, runnerId, jobId, token, now) then
      var i := FindJob(s.jobs, jobId);
      s.(jobs := s.jobs[i := AcknowledgeOne(s.jobs[i], now)])
    else s
  }

  function AcknowledgeResult(s: Store, runnerId: nat, jobId: nat, token: nat, now: Time): Result<Time> {
    if !ValidLeaseRequest(runnerId, jobId, token) then Failure(InvalidRequest)
    else if !Authorized(s.jobs, runnerId, jobId, token, now) then Failure(LeaseInvalid)
    else Success(s.jobs[FindJob(s.jobs, jobId)].expires)
  }

  predicate Releasable(s: Store, runnerId: nat, jobId: nat, token: nat, now: Time) {
    Authorized(s.jobs, runnerId, jobId, token, now) &&
    var j := s.jobs[FindJob(s.jobs, jobId)]; j.status == Assigned && j.acceptedAt == None
  }

  function ReleaseOne(j: Job): Job {
    j.(status := Queued, runnerId := NIL, token := NO_TOKEN, expires := ZERO_TIME)
  }

  function Release(s: Store, runnerId: nat, jobId: nat, token: nat, now: Time): Store {
    if ValidLeaseRequest(runnerId, jobId, token) && Releasable(s, runnerId, jobId, token, now) then
      var i := FindJob(s.jobs, jobId);
      s.(jobs := s.jobs[i := ReleaseOne(s.jobs[i])])
    else s
  }

  function ReleaseResult(s: Store, runnerId: nat, jobId: nat, token: nat, now: Time): Result<()> {
    if !ValidLeaseRequest(runnerId, jobId, token) then Failure(InvalidRequest)
    else if !Releasable(s, runnerId, jobId, token, now) then Failure(LeaseInvalid)
    else Success(())
  }

  predicate Startable(s: Store, runnerId: nat, jobId: nat, token: nat, now: Time) {
    Authorized(s.jobs, runnerId, jobId, token, now) && s.jobs[FindJob(s.jobs, jobId)].acceptedAt.Some?
  }

  function Start(s: Store, runnerId: nat, jobId: nat, token: nat, now: Time): Store {
    if ValidLeaseRequest(runnerId, jobId, token) && Startable(s, runnerId, jobId, token, now) then
      var i := FindJob(s.jobs, jobId);
      s.(jobs := s.jobs[i := s.jobs[i].(status := Running)])
    else s
  }

  function StartResult(s: Store, runnerId: nat, jobId: nat, token: nat, now: Time): Result<Time> {
    if !ValidLeaseRequest(runnerId, jobId, token) then Failure(InvalidRequest)
    else if !Startable(s, runnerId, jobId, token, now) then Failure(LeaseInvalid)
    else Success(s.jobs[FindJob(s.jobs, jobId)].expires)
  }

  // Heartbeats.

  predicate IsLabelChar(c: char) {
    IsAlphanumeric(c) || c == '.' || c == '_' || c == '/' || c == '-'
  }

  predicate ValidLabel(key: string, value: string) {
    1 <= |key| <= 128 && IsAlphanumeric(key[0]) && (forall i | 0 <= i < |key| :: IsLabelChar(key[i])) && |value| <= 256
  }

  predicate ValidRunner(r: Runner) {
    r.id != NIL && (r.poolType == "standard" || r.poolType == "privileged" || r.poolType == "deployment") &&
    1 <= |r.os| <= 64 && 1 <= |r.architecture| <= 64 && 1 <= |r.executor| <= 64 &&
    1 <= r.capacity <= 256 && r.availableDiskBytes >= 0 && 1 <= r.protocolVersion <= 2 && |r.labels| <= 128
  }

  predicate ValidActiveLease(a: ActiveLease) {
    a.jobId != NIL && a.token != NO_TOKEN && (a.state == "received" || a.state == "running")
  }

  predicate DistinctJobs(leases: seq<ActiveLease>) {
    forall i, j | 0 <= i < j < |leases| :: leases[i].jobId != leases[j].jobId
  }

  predicate ValidHeartbeat(r: Runner, leases: seq<ActiveLease>) {
    ValidRunner(r) && |leases| <= MAXIMUM_HEARTBEAT_JOB_COUNT && |leases| <= r.capacity &&
    (forall key | key in r.labels :: ValidLabel(key, r.labels[key])) &&
    (forall i | 0 <= i < |leases| :: ValidActiveLease(leases[i])) && DistinctJobs(leases)
  }

  /** One renewal: only a lease that is still alive and still the current one is extended. */
  function RenewOne(jobs: seq<Job>, runnerId: nat, a: ActiveLease, now: Time): (r: seq<Job>)
    ensures |r| == |jobs|
  {
    if Authorized(jobs, runnerId, a.jobId, a.token, now) then
      var i := FindJob(jobs, a.jobId);
      jobs[i := jobs[i].(expires := now + RUNNER_LEASE_DURATION)]
    else jobs
  }

  function RenewAll(jobs: seq<Job>, runnerId: nat, leases: seq<ActiveLease>, now: Time): (r: seq<Job>)
    ensures |r| == |jobs|
  {
    if leases == [] then jobs
    else RenewOne(RenewAll(jobs, runnerId, leases[..|leases| - 1], now), runnerId, leases[|leases| - 1], now)
  }

  function RenewResults(jobs: seq<Job>, runnerId: nat, leases: seq<ActiveLease>, now: Time): seq<LeaseResult> {
    if leases == [] then []
    else
      var init, a := leases[..|leases| - 1], leases[|leases| - 1];
      RenewResults(jobs, runnerId, init, now) +
      [if Authorized(RenewAll(jobs, runnerId, init, now), runnerId, a.jobId, a.token, now)
       then Renewed(a.jobId, now + RUNNER_LEASE_DURATION) else Revoked(a.jobId)]
  }

  function Renew(s: Store, r: Runner, leases: seq<ActiveLease>, now: Time): Store {
    if ValidHeartbeat(r, leases) then
      s.(runners := s.runners[r.id := r], jobs := RenewAll(s.jobs, r.id, leases, now))
    else s
  }

  function RenewResult(s: Store, r: Runner, leases: seq<ActiveLease>, now: Time): Result<seq<LeaseResult>> {
    if ValidHeartbeat(r, leases) then Success(RenewResults(s.jobs, r.id, leases, now)) else Failure(InvalidRequest)
  }

  // Completion.

  function CompleteOne(j: Job, status: JobStatus): Job {
    j.(status := status, token := NO_TOKEN, runnerId := NIL)
  }

  /** What completing the job at `i` does to the jobs of its run. */
  function CompleteJobs(jobs: seq<Job>, i: nat, status: JobStatus): (r: seq<Job>)
    requires i < |jobs|
    ensures |r| == |jobs|
  {
    var done := jobs[i := CompleteOne(jobs[i], status)];
    if status == Succeeded then Unblock(done, jobs[i].runId) else Sweep(done, jobs[i].runId)
  }

  function CompleteAt(s: Store, i: nat, status: JobStatus, now: Time): Store
    requires i < |s.jobs|
  {
    FinalizeRun(s.(jobs := CompleteJobs(s.jobs, i, status)), s.jobs[i].runId, now)
  }

  function Complete(s: Store, runnerId: nat, jobId: nat, token: nat, status: JobStatus, now: Time): Store {
    if ValidLeaseRequest(runnerId, jobId, token) && CompletionStatus(status) && Authorized(s.jobs, runnerId, jobId, token, now)
    then CompleteAt(s, FindJob(s.jobs, jobId), status, now)
    else s
  }

  function CompleteResult(s: Store, runnerId: nat, jobId: nat, token: nat, status: JobStatus, now: Time): Result<()> {
    if !ValidLeaseRequest(runnerId, jobId, token) then Failure(InvalidRequest)
    else if !CompletionStatus(status) then Failure(InvalidStatus)
    else if !Authorized(s.jobs, runnerId, jobId, token, now) then Failure(LeaseInvalid)
    else Success(())
  }

  // Recovery of expired leases.

  function RequeueOne(j: Job, now: Time): Job {
    j.(status := Queued, runnerId := NIL, acceptedAt := None, token := NO_TOKEN, expires := now)
  }

  function FailOne(j: Job): Job {
    j.(status := Failed, token := NO_TOKEN)
  }

  predicate RunStartedWork(jobs: seq<Job>, runId: nat) {
    RunHas(jobs, runId, Running) || RunHas(jobs, runId, Succeeded) || RunHas(jobs, runId, Failed) || RunHas(jobs, runId, Canceled)
  }

  function ResetRunAfterRequeue(s: Store, runId: nat): Store {
    if RunStartedWork(s.jobs, runId) then s else s.(records := ResetRecord(s.records, runId))
  }

  predicate Expired(j: Job, now: Time) {
    Leased(j.status) && !LeaseAlive(j, now)
  }

  /** An expired assigned job goes back to the queue; an expired running job fails its run. */
  function RecoverAt(s: Store, i: nat, now: Time): (r: Store)
    requires i < |s.jobs|
    ensures |r.jobs| == |s.jobs|
  {
    var j := s.jobs[i];
    if j.status == Assigned then ResetRunAfterRequeue(s.(jobs := s.jobs[i := RequeueOne(j, now)]), j.runId)
    else s.(jobs := Sweep(s.jobs[i := FailOne(j)], j.runId),
            records := FinishAllRecords(SetRunStatus(s.records, j.runId, RunFailed), j.runId, now))
  }

  datatype Recovery = Recovery(store: Store, processed: nat, requeued: nat, failed: nat)

  /** One turn of the recovery loop, at the job with index `i`. */
  function RecoverNext(before: Recovery, i: nat, limit: int, now: Time): (r: Recovery)
    requires i < |before.store.jobs|
    ensures |r.store.jobs| == |before.store.jobs|
  {
    var j := before.store.jobs[i];
    if before.processed < limit && Expired(j, now) then
      Recovery(RecoverAt(before.store, i, now), before.processed + 1,
               before.requeued + (if j.status == Assigned then 1 else 0),
               before.failed + if j.status == Assigned then 0 else 1)
    else before
  }

  /** The loop of `RecoverExpiredRunnerLeases` after its first `n` jobs. */
  function RecoverUpTo(s: Store, n: nat, limit: int, now: Time): (r: Recovery)
    requires n <= |s.jobs|
    ensures |r.store.jobs| == |s.jobs|
  {
    if n == 0 then Recovery(s, 0, 0, 0) else RecoverNext(RecoverUpTo(s, n - 1, limit, now), n - 1, limit, now)
  }

  /** One more turn of the loop. */
  lemma RecoverUnfolds(s: Store, n: nat, limit: int, now: Time)
    requires n < |s.jobs|
    ensures RecoverUpTo(s, n + 1, limit, now) == RecoverNext(RecoverUpTo(s, n, limit, now), n, limit, now)
  {
  }

  /** What every turn of the loop keeps, the loop keeps. */
  lemma {:induction false} RecoverInduction(s: Store, n: nat, limit: int, now: Time, kept: Store -> bool)
    requires n <= |s.jobs| && kept(s)
    requires forall r: Recovery, i: nat | i < |r.store.jobs| && kept(r.store) :: kept(RecoverNext(r, i, limit, now).store)
    ensures kept(RecoverUpTo(s, n, limit, now).store)
  {
    if n > 0 {
      RecoverInduction(s, n - 1, limit, now, kept);
      RecoverUnfolds(s, n - 1, limit, now);
    }
  }

  predicate ValidLimit(limit: int) {
    1 <= limit <= MAXIMUM_RECOVERY_BATCH
  }

  function Recover(s: Store, limit: int, now: Time): Store {
    if ValidLimit(limit) then RecoverUpTo(s, |s.jobs|, limit, now).store else s
  }

  function RecoverResult(s: Store, limit: int, now: Time): Result<(nat, nat)> {
    if !ValidLimit(limit) then Failure(InvalidLimit)
    else var r := RecoverUpTo(s, |s.jobs|, limit, now); Success((r.requeued, r.failed))
  }
}
