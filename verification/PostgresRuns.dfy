// The transactions of the Postgres store on runs, jobs and the commit-status outbox
// (internal/store/postgres: store.go, runner_jobs.go, runner_recovery.go, run_actions.go,
// run_rerun.go, commit_status.go). One transaction is one step; a failing one rolls back.

module PostgresRuns {
  import opened DependencyGraph
  import opened PipelineCompiler
  import opened RunGraph
  import opened Basics
  import opened RunModel
  import opened JobInvariants

  datatype RunRow = RunRow(status: RunStatus, repository: Option<nat>, commitSha: string, stages: seq<Stage>)

  datatype CommitState = StatePending | StateSuccess | StateFailure | StateError

  /** The deterministic key `run:<id>:pending` or `run:<id>:final`. */
  datatype OutboxKey = OutboxKey(run: nat, final: bool)

  datatype Database = Database(runs: map<nat, RunRow>, jobs: seq<Job>, outbox: map<OutboxKey, CommitState>, repositories: set<nat>)

  datatype Refusal = StatusMismatch | Conflict | NotFound | LeaseRefused | Duplicate | NothingToDo

  datatype Outcome<+T> = Committed(value: T) | RolledBack(reason: Refusal)

  // Commit statuses.

  function StateOf(status: RunStatus): CommitState {
    match status
    case RunSucceeded => StateSuccess
    case RunFailed => StateFailure
    case RunCanceled => StateError
    case _ => StatePending
  }

  /** The run belongs to a known repository and names a full commit. */
  predicate Reports(db: Database, runId: nat) {
    runId in db.runs && db.runs[runId].repository.Some? && db.runs[runId].repository.value in db.repositories &&
    |db.runs[runId].commitSha| == 40
  }

  /** Inserts the status under its key; an existing row must already say the same. */
  function Enqueue(db: Database, runId: nat, status: RunStatus): Outcome<Database> {
    if (status != RunQueued && !RunTerminal(status)) || !Reports(db, runId) then Committed(db)
    else
      var key := OutboxKey(runId, RunTerminal(status));
      if key !in db.outbox then Committed(db.(outbox := db.outbox[key := StateOf(status)]))
      else if db.outbox[key] == StateOf(status) then Committed(db)
      else RolledBack(StatusMismatch)
  }

  // Readiness, as the SQL condition states it.

  predicate Ready(jobs: seq<Job>, runId: nat, dependencies: seq<string>) {
    forall d | d in dependencies :: SucceededKey(jobs, runId, d)
  }

  function UnblockReadyOne(jobs: seq<Job>, runId: nat, j: Job): Job {
    if j.runId == runId && j.status == Blocked && Ready(jobs, runId, j.dependencies) then j.(status := Queued) else j
  }

  function UnblockReady(jobs: seq<Job>, runId: nat): (r: seq<Job>)
    ensures |r| == |jobs|
  {
    seq(|jobs|, i requires 0 <= i < |jobs| => UnblockReadyOne(jobs, runId, jobs[i]))
  }

  // Transactions.

  function SetStatus(db: Database, runId: nat, status: RunStatus): Database {
    if runId in db.runs then db.(runs := db.runs[runId := db.runs[runId].(status := status)]) else db
  }

  /** Inserts a run with the jobs of its plan, and its first commit status. */
  function CreateTx(db: Database, runId: nat, row: RunRow, ids: seq<nat>): Outcome<Database>
    requires |ids| == |Flatten(row.stages)|
  {
    if runId in db.runs then RolledBack(Duplicate)
    else
      Enqueue(db.(runs := db.runs[runId := row], jobs := db.jobs + NewJobs(row.stages, runId, ids)), runId, row.status)
  }

  predicate Offered(db: Database, i: nat) {
    i < |db.jobs| && db.jobs[i].status == Queued && db.jobs[i].runId in db.runs &&
    (db.runs[db.jobs[i].runId].status == RunQueued || db.runs[db.jobs[i].runId].status == RunRunning)
  }

  /** Hands out the job that the locking query selected: a queued job of a run that is queued or running. */
  function ClaimTx(db: Database, i: nat, runner: nat, token: nat, now: Time): Outcome<Database> {
    if !Offered(db, i) then RolledBack(NothingToDo)
    else
      var runId := db.jobs[i].runId;
      var claimed := db.(jobs := db.jobs[i := ClaimOne(db.jobs[i], runner, token, now)]);
      Committed(if db.runs[runId].status == RunQueued then SetStatus(claimed, runId, RunRunning) else claimed)
  }

  function AcknowledgeTx(db: Database, runner: nat, jobId: nat, token: nat, now: Time): Outcome<Database> {
    if !Authorized(db.jobs, runner, jobId, token, now) then RolledBack(LeaseRefused)
    else
      var i := FindJob(db.jobs, jobId);
      Committed(db.(jobs := db.jobs[i := AcknowledgeOne(db.jobs[i], now)]))
  }

  function ReleaseTx(db: Database, runner: nat, jobId: nat, token: nat, now: Time): Outcome<Database> {
    if !Authorized(db.jobs, runner, jobId, token, now) then RolledBack(LeaseRefused)
    else
      var i := FindJob(db.jobs, jobId);
      if db.jobs[i].status != Assigned || db.jobs[i].acceptedAt.Some? then RolledBack(LeaseRefused)
      else Committed(db.(jobs := db.jobs[i := ReleaseOne(db.jobs[i])]))
  }

  function StartTx(db: Database, runner: nat, jobId: nat, token: nat, now: Time): Outcome<Database> {
    if !Authorized(db.jobs, runner, jobId, token, now) then RolledBack(LeaseRefused)
    else
      var i := FindJob(db.jobs, jobId);
      if db.jobs[i].acceptedAt == None then RolledBack(LeaseRefused)
      else Committed(db.(jobs := db.jobs[i := db.jobs[i].(status := Running)]))
  }

  function RenewTx(db: Database, runner: nat, leases: seq<ActiveLease>, now: Time): Outcome<Database> {
    Committed(db.(jobs := RenewAll(db.jobs, runner, leases, now)))
  }

  function EndOne(j: Job, status: JobStatus): Job {
    j.(status := status, token := NO_TOKEN, expires := ZERO_TIME)
  }

  /** Unblocks or skips, and ends the run when nothing remains. */
  function FinalizeRunJobs(db: Database, runId: nat, status: JobStatus): Outcome<Database> {
    var swept := db.(jobs :=
      if status == Succeeded then UnblockReady(db.jobs, runId)
      else if status == Failed || status == Canceled then Sweep(db.jobs, runId) else db.jobs);
    if RunUnfinished(swept.jobs, runId) then Committed(swept)
    else
      var final := FinalStatus(swept.jobs, runId);
      Enqueue(SetStatus(swept, runId, final), runId, final)
  }

  function CompleteTx(db: Database, runner: nat, jobId: nat, token: nat, status: JobStatus, now: Time): Outcome<Database> {
    if !CompletionStatus(status) || !Authorized(db.jobs, runner, jobId, token, now) then RolledBack(LeaseRefused)
    else
      var i := FindJob(db.jobs, jobId);
      FinalizeRunJobs(db.(jobs := db.jobs[i := EndOne(db.jobs[i], status)]), db.jobs[i].runId, status)
  }

  /** The expired jobs of one run that recovery has locked, in the order in which it handles them. */
  predicate Picked(jobs: seq<Job>, runId: nat, picks: seq<nat>, now: Time) {
    (forall x | 0 <= x < |picks| :: picks[x] < |jobs| && jobs[picks[x]].runId == runId && Expired(jobs[picks[x]], now)) &&
    forall x, y | 0 <= x < y < |picks| :: picks[x] != picks[y]
  }

  function RequeueRow(j: Job): Job {
    j.(status := Queued, runnerId := NIL, token := NO_TOKEN, expires := ZERO_TIME, acceptedAt := None)
  }

  /** One expired job: an assigned one is queued again, a running one fails and its run's waiting jobs are skipped. */
  function RecoverRow(jobs: seq<Job>, runId: nat, i: nat): (r: seq<Job>)
    requires i < |jobs|
    ensures |r| == |jobs|
  {
    if jobs[i].status == Assigned then jobs[i := RequeueRow(jobs[i])]
    else if jobs[i].status == Running then Sweep(jobs[i := EndOne(jobs[i], Failed)], runId)
    else jobs
  }

  function RecoverRows(jobs: seq<Job>, runId: nat, picks: seq<nat>): (r: seq<Job>)
    requires forall x | 0 <= x < |picks| :: picks[x] < |jobs|
    ensures |r| == |jobs|
  {
    if picks == [] then jobs else RecoverRow(RecoverRows(jobs, runId, picks[..|picks| - 1]), runId, picks[|picks| - 1])
  }

  /** Recovery leaves a leased job that it does not handle as it is: it skips only waiting jobs. */
  lemma {:induction false} UnpickedStay(jobs: seq<Job>, runId: nat, picks: seq<nat>, k: nat)
    requires (forall x | 0 <= x < |picks| :: picks[x] < |jobs|) && k < |jobs| && k !in picks && Leased(jobs[k].status)
    ensures RecoverRows(jobs, runId, picks)[k] == jobs[k]
  {
    if picks != [] { UnpickedStay(jobs, runId, picks[..|picks| - 1], k); }
  }

  predicate AnyRunning(jobs: seq<Job>, picks: seq<nat>) {
    exists x | 0 <= x < |picks| && picks[x] < |jobs| :: jobs[picks[x]].status == Running
  }

  /** How recovery leaves the run: failed, queued again when nothing of it has started, or as it was. */
  function FinishRecovery(db: Database, runId: nat, failed: bool, requeued: bool): Outcome<Database> {
    if failed then Enqueue(SetStatus(db, runId, RunFailed), runId, RunFailed)
    else if requeued && !RunStartedWork(db.jobs, runId) then Committed(SetStatus(db, runId, RunQueued))
    else Committed(db)
  }

  function RecoverRunTx(db: Database, runId: nat, picks: seq<nat>): Outcome<Database>
    requires forall x | 0 <= x < |picks| :: picks[x] < |db.jobs|
  {
    FinishRecovery(db.(jobs := RecoverRows(db.jobs, runId, picks)), runId, AnyRunning(db.jobs, picks), picks != [])
  }

  function CancelOne(runId: nat, j: Job): Job {
    if j.runId == runId && !JobTerminal(j.status) then EndOne(j, Canceled) else j
  }

  function CancelJobs(jobs: seq<Job>, runId: nat): (r: seq<Job>)
    ensures |r| == |jobs|
  {
    seq(|jobs|, i requires 0 <= i < |jobs| => CancelOne(runId, jobs[i]))
  }

  /** A run that has ended stays as it is. */
  function CancelTx(db: Database, runId: nat): Outcome<Database> {
    if runId !in db.runs then RolledBack(NotFound)
    else if RunTerminal(db.runs[runId].status) then Committed(db)
    else Enqueue(SetStatus(db.(jobs := CancelJobs(db.jobs, runId)), runId, RunCanceled), runId, RunCanceled)
  }

  // Rerunning.

  function ReuseOne(jobs: seq<Job>, newId: nat, oldId: nat, j: Job): Job {
    if j.runId == newId && SucceededKey(jobs, oldId, j.key) then j.(status := Succeeded) else j
  }

  /** Marks the jobs of the new run whose counterpart succeeded in the old one. */
  function Reuse(jobs: seq<Job>, newId: nat, oldId: nat): (r: seq<Job>)
    ensures |r| == |jobs|
  {
    seq(|jobs|, i requires 0 <= i < |jobs| => ReuseOne(jobs, newId, oldId, jobs[i]))
  }

  /** Only ended runs with jobs can be rerun, and only failed ones in failed mode. */
  predicate Rerunnable(db: Database, oldId: nat, failedMode: bool) {
    oldId in db.runs && RunTerminal(db.runs[oldId].status) && (failedMode ==> db.runs[oldId].status == RunFailed) &&
    HasJobs(db.jobs, oldId)
  }

  function RerunTx(db: Database, oldId: nat, newId: nat, ids: seq<nat>, failedMode: bool): Outcome<Database>
    requires oldId in db.runs ==> |ids| == |Flatten(db.runs[oldId].stages)|
  {
    if !Rerunnable(db, oldId, failedMode) then RolledBack(Conflict)
    else
      var created := CreateTx(db, newId, db.runs[oldId].(status := RunQueued), ids);
      if created.RolledBack? || !failedMode then created
      else Committed(created.value.(jobs := UnblockReady(Reuse(created.value.jobs, newId, oldId), newId)))
  }

  // Any transaction.

  datatype Tx =
    | Create(run: nat, row: RunRow, ids: seq<nat>)
    | Claim(index: nat, runner: nat, token: nat)
    | Acknowledge(runner: nat, job: nat, token: nat)
    | Release(runner: nat, job: nat, token: nat)
    | Start(runner: nat, job: nat, token: nat)
    | Renew(runner: nat, leases: seq<ActiveLease>)
    | Complete(runner: nat, job: nat, token: nat, status: JobStatus)
    | RecoverRun(run: nat, picks: seq<nat>)
    | Cancel(run: nat)
    | Rerun(oldRun: nat, newRun: nat, ids: seq<nat>, failedMode: bool)

  predicate FreshRow(db: Database, runId: nat, stages: seq<Stage>, ids: seq<nat>) {
    runId !in db.runs && |ids| == |Flatten(stages)| && FreshIds(db.jobs, ids)
  }

  /** Plans come from the compiler, or are empty for a run that failed before it had a plan; identifiers are fresh. */
  ghost predicate Enabled(db: Database, tx: Tx, now: Time) {
    match tx
    case Create(run, row, ids) =>
      FreshRow(db, run, row.stages, ids) &&
      ((row.status == RunQueued && SoundStages(row.stages)) || (row.status == RunFailed && row.stages == []))
    case RecoverRun(run, picks) => Picked(db.jobs, run, picks, now)
    case Rerun(oldRun, newRun, ids, _) => oldRun in db.runs ==> FreshRow(db, newRun, db.runs[oldRun].stages, ids)
    case _ => true
  }

  ghost function Run(db: Database, tx: Tx, now: Time): Outcome<Database>
    requires Enabled(db, tx, now)
  {
    match tx
    case Create(run, row, ids) => CreateTx(db, run, row, ids)
    case Claim(i, runner, token) => ClaimTx(db, i, runner, token, now)
    case Acknowledge(runner, job, token) => AcknowledgeTx(db, runner, job, token, now)
    case Release(runner, job, token) => ReleaseTx(db, runner, job, token, now)
    case Start(runner, job, token) => StartTx(db, runner, job, token, now)
    case Renew(runner, leases) => RenewTx(db, runner, leases, now)
    case Complete(runner, job, token, status) => CompleteTx(db, runner, job, token, status, now)
    case RecoverRun(run, picks) => RecoverRunTx(db, run, picks)
    case Cancel(run) => CancelTx(db, run)
    case Rerun(oldRun, newRun, ids, failedMode) => RerunTx(db, oldRun, newRun, ids, failedMode)
  }

  /** A transaction that rolls back leaves the database as it was. */
  ghost function After(db: Database, tx: Tx, now: Time): Database
    requires Enabled(db, tx, now)
  {
    var outcome := Run(db, tx, now);
    if outcome.Committed? then outcome.value else db
  }
}
