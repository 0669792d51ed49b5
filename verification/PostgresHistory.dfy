// Consequences over every sequence of transactions of the Postgres store.

module PostgresHistory {
  import opened DependencyGraph
  import opened PipelineCompiler
  import opened RunGraph
  import opened Basics
  import opened RunModel
  import opened JobInvariants
  import opened PostgresRuns
  import opened PostgresOutcome
  import opened PostgresTransactions
  import opened PostgresRerun

  /** The database and the clock, which never goes back. */
  datatype Moment = Moment(db: Database, now: Time)

  ghost predicate Initial(m: Moment) {
    m.db.runs == map[] && m.db.jobs == [] && m.db.outbox == map[]
  }

  ghost predicate Next(m: Moment, m': Moment) {
    exists tx :: m.now <= m'.now && Enabled(m.db, tx, m'.now) && m'.db == After(m.db, tx, m'.now)
  }

  ghost predicate Behaviour(trace: seq<Moment>) {
    trace != [] && Initial(trace[0]) &&
    forall i, j {:trigger Next(trace[i], trace[j])} | 0 <= i < |trace| && j == i + 1 && j < |trace| :: Next(trace[i], trace[j])
  }

  /** Every transaction keeps the invariant, leaves ended runs alone, and never meets a conflicting commit status. */
  lemma RunKeeps(db: Database, tx: Tx, now: Time)
    requires DatabaseOk(db) && Enabled(db, tx, now)
    ensures GoodOutcome(db, Run(db, tx, now))
  {
    match tx
    case Create(run, row, ids) => CreateIsGood(db, run, row, ids);
    case Claim(i, runner, token) => ClaimKeeps(db, i, runner, token, now);
    case Acknowledge(runner, job, token) => HolderKeeps(db, runner, job, token, now);
    case Release(runner, job, token) => HolderKeeps(db, runner, job, token, now);
    case Start(runner, job, token) => HolderKeeps(db, runner, job, token, now);
    case Renew(runner, leases) => RenewKeeps(db, runner, leases, now);
    case Complete(runner, job, token, status) => CompleteKeeps(db, runner, job, token, status, now);
    case RecoverRun(run, picks) => RecoverKeeps(db, run, picks, now);
    case Cancel(run) => CancelKeeps(db, run);
    case Rerun(oldRun, newRun, ids, failedMode) => RerunKeeps(db, oldRun, newRun, ids, failedMode);
  }

  lemma CreateIsGood(db: Database, run: nat, row: RunRow, ids: seq<nat>)
    requires DatabaseOk(db) && FreshRow(db, run, row.stages, ids) && NewRow(row) && (SoundStages(row.stages) || row.stages == [])
    ensures GoodOutcome(db, CreateTx(db, run, row, ids))
  {
    CreateKeeps(db, run, row, ids);
  }

  lemma InitialOk(m: Moment)
    requires Initial(m)
    ensures DatabaseOk(m.db)
  {
    forall r: nat ensures Acyclic([], r) { assert RanksRun([], r, map[]); }
  }

  lemma {:induction false} AlwaysOk(trace: seq<Moment>, n: nat)
    requires Behaviour(trace) && n < |trace|
    ensures DatabaseOk(trace[n].db)
  {
    if n == 0 {
      InitialOk(trace[0]);
    } else {
      AlwaysOk(trace, n - 1);
      assert Next(trace[n - 1], trace[n]);
      StepIsGood(trace[n - 1], trace[n]);
    }
  }

  lemma StepIsGood(m: Moment, m': Moment)
    requires DatabaseOk(m.db) && Next(m, m')
    ensures DatabaseOk(m'.db) && RunsStay(m.db, m'.db)
  {
    var tx :| Enabled(m.db, tx, m'.now) && m'.db == After(m.db, tx, m'.now);
    RunKeeps(m.db, tx, m'.now);
  }

  lemma StepKeepsRuns(trace: seq<Moment>, n: nat)
    requires Behaviour(trace) && 0 < n < |trace|
    ensures RunsStay(trace[n - 1].db, trace[n].db)
  {
    AlwaysOk(trace, n - 1);
    assert Next(trace[n - 1], trace[n]);
    StepIsGood(trace[n - 1], trace[n]);
  }

  /** A run that has ended never changes its status again, by completion, recovery, cancellation or anything else. */
  lemma {:induction false} EndedForever(trace: seq<Moment>, m: nat, n: nat, r: nat)
    requires Behaviour(trace) && m <= n < |trace| && r in trace[m].db.runs && RunTerminal(trace[m].db.runs[r].status)
    ensures r in trace[n].db.runs && trace[n].db.runs[r].status == trace[m].db.runs[r].status
    decreases n
  {
    if m < n {
      EndedForever(trace, m, n - 1, r);
      StepKeepsRuns(trace, n);
    }
  }

  /** A run that succeeded succeeded in every job; a canceled one has no job left open; a failed one has a failed job or no jobs. */
  lemma OutcomeIsBacked(trace: seq<Moment>, n: nat, r: nat)
    requires Behaviour(trace) && n < |trace| && r in trace[n].db.runs
    ensures StatusBacked(trace[n].db.jobs, r, trace[n].db.runs[r].status)
  {
    AlwaysOk(trace, n);
    assert RunOk(trace[n].db, r);
  }

  /** The duplicate-key check of the outbox never fails, whatever transaction comes next. */
  lemma StatusNeverMismatches(trace: seq<Moment>, n: nat, tx: Tx, now: Time)
    requires Behaviour(trace) && n < |trace| && Enabled(trace[n].db, tx, now)
    ensures Run(trace[n].db, tx, now) != RolledBack(StatusMismatch)
  {
    AlwaysOk(trace, n);
    RunKeeps(trace[n].db, tx, now);
  }

  /** A run reports if it belongs to a known repository and names a full commit; it has its final status exactly when it has ended. */
  lemma OneFinalStatus(trace: seq<Moment>, n: nat, r: nat)
    requires Behaviour(trace) && n < |trace| && r in trace[n].db.runs
    ensures var db, row, key := trace[n].db, trace[n].db.runs[r], OutboxKey(r, true);
            (key in db.outbox <==>
              row.repository.Some? && row.repository.value in db.repositories && |row.commitSha| == 40 &&
              (row.status == RunSucceeded || row.status == RunFailed || row.status == RunCanceled)) &&
            (key in db.outbox ==>
              (db.outbox[key] == StateSuccess <==> row.status == RunSucceeded) &&
              (db.outbox[key] == StateFailure <==> row.status == RunFailed) &&
              (db.outbox[key] == StateError <==> row.status == RunCanceled))
  {
    AlwaysOk(trace, n);
    var db, key := trace[n].db, OutboxKey(r, true);
    assert key in db.outbox ==> OutboxRowOk(db, key, db.outbox[key]);
    assert db.runs[r] == db.runs[r];
  }

  /** A success is reported only for a run of which every job succeeded, a failure only for one with a failed job or no jobs. */
  lemma ReportedSuccessIsTrue(trace: seq<Moment>, n: nat, r: nat)
    requires Behaviour(trace) && n < |trace| && OutboxKey(r, true) in trace[n].db.outbox
    ensures var jobs, state := trace[n].db.jobs, trace[n].db.outbox[OutboxKey(r, true)];
            (state == StateSuccess ==> forall i | 0 <= i < |jobs| && jobs[i].runId == r :: jobs[i].status == Succeeded) &&
            (state == StateFailure && HasJobs(jobs, r) ==> exists i :: 0 <= i < |jobs| && jobs[i].runId == r && jobs[i].status == Failed) &&
            (state == StateError ==> forall i | 0 <= i < |jobs| && jobs[i].runId == r :: JobTerminal(jobs[i].status)) &&
            state != StatePending
  {
    AlwaysOk(trace, n);
    var db, key := trace[n].db, OutboxKey(r, true);
    assert OutboxRowOk(db, key, db.outbox[key]);
    OneFinalStatus(trace, n, r);
    OutcomeIsBacked(trace, n, r);
  }

  /** Every reporting run that was queued with a plan has announced itself as pending, and says so for ever. */
  lemma OnePendingStatus(trace: seq<Moment>, n: nat, r: nat)
    requires Behaviour(trace) && n < |trace| && r in trace[n].db.runs
    ensures var db, row, key := trace[n].db, trace[n].db.runs[r], OutboxKey(r, false);
            (key in db.outbox <==>
              row.repository.Some? && row.repository.value in db.repositories && |row.commitSha| == 40 && row.stages != []) &&
            (key in db.outbox ==> db.outbox[key] == StatePending)
  {
    AlwaysOk(trace, n);
    var db, key := trace[n].db, OutboxKey(r, false);
    assert key in db.outbox ==> OutboxRowOk(db, key, db.outbox[key]);
    assert db.runs[r] == db.runs[r];
  }
}
