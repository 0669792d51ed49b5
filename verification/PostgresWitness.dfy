// A run of the Postgres store, from the empty database on, in which recovery fails a run and
// leaves a job of it queued for good: two jobs are claimed, the first starts, both leases expire.

module PostgresWitness {
  import opened DependencyGraph
  import opened PipelineCompiler
  import opened RunGraph
  import opened Basics
  import opened RunModel
  import opened JobInvariants
  import opened PostgresRuns
  import opened PostgresHistory
  import opened PostgresStranding
  import W = SchedulerWitness

  const ROW := RunRow(RunQueued, None, "", W.STAGES)
  const OPEN_RUN: map<nat, RunRow> := map[7 := ROW.(status := RunRunning)]
  const LOST := ClaimOne(W.FIRST, 9, 100, 0)
  const UNSTARTED := ClaimOne(W.SECOND, 9, 101, 0)

  lemma Created() returns (trace: seq<Moment>)
    ensures Behaviour(trace) && Last(trace) == Moment(Database(map[7 := ROW], [W.FIRST, W.SECOND], map[], {}), 0)
  {
    var start := Moment(Database(map[], [], map[], {}), 0);
    W.PlanIsSound();
    trace := Continue([start], Create(7, ROW, [1, 2]), 0);
    assert [] + [W.FIRST, W.SECOND] == [W.FIRST, W.SECOND];
  }

  lemma BothClaimed() returns (trace: seq<Moment>)
    ensures Behaviour(trace) && Last(trace) == Moment(Database(OPEN_RUN, [LOST, UNSTARTED], map[], {}), 0)
  {
    var created := Created();
    var first := Continue(created, Claim(0, 9, 100), 0);
    assert Last(first).db.jobs == [LOST, W.SECOND] && Last(first).db.runs == OPEN_RUN;
    trace := Continue(first, Claim(1, 9, 101), 0);
    assert Last(trace).db.jobs == [LOST, UNSTARTED];
  }

  const CONFIRMED := LOST.(acceptedAt := Some(0))

  lemma FirstStarted() returns (trace: seq<Moment>)
    ensures Behaviour(trace)
    ensures Last(trace) == Moment(Database(OPEN_RUN, [CONFIRMED.(status := Running), UNSTARTED], map[], {}), 0)
  {
    var claimed := BothClaimed();
    assert FindJob([LOST, UNSTARTED], 1) == 0;
    var confirmed := Continue(claimed, Acknowledge(9, 1, 100), 0);
    assert Last(confirmed).db.jobs == [CONFIRMED, UNSTARTED];
    assert FindJob([CONFIRMED, UNSTARTED], 1) == 0;
    trace := Continue(confirmed, Start(9, 1, 100), 0);
    assert Last(trace).db.jobs == [CONFIRMED.(status := Running), UNSTARTED];
  }

  lemma RecoveredRows(jobs: seq<Job>)
    requires |jobs| == 2 && jobs[0].runId == 7 && jobs[0].status == Running && jobs[1].status == Assigned
    ensures RecoverRows(jobs, 7, [0, 1]) == [EndOne(jobs[0], Failed), RequeueRow(jobs[1])]
    ensures AnyRunning(jobs, [0, 1])
  {
    assert [0, 1][..1] == [0] && [0][..0] == [];
    assert RecoverRows(jobs, 7, [0]) == RecoverRow(jobs, 7, 0) == [EndOne(jobs[0], Failed), jobs[1]];
    assert jobs[[0, 1][0]].status == Running;
  }

  /** Recovery fails the run, its second job waits, and nothing will ever change that. */
  lemma RecoveryLeavesAQueuedJob() returns (trace: seq<Moment>)
    ensures Behaviour(trace) && Left(Last(trace), 1) && 7 in Last(trace).db.runs && Last(trace).db.runs[7].status == RunFailed
    ensures forall longer | Continues(trace, longer) :: StillThere(Last(longer), 1, Last(trace).db.jobs[1])
  {
    var started := FirstStarted();
    var db := Last(started).db;
    RecoveredRows(db.jobs);
    assert Picked(db.jobs, 7, [0, 1], RUNNER_LEASE_DURATION);
    trace := Continue(started, RecoverRun(7, [0, 1]), RUNNER_LEASE_DURATION);
    assert Last(trace).db.jobs == [EndOne(db.jobs[0], Failed), RequeueRow(db.jobs[1])];
    LeftForGoodIff(trace, 1);
  }
}
