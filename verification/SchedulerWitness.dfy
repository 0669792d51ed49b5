// Runs of the in-memory store, from the empty store on, that show the states behind its
// surprising behaviour: two jobs of one run are claimed, and then
// - the first is completed without having been started,
// - the second starts, both leases expire, and one recovery requeues and skips the first,
// - the first starts, both leases expire, recovery fails the run, and it runs again.

module SchedulerWitness {
  import opened DependencyGraph
  import opened PipelineCompiler
  import opened RunGraph
  import opened Basics
  import opened RunModel
  import opened JobInvariants
  import opened Scheduler
  import opened SchedulerSafety
  import opened TransitionTable
  import opened RunOutcome
  import opened RunRevival
  import opened RecoveryLaws
  import opened StoreLaws

  const NEEDS := Requirements("linux", "", "docker", map[], 0)
  const STAGES := [Stage("s", [], [JobSpec("a", [], true, NEEDS), JobSpec("b", [], true, NEEDS)])]
  const MACHINE := Runner(9, "standard", "linux", "amd64", "docker", map[], 2, 0, 2)
  const RUN := Record(7, RunQueued, None, None)
  const FIRST := Job(1, 7, "s/a", [], NEEDS, Queued, NIL, None, NO_TOKEN, ZERO_TIME)
  const SECOND := Job(2, 7, "s/b", [], NEEDS, Queued, NIL, None, NO_TOKEN, ZERO_TIME)
  const RUNNING := Record(7, RunRunning, Some(0), None)
  const BOTH_ASSIGNED := Store([RUNNING], [ClaimOne(FIRST, 9, 100, 0), ClaimOne(SECOND, 9, 101, 0)], map[9 := MACHINE])

  // The plan of two independent jobs.

  lemma PlanIsSound()
    ensures SoundStages(STAGES) && |Flatten(STAGES)| == 2
    ensures NewJobs(STAGES, 7, [1, 2]) == [FIRST, SECOND]
  {
    var jobs := STAGES[0].jobs;
    assert StageNodes(STAGES) == [Node("s", [])];
    assert JobNodes(jobs) == [Node("a", []), Node("b", [])];
    assert "a" != "b" by { assert "a"[0] != "b"[0]; }
    IndependentIsSound(StageNodes(STAGES));
    IndependentIsSound(JobNodes(jobs));
    assert FlatPrefix(STAGES, 0) == [] && SpecPrefix(STAGES, 0) == [];
    assert FlatPrefix(STAGES, 1) == [] + FlatStage(STAGES, STAGES[0]);
    assert SpecPrefix(STAGES, 1) == [] + [NEEDS, NEEDS];
    assert FlatStage(STAGES, STAGES[0]) == [FlatJob(STAGES, STAGES[0], jobs[0]), FlatJob(STAGES, STAGES[0], jobs[1])];
    assert StageDependencyKeys(STAGES, []) == [] && JobDependencyKeys("s", []) == [];
    assert Key("s", "a") == "s/a" && Key("s", "b") == "s/b";
  }

  // Up to the two claims.

  lemma Registered() returns (trace: seq<World>)
    ensures Behaviour(trace) && Last(trace) == World(Store([], [], map[9 := MACHINE]), 0, {}, map[9 := 2])
  {
    trace := Continue([World(EMPTY_STORE, 0, {}, map[])], Heartbeat(MACHINE, []), 0);
  }

  lemma Created() returns (trace: seq<World>)
    ensures Behaviour(trace)
    ensures Last(trace) == World(Store([RUN], [FIRST, SECOND], map[9 := MACHINE]), 0, {}, map[9 := 2])
  {
    var before := Registered();
    PlanIsSound();
    assert FindRecord([], RUN.id, 0) == 0;
    assert [RUN] + [] == [RUN] && [] + [FIRST, SECOND] == [FIRST, SECOND];
    trace := Continue(before, CreateRun(RUN, Some(STAGES), [1, 2]), 0);
  }

  lemma FirstClaimed() returns (trace: seq<World>)
    ensures Behaviour(trace)
    ensures Last(trace) == World(Store([RUNNING], [ClaimOne(FIRST, 9, 100, 0), SECOND], map[9 := MACHINE]), 0, {100}, map[9 := 2])
  {
    var before := Created();
    var s := Last(before).store;
    assert HeldCount(s.jobs, 9, 0) == 0 by { assert s.jobs[..1] == [FIRST] && [FIRST][..0] == [] && HeldCount([FIRST], 9, 0) == 0; }
    assert FirstClaimable(s.jobs, MACHINE, 0) == 0;
    trace := Continue(before, ClaimJob(9, 100), 0);
    assert SetRunStarted([RUN], 7, 0) == [RUN.(startedAt := Some(0))];
    assert Last(trace).store.records == [RUNNING];
    assert Last(trace).store.jobs == [ClaimOne(FIRST, 9, 100, 0), SECOND];
  }

  lemma BothClaimed() returns (trace: seq<World>)
    ensures Behaviour(trace) && Last(trace) == World(BOTH_ASSIGNED, 0, {100, 101}, map[9 := 2])
  {
    var before := FirstClaimed();
    var s := Last(before).store;
    assert HeldCount(s.jobs, 9, 0) == 1 by {
      assert s.jobs[..1] == [s.jobs[0]] && [s.jobs[0]][..0] == [] && HeldCount([s.jobs[0]], 9, 0) == 1;
    }
    assert FirstClaimable(s.jobs, MACHINE, 1) == 1;
    assert FirstClaimable(s.jobs, MACHINE, 0) == 1;
    trace := Continue(before, ClaimJob(9, 101), 0);
    assert Last(trace).store.records == [RUNNING];
    assert Last(trace).store.jobs == BOTH_ASSIGNED.jobs;
    assert {100} + {101} == {100, 101};
  }

  // A job is completed without having been started.

  const SUCCESS := CompleteJob(9, 1, 100, Succeeded)

  lemma UnstartedCompletes() returns (trace: seq<World>)
    ensures Behaviour(trace) && |Last(trace).store.jobs| == 2 && Enabled(Last(trace), SUCCESS)
    ensures CompletesUnstarted(Last(trace).store, SUCCESS, 0, 0)
    ensures OffTable(Last(trace).store.jobs[0].status, Effect(Last(trace).store, SUCCESS, 0).jobs[0].status)
  {
    trace := BothClaimed();
    assert FindJob(BOTH_ASSIGNED.jobs, 1) == 0;
    LeavesTableIff(Last(trace), SUCCESS, 0, 0);
  }

  // One of the two jobs starts, and both leases expire.

  function Begun(x: nat): Store
    requires x < 2
  {
    BOTH_ASSIGNED.(jobs := BOTH_ASSIGNED.jobs[x := BOTH_ASSIGNED.jobs[x].(acceptedAt := Some(0), status := Running)])
  }

  lemma OneBegins(x: nat) returns (trace: seq<World>)
    requires x < 2
    ensures Behaviour(trace) && Last(trace) == World(Begun(x), 0, {100, 101}, map[9 := 2])
  {
    var before := BothClaimed();
    var jobs := BOTH_ASSIGNED.jobs;
    assert FindFrom(jobs, x + 1, x) == x && FindJob(jobs, x + 1) == x;
    var accepted := jobs[x := jobs[x].(acceptedAt := Some(0))];
    var confirmed := Continue(before, AcknowledgeJob(9, x + 1, 100 + x), 0);
    assert Last(confirmed).store.jobs == accepted;
    assert FindFrom(accepted, x + 1, x) == x && FindJob(accepted, x + 1) == x;
    trace := Continue(confirmed, StartJob(9, x + 1, 100 + x), 0);
    assert Last(trace).store.jobs == Begun(x).jobs;
  }

  const RECOVERY := RecoverLeases(100)

  lemma BothHandled(x: nat)
    requires x < 2
    ensures Handled(Begun(x).jobs, 0, 100, RUNNER_LEASE_DURATION) && Handled(Begun(x).jobs, 1, 100, RUNNER_LEASE_DURATION)
  {
    assert ExpiredCount(Begun(x).jobs, 0, RUNNER_LEASE_DURATION) == 0;
  }

  /** The second job was running: one recovery requeues the first and then skips it. */
  lemma RequeuedIsSkipped() returns (trace: seq<World>)
    ensures Behaviour(trace) && |Last(trace).store.jobs| == 2 && Last(trace).now <= RUNNER_LEASE_DURATION
    ensures SkipsRequeued(Last(trace).store, RECOVERY, RUNNER_LEASE_DURATION, 0)
    ensures OffTable(Last(trace).store.jobs[0].status, Effect(Last(trace).store, RECOVERY, RUNNER_LEASE_DURATION).jobs[0].status)
  {
    trace := OneBegins(1);
    BothHandled(1);
    assert FailsBehind(Begun(1).jobs, 0, 2, 100, RUNNER_LEASE_DURATION);
    LeavesTableIff(Last(trace), RECOVERY, RUNNER_LEASE_DURATION, 0);
  }

  // The first job was running: its run fails, and the second job waits in the queue.

  lemma FirstFailsRun()
    ensures var s := RecoverUpTo(Begun(0), 1, 100, RUNNER_LEASE_DURATION).store;
            |s.records| == 1 && s.records[0].id == 7 && s.records[0].status == RunFailed
  {
    BothHandled(0);
    RecoverTurn(Begun(0), 0, 100, RUNNER_LEASE_DURATION);
    assert RecoverUpTo(Begun(0), 0, 100, RUNNER_LEASE_DURATION).store == Begun(0);
  }

  lemma RecoveryFailsRun() returns (trace: seq<World>)
    ensures Behaviour(trace) && |Last(trace).store.records| == 1 && |Last(trace).store.jobs| == 2
    ensures Last(trace).store.records[0].id == 7 && Last(trace).store.records[0].status == RunFailed
    ensures Waits(Last(trace).store.jobs[1], 7) && Last(trace).store.jobs[1].requirements == NEEDS
  {
    var before := OneBegins(0);
    var s := Begun(0);
    StateIsOk(before);
    BothHandled(0);
    FirstFailsRun();
    AssignedRecovers(s, 2, 100, RUNNER_LEASE_DURATION, 1);
    RecoverTouches(s, 2, 100, RUNNER_LEASE_DURATION, 1);
    var turn := RecoverUpTo(s, 1, 100, RUNNER_LEASE_DURATION);
    RecoverKeepsRecordsOk(s, 1, 100, RUNNER_LEASE_DURATION);
    RecoverNextKeepsTerminal(turn, 1, 100, RUNNER_LEASE_DURATION, 0);
    RecoverKeepsIds(s, 2, 100, RUNNER_LEASE_DURATION);
    trace := Continue(before, RECOVERY, RUNNER_LEASE_DURATION);
  }

  /** A run that recovery failed is set running again: its outcome was not final. */
  lemma FailedRunIsRevived() returns (failed: seq<World>, revived: seq<World>)
    ensures Behaviour(failed) && HasStatus(Last(failed).store, 7, RunFailed)
    ensures Continues(failed, revived) && HasStatus(Last(revived).store, 7, RunRunning)
  {
    failed := RecoveryFailsRun();
    assert Serviceable(NEEDS) by { assert ValidHeartbeat(MACHINE, []) && RunnerMatches(NEEDS, MACHINE); }
    assert Last(failed).store.records[0].status == RunFailed;
    revived := WaitingJobRevives(failed, 1, 7);
  }

  // The second job's lease is prolonged, the first one's runs out.

  const SECOND_KEPT := ClaimOne(SECOND, 9, 101, 0).(expires := SECOND_DEADLINE, acceptedAt := Some(SECOND_TIME))
  const SECOND_TIME: Time := 1_000_000_000
  const SECOND_DEADLINE: Time := 31_000_000_000
  const KEPT := Store([RUNNING], [ClaimOne(FIRST, 9, 100, 0), SECOND_KEPT], map[9 := MACHINE])

  lemma SecondIsKept() returns (trace: seq<World>)
    ensures Behaviour(trace) && Last(trace).store == KEPT && Last(trace).now == SECOND_TIME
  {
    var before := BothClaimed();
    var jobs := BOTH_ASSIGNED.jobs;
    var leases := [ActiveLease(2, 101, "received")];
    RenewLaw(jobs, 9, leases, SECOND_TIME, 0);
    RenewLaw(jobs, 9, leases, SECOND_TIME, 1);
    assert NamesLease(jobs, 1, 9, leases[0].jobId, leases[0].token, SECOND_TIME);
    var renewed := Continue(before, Heartbeat(MACHINE, leases), SECOND_TIME);
    assert Last(renewed).store.jobs == [jobs[0], jobs[1].(expires := SECOND_DEADLINE)];
    AcknowledgeLaw(Last(renewed).store, 9, 2, 101, SECOND_TIME, 1);
    trace := Continue(renewed, AcknowledgeJob(9, 2, 101), SECOND_TIME);
    assert Last(trace).store.jobs == KEPT.jobs;
  }

  lemma FirstIsRequeued()
    ensures Recover(KEPT, 100, RUNNER_LEASE_DURATION).jobs[0].status == Queued
    ensures Recover(KEPT, 100, RUNNER_LEASE_DURATION).jobs[1] == SECOND_KEPT
    ensures Recover(KEPT, 100, RUNNER_LEASE_DURATION).records == [RUN]
  {
    var now := RUNNER_LEASE_DURATION;
    assert ExpiredCount(KEPT.jobs, 0, now) == 0 && Handled(KEPT.jobs, 0, 100, now);
    AssignedRecovers(KEPT, 2, 100, now, 0);
    RecoverTouches(KEPT, 2, 100, now, 1);
    RecoveredRunIs(KEPT, 100, now, 0);
    assert KEPT.jobs[0].runId == 7;
  }

  /** A run is queued again while a job of it goes on to execute: recovery looks at what has started, not at what is assigned. */
  lemma QueuedRunExecutes() returns (trace: seq<World>)
    ensures Behaviour(trace) && HasStatus(Last(trace).store, 7, RunQueued)
    ensures |Last(trace).store.jobs| == 2 && Last(trace).store.jobs[1].runId == 7 && Last(trace).store.jobs[1].status == Running
  {
    var before := SecondIsKept();
    FirstIsRequeued();
    var recovered := Continue(before, RECOVERY, RUNNER_LEASE_DURATION);
    var s := Last(recovered).store;
    assert s.records[0] == RUN;
    StateIsOk(recovered);
    StartLaw(s, 9, 2, 101, RUNNER_LEASE_DURATION, 1);
    trace := Continue(recovered, StartJob(9, 2, 101), RUNNER_LEASE_DURATION);
  }
}
