// The protocol is not empty: one Runner and one job, from the registration of the Runner to
// the start of the execution, step by step.

module ProtocolWitness {
  import opened Basics
  import opened DependencyGraph
  import opened PipelineCompiler
  import opened RunGraph
  import opened RunModel
  import opened JobInvariants
  import opened Scheduler
  import opened LeaseLedger
  import opened RunnerSession
  import opened RunnerProtocol

  const NEEDS := Requirements("linux", "", "docker", map[], 0)
  const STAGES := [Stage("s", [], [JobSpec("a", [], true, NEEDS)])]
  const MACHINE := Runner(9, "standard", "linux", "amd64", "docker", map[], 1, 0, 2)
  const RUN := Record(7, RunQueued, None, None)
  const WAITING := Job(1, 7, "s/a", [], NEEDS, Queued, NIL, None, NO_TOKEN, ZERO_TIME)
  const HANDED_OUT := ClaimOne(WAITING, 9, 5, 0)

  /** The state ends some run of the protocol. */
  ghost predicate Reached(s: System) {
    exists trace :: RunnerProtocol.Behaviour(trace) && trace[|trace| - 1] == s
  }

  lemma TraceExtends(trace: seq<System>, s': System)
    requires RunnerProtocol.Behaviour(trace) && RunnerProtocol.Next(trace[|trace| - 1], s')
    ensures RunnerProtocol.Behaviour(trace + [s'])
  {
    var longer := trace + [s'];
    forall i, j | 0 <= i < |longer| && j == i + 1 && j < |longer| ensures RunnerProtocol.Next(longer[i], longer[j]) {
      assert j < |trace| ==> RunnerProtocol.Next(trace[i], trace[j]);
    }
  }

  lemma EventIsNext(s: System, event: Event)
    requires Can(s, event, 0)
    ensures RunnerProtocol.Next(s, Take(s, event, 0))
  {
  }

  lemma ReachedNext(s: System, event: Event)
    requires Reached(s) && Can(s, event, 0)
    ensures Reached(Take(s, event, 0))
  {
    var trace :| RunnerProtocol.Behaviour(trace) && trace[|trace| - 1] == s;
    EventIsNext(s, event);
    TraceExtends(trace, Take(s, event, 0));
    assert (trace + [Take(s, event, 0)])[|trace|] == Take(s, event, 0);
  }

  /** The store holds this one job, and the Runner is in this state. */
  predicate At(s: System, job: Job, p: Peer) {
    s.ledger.world.store.jobs == [job] && s.ledger.Now() == 0 && s.peers == map[9 := p] && s.log == []
  }

  predicate Registered(s: System) {
    s.ledger.world.store.runners == map[9 := MACHINE]
  }

  // The plan of one job.

  lemma PlanIsSound()
    ensures SoundStages(STAGES) && |Flatten(STAGES)| == 1
    ensures NewJobs(STAGES, 7, [1]) == [WAITING]
  {
    IndependentIsSound([Node("s", [])]);
    IndependentIsSound([Node("a", [])]);
    assert StageNodes(STAGES) == [Node("s", [])];
    assert JobNodes(STAGES[0].jobs) == [Node("a", [])];
    assert FlatPrefix(STAGES, 0) == [] && SpecPrefix(STAGES, 0) == [];
    assert FlatPrefix(STAGES, 1) == [] + FlatStage(STAGES, STAGES[0]);
    assert SpecPrefix(STAGES, 1) == [] + [NEEDS];
    assert FlatStage(STAGES, STAGES[0]) == [FlatJob(STAGES, STAGES[0], STAGES[0].jobs[0])];
    assert StageDependencyKeys(STAGES, []) == [] && JobDependencyKeys("s", []) == [];
    assert Key("s", "a") == "s/a";
  }

  const START := System(EMPTY_LEDGER, map[9 := NewPeer(MACHINE)], [])
  const CREATION := CreateRun(RUN, Some(STAGES), [1])

  lemma StartIsReached()
    ensures Reached(START)
  {
    assert RunnerProtocol.Behaviour([START]) && [START][0] == START;
  }

  lemma CreationAddsJob()
    ensures Enabled(START.ledger.world, CREATION)
    ensures var after := Perform(START.ledger, CREATION, 0);
            after.Jobs() == [WAITING] && after.Now() == 0 && after.world.issued == {} && after.world.store.runners == map[]
  {
    PlanIsSound();
    assert FindRecord([], RUN.id, 0) == 0;
    assert [] + [WAITING] == [WAITING];
  }

  lemma Created() returns (s: System)
    ensures Reached(s) && At(s, WAITING, NewPeer(MACHINE)) && s.ledger.world.issued == {} && s.ledger.world.store.runners == map[]
  {
    StartIsReached();
    CreationAddsJob();
    ReachedNext(START, Environment(CREATION));
    s := Take(START, Environment(CREATION), 0);
  }

  lemma Acted(s: System, job: Job, p: Peer, step: Step) returns (s': System)
    requires Reached(s) && At(s, job, p) && Possible(s.ledger, 9, p, step, 0) && Starts(9, p, step, 0) == []
    ensures Reached(s') && s'.ledger == LedgerAfter(s.ledger, StepOp(9, p, step), 0)
    ensures s'.peers == map[9 := After(s.ledger, 9, p, step, 0)] && s'.log == []
  {
    ReachedNext(s, Act(9, step));
    s' := Take(s, Act(9, step), 0);
  }

  const CONNECTED := NewPeer(MACHINE).(online := true, server := Receiving, up := [Beat(MACHINE, [])])

  lemma Connected() returns (s: System)
    ensures Reached(s) && At(s, WAITING, CONNECTED) && s.ledger.world.issued == {} && s.ledger.world.store.runners == map[]
  {
    var before := Created();
    s := Acted(before, WAITING, NewPeer(MACHINE), Connect([], []));
    assert [] + [Beat(MACHINE, [])] == CONNECTED.up;
  }

  const INTRODUCED := CONNECTED.(server := Claiming, up := [])

  lemma HeartbeatIsServed(s: Store)
    requires s.jobs == [WAITING] && s.runners == map[]
    ensures Renew(s, MACHINE.(id := 9), [], 0) == s.(runners := map[9 := MACHINE])
    ensures Served(CONNECTED, Reply(s, 9, CONNECTED.up[0], 0)) == INTRODUCED
  {
    assert ValidHeartbeat(MACHINE, []) && MACHINE.(id := 9) == MACHINE;
    assert Answers([], []) == [];
    assert CONNECTED.up[1..] == [] && CONNECTED.down + [] == [];
  }

  lemma Introduced() returns (s: System)
    ensures Reached(s) && At(s, WAITING, INTRODUCED) && s.ledger.world.issued == {} && Registered(s)
  {
    var before := Connected();
    HeartbeatIsServed(before.ledger.world.store);
    s := Acted(before, WAITING, CONNECTED, Serve);
  }

  const OFFERED := CONNECTED.(server := Issuing(1, 5, RUNNER_LEASE_DURATION), up := [])

  lemma Claimed() returns (s: System)
    ensures Reached(s) && At(s, HANDED_OUT, OFFERED) && s.ledger.world.issued == {5} && Registered(s)
  {
    var before := Introduced();
    var store := before.ledger.world.store;
    assert HeldCount([WAITING], 9, 0) == 0 by { assert [WAITING][..0] == [] && HeldCount([], 9, 0) == 0; }
    assert RunnerMatches(NEEDS, MACHINE) && FirstClaimable([WAITING], MACHINE, 0) == 0;
    assert ClaimIndex(store, 9, 0) == 0;
    s := Acted(before, WAITING, INTRODUCED, ClaimNext(5));
    assert s.ledger.world.store.jobs == [HANDED_OUT];
  }

  const SENT := Sent(Assignment(1, 5, RUNNER_LEASE_DURATION), Unasked)

  lemma Sends() returns (s: System)
    ensures Reached(s) && At(s, HANDED_OUT, OFFERED.(server := Claiming, down := [SENT])) && s.ledger.world.issued == {5} && Registered(s)
  {
    var before := Claimed();
    assert OFFERED.down + [SENT] == [SENT];
    s := Acted(before, HANDED_OUT, OFFERED, Offer);
  }

  const SHOWN := OFFERED.(server := Receiving, down := [SENT])

  /** The Runner's capacity is used up, so the server listens again. */
  lemma NothingMore() returns (s: System)
    ensures Reached(s) && At(s, HANDED_OUT, SHOWN)
  {
    var before := Sends();
    assert HeldCount([HANDED_OUT], 9, 0) == 1 by { assert [HANDED_OUT][..0] == [] && HeldCount([], 9, 0) == 0; }
    assert ClaimIndex(before.ledger.world.store, 9, 0) == 1;
    s := Acted(before, HANDED_OUT, OFFERED.(server := Claiming, down := [SENT]), ClaimNext(6));
  }

  const ADOPTED := OFFERED.(
    server := Receiving, active := map[1 := LocalJob(5, RUNNER_LEASE_DURATION, AwaitingAcceptance, false, None)],
    adopted := {5}, up := [Accepted(1, 5)])

  lemma OfferIsTaken()
    ensures OnResponse(SHOWN.(down := SHOWN.down[1..]), SENT.response, 0) == ADOPTED
  {
    assert SHOWN.down[1..] == [] && SHOWN.active[1 := ADOPTED.active[1]] == ADOPTED.active;
    assert [] + [Accepted(1, 5)] == ADOPTED.up;
  }

  lemma Adopts() returns (s: System)
    ensures Reached(s) && At(s, HANDED_OUT, ADOPTED)
  {
    var before := NothingMore();
    OfferIsTaken();
    s := Acted(before, HANDED_OUT, SHOWN, Receive);
  }

  const RENEWAL := LeaseRenewed(1, RUNNER_LEASE_DURATION)
  const CONFIRMED := HANDED_OUT.(acceptedAt := Some(0))

  const PROMISED := ADOPTED.(up := [], down := [Sent(RENEWAL, ToAcceptance(5))])

  lemma AcceptanceIsServed(s: Store)
    requires s.jobs == [HANDED_OUT]
    ensures Acknowledge(s, 9, 1, 5, 0) == s.(jobs := [CONFIRMED])
    ensures Served(ADOPTED, Reply(s, 9, ADOPTED.up[0], 0)) == PROMISED
  {
    assert FindJob(s.jobs, 1) == 0 && s.jobs[0 := CONFIRMED] == [CONFIRMED];
    assert ADOPTED.up[1..] == [] && ADOPTED.down + PROMISED.down == PROMISED.down;
  }

  lemma Confirms() returns (s: System)
    ensures Reached(s) && At(s, CONFIRMED, PROMISED)
  {
    var before := Adopts();
    AcceptanceIsServed(before.ledger.world.store);
    s := Acted(before, HANDED_OUT, ADOPTED, Serve);
  }

  const ASKED := ADOPTED.(
    active := map[1 := LocalJob(5, RUNNER_LEASE_DURATION, AwaitingStart, false, None)], up := [Started(1, 5)], down := [])

  lemma PromiseIsTaken()
    ensures OnResponse(PROMISED.(down := PROMISED.down[1..]), RENEWAL, 0) == ASKED
  {
    assert PROMISED.down[1..] == [] && PROMISED.active[1 := ASKED.active[1]] == ASKED.active;
    assert [] + [Started(1, 5)] == ASKED.up;
  }

  lemma AsksToStart() returns (s: System)
    ensures Reached(s) && At(s, CONFIRMED, ASKED)
  {
    var before := Confirms();
    PromiseIsTaken();
    s := Acted(before, CONFIRMED, PROMISED, Receive);
  }

  const GRANTED := ASKED.(up := [], down := [Sent(RENEWAL, ToStart(5))])

  lemma StartIsServed(s: Store)
    requires s.jobs == [CONFIRMED]
    ensures Start(s, 9, 1, 5, 0) == s.(jobs := [CONFIRMED.(status := Running)])
    ensures Served(ASKED, Reply(s, 9, ASKED.up[0], 0)) == GRANTED
  {
    assert FindJob(s.jobs, 1) == 0 && s.jobs[0 := CONFIRMED.(status := Running)] == [CONFIRMED.(status := Running)];
    assert ASKED.up[1..] == [] && ASKED.down + GRANTED.down == GRANTED.down;
  }

  lemma MayStart() returns (s: System)
    ensures Reached(s) && At(s, CONFIRMED.(status := Running), GRANTED)
  {
    var before := AsksToStart();
    StartIsServed(before.ledger.world.store);
    s := Acted(before, CONFIRMED, ASKED, Serve);
  }

  /** There is a run of the protocol in which the job is executed. */
  lemma ExecutionHappens() returns (s: System)
    ensures Reached(s) && s.log == [Execution(9, 1, 5)]
  {
    var before := MayStart();
    ReachedNext(before, Act(9, Receive));
    s := Take(before, Act(9, Receive), 0);
    assert Starts(9, GRANTED, Receive, 0) == [Execution(9, 1, 5)];
  }
}
