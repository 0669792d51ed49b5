// What the Runners report and what the store records, against how the executions ended: over
// every run of the protocol, with the event of each step.

module Conclusions {
  import opened Basics
  import opened RunModel
  import opened JobInvariants
  import opened Scheduler
  import opened LeaseLedger
  import opened RunnerSession
  import opened SessionInvariant
  import opened RunnerProtocol

  /** An event and its time. */
  type Timed = (Event, Time)

  /** The event at `k` leads from one state to the next. */
  ghost predicate Leads(trace: seq<System>, events: seq<Timed>, k: nat)
    requires |trace| == |events| + 1 && k < |events|
  {
    RunnerProtocol.Can(trace[k], events[k].0, events[k].1) &&
    trace[k + 1] == RunnerProtocol.Take(trace[k], events[k].0, events[k].1)
  }

  /** A run of the protocol together with the event of each of its steps. */
  ghost predicate Run(trace: seq<System>, events: seq<Timed>) {
    |trace| == |events| + 1 && RunnerProtocol.Initial(trace[0]) &&
    forall k {:trigger Leads(trace, events, k)} | 0 <= k < |events| :: Leads(trace, events, k)
  }

  lemma RunIsBehaviour(trace: seq<System>, events: seq<Timed>)
    requires Run(trace, events)
    ensures RunnerProtocol.Behaviour(trace)
  {
    forall i, j | 0 <= i < |trace| && j == i + 1 && j < |trace| ensures RunnerProtocol.Next(trace[i], trace[j]) {
      assert Leads(trace, events, i);
    }
  }

  lemma LeadsInPrefix(trace: seq<System>, events: seq<Timed>, state: System, event: Timed, k: nat)
    requires |trace| == |events| + 1 && k < |events| && Leads(trace, events, k)
    ensures Leads(trace + [state], events + [event], k)
  {
  }

  /** Every behaviour is such a run, with some events. */
  lemma {:induction false} BehaviourIsRun(trace: seq<System>) returns (events: seq<Timed>)
    requires RunnerProtocol.Behaviour(trace)
    ensures Run(trace, events)
  {
    var n := |trace| - 1;
    if n == 0 {
      events := [];
    } else {
      var init := trace[..n];
      forall i, j | 0 <= i < |init| && j == i + 1 && j < |init| ensures RunnerProtocol.Next(init[i], init[j]) {
        assert RunnerProtocol.Next(trace[i], trace[j]);
      }
      var before := BehaviourIsRun(init);
      assert RunnerProtocol.Next(trace[n - 1], trace[n]);
      var event, now :| RunnerProtocol.Can(trace[n - 1], event, now) && trace[n] == RunnerProtocol.Take(trace[n - 1], event, now);
      events := before + [(event, now)];
      assert trace == init + [trace[n]];
      forall k | 0 <= k < |events| ensures Leads(trace, events, k) {
        if k < n - 1 { LeadsInPrefix(init, before, trace[n], (event, now), k); }
      }
    }
  }

  /** The execution of a job under a token ended with this conclusion. */
  datatype Ending = Ending(runner: nat, job: nat, token: nat, conclusion: JobStatus)

  function EndingOf(event: Event): set<Ending> {
    match event
    case Act(r, Conclude(execution, conclusion, _)) => {Ending(r, execution.0, execution.1, conclusion)}
    case _ => {}
  }

  /** The executions that ended in the first `n` steps. */
  function Endings(events: seq<Timed>, n: nat): set<Ending>
    requires n <= |events|
  {
    if n == 0 then {} else Endings(events, n - 1) + EndingOf(events[n - 1].0)
  }

  lemma {:induction false} EndingIsEvent(events: seq<Timed>, n: nat, x: Ending) returns (k: nat)
    requires n <= |events| && x in Endings(events, n)
    ensures k < n && events[k].0.Act? && events[k].0.runner == x.runner && events[k].0.step.Conclude? &&
            events[k].0.step.execution == (x.job, x.token) && events[k].0.step.conclusion == x.conclusion
  {
    if x in EndingOf(events[n - 1].0) { k := n - 1; } else { k := EndingIsEvent(events, n - 1, x); }
  }

  // What a Runner knows of its executions.

  predicate Witnessed(r: nat, h: set<Ending>, job: nat, token: nat, conclusion: JobStatus) {
    Ending(r, job, token, conclusion) in h
  }

  /** Everything a Runner stores or sends about an ended execution is how it ended. */
  predicate Truthful(r: nat, p: Peer, h: set<Ending>) {
    (forall o | o in p.results :: Witnessed(r, h, o.job, o.token, o.conclusion)) &&
    (forall j | j in p.active && p.active[j].result.Some? :: Witnessed(r, h, j, p.active[j].token, p.active[j].result.value)) &&
    (forall q | q in p.up && q.Completed? :: Witnessed(r, h, q.job, q.token, q.conclusion)) &&
    (forall t | t in p.finished :: exists x :: x in h && x.runner == r && x.token == t)
  }

  /** An execution that ended was started, is over, and ended once. */
  predicate EndedOnce(r: nat, p: Peer, h: set<Ending>) {
    (forall x | x in h && x.runner == r :: x.token in p.executed && forall e | e in p.executing :: e.1 != x.token) &&
    forall x, y | x in h && y in h && x.runner == r && y.runner == r && x.token == y.token :: x == y
  }

  // Requests and results, step by step.

  predicate SameReports(p: Peer, p': Peer) {
    (forall o | o in p'.results :: o in p.results) && (forall q | q in p'.up && q.Completed? :: q in p.up) &&
    p'.finished <= p.finished &&
    forall j | j in p'.active && p'.active[j].result.Some? ::
      j in p.active && p.active[j].token == p'.active[j].token && p.active[j].result == p'.active[j].result
  }

  lemma SameReportsTruthful(r: nat, p: Peer, p': Peer, h: set<Ending>)
    requires Truthful(r, p, h) && SameReports(p, p')
    ensures Truthful(r, p', h)
  {
    forall t | t in p'.finished ensures exists x :: x in h && x.runner == r && x.token == t { assert t in p.finished; }
  }

  lemma {:induction false} TransitionsReportNothing(active: map<nat, LocalJob>, order: seq<nat>)
    requires forall x | x in order :: x in active
    ensures forall q | q in Transitions(active, order) :: !q.Completed?
  {
    if order != [] { TransitionsReportNothing(active, order[..|order| - 1]); }
  }

  lemma AssignmentTruthful(r: nat, p: Peer, h: set<Ending>, j: nat, token: nat, expires: Time, now: Time)
    requires Truthful(r, p, h)
    ensures Truthful(r, OnAssignment(p, j, token, expires, now), h)
  {
    SameReportsTruthful(r, p, OnAssignment(p, j, token, expires, now), h);
  }

  /** A renewal makes a Runner repeat what it has stored. */
  lemma RenewalTruthful(r: nat, p: Peer, h: set<Ending>, j: nat, expires: Time, now: Time)
    requires Truthful(r, p, h)
    ensures Truthful(r, OnRenewal(p, j, expires, now), h)
  {
    var p' := OnRenewal(p, j, expires, now);
    forall q | q in p'.up && q.Completed? ensures Witnessed(r, h, q.job, q.token, q.conclusion) {
      assert q in p.up || (j in p.active && p.active[j].result.Some? && q == Completed(j, p.active[j].token, p.active[j].result.value));
    }
    forall t | t in p'.finished ensures exists x :: x in h && x.runner == r && x.token == t { assert t in p.finished; }
  }

  lemma ResponseTruthful(r: nat, p: Peer, h: set<Ending>, response: Response, now: Time)
    requires Truthful(r, p, h)
    ensures Truthful(r, OnResponse(p, response, now), h)
  {
    match response
    case Assignment(j, token, expires) => AssignmentTruthful(r, p, h, j, token, expires, now);
    case LeaseRenewed(j, expires) => RenewalTruthful(r, p, h, j, expires, now);
    case Cancel(j) => SameReportsTruthful(r, p, Forget(p, j), h);
  }

  /** Taking a result for an executing job: it is the result of this very execution. */
  lemma ResultTruthful(r: nat, p: Peer, h: set<Ending>, o: Outcome, now: Time)
    requires Truthful(r, p, h) && Witnessed(r, h, o.job, o.token, o.conclusion)
    requires o.job in p.active && p.active[o.job].phase == Executing ==> p.active[o.job].token == o.token
    ensures Truthful(r, OnResult(p, o, now), h)
  {
    var p' := OnResult(p, o, now);
    forall t | t in p'.finished ensures exists x :: x in h && x.runner == r && x.token == t {
      if t !in p.finished { assert Ending(r, o.job, o.token, o.conclusion).token == t; }
    }
  }

  lemma TruthfulGrows(r: nat, p: Peer, h: set<Ending>, h': set<Ending>)
    requires Truthful(r, p, h) && h <= h'
    ensures Truthful(r, p, h')
  {
    forall t | t in p.finished ensures exists x :: x in h' && x.runner == r && x.token == t {
      var x :| x in h && x.runner == r && x.token == t;
      assert x in h';
    }
  }

  lemma ConcludeTruthful(r: nat, p: Peer, h: set<Ending>, e: (nat, nat), conclusion: JobStatus, delivered: bool)
    requires Truthful(r, p, h)
    ensures var q := p.(executing := p.executing - {e});
            Truthful(r, if delivered then q.(results := q.results + [Outcome(e.0, e.1, conclusion)]) else q, h + {Ending(r, e.0, e.1, conclusion)})
  {
    TruthfulGrows(r, p, h, h + {Ending(r, e.0, e.1, conclusion)});
  }

  lemma ReportTruthful(l: Ledger, r: nat, p: Peer, h: set<Ending>, now: Time)
    requires PeerOk(l, r, p) && p.results != [] && Truthful(r, p, h)
    ensures Truthful(r, OnResult(p.(results := p.results[1..]), p.results[0], now), h)
  {
    var o, q := p.results[0], p.(results := p.results[1..]);
    SameReportsTruthful(r, p, q, h);
    assert Witnessed(r, h, o.job, o.token, o.conclusion);
    if o.job in p.active && p.active[o.job].phase == Executing { OutcomeIsOwn(l, r, p, o); }
    ResultTruthful(r, q, h, o, now);
  }

  /** The steps that store and send nothing new about the end of an execution. */
  lemma QuietTruthful(l: Ledger, r: nat, p: Peer, step: Step, now: Time, h: set<Ending>)
    requires RunnerSession.Possible(l, r, p, step, now) && Truthful(r, p, h)
    requires !step.Receive? && !step.Report? && !step.Conclude?
    ensures Truthful(r, RunnerSession.After(l, r, p, step, now), h)
  {
    if step.Connect? { TransitionsReportNothing(p.active, step.order); }
    SameReportsTruthful(r, p, RunnerSession.After(l, r, p, step, now), h);
  }

  lemma ActorTruthful(l: Ledger, r: nat, p: Peer, step: Step, now: Time, h: set<Ending>)
    requires PeerOk(l, r, p) && RunnerSession.Possible(l, r, p, step, now) && Truthful(r, p, h)
    ensures Truthful(r, RunnerSession.After(l, r, p, step, now), h + EndingOf(Act(r, step)))
  {
    match step
    case Receive =>
      SameReportsTruthful(r, p, p.(down := p.down[1..]), h);
      ResponseTruthful(r, p.(down := p.down[1..]), h, p.down[0].response, now);
      assert h + EndingOf(Act(r, step)) == h;
    case Report =>
      ReportTruthful(l, r, p, h, now);
      assert h + EndingOf(Act(r, step)) == h;
    case Conclude(execution, conclusion, delivered) => ConcludeTruthful(r, p, h, execution, conclusion, delivered);
    case _ =>
      QuietTruthful(l, r, p, step, now, h);
      assert h + EndingOf(Act(r, step)) == h;
  }

  lemma ConcludeEndsOnce(l: Ledger, r: nat, p: Peer, h: set<Ending>, e: (nat, nat), conclusion: JobStatus)
    requires ExecutionsOk(l, p) && EndedOnce(r, p, h) && e in p.executing
    ensures EndedOnce(r, p.(executing := p.executing - {e}), h + {Ending(r, e.0, e.1, conclusion)})
  {
    forall e' | e' in p.executing - {e} ensures e'.1 != e.1 { assert Mine(l, p, e.0, e.1) && Mine(l, p, e'.0, e'.1); }
  }

  /** A step other than a conclusion starts executions only under tokens that never executed. */
  lemma StartsAreNew(l: Ledger, r: nat, p: Peer, step: Step, now: Time)
    requires PeerOk(l, r, p) && RunnerSession.Possible(l, r, p, step, now) && !step.Conclude?
    ensures var p' := RunnerSession.After(l, r, p, step, now);
            p.executed <= p'.executed && forall e | e in p'.executing :: e in p.executing || e.1 !in p.executed
  {
    StepLogs(l, r, p, step, now);
    if step.Receive? { ReceiveStartsNew(l, r, p, now); }
  }

  lemma ReceiveStartsNew(l: Ledger, r: nat, p: Peer, now: Time)
    requires PeerOk(l, r, p) && p.down != []
    ensures forall e | e in OnResponse(p.(down := p.down[1..]), p.down[0].response, now).executing :: e in p.executing || e.1 !in p.executed
  {
    var response := p.down[0].response;
    if response.LeaseRenewed? && response.job in p.active { assert EntryOk(l, p, response.job, p.active[response.job]); }
  }

  lemma ActorEndsOnce(l: Ledger, r: nat, p: Peer, step: Step, now: Time, h: set<Ending>)
    requires PeerOk(l, r, p) && RunnerSession.Possible(l, r, p, step, now) && EndedOnce(r, p, h)
    ensures EndedOnce(r, RunnerSession.After(l, r, p, step, now), h + EndingOf(Act(r, step)))
  {
    if step.Conclude? {
      ConcludeEndsOnce(l, r, p, h, step.execution, step.conclusion);
    } else {
      StartsAreNew(l, r, p, step, now);
      assert h + EndingOf(Act(r, step)) == h;
    }
  }

  // Over whole runs.

  ghost predicate PeersTruthful(peers: map<nat, Peer>, h: set<Ending>) {
    (forall r {:trigger peers[r]} | r in peers :: Truthful(r, peers[r], h) && EndedOnce(r, peers[r], h)) &&
    forall x | x in h :: x.runner in peers
  }

  lemma OthersEndOnce(r: nat, p: Peer, h: set<Ending>, event: Event)
    requires EndedOnce(r, p, h) && Truthful(r, p, h) && (event.Act? ==> event.runner != r)
    ensures EndedOnce(r, p, h + EndingOf(event)) && Truthful(r, p, h + EndingOf(event))
  {
    TruthfulGrows(r, p, h, h + EndingOf(event));
  }

  lemma StepTruthful(s: System, event: Event, now: Time, h: set<Ending>)
    requires PeersOk(s.ledger, s.peers) && RunnerProtocol.Can(s, event, now) && PeersTruthful(s.peers, h)
    ensures PeersTruthful(RunnerProtocol.Take(s, event, now).peers, h + EndingOf(event))
  {
    var s', h' := RunnerProtocol.Take(s, event, now), h + EndingOf(event);
    forall r | r in s'.peers ensures Truthful(r, s'.peers[r], h') && EndedOnce(r, s'.peers[r], h') {
      assert Truthful(r, s.peers[r], h) && EndedOnce(r, s.peers[r], h);
      if event.Act? && event.runner == r {
        ActorTruthful(s.ledger, r, s.peers[r], event.step, now, h);
        ActorEndsOnce(s.ledger, r, s.peers[r], event.step, now, h);
      } else {
        OthersEndOnce(r, s.peers[r], h, event);
      }
    }
  }

  lemma RunIsOk(trace: seq<System>, events: seq<Timed>, n: nat)
    requires Run(trace, events) && n < |trace|
    ensures SystemOk(trace[n])
  {
    RunIsBehaviour(trace, events);
    BehaviourKeepsSystemOk(trace, n);
  }

  lemma StepOfRunTruthful(trace: seq<System>, events: seq<Timed>, k: nat, h: set<Ending>)
    requires Run(trace, events) && k < |events| && PeersTruthful(trace[k].peers, h)
    ensures PeersTruthful(trace[k + 1].peers, h + EndingOf(events[k].0))
  {
    RunIsOk(trace, events, k);
    assert Leads(trace, events, k);
    StepTruthful(trace[k], events[k].0, events[k].1, h);
  }

  lemma InitialTruthful(s: System)
    requires RunnerProtocol.Initial(s)
    ensures PeersTruthful(s.peers, {})
  {
    forall r | r in s.peers ensures Truthful(r, s.peers[r], {}) && EndedOnce(r, s.peers[r], {}) {
      assert s.peers[r] == NewPeer(s.peers[r].capabilities);
    }
  }

  lemma {:induction false} AlwaysTruthful(trace: seq<System>, events: seq<Timed>, n: nat)
    requires Run(trace, events) && n < |trace|
    ensures PeersTruthful(trace[n].peers, Endings(events, n))
  {
    if n == 0 {
      InitialTruthful(trace[0]);
    } else {
      AlwaysTruthful(trace, events, n - 1);
      StepOfRunTruthful(trace, events, n - 1, Endings(events, n - 1));
    }
  }
}
