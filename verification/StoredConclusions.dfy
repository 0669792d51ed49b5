// The status that the store records for a job that ended, against how its execution ended.

module StoredConclusions {
  import opened Basics
  import opened RunModel
  import opened JobInvariants
  import opened Scheduler
  import opened SchedulerSafety
  import opened LeaseLedger
  import opened RunnerSession
  import opened SessionInvariant
  import opened RunnerProtocol
  import opened Conclusions

  function StatusOf(l: Ledger, j: nat): JobStatus
    requires LeaseLedger.Known(l, j)
  {
    l.Jobs()[FindJob(l.Jobs(), j)].status
  }

  // What a store operation does to the status of one job.

  /** A completion that changes anything is recorded. */
  lemma CompletionIsNoted(l: Ledger, op: Op, now: Time)
    requires op.CompleteJob? && Effect(l.world.store, op, now) != l.world.store
    ensures CompletedUnder(Perform(l, op, now), op.jobId, op.token)
  {
  }

  /** Only completing a job makes it succeeded or canceled, and then under its own lease. */
  lemma EndsByCompletion(l: Ledger, op: Op, now: Time, i: nat)
    requires Enabled(l.world, op) && i < |l.Jobs()| && i < |Perform(l, op, now).Jobs()|
    requires var status := Perform(l, op, now).Jobs()[i].status;
             (status == Succeeded || status == Canceled) && status != l.Jobs()[i].status
    ensures op.CompleteJob? && op.jobId == l.Jobs()[i].id && op.status == Perform(l, op, now).Jobs()[i].status
    ensures CompletedUnder(Perform(l, op, now), l.Jobs()[i].id, op.token)
  {
    OpChanges(l, op, now, i);
    CompletionIsNoted(l, op, now);
  }

  lemma CompletionSets(s: Store, r: nat, j: nat, t: nat, status: JobStatus, now: Time)
    requires DistinctIds(s.jobs) && CompleteResult(s, r, j, t, status, now).Success?
    ensures var after := Complete(s, r, j, t, status, now).jobs;
            var i := FindJob(s.jobs, j);
            i < |s.jobs| && FindJob(after, j) == i && |after| == |s.jobs| && after[i].status == status
  {
    var i := FindJob(s.jobs, j);
    var after := Complete(s, r, j, t, status, now).jobs;
    assert after == CompleteJobs(s.jobs, i, status);
    CompletedJob(s.jobs, i, status, i);
    forall k | 0 <= k < i ensures after[k].id != j { CompletedJob(s.jobs, i, status, k); }
  }

  /** A completion under this token happens now, or had happened before. */
  lemma CompletedNow(l: Ledger, op: Op, now: Time, j: nat, t: nat)
    requires LedgerOk(l) && Enabled(l.world, op) && CompletedUnder(Perform(l, op, now), j, t) && !CompletedUnder(l, j, t)
    ensures op.CompleteJob? && op.jobId == j && op.token == t
    ensures CompleteResult(l.world.store, op.runnerId, j, t, op.status, now).Success?
    ensures LeaseLedger.Known(Perform(l, op, now), j) && StatusOf(Perform(l, op, now), j) == op.status
  {
    CompletionSets(l.world.store, op.runnerId, j, t, op.status, now);
  }

  lemma OpKeepsId(l: Ledger, op: Op, now: Time, i: nat)
    requires Enabled(l.world, op) && i < |l.Jobs()| && i < |Perform(l, op, now).Jobs()|
    ensures Perform(l, op, now).Jobs()[i].id == l.Jobs()[i].id
  {
    OpChanges(l, op, now, i);
  }

  lemma FoundStays(l: Ledger, op: Op, now: Time, j: nat)
    requires Enabled(l.world, op) && LeaseLedger.Known(l, j)
    ensures FindJob(Perform(l, op, now).Jobs(), j) == FindJob(l.Jobs(), j) < |Perform(l, op, now).Jobs()|
  {
    var i := FindJob(l.Jobs(), j);
    OpChanges(l, op, now, i);
    forall k | 0 <= k <= i ensures Perform(l, op, now).Jobs()[k].id == l.Jobs()[k].id {
      OpChanges(l, op, now, k);
    }
  }

  lemma EndedJobStays(l: Ledger, op: Op, now: Time, i: nat)
    requires Enabled(l.world, op) && i < |l.Jobs()| && JobTerminal(l.Jobs()[i].status)
    ensures i < |Perform(l, op, now).Jobs()| && Perform(l, op, now).Jobs()[i] == l.Jobs()[i]
  {
    EveryStepIsJobStep(l.world, op, now, i);
  }

  /** A job that was completed keeps its status. */
  lemma CompletedStatusStays(l: Ledger, op: Op, now: Time, j: nat, t: nat)
    requires LedgerOk(l) && Enabled(l.world, op) && CompletedUnder(l, j, t)
    ensures LeaseLedger.Known(l, j) && LeaseLedger.Known(Perform(l, op, now), j)
    ensures StatusOf(Perform(l, op, now), j) == StatusOf(l, j)
  {
    assert JobLedgerOk(l, l.Jobs()[FindJob(l.Jobs(), j)]);
    FoundStays(l, op, now, j);
    EndedJobStays(l, op, now, FindJob(l.Jobs(), j));
  }

  // The invariant.

  /** Some execution of the job ended with this conclusion, and the job was completed under its token. */
  ghost predicate EndedAs(l: Ledger, h: set<Ending>, j: nat, status: JobStatus) {
    exists x :: x in h && x.job == j && x.conclusion == status && CompletedUnder(l, j, x.token)
  }

  ghost predicate SuccessesBacked(l: Ledger, h: set<Ending>) {
    forall i {:trigger l.Jobs()[i]} | 0 <= i < |l.Jobs()| && (l.Jobs()[i].status == Succeeded || l.Jobs()[i].status == Canceled) ::
      EndedAs(l, h, l.Jobs()[i].id, l.Jobs()[i].status)
  }

  /** A job completed under the token of an execution has the status with which that execution ended. */
  ghost predicate CompletionsTrue(l: Ledger, h: set<Ending>) {
    forall x | x in h && CompletedUnder(l, x.job, x.token) ::
      LeaseLedger.Known(l, x.job) && StatusOf(l, x.job) == x.conclusion
  }

  lemma EndedAsStays(l: Ledger, l': Ledger, h: set<Ending>, h': set<Ending>, j: nat, status: JobStatus)
    requires EndedAs(l, h, j, status) && HistoryExtends(l.history, l'.history) && h <= h'
    ensures EndedAs(l', h', j, status)
  {
    var x :| x in h && x.job == j && x.conclusion == status && CompletedUnder(l, j, x.token);
    assert x in h';
  }

  /** Whoever adopted a token is its owner. */
  lemma AdoptedIsOwned(s: System, r: nat, t: nat)
    requires PeersOk(s.ledger, s.peers) && r in s.peers && t in s.peers[r].adopted
    ensures t in s.ledger.history.owner && s.ledger.history.owner[t].runner == r
  {
    assert PeerOk(s.ledger, r, s.peers[r]);
    assert TokenOk(s.ledger, r, s.peers[r], t);
  }

  lemma EndingIsAdopted(s: System, h: set<Ending>, x: Ending)
    requires PeersOk(s.ledger, s.peers) && PeersTruthful(s.peers, h) && x in h
    ensures x.runner in s.peers && x.token in s.peers[x.runner].adopted
    ensures x.token in s.ledger.history.owner && s.ledger.history.owner[x.token].runner == x.runner
  {
    var p := s.peers[x.runner];
    assert EndedOnce(x.runner, p, h) && PeerOk(s.ledger, x.runner, p);
    AdoptedIsOwned(s, x.runner, x.token);
  }

  /** A completion request of a Runner reports the one ending there is under its token. */
  lemma RequestReports(s: System, h: set<Ending>, r: nat, q: Request, x: Ending)
    requires PeersOk(s.ledger, s.peers) && PeersTruthful(s.peers, h) && r in s.peers && q in s.peers[r].up && q.Completed?
    requires x in h && x.token == q.token
    ensures x == Ending(r, q.job, q.token, q.conclusion)
  {
    var p := s.peers[r];
    assert Truthful(r, p, h) && EndedOnce(r, p, h);
    EndingIsAdopted(s, h, x);
    EndingIsAdopted(s, h, Ending(r, q.job, q.token, q.conclusion));
  }

  /** What a server took back before it was sent was never executed. */
  lemma WithdrawnNeverEnded(s: System, h: set<Ending>, r: nat, x: Ending)
    requires PeersOk(s.ledger, s.peers) && PeersTruthful(s.peers, h) && r in s.peers && s.peers[r].server.Issuing?
    requires x in h
    ensures x.token != s.peers[r].server.token
  {
    var p := s.peers[r];
    EndingIsAdopted(s, h, x);
    assert PeerOk(s.ledger, r, p);
    var offer := Sent(Assignment(p.server.job, p.server.token, p.server.expires), Unasked);
    assert Wire(p)[|p.down|] == offer;
    assert MessageOk(s.ledger, r, p, offer);
  }

  /** The completion that an event performs reports an ending, or takes an assignment back as failed. */
  lemma CompletionOfEvent(s: System, event: Event, now: Time, h: set<Ending>, op: Op)
    requires PeersOk(s.ledger, s.peers) && PeersTruthful(s.peers, h) && RunnerProtocol.Can(s, event, now)
    requires op.CompleteJob? && event.Act? && StepOp(event.runner, s.peers[event.runner], event.step) == Some(op)
    ensures (op.status == Failed && forall x | x in h :: x.token != op.token) ||
            (Ending(event.runner, op.jobId, op.token, op.status) in h && forall x | x in h && x.token == op.token ::
              x == Ending(event.runner, op.jobId, op.token, op.status))
  {
    var r := event.runner;
    var p := s.peers[r];
    if event.step.Serve? {
      var q := p.up[0];
      assert Truthful(r, p, h);
      forall x | x in h && x.token == op.token ensures x == Ending(r, op.jobId, op.token, op.status) { RequestReports(s, h, r, q, x); }
    } else {
      forall x | x in h ensures x.token != op.token { WithdrawnNeverEnded(s, h, r, x); }
    }
  }

  lemma SuccessBacked(s: System, event: Event, now: Time, h: set<Ending>, op: Op, i: nat)
    requires LedgerOk(s.ledger) && PeersOk(s.ledger, s.peers) && PeersTruthful(s.peers, h) && RunnerProtocol.Can(s, event, now)
    requires event.Act? && StepOp(event.runner, s.peers[event.runner], event.step) == Some(op) && Enabled(s.ledger.world, op)
    requires i < |s.ledger.Jobs()| && i < |Perform(s.ledger, op, now).Jobs()|
    requires var status := Perform(s.ledger, op, now).Jobs()[i].status;
             (status == Succeeded || status == Canceled) && status != s.ledger.Jobs()[i].status
    ensures EndedAs(Perform(s.ledger, op, now), h, s.ledger.Jobs()[i].id, Perform(s.ledger, op, now).Jobs()[i].status)
  {
    EndsByCompletion(s.ledger, op, now, i);
    CompletionOfEvent(s, event, now, h, op);
    assert Ending(event.runner, op.jobId, op.token, op.status) in h;
  }

  /** The store operation of an event. */
  function EventOp(s: System, event: Event): Option<Op>
    requires event.Act? ==> event.runner in s.peers
  {
    match event
    case Environment(op) => Some(op)
    case Act(r, step) => StepOp(r, s.peers[r], step)
  }

  /** Only Runners complete jobs. */
  lemma EventOps(s: System, event: Event, now: Time)
    requires RunnerProtocol.Can(s, event, now)
    ensures event.Act? ==> event.runner in s.peers
    ensures EventOp(s, event).Some? ==> Enabled(s.ledger.world, EventOp(s, event).value)
    ensures EventOp(s, event).Some? && EventOp(s, event).value.CompleteJob? ==> event.Act?
    ensures RunnerProtocol.Take(s, event, now).ledger == LedgerAfter(s.ledger, EventOp(s, event), now)
    ensures EndingOf(event) != {} ==> EventOp(s, event) == None
  {
  }

  lemma TickedKeeps(l: Ledger, h: set<Ending>, now: Time)
    requires SuccessesBacked(l, h)
    ensures SuccessesBacked(Ticked(l, now), h) && (CompletionsTrue(l, h) ==> CompletionsTrue(Ticked(l, now), h))
  {
    var l' := Ticked(l, now);
    assert l'.Jobs() == l.Jobs();
    forall i | 0 <= i < |l'.Jobs()| && (l'.Jobs()[i].status == Succeeded || l'.Jobs()[i].status == Canceled)
      ensures EndedAs(l', h, l'.Jobs()[i].id, l'.Jobs()[i].status)
    {
      EndedAsStays(l, l', h, h, l.Jobs()[i].id, l.Jobs()[i].status);
    }
  }

  /** An operation that leaves the status of a job alone leaves it backed. */
  lemma SameStatusStaysBacked(l: Ledger, op: Op, now: Time, h: set<Ending>, i: nat)
    requires Enabled(l.world, op) && HistoryExtends(l.history, Perform(l, op, now).history) && SuccessesBacked(l, h)
    requires i < |l.Jobs()| && i < |Perform(l, op, now).Jobs()| && Perform(l, op, now).Jobs()[i].status == l.Jobs()[i].status
    requires l.Jobs()[i].status == Succeeded || l.Jobs()[i].status == Canceled
    ensures EndedAs(Perform(l, op, now), h, l.Jobs()[i].id, l.Jobs()[i].status)
  {
    EndedAsStays(l, Perform(l, op, now), h, h, l.Jobs()[i].id, l.Jobs()[i].status);
  }

  lemma JobStaysBacked(s: System, event: Event, now: Time, h: set<Ending>, op: Op, i: nat)
    requires LedgerOk(s.ledger) && PeersOk(s.ledger, s.peers) && PeersTruthful(s.peers, h) && RunnerProtocol.Can(s, event, now)
    requires event.Act? ==> event.runner in s.peers
    requires EventOp(s, event) == Some(op) && Enabled(s.ledger.world, op) && (op.CompleteJob? ==> event.Act?)
    requires SuccessesBacked(s.ledger, h) && HistoryExtends(s.ledger.history, Perform(s.ledger, op, now).history)
    requires i < |s.ledger.Jobs()| && i < |Perform(s.ledger, op, now).Jobs()|
    requires var status := Perform(s.ledger, op, now).Jobs()[i].status; status == Succeeded || status == Canceled
    ensures EndedAs(Perform(s.ledger, op, now), h, s.ledger.Jobs()[i].id, Perform(s.ledger, op, now).Jobs()[i].status)
  {
    if s.ledger.Jobs()[i].status == Perform(s.ledger, op, now).Jobs()[i].status {
      SameStatusStaysBacked(s.ledger, op, now, h, i);
    } else {
      EndsByCompletion(s.ledger, op, now, i);
      SuccessBacked(s, event, now, h, op, i);
    }
  }

  lemma NewJobsWait(l: Ledger, op: Op, now: Time, i: nat)
    requires Enabled(l.world, op) && |l.Jobs()| <= i < |Perform(l, op, now).Jobs()|
    ensures Perform(l, op, now).Jobs()[i].status == Queued || Perform(l, op, now).Jobs()[i].status == Blocked
  {
    if !op.CreateRun? { EffectKeepsShapes(l.world.store, op, now); }
  }

  lemma JobIsBacked(s: System, event: Event, now: Time, h: set<Ending>, op: Op, i: nat)
    requires LedgerOk(s.ledger) && PeersOk(s.ledger, s.peers) && PeersTruthful(s.peers, h) && RunnerProtocol.Can(s, event, now)
    requires event.Act? ==> event.runner in s.peers
    requires EventOp(s, event) == Some(op) && Enabled(s.ledger.world, op) && (op.CompleteJob? ==> event.Act?)
    requires SuccessesBacked(s.ledger, h) && HistoryExtends(s.ledger.history, Perform(s.ledger, op, now).history)
    requires i < |Perform(s.ledger, op, now).Jobs()|
    requires var status := Perform(s.ledger, op, now).Jobs()[i].status; status == Succeeded || status == Canceled
    ensures var j' := Perform(s.ledger, op, now).Jobs()[i]; EndedAs(Perform(s.ledger, op, now), h, j'.id, j'.status)
  {
    if i < |s.ledger.Jobs()| {
      OpKeepsId(s.ledger, op, now, i);
      JobStaysBacked(s, event, now, h, op, i);
    } else {
      NewJobsWait(s.ledger, op, now, i);
    }
  }

  lemma OpKeepsBacked(s: System, event: Event, now: Time, h: set<Ending>, op: Op)
    requires LedgerOk(s.ledger) && PeersOk(s.ledger, s.peers) && PeersTruthful(s.peers, h) && RunnerProtocol.Can(s, event, now)
    requires event.Act? ==> event.runner in s.peers
    requires EventOp(s, event) == Some(op) && Enabled(s.ledger.world, op) && (op.CompleteJob? ==> event.Act?)
    requires SuccessesBacked(s.ledger, h) && HistoryExtends(s.ledger.history, Perform(s.ledger, op, now).history)
    ensures SuccessesBacked(Perform(s.ledger, op, now), h)
  {
    var l' := Perform(s.ledger, op, now);
    forall i | 0 <= i < |l'.Jobs()| && (l'.Jobs()[i].status == Succeeded || l'.Jobs()[i].status == Canceled)
      ensures EndedAs(l', h, l'.Jobs()[i].id, l'.Jobs()[i].status)
    {
      JobIsBacked(s, event, now, h, op, i);
    }
  }

  lemma OpKeepsTrue(s: System, event: Event, now: Time, h: set<Ending>, op: Op, x: Ending)
    requires LedgerOk(s.ledger) && PeersOk(s.ledger, s.peers) && PeersTruthful(s.peers, h) && RunnerProtocol.Can(s, event, now)
    requires event.Act? ==> event.runner in s.peers
    requires EventOp(s, event) == Some(op) && Enabled(s.ledger.world, op) && (op.CompleteJob? ==> event.Act?)
    requires CompletionsTrue(s.ledger, h) && x in h && CompletedUnder(Perform(s.ledger, op, now), x.job, x.token)
    ensures LeaseLedger.Known(Perform(s.ledger, op, now), x.job) && StatusOf(Perform(s.ledger, op, now), x.job) == x.conclusion
  {
    if CompletedUnder(s.ledger, x.job, x.token) {
      CompletedStatusStays(s.ledger, op, now, x.job, x.token);
    } else {
      CompletedNow(s.ledger, op, now, x.job, x.token);
      CompletionOfEvent(s, event, now, h, op);
    }
  }

  /** An execution that has just ended has not been completed yet. */
  lemma FreshEndingIsOpen(s: System, h: set<Ending>, r: nat, e: (nat, nat))
    requires PeersOk(s.ledger, s.peers) && PeersTruthful(s.peers, h) && r in s.peers && e in s.peers[r].executing
    ensures !CompletedUnder(s.ledger, e.0, e.1)
  {
    var p := s.peers[r];
    assert PeerOk(s.ledger, r, p) && Truthful(r, p, h) && EndedOnce(r, p, h);
    assert Mine(s.ledger, p, e.0, e.1) && TokenOk(s.ledger, r, p, e.1);
  }

  ghost predicate StoreTruthful(l: Ledger, h: set<Ending>) {
    SuccessesBacked(l, h) && CompletionsTrue(l, h)
  }

  lemma EventKeepsStore(s: System, event: Event, now: Time, h: set<Ending>)
    requires SystemOk(s) && PeersTruthful(s.peers, h) && StoreTruthful(s.ledger, h) && RunnerProtocol.Can(s, event, now)
    ensures StoreTruthful(RunnerProtocol.Take(s, event, now).ledger, h + EndingOf(event))
  {
    EventOps(s, event, now);
    var op := EventOp(s, event);
    LedgerStep(s.ledger, op, now);
    if op.Some? {
      OpKeepsBacked(s, event, now, h, op.value);
      forall x | x in h && CompletedUnder(Perform(s.ledger, op.value, now), x.job, x.token)
        ensures LeaseLedger.Known(Perform(s.ledger, op.value, now), x.job) &&
                StatusOf(Perform(s.ledger, op.value, now), x.job) == x.conclusion
      {
        OpKeepsTrue(s, event, now, h, op.value, x);
      }
      assert h + EndingOf(event) == h;
    } else {
      QuietKeepsStore(s, event, now, h);
    }
  }

  lemma QuietKeepsStore(s: System, event: Event, now: Time, h: set<Ending>)
    requires PeersOk(s.ledger, s.peers) && PeersTruthful(s.peers, h) && StoreTruthful(s.ledger, h) && RunnerProtocol.Can(s, event, now)
    ensures StoreTruthful(Ticked(s.ledger, now), h + EndingOf(event))
  {
    var l', h' := Ticked(s.ledger, now), h + EndingOf(event);
    TickedKeeps(s.ledger, h, now);
    forall i | 0 <= i < |l'.Jobs()| && (l'.Jobs()[i].status == Succeeded || l'.Jobs()[i].status == Canceled)
      ensures EndedAs(l', h', l'.Jobs()[i].id, l'.Jobs()[i].status)
    {
      EndedAsStays(l', l', h, h', l'.Jobs()[i].id, l'.Jobs()[i].status);
    }
    forall x | x in h' && CompletedUnder(l', x.job, x.token)
      ensures LeaseLedger.Known(l', x.job) && StatusOf(l', x.job) == x.conclusion
    {
      if x !in h { FreshEndingIsOpen(s, h, event.runner, event.step.execution); }
    }
  }

  lemma StepOfRunKeepsStore(trace: seq<System>, events: seq<Timed>, k: nat)
    requires Run(trace, events) && k < |events| && StoreTruthful(trace[k].ledger, Endings(events, k))
    ensures StoreTruthful(trace[k + 1].ledger, Endings(events, k + 1))
  {
    RunIsOk(trace, events, k);
    AlwaysTruthful(trace, events, k);
    assert Leads(trace, events, k);
    EventKeepsStore(trace[k], events[k].0, events[k].1, Endings(events, k));
  }

  lemma {:induction false} StoreAlwaysTruthful(trace: seq<System>, events: seq<Timed>, n: nat)
    requires Run(trace, events) && n < |trace|
    ensures StoreTruthful(trace[n].ledger, Endings(events, n))
  {
    if n > 0 {
      StoreAlwaysTruthful(trace, events, n - 1);
      StepOfRunKeepsStore(trace, events, n - 1);
    }
  }

  // What follows, on the events themselves.

  /** The first `n` steps contain the end of the execution of the job under the token by this Runner, with this conclusion. */
  ghost predicate Concluded(events: seq<Timed>, n: nat, r: nat, job: nat, token: nat, conclusion: JobStatus) {
    exists k: nat, delivered :: k < n && k < |events| && events[k].0 == Act(r, Conclude((job, token), conclusion, delivered))
  }

  lemma EndingIsConcluded(events: seq<Timed>, n: nat, x: Ending)
    requires n <= |events| && x in Endings(events, n)
    ensures Concluded(events, n, x.runner, x.job, x.token, x.conclusion)
  {
    var k := EndingIsEvent(events, n, x);
    assert events[k].0 == Act(x.runner, Conclude((x.job, x.token), x.conclusion, events[k].0.step.delivered));
  }

  lemma {:induction false} ConcludedIsEnding(events: seq<Timed>, n: nat, k: nat)
    requires k < n <= |events| && events[k].0.Act? && events[k].0.step.Conclude?
    ensures Ending(events[k].0.runner, events[k].0.step.execution.0, events[k].0.step.execution.1, events[k].0.step.conclusion) in Endings(events, n)
  {
    if k < n - 1 { ConcludedIsEnding(events, n - 1, k); }
  }

  /** Whatever a Runner has stored or sent as the conclusion of a job is how its own execution of it ended. */
  lemma ReportsAreTrue(trace: seq<System>, events: seq<Timed>, n: nat, r: nat)
    requires Run(trace, events) && n < |trace| && r in trace[n].peers
    ensures var p := trace[n].peers[r];
            (forall q | q in p.up && q.Completed? :: Concluded(events, n, r, q.job, q.token, q.conclusion)) &&
            forall j | j in p.active && p.active[j].result.Some? ::
              Concluded(events, n, r, j, p.active[j].token, p.active[j].result.value)
  {
    AlwaysTruthful(trace, events, n);
    var p, h := trace[n].peers[r], Endings(events, n);
    assert Truthful(r, p, h);
    forall q | q in p.up && q.Completed? ensures Concluded(events, n, r, q.job, q.token, q.conclusion) {
      EndingIsConcluded(events, n, Ending(r, q.job, q.token, q.conclusion));
    }
    forall j | j in p.active && p.active[j].result.Some? ensures Concluded(events, n, r, j, p.active[j].token, p.active[j].result.value) {
      EndingIsConcluded(events, n, Ending(r, j, p.active[j].token, p.active[j].result.value));
    }
  }

  /** An execution ends at most once. */
  lemma ConcludedOnce(trace: seq<System>, events: seq<Timed>, i: nat, k: nat)
    requires Run(trace, events) && i < k < |events| && events[i].0.Act? && events[k].0.Act?
    requires events[i].0.step.Conclude? && events[k].0.step.Conclude? && events[i].0.runner == events[k].0.runner
    ensures events[i].0.step.execution.1 != events[k].0.step.execution.1
  {
    AlwaysTruthful(trace, events, k);
    ConcludedIsEnding(events, k, i);
    assert Leads(trace, events, k);
    assert EndedOnce(events[k].0.runner, trace[k].peers[events[k].0.runner], Endings(events, k));
  }

  /** A job that the store records as succeeded or canceled was executed, and its execution ended so. */
  lemma StoredSuccessIsTrue(trace: seq<System>, events: seq<Timed>, n: nat, i: nat)
    requires Run(trace, events) && n < |trace| && i < |trace[n].ledger.Jobs()|
    requires trace[n].ledger.Jobs()[i].status == Succeeded || trace[n].ledger.Jobs()[i].status == Canceled
    ensures var j := trace[n].ledger.Jobs()[i]; exists r, t :: Concluded(events, n, r, j.id, t, j.status)
  {
    StoreAlwaysTruthful(trace, events, n);
    var l, h := trace[n].ledger, Endings(events, n);
    assert EndedAs(l, h, l.Jobs()[i].id, l.Jobs()[i].status);
    var x :| x in h && x.job == l.Jobs()[i].id && x.conclusion == l.Jobs()[i].status && CompletedUnder(l, l.Jobs()[i].id, x.token);
    EndingIsConcluded(events, n, x);
  }

  /** If an execution ended and the store accepted a completion under its token, the job has the status with which it ended. */
  lemma AcceptedConclusionIsStored(trace: seq<System>, events: seq<Timed>, n: nat, k: nat)
    requires Run(trace, events) && k < n < |trace| && events[k].0.Act? && events[k].0.step.Conclude?
    requires CompletedUnder(trace[n].ledger, events[k].0.step.execution.0, events[k].0.step.execution.1)
    ensures LeaseLedger.Known(trace[n].ledger, events[k].0.step.execution.0)
    ensures StatusOf(trace[n].ledger, events[k].0.step.execution.0) == events[k].0.step.conclusion
  {
    StoreAlwaysTruthful(trace, events, n);
    ConcludedIsEnding(events, n, k);
  }
}
