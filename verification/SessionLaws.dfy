// What the two ends of a session do in answer to each other, written out message by message:
// which leases a heartbeat lists, what a reconnect repeats, what a renewal or a cancellation
// makes of a job, and what becomes of an assignment that could not be sent.

module SessionLaws {
  import opened Basics
  import opened RunModel
  import opened JobInvariants
  import opened Scheduler
  import opened SchedulerSafety
  import opened LeaseLedger
  import opened StoreLaws
  import opened RunnerSession
  import opened RunnerProtocol

  // Heartbeats.

  /** The heartbeat must name this lease: its job was started and its authority is not lost. */
  predicate MustList(active: map<nat, LocalJob>, a: ActiveLease) {
    a.jobId in active && a.token == active[a.jobId].token && a.state == "running" && !active[a.jobId].authorityLost &&
    (active[a.jobId].phase == Executing || active[a.jobId].phase == Concluded)
  }

  lemma {:induction false} ListedIs(active: map<nat, LocalJob>, order: seq<nat>, a: ActiveLease)
    requires forall x | x in order :: x in active
    ensures a in RunnerSession.Listed(active, order) <==> a.jobId in order && MustList(active, a)
  {
    if order != [] {
      var n := |order| - 1;
      ListedIs(active, order[..n], a);
      assert a.jobId in order <==> a.jobId in order[..n] || a.jobId == order[n];
    }
  }

  /** While a session is open, every tick sends one heartbeat that lists exactly the started jobs under their tokens. */
  lemma HeartbeatLists(l: Ledger, r: nat, p: Peer, listing: seq<nat>, now: Time)
    requires RunnerSession.Possible(l, r, p, Tick(listing), now) && p.server != Closed
    ensures var p' := RunnerSession.After(l, r, p, Tick(listing), now);
            |p'.up| == |p.up| + 1 && p'.up[..|p.up|] == p.up && p'.up[|p.up|].Beat? && p'.up[|p.up|].runner == p.capabilities &&
            forall a :: a in p'.up[|p.up|].leases <==> MustList(p.active, a)
  {
    forall a ensures a in RunnerSession.Listed(p.active, listing) <==> MustList(p.active, a) { ListedIs(p.active, listing, a); }
  }

  // Reconnecting.

  /** The request that asks for what the job awaits. */
  predicate Asks(active: map<nat, LocalJob>, j: nat, q: Request) {
    j in active &&
    ((active[j].phase == AwaitingAcceptance && q == Accepted(j, active[j].token)) ||
     (active[j].phase == AwaitingStart && q == Started(j, active[j].token)))
  }

  predicate Awaited(active: map<nat, LocalJob>, q: Request) {
    exists j | j in active :: Asks(active, j, q)
  }

  predicate AskedIn(active: map<nat, LocalJob>, order: seq<nat>, q: Request) {
    exists j | j in order :: Asks(active, j, q)
  }

  lemma AskedSplits(active: map<nat, LocalJob>, order: seq<nat>, last: nat, q: Request)
    ensures AskedIn(active, order + [last], q) <==> AskedIn(active, order, q) || Asks(active, last, q)
  {
    if AskedIn(active, order, q) {
      var j :| j in order && Asks(active, j, q);
      assert j in order + [last];
    }
    assert last in order + [last];
  }

  lemma TransitionAsks(active: map<nat, LocalJob>, j: nat, q: Request)
    requires j in active
    ensures q in Transition(j, active[j]) <==> Asks(active, j, q)
  {
  }

  lemma {:induction false} TransitionsAre(active: map<nat, LocalJob>, order: seq<nat>, q: Request)
    requires forall x | x in order :: x in active
    ensures q in Transitions(active, order) <==> AskedIn(active, order, q)
  {
    if order != [] {
      var init, last := order[..|order| - 1], order[|order| - 1];
      TransitionsAre(active, init, q);
      TransitionAsks(active, last, q);
      AskedSplits(active, init, last, q);
      assert order == init + [last];
    }
  }

  /** A new session repeats the request that each job awaits an answer to, and then sends a heartbeat; nothing else. */
  lemma ReconnectRepeats(l: Ledger, r: nat, p: Peer, order: seq<nat>, listing: seq<nat>, now: Time)
    requires RunnerSession.Possible(l, r, p, Connect(order, listing), now)
    ensures var up := RunnerSession.After(l, r, p, Connect(order, listing), now).up;
            up != [] && up[|up| - 1].Beat? &&
            (forall a :: a in up[|up| - 1].leases <==> MustList(p.active, a)) &&
            forall q {:trigger Awaited(p.active, q)} :: q in up[..|up| - 1] <==> Awaited(p.active, q)
  {
    var up := RunnerSession.After(l, r, p, Connect(order, listing), now).up;
    assert up[..|up| - 1] == Transitions(p.active, order);
    forall a ensures a in RunnerSession.Listed(p.active, listing) <==> MustList(p.active, a) { ListedIs(p.active, listing, a); }
    forall q {:trigger Awaited(p.active, q)} ensures q in up[..|up| - 1] <==> Awaited(p.active, q) {
      TransitionsAre(p.active, order, q);
    }
  }

  // Answers.

  /** A renewal that comes in time prolongs the local lease, and the Runner asks to start, starts or reports again; a late one ends the job. */
  lemma RenewalLaw(l: Ledger, r: nat, p: Peer, now: Time)
    requires RunnerSession.Possible(l, r, p, Receive, now) && p.server != Closed
    requires p.down[0].response.LeaseRenewed? && p.down[0].response.job in p.active
    ensures var p', j, expires := RunnerSession.After(l, r, p, Receive, now), p.down[0].response.job, p.down[0].response.expires;
            var job := p.active[j];
            if job.authorityLost || expires <= now then j !in p'.active && p'.up == p.up && p'.executing == p.executing
            else
              j in p'.active && p'.active[j].leaseExpires == expires && p'.active[j].token == job.token && !p'.active[j].authorityLost &&
              p'.up == p.up +
                (match job.phase
                 case AwaitingAcceptance => [Started(j, job.token)]
                 case Concluded => if job.result.Some? then [Completed(j, job.token, job.result.value)] else []
                 case _ => []) &&
              p'.executing == p.executing + (if job.phase == AwaitingStart then {(j, job.token)} else {}) &&
              (p'.active[j].phase == Executing <==> job.phase == AwaitingStart || job.phase == Executing)
  {
  }

  /** A cancellation makes the Runner forget the job, and only that one. */
  lemma CancelLaw(l: Ledger, r: nat, p: Peer, now: Time)
    requires RunnerSession.Possible(l, r, p, Receive, now) && p.down[0].response.Cancel?
    ensures var p' := RunnerSession.After(l, r, p, Receive, now);
            p'.active == p.active - {p.down[0].response.job} && p'.up == p.up && p'.online == p.online
  {
  }

  /** A new assignment is adopted, and accepted at once, only while its lease is alive and the Runner has room; otherwise the session ends. */
  lemma AssignmentLaw(l: Ledger, r: nat, p: Peer, now: Time)
    requires RunnerSession.Possible(l, r, p, Receive, now) && p.server != Closed
    requires p.down[0].response.Assignment? && p.down[0].response.job !in p.active
    ensures var p', a := RunnerSession.After(l, r, p, Receive, now), p.down[0].response;
            if now < a.expires && |p.active| < p.capabilities.capacity
            then p'.active == p.active[a.job := LocalJob(a.token, a.expires, AwaitingAcceptance, false, None)] &&
                 p'.up == p.up + [Accepted(a.job, a.token)] && p'.online
            else p'.active == p.active && p'.up == p.up && !p'.online
  {
  }

  /** The end of an execution is reported once, at once, and only under a lease that is alive and whose authority is not lost. */
  lemma ReportLaw(l: Ledger, r: nat, p: Peer, now: Time)
    requires RunnerSession.Possible(l, r, p, Report, now) && p.server != Closed
    ensures var p', o := RunnerSession.After(l, r, p, Report, now), p.results[0];
            if o.job in p.active && p.active[o.job].phase == Executing && !p.active[o.job].authorityLost && now < p.active[o.job].leaseExpires
            then p'.up == p.up + [Completed(o.job, p.active[o.job].token, o.conclusion)] && o.job in p'.active &&
                 p'.active[o.job].phase == Concluded && p'.active[o.job].result == Some(o.conclusion)
            else p'.up == p.up && forall j | j in p'.active :: j in p.active && p'.active[j] == p.active[j]
  {
  }

  /** An execution that ends is over, and its end waits to be reported unless it was interrupted; nothing else changes. */
  lemma EndingLaw(l: Ledger, r: nat, p: Peer, execution: (nat, nat), conclusion: JobStatus, delivered: bool, now: Time)
    requires RunnerSession.Possible(l, r, p, Conclude(execution, conclusion, delivered), now)
    ensures var p' := RunnerSession.After(l, r, p, Conclude(execution, conclusion, delivered), now);
            p'.executing == p.executing - {execution} && p'.active == p.active && p'.up == p.up && p'.online == p.online &&
            p'.results == if delivered then p.results + [Outcome(execution.0, execution.1, conclusion)] else p.results
  {
  }

  /** When its lease runs out a job loses its authority, and is then forgotten; other jobs are not touched. */
  lemma ExpiryLaw(l: Ledger, r: nat, p: Peer, j: nat, now: Time)
    ensures RunnerSession.Possible(l, r, p, Expire(j), now) ==>
              var p' := RunnerSession.After(l, r, p, Expire(j), now);
              p.active[j].leaseExpires <= now && p'.up == p.up && p'.active == p.active[j := p.active[j].(authorityLost := true)]
    ensures RunnerSession.Possible(l, r, p, Drop(j), now) ==>
              var p' := RunnerSession.After(l, r, p, Drop(j), now);
              p.active[j].authorityLost && p'.up == p.up && p'.active == p.active - {j}
  {
  }

  /** A Runner never has more jobs than it has room for. */
  predicate HasRoom(p: Peer) {
    p.active == map[] || |p.active| <= p.capabilities.capacity
  }

  lemma NoMoreJobs(p: Peer, p': Peer)
    requires HasRoom(p) && p'.active.Keys <= p.active.Keys && p'.capabilities == p.capabilities
    ensures HasRoom(p')
  {
    assert p.active.Keys == p'.active.Keys + (p.active.Keys - p'.active.Keys);
    assert |p.active.Keys| == |p'.active.Keys| + |p.active.Keys - p'.active.Keys|;
    assert |p.active| == |p.active.Keys| && |p'.active| == |p'.active.Keys|;
    assert p.active == map[] ==> p'.active == map[];
  }

  lemma AdoptionKeepsRoom(p: Peer, j: nat, token: nat, expires: Time, now: Time)
    requires HasRoom(p)
    ensures HasRoom(OnAssignment(p, j, token, expires, now)) && OnAssignment(p, j, token, expires, now).capabilities == p.capabilities
  {
    var p' := OnAssignment(p, j, token, expires, now);
    if p'.active != p.active {
      assert p'.active.Keys == p.active.Keys + {j};
      assert |p'.active| == |p'.active.Keys| && |p.active| == |p.active.Keys|;
    }
  }

  lemma ResponseKeepsRoom(p: Peer, response: Response, now: Time)
    requires HasRoom(p)
    ensures HasRoom(OnResponse(p, response, now)) && OnResponse(p, response, now).capabilities == p.capabilities
  {
    match response
    case Assignment(j, token, expires) => AdoptionKeepsRoom(p, j, token, expires, now);
    case _ => NoMoreJobs(p, OnResponse(p, response, now));
  }

  lemma StepKeepsRoom(l: Ledger, r: nat, p: Peer, step: Step, now: Time)
    requires RunnerSession.Possible(l, r, p, step, now) && HasRoom(p)
    ensures HasRoom(RunnerSession.After(l, r, p, step, now))
    ensures RunnerSession.After(l, r, p, step, now).capabilities == p.capabilities
  {
    if step.Receive? {
      ResponseKeepsRoom(p.(down := p.down[1..]), p.down[0].response, now);
    } else {
      NothingElseAdopts(l, r, p, step, now);
      NoMoreJobs(p, RunnerSession.After(l, r, p, step, now));
    }
  }

  lemma NothingElseAdopts(l: Ledger, r: nat, p: Peer, step: Step, now: Time)
    requires RunnerSession.Possible(l, r, p, step, now) && !step.Receive?
    ensures var p' := RunnerSession.After(l, r, p, step, now);
            p'.active.Keys <= p.active.Keys && p'.capabilities == p.capabilities
  {
  }

  lemma NextKeepsRoom(s: System, s': System)
    requires RunnerProtocol.Next(s, s') && forall r | r in s.peers :: HasRoom(s.peers[r])
    ensures forall r | r in s'.peers :: HasRoom(s'.peers[r])
  {
    var event, now :| RunnerProtocol.Can(s, event, now) && s' == RunnerProtocol.Take(s, event, now);
    if event.Act? { StepKeepsRoom(s.ledger, event.runner, s.peers[event.runner], event.step, now); }
  }

  /** In every reachable state a Runner has no more jobs at hand than its capacity. */
  lemma {:induction false} RunnersHaveRoom(trace: seq<System>, n: nat, r: nat)
    requires RunnerProtocol.Behaviour(trace) && n < |trace| && r in trace[n].peers
    ensures trace[n].peers[r].active != map[] ==> |trace[n].peers[r].active| <= trace[n].peers[r].capabilities.capacity
  {
    AllHaveRoom(trace, n);
    assert HasRoom(trace[n].peers[r]);
  }

  lemma {:induction false} AllHaveRoom(trace: seq<System>, n: nat)
    requires RunnerProtocol.Behaviour(trace) && n < |trace|
    ensures forall r | r in trace[n].peers :: HasRoom(trace[n].peers[r])
  {
    if n > 0 {
      AllHaveRoom(trace, n - 1);
      assert RunnerProtocol.Next(trace[n - 1], trace[n]);
      NextKeepsRoom(trace[n - 1], trace[n]);
    }
  }

  // The server.

  /** Every lease of a valid heartbeat is answered in order: by its new deadline if it is current and alive, else by a cancellation. */
  lemma HeartbeatIsAnswered(l: Ledger, r: nat, p: Peer, now: Time, x: nat)
    requires DistinctIds(l.Jobs()) && RunnerSession.Possible(l, r, p, Serve, now) && p.up[0].Beat? && p.online
    requires ValidHeartbeat(p.up[0].runner.(id := r), p.up[0].leases) && x < |p.up[0].leases|
    ensures var p', leases := RunnerSession.After(l, r, p, Serve, now), p.up[0].leases;
            p'.server == Claiming && p'.up == p.up[1..] && |p'.down| == |p.down| + |leases| && p'.down[..|p.down|] == p.down &&
            p'.down[|p.down| + x].response ==
              if exists i :: 0 <= i < |l.Jobs()| && NamesLease(l.Jobs(), i, r, leases[x].jobId, leases[x].token, now)
              then LeaseRenewed(leases[x].jobId, now + 30_000_000_000) else Cancel(leases[x].jobId)
  {
    RenewAnswers(l.Jobs(), r, p.up[0].leases, now, x);
  }

  /** An acceptance or a start of a live lease is answered by its deadline; otherwise the session ends and what the client had sent is lost. */
  lemma RequestIsAnswered(l: Ledger, r: nat, p: Peer, now: Time, i: nat)
    requires DistinctIds(l.Jobs()) && RunnerSession.Possible(l, r, p, Serve, now) && p.online && (p.up[0].Accepted? || p.up[0].Started?)
    requires r != NIL && p.up[0].job != NIL && p.up[0].token != NO_TOKEN && i < |l.Jobs()| && l.Jobs()[i].id == p.up[0].job
    ensures var p', q := RunnerSession.After(l, r, p, Serve, now), p.up[0];
            if NamesLease(l.Jobs(), i, r, q.job, q.token, now) && (q.Started? ==> l.Jobs()[i].acceptedAt.Some?)
            then p'.server == Receiving && p'.up == p.up[1..] && |p'.down| == |p.down| + 1 && p'.down[..|p.down|] == p.down &&
                 p'.down[|p.down|].response == LeaseRenewed(q.job, l.Jobs()[i].expires)
            else p'.server == Closed && p'.up == [] && p'.down == p.down
  {
    AcknowledgeLaw(l.world.store, r, p.up[0].job, p.up[0].token, now, i);
    StartLaw(l.world.store, r, p.up[0].job, p.up[0].token, now, i);
  }

  /** A completion is not answered; one that the store refuses ends the session. */
  lemma CompletionIsServed(l: Ledger, r: nat, p: Peer, now: Time, i: nat)
    requires DistinctIds(l.Jobs()) && RunnerSession.Possible(l, r, p, Serve, now) && p.up[0].Completed?
    requires r != NIL && p.up[0].job != NIL && p.up[0].token != NO_TOKEN && i < |l.Jobs()| && l.Jobs()[i].id == p.up[0].job
    ensures var p', q := RunnerSession.After(l, r, p, Serve, now), p.up[0];
            p'.down == p.down &&
            if NamesLease(l.Jobs(), i, r, q.job, q.token, now) && (q.conclusion == Succeeded || q.conclusion == Failed || q.conclusion == Canceled)
            then p'.server == Receiving && p'.up == p.up[1..] else p'.server == Closed && p'.up == []
  {
    CompleteLaw(l.world.store, r, p.up[0].job, p.up[0].token, p.up[0].conclusion, now, i);
  }

  /** After a heartbeat the server issues jobs while the Runner has room and a job fits it, under a new token for thirty seconds. */
  lemma FittingJobIsIssued(l: Ledger, r: nat, p: Peer, t: nat, now: Time, i: nat)
    requires RunnerSession.Possible(l, r, p, ClaimNext(t), now) && r != NIL && r in l.world.store.runners
    requires |LiveLeases(l.Jobs(), r, now)| < l.world.store.runners[r].capacity && i < |l.Jobs()| && l.Jobs()[i].status == Queued
    requires var q, runner := l.Jobs()[i].requirements, l.world.store.runners[r];
             runner.poolType == "standard" && q.os == runner.os && q.executor == runner.executor &&
             (q.architecture == "" || q.architecture == runner.architecture) && q.diskBytes <= runner.availableDiskBytes &&
             forall key | key in q.labels :: (if key in runner.labels then runner.labels[key] else "") == q.labels[key]
    ensures var p' := RunnerSession.After(l, r, p, ClaimNext(t), now);
            p'.server.Issuing? && p'.server.token == t && p'.server.expires == now + 30_000_000_000 && p'.down == p.down &&
            exists k :: 0 <= k <= i && l.Jobs()[k].status == Queued && p'.server.job == l.Jobs()[k].id
  {
    FittingJobIsClaimed(l.world.store, r, t, now, i);
    ClaimedJobFits(l.world.store, r, t, now);
  }

  /** When nothing is handed out the server goes on receiving, and a Runner that is not registered loses its session. */
  lemma NothingIsIssued(l: Ledger, r: nat, p: Peer, t: nat, now: Time)
    requires RunnerSession.Possible(l, r, p, ClaimNext(t), now)
    ensures var p' := RunnerSession.After(l, r, p, ClaimNext(t), now);
            (r == NIL || r !in l.world.store.runners ==> p'.server == Closed && p'.up == []) &&
            (r != NIL && r in l.world.store.runners && |LiveLeases(l.Jobs(), r, now)| >= l.world.store.runners[r].capacity ==>
              p' == p.(server := Receiving))
  {
    CountIsLiveLeases(l.Jobs(), r, now);
  }

  /** What was issued is sent as it is, and the server tries to hand out another job. */
  lemma IssuedIsSent(l: Ledger, r: nat, p: Peer, now: Time)
    requires RunnerSession.Possible(l, r, p, Offer, now) && p.online
    ensures var p' := RunnerSession.After(l, r, p, Offer, now);
            p'.server == Claiming && p'.up == p.up && |p'.down| == |p.down| + 1 && p'.down[..|p.down|] == p.down &&
            p'.down[|p.down|].response == Assignment(p.server.job, p.server.token, p.server.expires)
  {
  }

  /** An assignment that could not be sent: without hope of a credential the job fails, otherwise it goes back to the queue. */
  lemma WithdrawLaw(l: Ledger, r: nat, p: Peer, permanent: bool, now: Time, i: nat)
    requires DistinctIds(l.Jobs()) && RunnerSession.Possible(l, r, p, Withdraw(permanent), now) && r != NIL && p.server.job != NIL
    requires p.server.token != NO_TOKEN && NamesLease(l.Jobs(), i, r, p.server.job, p.server.token, now)
    requires l.Jobs()[i].status == Assigned && l.Jobs()[i].acceptedAt == None
    ensures var op := StepOp(r, p, Withdraw(permanent)).value;
            var jobs := Effect(l.world.store, op, now).jobs;
            |jobs| == |l.Jobs()| && jobs[i].token == NO_TOKEN && jobs[i].status == if permanent then Failed else Queued
  {
    if permanent {
      CompleteLaw(l.world.store, r, p.server.job, p.server.token, Failed, now, i);
    } else {
      ReleaseLaw(l.world.store, r, p.server.job, p.server.token, now, i);
    }
  }
}
