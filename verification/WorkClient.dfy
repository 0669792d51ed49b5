// The client's session loop as the source writes it (internal/runner/work.go), proved
// against the steps of RunnerSession: the `active` map is updated in place, and every
// error return ends the session.

module WorkClient {
  import opened Basics
  import opened RunModel
  import opened RunnerSession

  class Client {
    const capabilities: Runner
    var active: map<nat, LocalJob>
    var executing: set<(nat, nat)>
    var results: seq<Outcome>
    var online: bool
    var streamOpen: bool            // the server has not ended the session
    var up: seq<Request>
    ghost var adopted: set<nat>
    ghost var executed: set<nat>
    ghost var finished: set<nat>

    /** This client together with the server's side of its session. */
    ghost function View(server: ServerState, down: seq<Sent>): Peer
      reads this
    {
      Peer(capabilities, active, executing, results, online, server, up, if online then down else [], adopted, executed, finished)
    }

    ghost predicate Facing(server: ServerState)
      reads this
    {
      streamOpen <==> server != Closed
    }

    constructor (capabilities: Runner)
      ensures View(Closed, []) == NewPeer(capabilities) && Facing(Closed)
    {
      this.capabilities := capabilities;
      active, executing, results, online, streamOpen, up := map[], {}, [], false, false, [];
      adopted, executed, finished := {}, {}, {};
    }

    method Send(q: Request)
      modifies this`up
      ensures forall server: ServerState, down | Facing(server) :: View(server, down) == SendUp(old(View(server, down)), q)
    {
      if streamOpen { up := up + [q]; }
    }

    /** The jobs of the session loop's `for` over the map, in the order in which it visits them. */
    method ResendTransition(j: nat)
      requires j in active
      modifies this`up
      ensures forall server: ServerState, down | Facing(server) ::
        View(server, down) == SendAll(old(View(server, down)), Transition(j, active[j]))
    {
      match active[j].phase
      case AwaitingAcceptance => Send(Accepted(j, active[j].token));
      case AwaitingStart => Send(Started(j, active[j].token));
      case _ =>
    }

    method CollectLeases(order: seq<nat>) returns (leases: seq<ActiveLease>)
      requires forall x | x in order :: x in active
      ensures leases == Listed(active, order)
    {
      leases := [];
      for i := 0 to |order|
        invariant leases == Listed(active, order[..i])
      {
        assert order[..i + 1][..i] == order[..i];
        var job := active[order[i]];
        if !job.authorityLost && (job.phase == Executing || job.phase == Concluded) {
          leases := leases + [ActiveLease(order[i], job.token, "running")];
        }
      }
      assert order[..|order|] == order;
    }

    method SendHeartbeat(order: seq<nat>)
      requires forall x | x in order :: x in active
      modifies this`up
      ensures forall server: ServerState, down | Facing(server) ::
        View(server, down) == SendUp(old(View(server, down)), Beat(capabilities, Listed(active, order)))
    {
      var leases := CollectLeases(order);
      Send(Beat(capabilities, leases));
    }

    /** Opens a session on which the server already listens, resends what may have been lost, then sends a heartbeat. */
    method Connect(order: seq<nat>, listing: seq<nat>)
      requires !online && !streamOpen && (forall x | x in order :: x in active) && forall x | x in listing :: x in active
      modifies this`online, this`streamOpen, this`up
      ensures View(Receiving, []) == old(View(Closed, [])).(online := true, server := Receiving, down := [],
                up := Transitions(active, order) + [Beat(capabilities, Listed(active, listing))])
    {
      online, streamOpen, up := true, true, [];
      for i := 0 to |order|
        invariant streamOpen && online && up == Transitions(active, order[..i])
      {
        assert order[..i + 1][..i] == order[..i];
        ghost var before := View(Receiving, []);
        ResendTransition(order[i]);
        assert View(Receiving, []) == SendAll(before, Transition(order[i], active[order[i]]));
      }
      assert order[..|order|] == order;
      ghost var before := View(Receiving, []);
      SendHeartbeat(listing);
      assert View(Receiving, []) == SendUp(before, Beat(capabilities, Listed(active, listing)));
    }

    method ForgetJob(j: nat)
      modifies this`active
      ensures forall server: ServerState, down :: View(server, down) == Forget(old(View(server, down)), j)
    {
      active := active - {j};
    }

    /** The error return of a handler: the session is over and what was under way to the client is lost. */
    method EndSession()
      modifies this`online
      ensures forall server: ServerState, down :: View(server, down) == Disconnected(old(View(server, down)))
    {
      online := false;
    }

    method HandleAssignment(j: nat, token: nat, expires: Time, now: Time)
      modifies this
      ensures forall server: ServerState, down | old(Facing(server)) ::
        View(server, down) == OnAssignment(old(View(server, down)), j, token, expires, now)
      ensures streamOpen == old(streamOpen)
    {
      if expires <= now {
        EndSession();
      } else if j in active {
        if active[j].token != token { EndSession(); } else { ResendTransition(j); }
      } else if |active| >= capabilities.capacity {
        EndSession();
      } else {
        active := active[j := LocalJob(token, expires, AwaitingAcceptance, false, None)];
        adopted := adopted + {token};
        Send(Accepted(j, token));
      }
    }

    method HandleRenewal(j: nat, expires: Time, now: Time)
      modifies this
      ensures forall server: ServerState, down | old(Facing(server)) ::
        View(server, down) == OnRenewal(old(View(server, down)), j, expires, now)
      ensures streamOpen == old(streamOpen)
    {
      if j !in active {
        EndSession();
      } else if active[j].authorityLost || expires <= now {
        ForgetJob(j);
      } else {
        AdvanceJob(j, active[j].(leaseExpires := expires));
      }
    }

    method AdvanceJob(j: nat, job: LocalJob)
      modifies this
      ensures forall server: ServerState, down | old(Facing(server)) ::
        View(server, down) == Advance(old(View(server, down)), j, job)
      ensures streamOpen == old(streamOpen)
    {
      match job.phase
      case AwaitingAcceptance =>
        active := active[j := job.(phase := AwaitingStart)];
        Send(Started(j, job.token));
      case AwaitingStart =>
        active := active[j := job.(phase := Executing)];
        executing, executed := executing + {(j, job.token)}, executed + {job.token};
      case Executing => active := active[j := job];
      case Concluded =>
        active := active[j := job];
        if job.result == None { EndSession(); } else { Send(Completed(j, job.token, job.result.value)); }
    }

    method HandleResponse(response: Response, now: Time)
      modifies this
      ensures forall server: ServerState, down | old(Facing(server)) ::
        View(server, down) == OnResponse(old(View(server, down)), response, now)
    {
      match response
      case Assignment(j, token, expires) => HandleAssignment(j, token, expires, now);
      case LeaseRenewed(j, expires) => HandleRenewal(j, expires, now);
      case Cancel(j) => ForgetJob(j);
    }

    /** The `results` case of the session loop. */
    method HandleResult(outcome: Outcome, now: Time)
      modifies this
      ensures forall server: ServerState, down | old(Facing(server)) ::
        View(server, down) == OnResult(old(View(server, down)), outcome, now)
    {
      var j := outcome.job;
      if j !in active { return; }
      var job := active[j];
      if job.phase != Executing || job.authorityLost || job.leaseExpires <= now {
        if job.leaseExpires <= now || job.authorityLost { ForgetJob(j); }
        return;
      }
      active := active[j := job.(phase := Concluded, result := Some(outcome.conclusion))];
      finished := finished + {job.token};
      Send(Completed(j, job.token, outcome.conclusion));
    }
  }
}
