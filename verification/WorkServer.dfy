// The server's receive loop as the source writes it (internal/runnergrpc/server.go): every
// request drives the store, and a refusal ends the session. Proved against RunnerSession.

module WorkServer {
  import opened Basics
  import opened RunModel
  import opened Scheduler
  import opened SchedulerSafety
  import opened RunnerSession
  import Memory = MemoryStore

  /** The Runners whose work sessions are open. Each call of `Work` that was let in serves one Runner until it ends. */
  class SessionTable {
    var sessions: set<nat>
    ghost var serving: map<nat, nat>   // from calls to Runners

    /** The table lists exactly the Runners that are served, and no two calls serve the same one. */
    ghost predicate Valid()
      reads this
    {
      sessions == serving.Values && forall c, d | c in serving && d in serving && c != d :: serving[c] != serving[d]
    }

    constructor ()
      ensures Valid() && serving == map[]
    {
      sessions, serving := {}, map[];
    }

    /** A call is let in exactly when no other call serves its Runner. */
    method BeginSession(runner: nat, ghost call: nat) returns (ok: bool)
      requires Valid() && call !in serving
      modifies this
      ensures Valid()
      ensures ok <==> forall c | c in old(serving) :: old(serving)[c] != runner
      ensures serving == if ok then old(serving)[call := runner] else old(serving)
    {
      if runner in sessions { return false; }
      assert forall c | c in serving :: serving[c] in serving.Values;
      sessions, serving := sessions + {runner}, serving[call := runner];
      ValuesGrow(old(serving), call, runner);
      return true;
    }

    /** Deferred by every call that was let in. */
    method EndSession(runner: nat, ghost call: nat)
      requires Valid() && call in serving && serving[call] == runner
      modifies this
      ensures Valid() && serving == old(serving) - {call}
    {
      ValuesShrink(serving, call);
      sessions, serving := sessions - {runner}, serving - {call};
    }
  }

  lemma ValuesGrow(serving: map<nat, nat>, call: nat, runner: nat)
    requires call !in serving
    ensures serving[call := runner].Values == serving.Values + {runner}
  {
    var after := serving[call := runner];
    forall v | v in serving.Values + {runner} ensures v in after.Values {
      if v == runner {
        assert after[call] == v;
      } else {
        var c :| c in serving && serving[c] == v;
        assert after[c] == v;
      }
    }
  }

  lemma ValuesShrink(serving: map<nat, nat>, call: nat)
    requires call in serving && forall c, d | c in serving && d in serving && c != d :: serving[c] != serving[d]
    ensures (serving - {call}).Values == serving.Values - {serving[call]}
  {
    var after := serving - {call};
    forall v | v in serving.Values - {serving[call]} ensures v in after.Values {
      var c :| c in serving && serving[c] == v;
      assert after[c] == v;
    }
  }

  class Session {
    const runner: nat
    const store: Memory.MemoryStore
    var state: ServerState
    var up: seq<Request>
    var down: seq<Sent>
    var online: bool                // the client is still there to receive

    /** This session as part of a peer whose client side is `p`. */
    ghost function View(p: Peer): Peer
      reads this
    {
      p.(online := online, server := state, up := up, down := down)
    }

    constructor (runner: nat, store: Memory.MemoryStore)
      ensures this.runner == runner && this.store == store && state == Receiving && up == [] && down == [] && online
    {
      this.runner, this.store := runner, store;
      state, up, down, online := Receiving, [], [], true;
    }

    method Send(s: Sent)
      modifies this`down
      ensures down == if online then old(down) + [s] else old(down)
    {
      if online { down := down + [s]; }
    }

    /** An error return of `Work`. */
    method Fail()
      modifies this`state, this`up
      ensures forall p :: View(p) == ServerEnded(old(View(p)))
    {
      state, up := Closed, [];
    }

    /** Takes the next request from the stream and handles it. */
    method ReceiveNext(now: Time)
      requires state == Receiving && up != [] && store.Valid()
      modifies this`state, this`up, this`down, store`records, store`runners, store.jobs
      ensures store.View() == Effect(old(store.View()), RequestOp(runner, old(up[0])), now)
      ensures forall p :: View(p) == Served(old(View(p)), Reply(old(store.View()), runner, old(up[0]), now))
    {
      match up[0]
      case Accepted(j, t) => ReceiveAccepted(j, t, now);
      case Started(j, t) => ReceiveStarted(j, t, now);
      case Completed(j, t, conclusion) => ReceiveCompleted(j, t, conclusion, now);
      case Beat(descriptor, leases) => ReceiveHeartbeat(descriptor, leases, now);
    }

    method ReceiveAccepted(j: nat, t: nat, now: Time)
      requires state == Receiving && up != [] && up[0] == Accepted(j, t) && store.Valid()
      modifies this`state, this`up, this`down, store.jobs
      ensures store.View() == Acknowledge(old(store.View()), runner, j, t, now)
      ensures forall p :: View(p) == Served(old(View(p)), Reply(old(store.View()), runner, Accepted(j, t), now))
    {
      var granted := store.AcknowledgeRunnerJob(runner, j, t, now);
      HandleReceipt(granted, j, ToAcceptance(t));
    }

    method ReceiveStarted(j: nat, t: nat, now: Time)
      requires state == Receiving && up != [] && up[0] == Started(j, t) && store.Valid()
      modifies this`state, this`up, this`down, store.jobs
      ensures store.View() == Start(old(store.View()), runner, j, t, now)
      ensures forall p :: View(p) == Served(old(View(p)), Reply(old(store.View()), runner, Started(j, t), now))
    {
      var granted := store.StartRunnerJob(runner, j, t, now);
      HandleReceipt(granted, j, ToStart(t));
    }

    method ReceiveCompleted(j: nat, t: nat, conclusion: JobStatus, now: Time)
      requires state == Receiving && up != [] && up[0] == Completed(j, t, conclusion) && store.Valid()
      modifies this`state, this`up, store`records, store.jobs
      ensures store.View() == Complete(old(store.View()), runner, j, t, conclusion, now)
      ensures forall p :: View(p) == Served(old(View(p)), Reply(old(store.View()), runner, Completed(j, t, conclusion), now))
    {
      var completed := store.CompleteRunnerJob(runner, j, t, conclusion, now);
      HandleCompletion(completed);
    }

    method HandleCompletion(completed: Result<()>)
      requires state == Receiving && up != [] && !up[0].Beat?
      modifies this`state, this`up
      ensures forall p :: View(p) == Served(old(View(p)), if completed.Success? then Some([]) else None)
    {
      if completed.Success? {
        up := up[1..];
        assert forall p: Peer :: SendDown(p, []) == p by { assert forall p: Peer :: p.down + [] == p.down; }
      } else {
        Fail();
      }
    }

    method ReceiveHeartbeat(descriptor: Runner, leases: seq<ActiveLease>, now: Time)
      requires state == Receiving && up != [] && up[0] == Beat(descriptor, leases) && store.Valid()
      modifies this`state, this`up, this`down, store`runners, store.jobs
      ensures store.View() == Renew(old(store.View()), descriptor.(id := runner), leases, now)
      ensures forall p :: View(p) == Served(old(View(p)), Reply(old(store.View()), runner, Beat(descriptor, leases), now))
    {
      RenewResultsLength(store.View().jobs, runner, leases, now);
      var renewed := store.RenewRunnerLeases(descriptor.(id := runner), leases, now);
      HandleRenewal(renewed, leases);
    }

    method HandleRenewal(renewed: Result<seq<LeaseResult>>, leases: seq<ActiveLease>)
      requires state == Receiving && up != [] && up[0].Beat? && (renewed.Success? ==> |renewed.value| == |leases|)
      modifies this`state, this`up, this`down
      ensures forall p :: View(p) == Served(old(View(p)), if renewed.Success? then Some(Answers(renewed.value, leases)) else None)
    {
      if renewed.Success? {
        SendAnswers(renewed.value, leases);
        up, state := up[1..], Claiming;
      } else {
        Fail();
      }
    }

    method HandleReceipt(granted: Result<Time>, j: nat, answers: Answer)
      requires state == Receiving && up != [] && !up[0].Beat?
      modifies this`state, this`up, this`down
      ensures forall p :: View(p) == Served(old(View(p)),
        if granted.Success? then Some([Sent(LeaseRenewed(j, granted.value), answers)]) else None)
    {
      if granted.Success? {
        Send(Sent(LeaseRenewed(j, granted.value), answers));
        up := up[1..];
      } else {
        Fail();
      }
    }

    /** One answer for each lease of the heartbeat. */
    method SendAnswers(results: seq<LeaseResult>, leases: seq<ActiveLease>)
      requires |results| == |leases|
      modifies this`down
      ensures down == if online then old(down) + Answers(results, leases) else old(down)
    {
      for k := 0 to |results|
        invariant down == if online then old(down) + Answers(results, leases)[..k] else old(down)
      {
        if results[k].Renewed? {
          Send(Sent(LeaseRenewed(results[k].jobId, results[k].expires), ToHeartbeat(leases[k].token)));
        } else {
          Send(Sent(Cancel(results[k].jobId), Unasked));
        }
      }
      assert Answers(results, leases)[..|results|] == Answers(results, leases);
    }

    /** One turn of the claim loop that follows a heartbeat. */
    method ClaimNextJob(token: nat, now: Time)
      requires state == Claiming && store.Valid()
      modifies this`state, this`up, store`records, store.jobs
      ensures store.View() == Claim(old(store.View()), runner, token, now)
      ensures forall p :: View(p) == Claimed(old(View(p)), ClaimResult(old(store.View()), runner, token, now))
    {
      var claimed := store.ClaimRunnerJob(runner, token, now);
      if !claimed.Success? {
        Fail();
      } else if claimed.value == None {
        state := Receiving;
      } else {
        var job := claimed.value.value;
        state := Issuing(job.id, job.token, job.expires);
      }
    }

    method SendAssignment()
      requires state.Issuing?
      modifies this`state, this`down
      ensures forall p :: View(p) == Offered(old(View(p)))
    {
      Send(Sent(Assignment(state.job, state.token, state.expires), Unasked));
      state := Claiming;
    }

    /** No credential for the source: the job fails for good, or goes back to the queue, and the session ends. */
    method WithdrawAssignment(permanent: bool, now: Time)
      requires state.Issuing? && store.Valid()
      modifies this`state, this`up, store`records, store.jobs
      ensures store.View() == if permanent
        then Complete(old(store.View()), runner, old(state.job), old(state.token), Failed, now)
        else Release(old(store.View()), runner, old(state.job), old(state.token), now)
      ensures forall p :: View(p) == ServerEnded(old(View(p)))
    {
      if permanent {
        var _ := store.CompleteRunnerJob(runner, state.job, state.token, Failed, now);
      } else {
        var _ := store.ReleaseRunnerJob(runner, state.job, state.token, now);
      }
      Fail();
    }
  }
}
