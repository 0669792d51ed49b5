// The two ends of a Runner work session: the client's phase machine (internal/runner/work.go)
// and the server's receive loop (internal/runnergrpc/server.go), joined by two FIFO
// channels that are lost as a whole when the client's stream breaks.

module RunnerSession {
  import opened Basics
  import opened RunModel
  import opened Scheduler
  import opened SchedulerSafety
  import opened LeaseLedger

  datatype Phase = AwaitingAcceptance | AwaitingStart | Executing | Concluded

  datatype LocalJob = LocalJob(token: nat, leaseExpires: Time, phase: Phase, authorityLost: bool, result: Option<JobStatus>)

  datatype Request =
    | Accepted(job: nat, token: nat)
    | Started(job: nat, token: nat)
    | Completed(job: nat, token: nat, conclusion: JobStatus)
    | Beat(runner: Runner, leases: seq<ActiveLease>)

  /** What the wire carries back; a renewal names the job and nothing else. */
  datatype Response =
    | Assignment(job: nat, token: nat, expires: Time)
    | LeaseRenewed(job: nat, expires: Time)
    | Cancel(job: nat)

  /** Which request a response answers: known to the proof only, never to the client. */
  datatype Answer = Unasked | ToAcceptance(token: nat) | ToStart(token: nat) | ToHeartbeat(token: nat)

  datatype Sent = Sent(response: Response, answers: Answer)

  datatype ServerState = Closed | Receiving | Claiming | Issuing(job: nat, token: nat, expires: Time)

  /** The end of one execution; the client channel carries job and conclusion, the token is for the proof. */
  datatype Outcome = Outcome(job: nat, token: nat, conclusion: JobStatus)

  /** One Runner process with its session. The last three fields are the history of its tokens. */
  datatype Peer = Peer(
    capabilities: Runner, active: map<nat, LocalJob>, executing: set<(nat, nat)>, results: seq<Outcome>,
    online: bool, server: ServerState, up: seq<Request>, down: seq<Sent>,
    adopted: set<nat>, executed: set<nat>, finished: set<nat>)

  function NewPeer(capabilities: Runner): Peer {
    Peer(capabilities, map[], {}, [], false, Closed, [], [], {}, {}, {})
  }

  // The channels.

  /** Sends of the client go nowhere once the server has ended the session. */
  function SendUp(p: Peer, q: Request): Peer {
    if p.server == Closed then p else p.(up := p.up + [q])
  }

  /** Sends of the server go nowhere once the client has left. */
  function SendDown(p: Peer, s: seq<Sent>): Peer {
    if p.online then p.(down := p.down + s) else p
  }

  /** The client's session ends: what the server had sent is lost. */
  function Disconnected(p: Peer): Peer {
    p.(online := false, down := [])
  }

  /** The server's session ends: what the client had sent is lost. */
  function ServerEnded(p: Peer): Peer {
    p.(server := Closed, up := [])
  }

  // The client.

  function Forget(p: Peer, j: nat): Peer {
    p.(active := p.active - {j})
  }

  /** The transition whose response may have been lost. */
  function Transition(j: nat, job: LocalJob): seq<Request> {
    match job.phase
    case AwaitingAcceptance => [Accepted(j, job.token)]
    case AwaitingStart => [Started(j, job.token)]
    case _ => []
  }

  /** The transitions of the active jobs, in some order of the map. */
  function Transitions(active: map<nat, LocalJob>, order: seq<nat>): seq<Request>
    requires forall x | x in order :: x in active
  {
    if order == [] then []
    else Transitions(active, order[..|order| - 1]) + Transition(order[|order| - 1], active[order[|order| - 1]])
  }

  /** The leases a heartbeat lists: only jobs that were started and whose authority is not lost. */
  function Listed(active: map<nat, LocalJob>, order: seq<nat>): seq<ActiveLease>
    requires forall x | x in order :: x in active
  {
    if order == [] then []
    else
      var j := order[|order| - 1];
      var job := active[j];
      Listed(active, order[..|order| - 1]) +
      if job.authorityLost || (job.phase != Executing && job.phase != Concluded) then [] else [ActiveLease(j, job.token, "running")]
  }

  /** An order in which a loop may visit the keys of the map. */
  predicate Enumerates(order: seq<nat>, active: map<nat, LocalJob>) {
    (forall x | x in order :: x in active) && (forall x | x in active :: x in order) &&
    forall i, k | 0 <= i < k < |order| :: order[i] != order[k]
  }

  /** `handleResponse` for an assignment. */
  function OnAssignment(p: Peer, j: nat, token: nat, expires: Time, now: Time): Peer {
    if expires <= now then Disconnected(p)
    else if j in p.active then
      if p.active[j].token != token then Disconnected(p) else SendAll(p, Transition(j, p.active[j]))
    else if |p.active| >= p.capabilities.capacity then Disconnected(p)
    else
      SendUp(p.(active := p.active[j := LocalJob(token, expires, AwaitingAcceptance, false, None)],
                adopted := p.adopted + {token}),
             Accepted(j, token))
  }

  function SendAll(p: Peer, requests: seq<Request>): Peer {
    if p.server == Closed then p else p.(up := p.up + requests)
  }

  /** `handleResponse` for a renewal: it advances the phase of the job, whatever request it answers. */
  function OnRenewal(p: Peer, j: nat, expires: Time, now: Time): Peer {
    if j !in p.active then Disconnected(p)
    else if p.active[j].authorityLost || expires <= now then Forget(p, j)
    else Advance(p, j, p.active[j].(leaseExpires := expires))
  }

  function Advance(p: Peer, j: nat, job: LocalJob): Peer {
    match job.phase
    case AwaitingAcceptance =>
      SendUp(p.(active := p.active[j := job.(phase := AwaitingStart)]), Started(j, job.token))
    case AwaitingStart =>
      p.(active := p.active[j := job.(phase := Executing)],
         executing := p.executing + {(j, job.token)}, executed := p.executed + {job.token})
    case Executing => p.(active := p.active[j := job])
    case Concluded =>
      var q := p.(active := p.active[j := job]);
      if job.result == None then Disconnected(q) else SendUp(q, Completed(j, job.token, job.result.value))
  }

  function OnResponse(p: Peer, response: Response, now: Time): Peer {
    match response
    case Assignment(j, token, expires) => OnAssignment(p, j, token, expires, now)
    case LeaseRenewed(j, expires) => OnRenewal(p, j, expires, now)
    case Cancel(j) => Forget(p, j)
  }

  /** The session loop takes the end of an execution from the results channel. */
  function OnResult(p: Peer, outcome: Outcome, now: Time): Peer {
    var j := outcome.job;
    if j !in p.active then p
    else
      var job := p.active[j];
      if job.phase != Executing || job.authorityLost || job.leaseExpires <= now then
        if job.leaseExpires <= now || job.authorityLost then Forget(p, j) else p
      else
        SendUp(p.(active := p.active[j := job.(phase := Concluded, result := Some(outcome.conclusion))],
                  finished := p.finished + {job.token}),
               Completed(j, job.token, outcome.conclusion))
  }

  // The server.

  /** The answers to a heartbeat, one for each lease it listed. */
  function Answers(results: seq<LeaseResult>, leases: seq<ActiveLease>): seq<Sent>
    requires |results| == |leases|
  {
    seq(|results|, k requires 0 <= k < |results| =>
      if results[k].Renewed? then Sent(LeaseRenewed(results[k].jobId, results[k].expires), ToHeartbeat(leases[k].token))
      else Sent(Cancel(results[k].jobId), Unasked))
  }

  /** The store operation that a request from Runner `r` causes. */
  function RequestOp(r: nat, q: Request): Op {
    match q
    case Accepted(j, t) => AcknowledgeJob(r, j, t)
    case Started(j, t) => StartJob(r, j, t)
    case Completed(j, t, conclusion) => CompleteJob(r, j, t, conclusion)
    case Beat(runner, leases) => Heartbeat(runner.(id := r), leases)
  }

  /** What the server sends back, or None when the store refuses and the session ends. */
  function Reply(s: Store, r: nat, q: Request, now: Time): Option<seq<Sent>> {
    match q
    case Accepted(j, t) =>
      var granted := AcknowledgeResult(s, r, j, t, now);
      if granted.Success? then Some([Sent(LeaseRenewed(j, granted.value), ToAcceptance(t))]) else None
    case Started(j, t) =>
      var granted := StartResult(s, r, j, t, now);
      if granted.Success? then Some([Sent(LeaseRenewed(j, granted.value), ToStart(t))]) else None
    case Completed(j, t, conclusion) =>
      if CompleteResult(s, r, j, t, conclusion, now).Success? then Some([]) else None
    case Beat(runner, leases) =>
      var renewed := RenewResult(s, runner.(id := r), leases, now);
      RenewResultsLength(s.jobs, r, leases, now);
      if renewed.Success? then Some(Answers(renewed.value, leases)) else None
  }

  /** The server after handling the first request; a heartbeat makes it hand out jobs. */
  function Served(p: Peer, reply: Option<seq<Sent>>): Peer
    requires p.up != []
  {
    if reply == None then ServerEnded(p)
    else
      SendDown(p.(up := p.up[1..], server := if p.up[0].Beat? then Claiming else Receiving), reply.value)
  }

  /** The server after asking the store for another job. */
  function Claimed(p: Peer, result: Result<Option<Job>>): Peer {
    match result
    case Failure(_) => ServerEnded(p)
    case Success(None) => p.(server := Receiving)
    case Success(Some(job)) => p.(server := Issuing(job.id, job.token, job.expires))
  }

  function Offered(p: Peer): Peer
    requires p.server.Issuing?
  {
    SendDown(p, [Sent(Assignment(p.server.job, p.server.token, p.server.expires), Unasked)]).(server := Claiming)
  }

  // Steps of one Runner and its session.

  datatype Step =
    | Connect(order: seq<nat>, listing: seq<nat>)
    | Break
    | EndSession
    | Serve
    | ClaimNext(token: nat)
    | Offer
    | Withdraw(permanent: bool)
    | Receive
    | Tick(listing: seq<nat>)
    | Expire(job: nat)
    | Drop(job: nat)
    | Conclude(execution: (nat, nat), conclusion: JobStatus, delivered: bool)
    | Report
    | Crash

  ghost predicate Possible(l: Ledger, r: nat, p: Peer, step: Step, now: Time) {
    match step
    case Connect(order, listing) => !p.online && p.server == Closed && Enumerates(order, p.active) && Enumerates(listing, p.active)
    case Break => p.online
    case EndSession => p.server != Closed
    case Serve => p.server == Receiving && p.up != []
    case ClaimNext(token) => p.server == Claiming && token != NO_TOKEN && token !in l.world.issued
    case Offer => p.server.Issuing?
    case Withdraw(_) => p.server.Issuing?
    case Receive => p.online && p.down != []
    case Tick(listing) => p.online && Enumerates(listing, p.active)
    case Expire(j) => j in p.active && !p.active[j].authorityLost && p.active[j].leaseExpires <= now
    case Drop(j) => p.online && j in p.active && p.active[j].authorityLost
    case Conclude(execution, conclusion, _) => execution in p.executing && CompletionStatus(conclusion)
    case Report => p.online && p.results != []
    case Crash => true
  }

  /** The store operation that a step performs, if any. */
  function StepOp(r: nat, p: Peer, step: Step): Option<Op> {
    match step
    case Serve => if p.up == [] then None else Some(RequestOp(r, p.up[0]))
    case ClaimNext(token) => Some(ClaimJob(r, token))
    case Withdraw(permanent) =>
      if !p.server.Issuing? then None
      else if permanent then Some(CompleteJob(r, p.server.job, p.server.token, Failed))
      else Some(ReleaseJob(r, p.server.job, p.server.token))
    case _ => None
  }

  /** The Runner and its session after the step; `l` is the ledger before it. */
  ghost function After(l: Ledger, r: nat, p: Peer, step: Step, now: Time): Peer
    requires Possible(l, r, p, step, now)
  {
    match step
    case Connect(order, listing) =>
      p.(online := true, server := Receiving, down := [],
         up := Transitions(p.active, order) + [Beat(p.capabilities, Listed(p.active, listing))])
    case Break => Disconnected(p)
    case EndSession => ServerEnded(p)
    case Serve => Served(p, Reply(l.world.store, r, p.up[0], now))
    case ClaimNext(token) => Claimed(p, ClaimResult(l.world.store, r, token, now))
    case Offer => Offered(p)
    case Withdraw(_) => ServerEnded(p)
    case Receive => OnResponse(p.(down := p.down[1..]), p.down[0].response, now)
    case Tick(listing) => SendUp(p, Beat(p.capabilities, Listed(p.active, listing)))
    case Expire(j) => p.(active := p.active[j := p.active[j].(authorityLost := true)])
    case Drop(j) => Forget(p, j)
    case Conclude(execution, conclusion, delivered) =>
      var q := p.(executing := p.executing - {execution});
      if delivered then q.(results := q.results + [Outcome(execution.0, execution.1, conclusion)]) else q
    case Report => OnResult(p.(results := p.results[1..]), p.results[0], now)
    case Crash => Disconnected(p).(active := map[], executing := {}, results := [])
  }
}
