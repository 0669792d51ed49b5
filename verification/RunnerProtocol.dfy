// Any number of Runners, one server and one store under a shared clock: sessions may break
// at any moment, transitions are resent, leases expire and are recovered. Executions start
// at most once per job, and at most one Runner has authority over a job at any time.

module RunnerProtocol {
  import opened Basics
  import opened RunModel
  import opened JobInvariants
  import opened Scheduler
  import opened LeaseLedger
  import opened RunnerSession
  import opened SessionInvariant
  import opened SessionSteps
  import opened ClientSteps
  import opened ServerSteps

  /** One call of `executor.Execute`. */
  datatype Execution = Execution(runner: nat, job: nat, token: nat)

  datatype System = System(ledger: Ledger, peers: map<nat, Peer>, log: seq<Execution>)

  datatype Event = Environment(op: Op) | Act(runner: nat, step: Step)

  ghost predicate Initial(s: System) {
    s.ledger == EMPTY_LEDGER && s.log == [] && forall r | r in s.peers :: r != NIL && s.peers[r] == NewPeer(s.peers[r].capabilities)
  }

  /** Time passes and nothing else happens to the store. */
  function Ticked(l: Ledger, now: Time): Ledger {
    l.(world := l.world.(now := now))
  }

  /** Runs are created and expired leases recovered at any time; Runners and their sessions step independently. */
  ghost predicate Can(s: System, event: Event, now: Time) {
    s.ledger.Now() <= now &&
    match event
    case Environment(op) => (op.CreateRun? || op.RecoverLeases?) && Enabled(s.ledger.world, op)
    case Act(r, step) => r in s.peers && Possible(s.ledger, r, s.peers[r], step, now)
  }

  ghost function LedgerAfter(l: Ledger, op: Option<Op>, now: Time): Ledger
    requires op.Some? ==> Enabled(l.world, op.value)
  {
    if op.Some? then Perform(l, op.value, now) else Ticked(l, now)
  }

  /** The execution that a step starts: the client takes a renewal for a job that awaits its start. */
  function Starts(r: nat, p: Peer, step: Step, now: Time): seq<Execution> {
    if step.Receive? && p.down != [] && p.down[0].response.LeaseRenewed? && p.down[0].response.job in p.active then
      var j := p.down[0].response.job;
      var job := p.active[j];
      if !job.authorityLost && now < p.down[0].response.expires && job.phase == AwaitingStart
      then [Execution(r, j, job.token)] else []
    else []
  }

  ghost function Take(s: System, event: Event, now: Time): System
    requires Can(s, event, now)
  {
    match event
    case Environment(op) => s.(ledger := Perform(s.ledger, op, now))
    case Act(r, step) =>
      var p := s.peers[r];
      System(LedgerAfter(s.ledger, StepOp(r, p, step), now), s.peers[r := After(s.ledger, r, p, step, now)],
             s.log + Starts(r, p, step, now))
  }

  ghost predicate Next(s: System, s': System) {
    exists event, now :: Can(s, event, now) && s' == Take(s, event, now)
  }

  ghost predicate Behaviour(trace: seq<System>) {
    trace != [] && Initial(trace[0]) &&
    forall i, j {:trigger Next(trace[i], trace[j])} | 0 <= i < |trace| && j == i + 1 && j < |trace| :: Next(trace[i], trace[j])
  }

  // The invariant of the system.

  ghost predicate PeersOk(l: Ledger, peers: map<nat, Peer>) {
    forall r {:trigger peers[r]} | r in peers :: PeerOk(l, r, peers[r])
  }

  predicate LoggedOk(l: Ledger, peers: map<nat, Peer>, e: Execution) {
    e.runner in peers && e.token in peers[e.runner].executed && Mine(l, peers[e.runner], e.job, e.token) &&
    l.history.owner[e.token] == Owner(e.runner, e.job)
  }

  predicate LogOk(l: Ledger, peers: map<nat, Peer>, log: seq<Execution>) {
    (forall e {:trigger LoggedOk(l, peers, e)} | e in log :: LoggedOk(l, peers, e)) &&
    forall i, k | 0 <= i < k < |log| :: log[i].token != log[k].token
  }

  ghost predicate SystemOk(s: System) {
    Scheduler.Inv(s.ledger.world) && LedgerOk(s.ledger) && PeersOk(s.ledger, s.peers) && LogOk(s.ledger, s.peers, s.log)
  }

  lemma TickKeepsLedger(l: Ledger, now: Time)
    requires LedgerOk(l) && l.Now() <= now
    ensures LedgerOk(Ticked(l, now)) && Evolves(l, Ticked(l, now))
  {
    var l' := Ticked(l, now);
    assert l'.Jobs() == l.Jobs();
    forall i | 0 <= i < |l'.Jobs()| ensures JobLedgerOk(l', l'.Jobs()[i]) { assert JobLedgerOk(l, l.Jobs()[i]); }
    forall t | t in l'.history.owner ensures Known(l', l'.history.owner[t].job) { assert Known(l, l.history.owner[t].job); }
    forall j | j in l'.history.started ensures Known(l', j) { assert Known(l, j); }
    forall j | j in l'.history.completed ensures Known(l', j) { assert Known(l, j); }
  }

  lemma LedgerStep(l: Ledger, op: Option<Op>, now: Time)
    requires Scheduler.Inv(l.world) && LedgerOk(l) && l.Now() <= now && (op.Some? ==> Enabled(l.world, op.value))
    ensures var l' := LedgerAfter(l, op, now); Scheduler.Inv(l'.world) && LedgerOk(l') && Evolves(l, l') && l'.Now() == now
  {
    if op.Some? { PerformKeepsLedgerOk(l, op.value, now); } else { TickKeepsLedger(l, now); }
  }

  // The Runner that acts.

  lemma TickKeepsPeer(l: Ledger, r: nat, p: Peer, now: Time)
    requires LedgerOk(l) && l.Now() <= now && PeerOk(l, r, p)
    ensures PeerOk(Ticked(l, now), r, p)
  {
    TickKeepsLedger(l, now);
    Unaffected(l, Ticked(l, now), RecoverLeases(0), now, r, p);
    PeerEvolves(l, Ticked(l, now), r, p);
  }

  lemma QuietStepKeeps(l: Ledger, r: nat, p: Peer, step: Step, now: Time)
    requires LedgerOk(l) && l.Now() <= now && PeerOk(l, r, p) && Possible(l, r, p, step, now) && StepOp(r, p, step) == None
    ensures PeerOk(Ticked(l, now), r, After(l, r, p, step, now))
  {
    var l' := Ticked(l, now);
    TickKeepsPeer(l, r, p, now);
    match step
    case Connect(order, listing) => ConnectKeeps(l', r, p, order, listing);
    case Break => BreakKeeps(l', r, p);
    case EndSession => EndKeeps(l', r, p);
    case Offer => OfferKeeps(l', r, p);
    case Receive => ReceiveKeeps(l', r, p);
    case Tick(listing) => TickKeeps(l', r, p, listing);
    case Expire(j) => ExpireKeeps(l', r, p, j);
    case Drop(j) => ForgetKeeps(l', r, p, j);
    case Conclude(execution, conclusion, delivered) => ConcludeKeeps(l', r, p, execution, conclusion, delivered);
    case Report => ReportKeeps(l', r, p);
    case Crash => CrashKeeps(l', r, p);
  }

  /** `p` already reflects the store `l'` after the request. */
  lemma ReceiptServed(l: Ledger, l': Ledger, r: nat, p: Peer, now: Time)
    requires PeerOk(l', r, p) && p.server == Receiving && p.up != [] && (p.up[0].Accepted? || p.up[0].Started?)
    requires l'.world.store == Effect(l.world.store, RequestOp(r, p.up[0]), now)
    requires l'.history == HistoryAfter(l.history, l.world.store, RequestOp(r, p.up[0]), now)
    ensures PeerOk(l', r, Served(p, Reply(l.world.store, r, p.up[0], now)))
  {
    if Reply(l.world.store, r, p.up[0], now) == None {
      EndKeeps(l', r, p);
    } else {
      ReceiptIsCurrent(l, l', r, p.up[0], now);
      ReceiptKeeps(l', r, p);
    }
  }

  lemma CompletionServed(l: Ledger, l': Ledger, r: nat, p: Peer, now: Time)
    requires PeerOk(l', r, p) && p.server == Receiving && p.up != [] && p.up[0].Completed?
    ensures PeerOk(l', r, Served(p, Reply(l.world.store, r, p.up[0], now)))
  {
    if Reply(l.world.store, r, p.up[0], now) == None {
      EndKeeps(l', r, p);
    } else {
      PopUpKeeps(l', r, p);
      assert SendDown(p.(up := p.up[1..]), []) == p.(up := p.up[1..]);
    }
  }

  lemma ServeKeeps(l: Ledger, l': Ledger, r: nat, p: Peer, now: Time)
    requires LedgerOk(l) && LedgerOk(l') && Evolves(l, l') && PeerOk(l, r, p) && p.server == Receiving && p.up != []
    requires l'.world.store == Effect(l.world.store, RequestOp(r, p.up[0]), now)
    requires l'.history == HistoryAfter(l.history, l.world.store, RequestOp(r, p.up[0]), now)
    ensures PeerOk(l', r, Served(p, Reply(l.world.store, r, p.up[0], now)))
  {
    OwnRequestUnaffected(l, l', now, r, p);
    PeerEvolves(l, l', r, p);
    match p.up[0]
    case Beat(_, _) => HeartbeatKeeps(l, l', r, p, now);
    case Completed(_, _, _) => CompletionServed(l, l', r, p, now);
    case _ => ReceiptServed(l, l', r, p, now);
  }

  lemma ClaimStepKeeps(l: Ledger, l': Ledger, r: nat, p: Peer, token: nat, now: Time)
    requires LedgerOk(l) && LedgerOk(l') && Evolves(l, l') && PeerOk(l, r, p) && p.server == Claiming
    requires token != NO_TOKEN && token !in l.world.issued
    requires l'.world.store == Effect(l.world.store, ClaimJob(r, token), now)
    requires l'.history == HistoryAfter(l.history, l.world.store, ClaimJob(r, token), now)
    ensures PeerOk(l', r, Claimed(p, ClaimResult(l.world.store, r, token, now)))
  {
    Unaffected(l, l', ClaimJob(r, token), now, r, p);
    PeerEvolves(l, l', r, p);
    ClaimKeeps(l, l', r, p, token, now);
  }

  lemma ActorServes(l: Ledger, r: nat, p: Peer, now: Time)
    requires Scheduler.Inv(l.world) && LedgerOk(l) && l.Now() <= now && PeerOk(l, r, p) && Possible(l, r, p, Serve, now)
    ensures PeerOk(LedgerAfter(l, StepOp(r, p, Serve), now), r, After(l, r, p, Serve, now))
  {
    LedgerStep(l, StepOp(r, p, Serve), now);
    ServeKeeps(l, LedgerAfter(l, StepOp(r, p, Serve), now), r, p, now);
  }

  lemma ActorClaims(l: Ledger, r: nat, p: Peer, token: nat, now: Time)
    requires Scheduler.Inv(l.world) && LedgerOk(l) && l.Now() <= now && PeerOk(l, r, p) && Possible(l, r, p, ClaimNext(token), now)
    ensures PeerOk(LedgerAfter(l, StepOp(r, p, ClaimNext(token)), now), r, After(l, r, p, ClaimNext(token), now))
  {
    LedgerStep(l, StepOp(r, p, ClaimNext(token)), now);
    ClaimStepKeeps(l, LedgerAfter(l, StepOp(r, p, ClaimNext(token)), now), r, p, token, now);
  }

  lemma ActorWithdraws(l: Ledger, r: nat, p: Peer, step: Step, now: Time)
    requires Scheduler.Inv(l.world) && LedgerOk(l) && l.Now() <= now && PeerOk(l, r, p) && step.Withdraw? && Possible(l, r, p, step, now)
    ensures PeerOk(LedgerAfter(l, StepOp(r, p, step), now), r, After(l, r, p, step, now))
  {
    var op := StepOp(r, p, step);
    var l' := LedgerAfter(l, op, now);
    LedgerStep(l, op, now);
    WithdrawUnaffected(l, l', op.value, now, r, p);
    PeerEvolves(l, l', r, ServerEnded(p));
  }

  lemma ActorKeeps(l: Ledger, r: nat, p: Peer, step: Step, now: Time)
    requires Scheduler.Inv(l.world) && LedgerOk(l) && l.Now() <= now && PeerOk(l, r, p) && Possible(l, r, p, step, now)
    ensures PeerOk(LedgerAfter(l, StepOp(r, p, step), now), r, After(l, r, p, step, now))
  {
    match step
    case Serve => ActorServes(l, r, p, now);
    case ClaimNext(token) => ActorClaims(l, r, p, token, now);
    case Withdraw(_) => ActorWithdraws(l, r, p, step, now);
    case _ =>
      assert LedgerAfter(l, StepOp(r, p, step), now) == Ticked(l, now);
      QuietStepKeeps(l, r, p, step, now);
  }

  // Everybody else.

  lemma BystanderKeeps(l: Ledger, r: nat, p: Peer, step: Step, now: Time, other: nat, q: Peer)
    requires Scheduler.Inv(l.world) && LedgerOk(l) && l.Now() <= now && Possible(l, r, p, step, now)
    requires PeerOk(l, other, q) && other != r
    ensures PeerOk(LedgerAfter(l, StepOp(r, p, step), now), other, q)
  {
    var op := StepOp(r, p, step);
    var l' := LedgerAfter(l, op, now);
    LedgerStep(l, op, now);
    if op.Some? {
      OthersUnaffected(l, l', op.value, now, r, other, q);
      PeerEvolves(l, l', other, q);
    } else {
      TickKeepsPeer(l, other, q, now);
    }
  }

  lemma EnvironmentKeeps(l: Ledger, op: Op, now: Time, r: nat, p: Peer)
    requires Scheduler.Inv(l.world) && LedgerOk(l) && l.Now() <= now && Enabled(l.world, op) && (op.CreateRun? || op.RecoverLeases?)
    requires PeerOk(l, r, p)
    ensures PeerOk(Perform(l, op, now), r, p)
  {
    LedgerStep(l, Some(op), now);
    Unaffected(l, Perform(l, op, now), op, now, r, p);
    PeerEvolves(l, Perform(l, op, now), r, p);
  }

  // The log of executions.

  function LoggedTokens(log: seq<Execution>): set<nat> {
    set e | e in log :: e.token
  }

  lemma ReceiveExecutes(r: nat, p: Peer, now: Time)
    requires p.down != []
    ensures OnResponse(p.(down := p.down[1..]), p.down[0].response, now).executed == p.executed + LoggedTokens(Starts(r, p, Receive, now))
  {
  }

  /** A step adds to the executed tokens exactly the tokens that it logs. */
  lemma StepExecutes(l: Ledger, r: nat, p: Peer, step: Step, now: Time)
    requires Possible(l, r, p, step, now)
    ensures After(l, r, p, step, now).executed == p.executed + LoggedTokens(Starts(r, p, step, now))
  {
    if step.Receive? { ReceiveExecutes(r, p, now); } else { assert LoggedTokens([]) == {}; }
  }

  lemma ResponseAdopts(p: Peer, response: Response, now: Time)
    ensures p.adopted <= OnResponse(p, response, now).adopted
  {
  }

  /** What a step logs is executed for the first time, by this Runner and under a lease of its own. */
  lemma StepLogs(l: Ledger, r: nat, p: Peer, step: Step, now: Time)
    requires PeerOk(l, r, p) && Possible(l, r, p, step, now)
    ensures var p' := After(l, r, p, step, now);
            p.adopted <= p'.adopted && p'.executed == p.executed + LoggedTokens(Starts(r, p, step, now)) &&
            forall e | e in Starts(r, p, step, now) :: e.runner == r && e.token !in p.executed && Mine(l, p, e.job, e.token)
  {
    StepExecutes(l, r, p, step, now);
    if Starts(r, p, step, now) != [] {
      var j := p.down[0].response.job;
      assert EntryOk(l, p, j, p.active[j]);
    }
    if step.Receive? { ResponseAdopts(p.(down := p.down[1..]), p.down[0].response, now); }
  }

  lemma LoggedStays(l: Ledger, l': Ledger, peers: map<nat, Peer>, peers': map<nat, Peer>, e: Execution)
    requires LoggedOk(l, peers, e) && HistoryExtends(l.history, l'.history) && e.runner in peers'
    requires peers[e.runner].adopted <= peers'[e.runner].adopted && peers[e.runner].executed <= peers'[e.runner].executed
    ensures LoggedOk(l', peers', e)
  {
  }

  lemma ActKeepsLogged(l: Ledger, l': Ledger, peers: map<nat, Peer>, log: seq<Execution>, r: nat, p': Peer, more: seq<Execution>)
    requires LogOk(l, peers, log) && r in peers && TokensOk(l, r, peers[r]) && HistoryExtends(l.history, l'.history)
    requires peers[r].adopted <= p'.adopted && peers[r].executed <= p'.executed
    requires forall e | e in more :: e.runner == r && e.token in p'.executed && Mine(l, peers[r], e.job, e.token)
    ensures forall e | e in log + more :: LoggedOk(l', peers[r := p'], e)
  {
    forall e | e in log + more ensures LoggedOk(l', peers[r := p'], e) {
      if e in log {
        assert LoggedOk(l, peers, e);
        LoggedStays(l, l', peers, peers[r := p'], e);
      } else {
        assert e in more && TokenOk(l, r, peers[r], e.token);
      }
    }
  }

  lemma ActKeepsLog(l: Ledger, l': Ledger, peers: map<nat, Peer>, log: seq<Execution>, r: nat, step: Step, now: Time)
    requires LogOk(l, peers, log) && r in peers && PeerOk(l, r, peers[r]) && HistoryExtends(l.history, l'.history)
    requires Possible(l, r, peers[r], step, now)
    ensures LogOk(l', peers[r := After(l, r, peers[r], step, now)], log + Starts(r, peers[r], step, now))
  {
    var p := peers[r];
    var p', more := After(l, r, p, step, now), Starts(r, p, step, now);
    StepLogs(l, r, p, step, now);
    ActKeepsLogged(l, l', peers, log, r, p', more);
    forall e | e in more ensures e.token in l.history.owner && l.history.owner[e.token].runner == r { assert TokenOk(l, r, p, e.token); }
    forall i, k | 0 <= i < k < |log + more| ensures (log + more)[i].token != (log + more)[k].token {
      NewTokensDiffer(l, peers, log, r, more, i, k);
    }
  }

  lemma NewTokensDiffer(l: Ledger, peers: map<nat, Peer>, log: seq<Execution>, r: nat, more: seq<Execution>, i: nat, k: nat)
    requires LogOk(l, peers, log) && r in peers && |more| <= 1 && i < k < |log| + |more|
    requires forall e | e in more :: e.runner == r && e.token !in peers[r].executed &&
               e.token in l.history.owner && l.history.owner[e.token].runner == r
    ensures (log + more)[i].token != (log + more)[k].token
  {
    if k == |log| {
      assert log[i] in log && (log + more)[k] == more[0];
      assert LoggedOk(l, peers, log[i]);
    }
  }

  lemma EnvironmentKeepsSystem(s: System, op: Op, now: Time)
    requires SystemOk(s) && Can(s, Environment(op), now)
    ensures SystemOk(Take(s, Environment(op), now))
  {
    var l' := Perform(s.ledger, op, now);
    LedgerStep(s.ledger, Some(op), now);
    forall r | r in s.peers ensures PeerOk(l', r, s.peers[r]) { EnvironmentKeeps(s.ledger, op, now, r, s.peers[r]); }
    forall e | e in s.log ensures LoggedOk(l', s.peers, e) {
      assert LoggedOk(s.ledger, s.peers, e);
      LoggedStays(s.ledger, l', s.peers, s.peers, e);
    }
  }

  lemma ActKeepsPeers(s: System, r: nat, step: Step, now: Time)
    requires SystemOk(s) && Can(s, Act(r, step), now)
    ensures var s' := Take(s, Act(r, step), now); PeersOk(s'.ledger, s'.peers)
  {
    var s' := Take(s, Act(r, step), now);
    forall x | x in s'.peers ensures PeerOk(s'.ledger, x, s'.peers[x]) {
      if x == r {
        ActorKeeps(s.ledger, r, s.peers[r], step, now);
      } else {
        BystanderKeeps(s.ledger, r, s.peers[r], step, now, x, s.peers[x]);
      }
    }
  }

  lemma ActKeepsSystem(s: System, r: nat, step: Step, now: Time)
    requires SystemOk(s) && Can(s, Act(r, step), now)
    ensures SystemOk(Take(s, Act(r, step), now))
  {
    LedgerStep(s.ledger, StepOp(r, s.peers[r], step), now);
    ActKeepsPeers(s, r, step, now);
    ActKeepsLog(s.ledger, Take(s, Act(r, step), now).ledger, s.peers, s.log, r, step, now);
  }

  /** Every event keeps the invariant of the system. */
  lemma NextKeepsSystemOk(s: System, event: Event, now: Time)
    requires SystemOk(s) && Can(s, event, now)
    ensures SystemOk(Take(s, event, now))
  {
    match event
    case Environment(op) => EnvironmentKeepsSystem(s, op, now);
    case Act(r, step) => ActKeepsSystem(s, r, step, now);
  }

  lemma EmptyLedgerIsOk()
    ensures Scheduler.Inv(EMPTY_LEDGER.world) && LedgerOk(EMPTY_LEDGER)
  {
    forall r: nat ensures Acyclic([], r) { assert RanksRun([], r, map[]); }
  }

  lemma InitialIsOk(s: System)
    requires Initial(s)
    ensures SystemOk(s)
  {
    EmptyLedgerIsOk();
    forall r | r in s.peers ensures PeerOk(s.ledger, r, s.peers[r]) { NewPeerIsOk(s.ledger, r, s.peers[r].capabilities); }
  }

  lemma NewPeerIsOk(l: Ledger, r: nat, capabilities: Runner)
    ensures PeerOk(l, r, NewPeer(capabilities))
  {
    assert Wire(NewPeer(capabilities)) == [];
  }

  lemma {:induction false} BehaviourKeepsSystemOk(trace: seq<System>, n: nat)
    requires Behaviour(trace) && n < |trace|
    ensures SystemOk(trace[n])
  {
    if n == 0 {
      InitialIsOk(trace[0]);
    } else {
      BehaviourKeepsSystemOk(trace, n - 1);
      assert Next(trace[n - 1], trace[n]);
      var event, now :| Can(trace[n - 1], event, now) && trace[n] == Take(trace[n - 1], event, now);
      NextKeepsSystemOk(trace[n - 1], event, now);
    }
  }

  // What the protocol guarantees.

  /** Over every run, `Execute` is called at most once per job, by whatever Runner. */
  lemma ExecutedAtMostOnce(trace: seq<System>, n: nat)
    requires Behaviour(trace) && n < |trace|
    ensures forall i, k | 0 <= i < k < |trace[n].log| :: trace[n].log[i].job != trace[n].log[k].job
  {
    BehaviourKeepsSystemOk(trace, n);
    var s := trace[n];
    forall i, k | 0 <= i < k < |s.log| ensures s.log[i].job != s.log[k].job {
      ExecutedUnderStart(s, s.log[i]);
      ExecutedUnderStart(s, s.log[k]);
    }
  }

  lemma ExecutedUnderStart(s: System, e: Execution)
    requires SystemOk(s) && e in s.log
    ensures StartedUnder(s.ledger, e.job, e.token)
  {
    assert LoggedOk(s.ledger, s.peers, e);
    assert PeerOk(s.ledger, e.runner, s.peers[e.runner]);
    assert TokenOk(s.ledger, e.runner, s.peers[e.runner], e.token);
  }

  /** Nothing executes before the store has started the job under that very lease, and a job that executed is never queued again. */
  lemma StartPrecedesExecution(trace: seq<System>, n: nat, e: Execution)
    requires Behaviour(trace) && n < |trace| && e in trace[n].log
    ensures var l := trace[n].ledger;
            StartedUnder(l, e.job, e.token) && Known(l, e.job) &&
            var job := l.Jobs()[FindJob(l.Jobs(), e.job)];
            JobTerminal(job.status) || (job.status == Running && job.token == e.token && job.runnerId == e.runner)
  {
    BehaviourKeepsSystemOk(trace, n);
    var s := trace[n];
    ExecutedUnderStart(s, e);
    assert LoggedOk(s.ledger, s.peers, e);
    assert JobLedgerOk(s.ledger, s.ledger.Jobs()[FindJob(s.ledger.Jobs(), e.job)]);
  }

  /** The Runner has the job, its authority is not lost and its local lease has not run out. */
  predicate HasAuthority(s: System, r: nat, j: nat) {
    r in s.peers && j in s.peers[r].active &&
    !s.peers[r].active[j].authorityLost && s.ledger.Now() < s.peers[r].active[j].leaseExpires
  }

  /** A lease with authority is the store's current one, or the Runner has completed the job under it. */
  lemma AuthorityIsCurrent(s: System, r: nat, j: nat)
    requires SystemOk(s) && HasAuthority(s, r, j)
    ensures var t := s.peers[r].active[j].token;
            t in s.ledger.history.owner && s.ledger.history.owner[t] == Owner(r, j) &&
            (CompletedUnder(s.ledger, j, t) ||
             (Current(s.ledger, j, t) && s.peers[r].active[j].leaseExpires <= Deadline(s.ledger, j)))
  {
    var p := s.peers[r];
    assert PeerOk(s.ledger, r, p);
    assert EntryOk(s.ledger, p, j, p.active[j]) && TokenOk(s.ledger, r, p, p.active[j].token);
  }

  lemma SameHolder(l: Ledger, j: nat, t: nat, u: nat)
    requires LedgerOk(l) && Known(l, j)
    requires (CompletedUnder(l, j, t) || Current(l, j, t)) && (CompletedUnder(l, j, u) || Current(l, j, u))
    ensures t == u
  {
    assert JobLedgerOk(l, l.Jobs()[FindJob(l.Jobs(), j)]);
  }

  /** In every reachable state at most one Runner has authority over a job. */
  lemma AuthorityIsExclusive(trace: seq<System>, n: nat, r: nat, other: nat, j: nat)
    requires Behaviour(trace) && n < |trace| && HasAuthority(trace[n], r, j) && HasAuthority(trace[n], other, j)
    ensures r == other
  {
    BehaviourKeepsSystemOk(trace, n);
    var s := trace[n];
    AuthorityIsCurrent(s, r, j);
    AuthorityIsCurrent(s, other, j);
    SameHolder(s.ledger, j, s.peers[r].active[j].token, s.peers[other].active[j].token);
  }

  lemma ExecutingIsCurrent(l: Ledger, r: nat, p: Peer, j: nat)
    requires LedgerOk(l) && PeerOk(l, r, p) && j in p.active && p.active[j].phase == Executing
    requires !p.active[j].authorityLost && l.Now() < p.active[j].leaseExpires
    ensures Known(l, j) && var job := l.Jobs()[FindJob(l.Jobs(), j)];
            job.status == Running && job.runnerId == r && job.token == p.active[j].token && p.active[j].leaseExpires <= job.expires
  {
    assert EntryOk(l, p, j, p.active[j]) && TokenOk(l, r, p, p.active[j].token);
    assert JobLedgerOk(l, l.Jobs()[FindJob(l.Jobs(), j)]);
  }

  /** While a Runner executes with authority, the store has that Runner, that token, status running, and a deadline no earlier. */
  lemma ExecutionIsBacked(trace: seq<System>, n: nat, r: nat, j: nat)
    requires Behaviour(trace) && n < |trace| && HasAuthority(trace[n], r, j) && trace[n].peers[r].active[j].phase == Executing
    ensures var l, local := trace[n].ledger, trace[n].peers[r].active[j];
            Known(l, j) && var job := l.Jobs()[FindJob(l.Jobs(), j)];
            job.status == Running && job.runnerId == r && job.token == local.token && local.leaseExpires <= job.expires
  {
    BehaviourKeepsSystemOk(trace, n);
    assert PeerOk(trace[n].ledger, r, trace[n].peers[r]);
    ExecutingIsCurrent(trace[n].ledger, r, trace[n].peers[r], j);
  }

  lemma OutcomeIsOwn(l: Ledger, r: nat, p: Peer, o: Outcome)
    requires PeerOk(l, r, p) && o in p.results && o.job in p.active && p.active[o.job].phase == Executing
    ensures p.active[o.job].token == o.token
  {
    assert EntryOk(l, p, o.job, p.active[o.job]);
    assert TokenOk(l, r, p, p.active[o.job].token) && TokenOk(l, r, p, o.token);
  }

  /** The results channel names only the job, yet a conclusion taken for an executing job is that of this very execution. */
  lemma ConclusionIsOwn(trace: seq<System>, n: nat, r: nat, o: Outcome)
    requires Behaviour(trace) && n < |trace| && r in trace[n].peers && o in trace[n].peers[r].results
    requires o.job in trace[n].peers[r].active && trace[n].peers[r].active[o.job].phase == Executing
    ensures trace[n].peers[r].active[o.job].token == o.token
  {
    BehaviourKeepsSystemOk(trace, n);
    assert PeerOk(trace[n].ledger, r, trace[n].peers[r]);
    OutcomeIsOwn(trace[n].ledger, r, trace[n].peers[r], o);
  }

  lemma RenewalFits(l: Ledger, r: nat, p: Peer, m: Sent)
    requires PeerOk(l, r, p) && m in p.down && m.response.LeaseRenewed? && m.response.job in p.active
    ensures var job := p.active[m.response.job];
            m.answers != Unasked && m.answers.token == job.token &&
            (job.phase == AwaitingAcceptance ==> !m.answers.ToHeartbeat?) && (job.phase == AwaitingStart ==> m.answers.ToStart?)
  {
    var j := m.response.job;
    assert m in Wire(p) && MessageOk(l, r, p, m);
    assert EntryOk(l, p, j, p.active[j]) && AnswersOk(p, j, p.active[j]);
    assert Renews(m, j);
  }

  /** A renewal names only a job, yet any one under way answers a request about the lease the client now has for it, and a start only by a start. */
  lemma RenewalAnswersItsJob(trace: seq<System>, n: nat, r: nat, m: Sent)
    requires Behaviour(trace) && n < |trace| && r in trace[n].peers && m in trace[n].peers[r].down
    requires m.response.LeaseRenewed? && m.response.job in trace[n].peers[r].active
    ensures var job := trace[n].peers[r].active[m.response.job];
            m.answers != Unasked && m.answers.token == job.token &&
            (job.phase == AwaitingAcceptance ==> !m.answers.ToHeartbeat?) && (job.phase == AwaitingStart ==> m.answers.ToStart?)
  {
    BehaviourKeepsSystemOk(trace, n);
    assert PeerOk(trace[n].ledger, r, trace[n].peers[r]);
    RenewalFits(trace[n].ledger, r, trace[n].peers[r], m);
  }
}
