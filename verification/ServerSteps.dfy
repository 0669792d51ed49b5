// The server's steps, each with its store operation, keep the session invariant.

module ServerSteps {
  import opened Basics
  import opened RunModel
  import opened JobInvariants
  import opened Scheduler
  import opened SchedulerSafety
  import opened LeaseLedger
  import opened RunnerSession
  import opened SessionInvariant
  import opened SessionSteps

  // Pushing one message to the client.

  predicate PushAllowed(p: Peer, s: Sent) {
    s.response.LeaseRenewed? && s.response.job in p.active ==>
      var job := p.active[s.response.job];
      (job.phase == AwaitingAcceptance ==> Acceptances(p.up, job.token) + Renewals(Wire(p), s.response.job) == 0) &&
      (job.phase == AwaitingStart ==> s.answers.ToStart?)
  }

  lemma PushKeepsAnswers(p: Peer, p': Peer, s: Sent)
    requires AllAnswersOk(p) && PushAllowed(p, s) && p'.active == p.active && p'.up == p.up && Wire(p') == Wire(p) + [s]
    ensures AllAnswersOk(p')
  {
    forall j | j in p'.active ensures AnswersOk(p', j, p'.active[j]) {
      assert AnswersOk(p, j, p.active[j]);
      assert Wire(p')[..|Wire(p)|] == Wire(p);
    }
  }

  /** One more message at the end of what the client has to receive. */
  lemma PushKeeps(l: Ledger, r: nat, p: Peer, p': Peer, s: Sent)
    requires PeerOk(l, r, p) && PushAllowed(p, s) && MessageOk(l, r, p, s) && forall m | m in Wire(p) :: InOrder(l, m, s)
    requires Wire(p') == Wire(p) + [s] && p' == p.(server := p'.server, down := p'.down) && ChannelsOk(p')
    ensures PeerOk(l, r, p')
  {
    PushKeepsAnswers(p, p', s);
    forall t | t in p'.adopted ensures TokenOk(l, r, p', t) { assert TokenOk(l, r, p, t); }
    forall j | j in p'.active ensures EntryOk(l, p', j, p'.active[j]) && Superseded(l, p', j, p'.active[j].token) {
      assert EntryOk(l, p, j, p.active[j]);
      SameTokensSuperseded(l, p, p', j, p.active[j].token);
    }
    forall m | m in Wire(p') ensures MessageOk(l, r, p', m) {
      assert MessageOk(l, r, p, m);
      if m.response.Assignment? { SameTokensSuperseded(l, p, p', m.response.job, m.response.token); }
    }
    forall i, k | 0 <= i < k < |Wire(p')| ensures InOrder(l, Wire(p')[i], Wire(p')[k]) {
      if k < |Wire(p)| { assert InOrder(l, Wire(p)[i], Wire(p)[k]); } else { assert Wire(p)[i] in Wire(p); }
    }
    forall q | q in p'.up ensures RequestOk(l, p', q) { assert RequestOk(l, p, q); }
  }

  /** The store accepted a request of this Runner: its token is current, so no assignment of the job is under way. */
  lemma RenewalIsInOrder(l: Ledger, r: nat, p: Peer, s: Sent)
    requires PeerOk(l, r, p) && s.response.LeaseRenewed? && s.answers != Unasked
    requires Mine(l, p, s.response.job, s.answers.token) && Current(l, s.response.job, s.answers.token)
    ensures forall m | m in Wire(p) :: InOrder(l, m, s)
    ensures s.response.job in p.active ==> p.active[s.response.job].token == s.answers.token
  {
    forall m | m in Wire(p) ensures InOrder(l, m, s) { assert MessageOk(l, r, p, m); }
    var j := s.response.job;
    if j in p.active { assert Superseded(l, p, j, p.active[j].token); }
  }

  lemma PushRenewal(l: Ledger, r: nat, p: Peer, s: Sent)
    requires PeerOk(l, r, p) && p.online && p.server != Closed && !p.server.Issuing? && PushAllowed(p, s)
    requires s.response.LeaseRenewed? && s.answers != Unasked
    requires Mine(l, p, s.response.job, s.answers.token) && Current(l, s.response.job, s.answers.token)
    requires s.response.expires <= Deadline(l, s.response.job)
    requires s.answers.ToHeartbeat? ==> s.answers.token in p.executed
    requires s.answers.ToStart? ==> StartedUnder(l, s.response.job, s.answers.token)
    ensures PeerOk(l, r, SendDown(p, [s]))
  {
    RenewalIsInOrder(l, r, p, s);
    assert Wire(SendDown(p, [s])) == Wire(p) + [s];
    PushKeeps(l, r, p, SendDown(p, [s]), s);
  }

  lemma PushCancel(l: Ledger, r: nat, p: Peer, j: nat)
    requires PeerOk(l, r, p) && p.online && p.server != Closed && !p.server.Issuing?
    ensures PeerOk(l, r, SendDown(p, [Sent(Cancel(j), Unasked)]))
  {
    var s := Sent(Cancel(j), Unasked);
    assert Wire(SendDown(p, [s])) == Wire(p) + [s];
    forall m | m in Wire(p) ensures InOrder(l, m, s) { assert MessageOk(l, r, p, m); }
    PushKeeps(l, r, p, SendDown(p, [s]), s);
  }

  // Receipts.

  /** The answer to a receipt names the lease as the store then has it. */
  lemma ReceiptInStore(s: Store, r: nat, q: Request, now: Time)
    requires (q.Accepted? || q.Started?) && Reply(s, r, q, now).Some?
    ensures var jobs := Effect(s, RequestOp(r, q), now).jobs;
            var i := FindJob(jobs, q.job);
            i < |jobs| && jobs[i].token == q.token != NO_TOKEN &&
            Reply(s, r, q, now).value ==
              [Sent(LeaseRenewed(q.job, jobs[i].expires), if q.Accepted? then ToAcceptance(q.token) else ToStart(q.token))]
  {
    SameIdsSameIndex(s.jobs, Effect(s, RequestOp(r, q), now).jobs, q.job);
  }

  /** What the store says about a lease it has just confirmed or started. */
  lemma ReceiptIsCurrent(l: Ledger, l': Ledger, r: nat, q: Request, now: Time)
    requires q.Accepted? || q.Started?
    requires l'.history == HistoryAfter(l.history, l.world.store, RequestOp(r, q), now)
    requires l'.world.store == Effect(l.world.store, RequestOp(r, q), now)
    requires Reply(l.world.store, r, q, now).Some?
    ensures Current(l', q.job, q.token) && (q.Started? ==> StartedUnder(l', q.job, q.token))
    ensures Reply(l.world.store, r, q, now).value ==
            [Sent(LeaseRenewed(q.job, Deadline(l', q.job)), if q.Accepted? then ToAcceptance(q.token) else ToStart(q.token))]
  {
    ReceiptInStore(l.world.store, r, q, now);
  }

  /** Taking the acceptance of the awaited token off the channel leaves no other one. */
  lemma AcceptanceIsTheOnlyOne(l: Ledger, r: nat, p: Peer)
    requires PeerOk(l, r, p) && p.up != [] && p.up[0].Accepted?
    requires p.up[0].job in p.active && p.active[p.up[0].job].token == p.up[0].token
    ensures p.active[p.up[0].job].phase != AwaitingStart
    ensures p.active[p.up[0].job].phase == AwaitingAcceptance ==>
            Acceptances(p.up[1..], p.up[0].token) + Renewals(Wire(p), p.up[0].job) == 0
  {
    var q := p.up[0];
    assert AnswersOk(p, q.job, p.active[q.job]);
    assert p.up == [q] + p.up[1..];
    AcceptancesAppend([q], p.up[1..], q.token);
    assert Acceptances([q], q.token) == 1 by { assert [q][..0] == []; }
  }

  lemma ReceiptKeeps(l: Ledger, r: nat, p: Peer)
    requires PeerOk(l, r, p) && p.server == Receiving && p.up != [] && (p.up[0].Accepted? || p.up[0].Started?)
    requires Current(l, p.up[0].job, p.up[0].token)
    requires p.up[0].Started? ==> StartedUnder(l, p.up[0].job, p.up[0].token)
    ensures var q := p.up[0];
            PeerOk(l, r, SendDown(p.(up := p.up[1..]),
              [Sent(LeaseRenewed(q.job, Deadline(l, q.job)), if q.Accepted? then ToAcceptance(q.token) else ToStart(q.token))]))
  {
    var q, p' := p.up[0], p.(up := p.up[1..]);
    var s := Sent(LeaseRenewed(q.job, Deadline(l, q.job)), if q.Accepted? then ToAcceptance(q.token) else ToStart(q.token));
    PopUpKeeps(l, r, p);
    assert RequestOk(l, p, q);
    if p.online {
      RenewalIsInOrder(l, r, p', s);
      assert Wire(p') == Wire(p);
      if q.job in p.active {
        if q.Accepted? { AcceptanceIsTheOnlyOne(l, r, p); } else { StartedIsNotAwaitingAcceptance(l, r, p); }
      }
      PushRenewal(l, r, p', s);
    }
  }

  /** A start request under way was sent after the acceptance was answered. */
  lemma StartedIsNotAwaitingAcceptance(l: Ledger, r: nat, p: Peer)
    requires PeerOk(l, r, p) && p.up != [] && p.up[0].Started?
    requires p.up[0].job in p.active && p.active[p.up[0].job].token == p.up[0].token
    ensures p.active[p.up[0].job].phase != AwaitingAcceptance
  {
  }

  // Heartbeats.

  lemma LastRenewal(jobs: seq<Job>, r: nat, init: seq<ActiveLease>, a: ActiveLease, now: Time)
    ensures var before := RenewAll(jobs, r, init, now);
            Authorized(before, r, a.jobId, a.token, now) ==> RenewedIn(jobs, RenewOne(before, r, a, now), a, now)
  {
    var before := RenewAll(jobs, r, init, now);
    RenewAllIds(jobs, r, init, now);
    SameIdsSameIndex(before, RenewOne(before, r, a, now), a.jobId);
  }

  lemma EarlierRenewal(jobs: seq<Job>, r: nat, init: seq<ActiveLease>, last: ActiveLease, a: ActiveLease, now: Time)
    requires last.jobId != a.jobId && RenewedIn(jobs, RenewAll(jobs, r, init, now), a, now)
    ensures RenewedIn(jobs, RenewOne(RenewAll(jobs, r, init, now), r, last, now), a, now)
  {
    RenewKeepsOthers(RenewAll(jobs, r, init, now), r, last, a.jobId, now);
  }

  /** A renewal that the store grants prolongs exactly the lease that was listed. */
  lemma {:induction false} GrantedRenewal(jobs: seq<Job>, r: nat, leases: seq<ActiveLease>, now: Time, k: nat)
    requires k < |leases| && DistinctJobs(leases) && (forall i | 0 <= i < |leases| :: ValidActiveLease(leases[i]))
    ensures |RenewResults(jobs, r, leases, now)| == |leases|
    ensures RenewResults(jobs, r, leases, now)[k].Renewed? ==>
              RenewResults(jobs, r, leases, now)[k] == Renewed(leases[k].jobId, now + RUNNER_LEASE_DURATION) &&
              RenewedIn(jobs, RenewAll(jobs, r, leases, now), leases[k], now)
  {
    var n := |leases| - 1;
    var init := leases[..n];
    RenewResultsLength(jobs, r, init, now);
    if k < n {
      GrantedRenewal(jobs, r, init, now, k);
      if RenewResults(jobs, r, init, now)[k].Renewed? { EarlierRenewal(jobs, r, init, leases[n], leases[k], now); }
    } else {
      LastRenewal(jobs, r, init, leases[n], now);
    }
  }

  /** The lease is the job's current one and runs out one lease duration from now. */
  predicate RenewedIn(before: seq<Job>, jobs: seq<Job>, a: ActiveLease, now: Time) {
    var i := FindJob(before, a.jobId);
    i < |before| && |jobs| == |before| && FindJob(jobs, a.jobId) == i &&
    jobs[i].token == a.token && jobs[i].expires == now + RUNNER_LEASE_DURATION
  }

  lemma RenewKeepsOthers(jobs: seq<Job>, r: nat, a: ActiveLease, j: nat, now: Time)
    requires a.jobId != j
    ensures var after, i := RenewOne(jobs, r, a, now), FindJob(jobs, j);
            |after| == |jobs| && FindJob(after, j) == i && (i < |jobs| ==> after[i] == jobs[i])
  {
    SameIdsSameIndex(jobs, RenewOne(jobs, r, a, now), j);
  }

  lemma SameIdsSameIndex(a: seq<Job>, b: seq<Job>, j: nat)
    requires |a| == |b| && forall i | 0 <= i < |a| :: a[i].id == b[i].id
    ensures FindJob(a, j) == FindJob(b, j)
  {
  }

  lemma {:induction false} RenewAllIds(jobs: seq<Job>, r: nat, leases: seq<ActiveLease>, now: Time)
    ensures var after := RenewAll(jobs, r, leases, now);
            |after| == |jobs| && (forall i | 0 <= i < |jobs| :: after[i].id == jobs[i].id) &&
            forall j: nat :: FindJob(after, j) == FindJob(jobs, j)
  {
    if leases != [] { RenewAllIds(jobs, r, leases[..|leases| - 1], now); }
    var after := RenewAll(jobs, r, leases, now);
    forall j: nat ensures FindJob(after, j) == FindJob(jobs, j) { SameIdsSameIndex(after, jobs, j); }
  }

  /** The `k`-th answer of a heartbeat is granted only for a lease that is now current, until its new deadline. */
  predicate AnswerFits(l: Ledger, p: Peer, result: LeaseResult, a: ActiveLease) {
    Mine(l, p, a.jobId, a.token) && a.token in p.executed &&
    (result.Renewed? ==> result.jobId == a.jobId && Current(l, a.jobId, a.token) && result.expires == Deadline(l, a.jobId))
  }

  lemma AnswerKeeps(l: Ledger, r: nat, p: Peer, result: LeaseResult, a: ActiveLease)
    requires PeerOk(l, r, p) && p.server != Closed && !p.server.Issuing? && AnswerFits(l, p, result, a)
    ensures PeerOk(l, r, SendDown(p, Answers([result], [a])))
  {
    if p.online {
      if result.Renewed? {
        var s := Sent(LeaseRenewed(result.jobId, result.expires), ToHeartbeat(a.token));
        assert Answers([result], [a]) == [s];
        RenewalIsInOrder(l, r, p, s);
        if s.response.job in p.active { assert EntryOk(l, p, s.response.job, p.active[s.response.job]); }
        PushRenewal(l, r, p, s);
      } else {
        assert Answers([result], [a]) == [Sent(Cancel(result.jobId), Unasked)];
        PushCancel(l, r, p, result.jobId);
      }
    }
  }

  lemma {:induction false} AnswersKeep(l: Ledger, r: nat, p: Peer, results: seq<LeaseResult>, leases: seq<ActiveLease>)
    requires PeerOk(l, r, p) && p.server != Closed && !p.server.Issuing? && |results| == |leases|
    requires forall k | 0 <= k < |leases| :: AnswerFits(l, p, results[k], leases[k])
    ensures PeerOk(l, r, SendDown(p, Answers(results, leases)))
  {
    if leases == [] {
      assert SendDown(p, Answers(results, leases)) == p;
    } else {
      var n := |leases| - 1;
      AnswersKeep(l, r, p, results[..n], leases[..n]);
      var q := SendDown(p, Answers(results[..n], leases[..n]));
      assert AnswerFits(l, p, results[n], leases[n]) && AnswerFits(l, q, results[n], leases[n]);
      AnswerKeeps(l, r, q, results[n], leases[n]);
      assert Answers(results, leases) == Answers(results[..n], leases[..n]) + Answers([results[n]], [leases[n]]);
      assert SendDown(q, Answers([results[n]], [leases[n]])) == SendDown(p, Answers(results, leases));
    }
  }

  lemma AnswerIsFitting(l: Ledger, l': Ledger, r: nat, p: Peer, leases: seq<ActiveLease>, now: Time, k: nat)
    requires DistinctJobs(leases) && (forall i | 0 <= i < |leases| :: ValidActiveLease(leases[i])) && k < |leases|
    requires l'.Jobs() == RenewAll(l.Jobs(), r, leases, now)
    requires Mine(l', p, leases[k].jobId, leases[k].token) && leases[k].token in p.executed
    ensures |RenewResults(l.Jobs(), r, leases, now)| == |leases|
    ensures AnswerFits(l', p, RenewResults(l.Jobs(), r, leases, now)[k], leases[k])
  {
    GrantedRenewal(l.Jobs(), r, leases, now, k);
  }

  lemma GrantedKeeps(l: Ledger, l': Ledger, r: nat, p: Peer, leases: seq<ActiveLease>, now: Time)
    requires PeerOk(l', r, p) && p.server == Receiving
    requires DistinctJobs(leases) && (forall i | 0 <= i < |leases| :: ValidActiveLease(leases[i]))
    requires l'.Jobs() == RenewAll(l.Jobs(), r, leases, now)
    requires forall a | a in leases :: Mine(l', p, a.jobId, a.token) && a.token in p.executed
    requires |RenewResults(l.Jobs(), r, leases, now)| == |leases|
    ensures PeerOk(l', r, SendDown(p, Answers(RenewResults(l.Jobs(), r, leases, now), leases)).(server := Claiming))
  {
    var results := RenewResults(l.Jobs(), r, leases, now);
    forall k | 0 <= k < |leases| ensures AnswerFits(l', p, results[k], leases[k]) {
      assert leases[k] in leases;
      AnswerIsFitting(l, l', r, p, leases, now, k);
    }
    AnswersKeep(l', r, p, results, leases);
    ServerStateKeeps(l', r, SendDown(p, Answers(results, leases)), Claiming);
  }

  /** `p` already reflects the store `l'` after the renewal. */
  lemma HeartbeatKeeps(l: Ledger, l': Ledger, r: nat, p: Peer, now: Time)
    requires PeerOk(l', r, p) && p.server == Receiving && p.up != [] && p.up[0].Beat?
    requires l'.world.store == Renew(l.world.store, p.up[0].runner.(id := r), p.up[0].leases, now)
    ensures PeerOk(l', r, Served(p, Reply(l.world.store, r, p.up[0], now)))
  {
    var q := p.up[0];
    assert RequestOk(l', p, q);
    if ValidHeartbeat(q.runner.(id := r), q.leases) {
      PopUpKeeps(l', r, p);
      RenewResultsLength(l.Jobs(), r, q.leases, now);
      GrantedKeeps(l, l', r, p.(up := p.up[1..]), q.leases, now);
    } else {
      EndKeeps(l', r, p);
    }
  }

  // Handing out a job.

  /** The job that a claim hands out: its token is the new one and current until the job's deadline. */
  lemma ClaimedJobIs(l: Ledger, l': Ledger, r: nat, token: nat, now: Time, job: Job)
    requires LedgerOk(l') && token != NO_TOKEN
    requires l'.world.store == Effect(l.world.store, ClaimJob(r, token), now)
    requires l'.history == HistoryAfter(l.history, l.world.store, ClaimJob(r, token), now)
    requires ClaimResult(l.world.store, r, token, now) == Success(Some(job))
    ensures job.token == token && Current(l', job.id, token) && Deadline(l', job.id) == job.expires
    ensures token in l'.history.owner && l'.history.owner[token] == Owner(r, job.id) && job.id !in l'.history.completed
    ensures l'.history.withdrawn == l.history.withdrawn
  {
    var i := ClaimIndex(l.world.store, r, now);
    assert l'.Jobs()[i] == job;
    FoundAt(l'.Jobs(), i);
    assert JobLedgerOk(l', l'.Jobs()[i]);
  }

  lemma OfferIsFine(l: Ledger, l': Ledger, r: nat, p: Peer, token: nat, now: Time, job: Job)
    requires LedgerOk(l) && LedgerOk(l') && TokensOk(l, r, p) && token != NO_TOKEN && token !in l.world.issued
    requires l'.world.store == Effect(l.world.store, ClaimJob(r, token), now)
    requires l'.history == HistoryAfter(l.history, l.world.store, ClaimJob(r, token), now)
    requires ClaimResult(l.world.store, r, token, now) == Success(Some(job))
    ensures OfferOk(l', r, p, job.id, job.token, job.expires) && Current(l', job.id, job.token) && job.token == token
  {
    ClaimedJobIs(l, l', r, token, now, job);
    assert token in p.adopted ==> TokenOk(l, r, p, token);
  }

  lemma ClaimKeeps(l: Ledger, l': Ledger, r: nat, p: Peer, token: nat, now: Time)
    requires LedgerOk(l) && LedgerOk(l') && PeerOk(l, r, p) && PeerOk(l', r, p) && p.server == Claiming
    requires token != NO_TOKEN && token !in l.world.issued
    requires l'.world.store == Effect(l.world.store, ClaimJob(r, token), now)
    requires l'.history == HistoryAfter(l.history, l.world.store, ClaimJob(r, token), now)
    ensures PeerOk(l', r, Claimed(p, ClaimResult(l.world.store, r, token, now)))
  {
    match ClaimResult(l.world.store, r, token, now)
    case Failure(_) => EndKeeps(l', r, p);
    case Success(None) => ServerStateKeeps(l', r, p, Receiving);
    case Success(Some(job)) =>
      OfferIsFine(l, l', r, p, token, now, job);
      IssueKeeps(l, l', r, p, job);
  }

  lemma IssueKeeps(l: Ledger, l': Ledger, r: nat, p: Peer, job: Job)
    requires PeerOk(l, r, p) && PeerOk(l', r, p) && p.server == Claiming && job.token !in l.history.owner
    requires OfferOk(l', r, p, job.id, job.token, job.expires) && Current(l', job.id, job.token)
    ensures PeerOk(l', r, p.(server := Issuing(job.id, job.token, job.expires)))
  {
    var s := Sent(Assignment(job.id, job.token, job.expires), Unasked);
    forall m | m in Wire(p) ensures InOrder(l', m, s) { assert MessageOk(l, r, p, m); }
    PushKeeps(l', r, p, p.(server := Issuing(job.id, job.token, job.expires)), s);
  }

  // What an operation takes back or completes.

  predicate NotOffered(p: Peer, token: nat) {
    forall s | s in Wire(p) && s.response.Assignment? :: s.response.token != token
  }

  lemma Unaffected(l: Ledger, l': Ledger, op: Op, now: Time, r: nat, p: Peer)
    requires PeerOk(l, r, p) && l'.history == HistoryAfter(l.history, l.world.store, op, now)
    requires HistoryExtends(l.history, l'.history)
    requires op.ReleaseJob? && l'.history != l.history ==> op.token !in p.adopted && NotOffered(p, op.token)
    requires op.CompleteJob? && l'.history != l.history ==> (op.token in p.adopted ==> op.token in p.finished) && NotOffered(p, op.token)
    ensures Undisturbed(l', p)
  {
    forall t | t in p.adopted
      ensures t !in l'.history.withdrawn &&
              (t in l'.history.owner && CompletedUnder(l', l'.history.owner[t].job, t) ==> t in p.finished)
    {
      assert TokenOk(l, r, p, t);
    }
    forall s | s in Wire(p) && s.response.Assignment?
      ensures s.response.token !in l'.history.withdrawn && !CompletedUnder(l', s.response.job, s.response.token)
    {
      assert MessageOk(l, r, p, s);
    }
  }

  /** The operations of one Runner leave the tokens of every other Runner alone. */
  lemma OthersUnaffected(l: Ledger, l': Ledger, op: Op, now: Time, r: nat, other: nat, p: Peer)
    requires LedgerOk(l) && PeerOk(l, other, p) && r != other
    requires (op.ReleaseJob? || op.CompleteJob?) ==> op.runnerId == r
    requires l'.history == HistoryAfter(l.history, l.world.store, op, now) && HistoryExtends(l.history, l'.history)
    ensures Undisturbed(l', p)
  {
    if (op.ReleaseJob? || op.CompleteJob?) && l'.history != l.history {
      AuthorizedLease(l, op.runnerId, op.jobId, op.token, now);
      assert op.token in p.adopted ==> TokenOk(l, other, p, op.token);
      forall s | s in Wire(p) && s.response.Assignment? ensures s.response.token != op.token { assert MessageOk(l, other, p, s); }
    }
    Unaffected(l, l', op, now, other, p);
  }

  /** A request of the Runner itself completes only what the Runner has finished. */
  lemma OwnRequestUnaffected(l: Ledger, l': Ledger, now: Time, r: nat, p: Peer)
    requires LedgerOk(l) && PeerOk(l, r, p) && p.up != []
    requires l'.history == HistoryAfter(l.history, l.world.store, RequestOp(r, p.up[0]), now) && HistoryExtends(l.history, l'.history)
    ensures Undisturbed(l', p)
  {
    var q := p.up[0];
    assert RequestOk(l, p, q);
    if q.Completed? {
      forall s | s in Wire(p) && s.response.Assignment? ensures s.response.token != q.token { assert MessageOk(l, r, p, s); }
    }
    Unaffected(l, l', RequestOp(r, q), now, r, p);
  }

  /** Taking an assignment back before it was sent concerns a token the Runner never saw. */
  lemma WithdrawUnaffected(l: Ledger, l': Ledger, op: Op, now: Time, r: nat, p: Peer)
    requires LedgerOk(l) && PeerOk(l, r, p) && p.server.Issuing? && (op.ReleaseJob? || op.CompleteJob?) && op.token == p.server.token
    requires l'.history == HistoryAfter(l.history, l.world.store, op, now) && HistoryExtends(l.history, l'.history)
    ensures PeerOk(l, r, ServerEnded(p)) && Undisturbed(l', ServerEnded(p))
  {
    EndKeeps(l, r, p);
    var q, n := ServerEnded(p), |p.down|;
    assert Wire(q) == p.down && MessageOk(l, r, p, Wire(p)[n]);
    forall s | s in Wire(q) && s.response.Assignment? ensures s.response.token != op.token {
      var i :| 0 <= i < n && p.down[i] == s;
      assert InOrder(l, Wire(p)[i], Wire(p)[n]) && MessageOk(l, r, q, s);
    }
    Unaffected(l, l', op, now, r, q);
  }
}
