// The client's steps keep the session invariant.

module ClientSteps {
  import opened Basics
  import opened RunModel
  import opened LeaseLedger
  import opened RunnerSession
  import opened SessionInvariant
  import opened SessionSteps

  lemma EntryTokensDiffer(l: Ledger, p: Peer, j: nat, k: nat)
    requires EntriesOk(l, p) && j in p.active && k in p.active && j != k
    ensures p.active[j].token != p.active[k].token
  {
    assert EntryOk(l, p, j, p.active[j]) && EntryOk(l, p, k, p.active[k]);
  }

  lemma TokenNamesJob(l: Ledger, p: Peer, j: nat, k: nat)
    requires EntriesOk(l, p) && j in p.active && k in p.active && p.active[j].token == p.active[k].token
    ensures j == k
  {
    assert EntryOk(l, p, j, p.active[j]) && EntryOk(l, p, k, p.active[k]);
  }

  // Changing one entry.

  lemma UpdateKeepsAnswers(p: Peer, j: nat, job: LocalJob)
    requires AllAnswersOk(p) && j in p.active && AnswersOk(p, j, job)
    ensures AllAnswersOk(p.(active := p.active[j := job]))
  {
    var p' := p.(active := p.active[j := job]);
    assert Wire(p') == Wire(p);
    forall k | k in p'.active ensures AnswersOk(p', k, p'.active[k]) { assert AnswersOk(p, k, p.active[k]); }
  }

  lemma UpdateKeeps(l: Ledger, r: nat, p: Peer, j: nat, job: LocalJob)
    requires PeerOk(l, r, p) && j in p.active && job.token == p.active[j].token
    requires EntryOk(l, p, j, job) && AnswersOk(p, j, job)
    ensures PeerOk(l, r, p.(active := p.active[j := job]))
  {
    var p' := p.(active := p.active[j := job]);
    UpdateKeepsAnswers(p, j, job);
    assert Wire(p') == Wire(p);
    forall t | t in p'.adopted ensures TokenOk(l, r, p', t) { assert TokenOk(l, r, p, t); }
    forall k | k in p'.active ensures EntryOk(l, p', k, p'.active[k]) && Superseded(l, p', k, p'.active[k].token) {
      assert EntryOk(l, p, k, p.active[k]);
      SameTokensSuperseded(l, p, p', k, p.active[k].token);
    }
    forall s | s in Wire(p') ensures MessageOk(l, r, p', s) {
      assert MessageOk(l, r, p, s);
      if s.response.Assignment? { SameTokensSuperseded(l, p, p', s.response.job, s.response.token); }
    }
    forall q | q in p'.up ensures RequestOk(l, p', q) { assert RequestOk(l, p, q); }
  }

  lemma ExpireKeeps(l: Ledger, r: nat, p: Peer, j: nat)
    requires PeerOk(l, r, p) && j in p.active
    ensures PeerOk(l, r, p.(active := p.active[j := p.active[j].(authorityLost := true)]))
  {
    assert EntryOk(l, p, j, p.active[j]) && AnswersOk(p, j, p.active[j]);
    UpdateKeeps(l, r, p, j, p.active[j].(authorityLost := true));
  }

  // Connecting and heartbeats.

  lemma {:induction false} ListedOk(l: Ledger, p: Peer, order: seq<nat>)
    requires EntriesOk(l, p) && p.finished <= p.executed && forall x | x in order :: x in p.active
    ensures forall a | a in Listed(p.active, order) :: Mine(l, p, a.jobId, a.token) && a.token in p.executed
  {
    if order != [] {
      ListedOk(l, p, order[..|order| - 1]);
      assert EntryOk(l, p, order[|order| - 1], p.active[order[|order| - 1]]);
    }
  }

  lemma {:induction false} TransitionsOk(l: Ledger, p: Peer, order: seq<nat>)
    requires EntriesOk(l, p) && forall x | x in order :: x in p.active
    ensures forall q | q in Transitions(p.active, order) :: !q.Beat? && !q.Completed? && RequestOk(l, p, q)
    ensures forall q | q in Transitions(p.active, order) && q.Started? ::
      q.job in p.active && p.active[q.job].token == q.token && p.active[q.job].phase == AwaitingStart
  {
    if order != [] {
      TransitionsOk(l, p, order[..|order| - 1]);
      assert EntryOk(l, p, order[|order| - 1], p.active[order[|order| - 1]]);
    }
  }

  /** A job's acceptance is resent at most once, and only while it awaits acceptance. */
  lemma {:induction false} ResentOnce(l: Ledger, p: Peer, order: seq<nat>, j: nat)
    requires EntriesOk(l, p) && j in p.active && (forall x | x in order :: x in p.active)
    requires forall i, k | 0 <= i < k < |order| :: order[i] != order[k]
    ensures Acceptances(Transitions(p.active, order), p.active[j].token) <=
            if j in order && p.active[j].phase == AwaitingAcceptance then 1 else 0
  {
    if order != [] {
      var n := |order| - 1;
      ResentOnce(l, p, order[..n], j);
      var last := Transition(order[n], p.active[order[n]]);
      AcceptancesAppend(Transitions(p.active, order[..n]), last, p.active[j].token);
      if order[n] != j {
        EntryTokensDiffer(l, p, j, order[n]);
        NoAcceptances(last, p.active[j].token);
      } else {
        assert last != [] ==> last == [last[0]] && last[..0] == [];
      }
    }
  }

  lemma ConnectKeeps(l: Ledger, r: nat, p: Peer, order: seq<nat>, listing: seq<nat>)
    requires PeerOk(l, r, p) && !p.online && p.server == Closed && Enumerates(order, p.active) && Enumerates(listing, p.active)
    ensures PeerOk(l, r, p.(online := true, server := Receiving, down := [],
                            up := Transitions(p.active, order) + [Beat(p.capabilities, Listed(p.active, listing))]))
  {
    var beat := Beat(p.capabilities, Listed(p.active, listing));
    var p' := p.(online := true, server := Receiving, down := [], up := Transitions(p.active, order) + [beat]);
    assert Wire(p) == [] && Wire(p') == [];
    SameStateKeeps(l, r, p, p');
    ListedOk(l, p, listing);
    TransitionsOk(l, p, order);
    forall q | q in p'.up ensures RequestOk(l, p', q) { assert RequestOk(l, p, q); }
    forall j | j in p'.active ensures AnswersOk(p', j, p'.active[j]) {
      ResentOnce(l, p, order, j);
      forall q | q in p'.up && q.Started? && q.token == p.active[j].token ensures q.job == j {
        TokenNamesJob(l, p, j, q.job);
      }
      assert p'.up[..|p'.up| - 1] == Transitions(p.active, order);
    }
  }

  lemma TickKeeps(l: Ledger, r: nat, p: Peer, listing: seq<nat>)
    requires PeerOk(l, r, p) && Enumerates(listing, p.active)
    ensures PeerOk(l, r, SendUp(p, Beat(p.capabilities, Listed(p.active, listing))))
  {
    ListedOk(l, p, listing);
    SendKeeps(l, r, p, Beat(p.capabilities, Listed(p.active, listing)));
  }

  // Receiving a renewal.

  /** The first message under way is a renewal of an active job: what remains, and what it answers. */
  lemma RenewalArrives(l: Ledger, r: nat, p: Peer, j: nat)
    requires PeerOk(l, r, p) && p.down != [] && Renews(p.down[0], j) && j in p.active
    ensures var q, job, s := p.(down := p.down[1..]), p.active[j], p.down[0];
            Bounded(l, j, job.token, s.response.expires) &&
            (job.phase == AwaitingAcceptance ==> AnswersOk(q, j, job.(phase := AwaitingStart))) &&
            (job.phase == AwaitingStart ==> StartedUnder(l, j, job.token))
  {
    var s, q := p.down[0], p.(down := p.down[1..]);
    assert Wire(p) == [s] + Wire(q) && Wire(p)[0] == s;
    assert MessageOk(l, r, p, s) && AnswersOk(p, j, p.active[j]);
    RenewalsAppend([s], Wire(q), j);
    NoRenewals(Wire(q), j);
    assert Renewals([s], j) == 1 by { assert [s][..0] == []; }
  }

  lemma ExecuteKeeps(l: Ledger, r: nat, p: Peer, j: nat, job: LocalJob)
    requires PeerOk(l, r, p) && j in p.active && job.token == p.active[j].token && p.active[j].phase == AwaitingStart
    requires StartedUnder(l, j, job.token) && (!job.authorityLost ==> Bounded(l, j, job.token, job.leaseExpires))
    ensures PeerOk(l, r, p.(active := p.active[j := job.(phase := Executing)],
                            executing := p.executing + {(j, job.token)}, executed := p.executed + {job.token}))
  {
    var p' := p.(active := p.active[j := job.(phase := Executing)],
                 executing := p.executing + {(j, job.token)}, executed := p.executed + {job.token});
    assert Wire(p') == Wire(p) && EntryOk(l, p, j, p.active[j]) && TokenOk(l, r, p, job.token);
    forall t | t in p'.adopted ensures TokenOk(l, r, p', t) { assert TokenOk(l, r, p, t); }
    forall k | k in p'.active
      ensures EntryOk(l, p', k, p'.active[k]) && Superseded(l, p', k, p'.active[k].token) && AnswersOk(p', k, p'.active[k])
    {
      assert EntryOk(l, p, k, p.active[k]) && AnswersOk(p, k, p.active[k]);
      if k != j { EntryTokensDiffer(l, p, j, k); }
      SameTokensSuperseded(l, p, p', k, p.active[k].token);
    }
    forall s | s in Wire(p') ensures MessageOk(l, r, p', s) {
      assert MessageOk(l, r, p, s);
      if s.response.Assignment? { SameTokensSuperseded(l, p, p', s.response.job, s.response.token); }
    }
    forall q | q in p'.up ensures RequestOk(l, p', q) { assert RequestOk(l, p, q); }
  }

  lemma RenewalKeeps(l: Ledger, r: nat, p: Peer, j: nat)
    requires PeerOk(l, r, p) && p.down != [] && Renews(p.down[0], j)
    ensures PeerOk(l, r, OnRenewal(p.(down := p.down[1..]), j, p.down[0].response.expires, l.Now()))
  {
    var q, expires := p.(down := p.down[1..]), p.down[0].response.expires;
    PopDownKeeps(l, r, p);
    if j !in q.active {
      BreakKeeps(l, r, q);
    } else if q.active[j].authorityLost || expires <= l.Now() {
      ForgetKeeps(l, r, q, j);
    } else {
      RenewalArrives(l, r, p, j);
      AdvanceKeeps(l, r, q, j, q.active[j].(leaseExpires := expires));
    }
  }

  lemma AdvanceKeeps(l: Ledger, r: nat, p: Peer, j: nat, job: LocalJob)
    requires PeerOk(l, r, p) && j in p.active && job == p.active[j].(leaseExpires := job.leaseExpires)
    requires Bounded(l, j, job.token, job.leaseExpires)
    requires job.phase == AwaitingAcceptance ==> AnswersOk(p, j, job.(phase := AwaitingStart))
    requires job.phase == AwaitingStart ==> StartedUnder(l, j, job.token)
    ensures PeerOk(l, r, Advance(p, j, job))
  {
    assert EntryOk(l, p, j, p.active[j]) && AnswersOk(p, j, p.active[j]);
    match job.phase
    case AwaitingAcceptance =>
      var next := job.(phase := AwaitingStart);
      var p' := p.(active := p.active[j := next]);
      UpdateKeeps(l, r, p, j, next);
      forall k | k in p'.active && p'.active[k].token == job.token ensures k == j { TokenNamesJob(l, p', j, k); }
      SendKeeps(l, r, p', Started(j, job.token));
    case AwaitingStart => ExecuteKeeps(l, r, p, j, job);
    case Executing => UpdateKeeps(l, r, p, j, job);
    case Concluded =>
      UpdateKeeps(l, r, p, j, job);
      SendKeeps(l, r, p.(active := p.active[j := job]), Completed(j, job.token, job.result.value));
  }

  // Receiving an assignment.

  /** A Runner never receives the same assignment twice. */
  lemma AssignmentIsNew(l: Ledger, r: nat, p: Peer, j: nat, t: nat, expires: Time)
    requires EntriesOk(l, p) && OfferOk(l, r, p, j, t, expires) && j in p.active
    ensures p.active[j].token != t
  {
    assert EntryOk(l, p, j, p.active[j]);
  }

  function Adopted(p: Peer, j: nat, t: nat, expires: Time): Peer {
    p.(active := p.active[j := LocalJob(t, expires, AwaitingAcceptance, false, None)], adopted := p.adopted + {t})
  }

  /** `p` is the client after the assignment was taken from the channel; `s` is that assignment. */
  predicate Taken(l: Ledger, r: nat, p: Peer, s: Sent) {
    s.response.Assignment? && OfferOk(l, r, p, s.response.job, s.response.token, s.response.expires) &&
    forall m | m in Wire(p) :: InOrder(l, s, m)
  }

  lemma AdoptKeepsWire(l: Ledger, r: nat, p: Peer, s: Sent)
    requires PeerOk(l, r, p) && Taken(l, r, p, s)
    ensures var p' := Adopted(p, s.response.job, s.response.token, s.response.expires); WireOk(l, r, p')
  {
    var j, t := s.response.job, s.response.token;
    var p' := Adopted(p, j, t, s.response.expires);
    assert Wire(p') == Wire(p);
    forall m | m in Wire(p') ensures MessageOk(l, r, p', m) {
      assert MessageOk(l, r, p, m) && InOrder(l, s, m);
      if m.response.Assignment? { AdoptKeepsSuperseded(l, p, s, m.response.job, m.response.token); }
    }
  }

  lemma AdoptKeepsSuperseded(l: Ledger, p: Peer, s: Sent, j: nat, keep: nat)
    requires s.response.Assignment? && s.response.token in l.history.owner && l.history.owner[s.response.token].job == s.response.job
    requires Superseded(l, p, j, keep)
    requires j == s.response.job && keep != s.response.token ==> !Current(l, j, s.response.token)
    ensures Superseded(l, Adopted(p, s.response.job, s.response.token, s.response.expires), j, keep)
  {
    var p' := Adopted(p, s.response.job, s.response.token, s.response.expires);
    forall t | t in p'.adopted && Mine(l, p', j, t) && t != keep ensures !Current(l, j, t) {
      if t != s.response.token { assert Mine(l, p, j, t); }
    }
  }

  lemma AdoptKeepsEntries(l: Ledger, r: nat, p: Peer, s: Sent)
    requires PeerOk(l, r, p) && Taken(l, r, p, s) && s.response.job !in p.active
    ensures var p' := Adopted(p, s.response.job, s.response.token, s.response.expires);
            TokensOk(l, r, p') && EntriesOk(l, p') && AllSuperseded(l, p') && RequestsOk(l, p')
  {
    var j, t := s.response.job, s.response.token;
    var p' := Adopted(p, j, t, s.response.expires);
    forall x | x in p'.adopted ensures TokenOk(l, r, p', x) { assert x != t ==> TokenOk(l, r, p, x); }
    forall k | k in p'.active ensures EntryOk(l, p', k, p'.active[k]) && Superseded(l, p', k, p'.active[k].token) {
      assert k != j ==> EntryOk(l, p, k, p.active[k]);
      AdoptKeepsSuperseded(l, p, s, k, p'.active[k].token);
    }
    forall q | q in p'.up ensures RequestOk(l, p', q) { assert RequestOk(l, p, q); }
  }

  lemma AdoptKeepsAnswers(l: Ledger, r: nat, p: Peer, s: Sent)
    requires PeerOk(l, r, p) && Taken(l, r, p, s) && s.response.job !in p.active
    ensures var p' := Adopted(p, s.response.job, s.response.token, s.response.expires);
            AllAnswersOk(p') && Acceptances(p'.up, s.response.token) + Renewals(Wire(p'), s.response.job) == 0
  {
    var j, t := s.response.job, s.response.token;
    var p' := Adopted(p, j, t, s.response.expires);
    assert Wire(p') == Wire(p);
    forall q | q in p.up && (q.Accepted? || q.Started?) ensures q.token != t { assert RequestOk(l, p, q); }
    NoAcceptances(p.up, t);
    NoRenewals(Wire(p), j);
    forall k | k in p'.active ensures AnswersOk(p', k, p'.active[k]) { assert k != j ==> AnswersOk(p, k, p.active[k]); }
  }

  lemma AdoptKeeps(l: Ledger, r: nat, p: Peer, s: Sent)
    requires PeerOk(l, r, p) && Taken(l, r, p, s) && s.response.job !in p.active
    ensures var j, t := s.response.job, s.response.token;
            PeerOk(l, r, SendUp(Adopted(p, j, t, s.response.expires), Accepted(j, t)))
  {
    var j, t := s.response.job, s.response.token;
    var p' := Adopted(p, j, t, s.response.expires);
    assert Wire(p') == Wire(p);
    AdoptKeepsWire(l, r, p, s);
    AdoptKeepsEntries(l, r, p, s);
    AdoptKeepsAnswers(l, r, p, s);
    assert MaySend(p', Accepted(j, t)) by {
      forall k | k in p'.active && p'.active[k].token == t ensures k == j { TokenNamesJob(l, p', j, k); }
    }
    SendKeeps(l, r, p', Accepted(j, t));
  }

  lemma AssignmentKeeps(l: Ledger, r: nat, p: Peer)
    requires PeerOk(l, r, p) && p.down != [] && p.down[0].response.Assignment?
    ensures var a := p.down[0].response;
            PeerOk(l, r, OnAssignment(p.(down := p.down[1..]), a.job, a.token, a.expires, l.Now()))
  {
    var q, s := p.(down := p.down[1..]), p.down[0];
    PopDownKeeps(l, r, p);
    AssignmentTaken(l, r, p);
    if s.response.expires <= l.Now() {
      BreakKeeps(l, r, q);
    } else if s.response.job in q.active {
      AssignmentIsNew(l, r, q, s.response.job, s.response.token, s.response.expires);
      BreakKeeps(l, r, q);
    } else if |q.active| >= q.capabilities.capacity {
      BreakKeeps(l, r, q);
    } else {
      AdoptKeeps(l, r, q, s);
    }
  }

  lemma AssignmentTaken(l: Ledger, r: nat, p: Peer)
    requires PeerOk(l, r, p) && p.down != [] && p.down[0].response.Assignment?
    ensures Taken(l, r, p.(down := p.down[1..]), p.down[0])
  {
    var q, s := p.(down := p.down[1..]), p.down[0];
    assert Wire(p) == [s] + Wire(q) && Wire(p)[0] == s;
    assert MessageOk(l, r, p, s);
    SameTokensSuperseded(l, p, q, s.response.job, s.response.token);
    forall m | m in Wire(q) ensures InOrder(l, s, m) {
      var k :| 0 <= k < |Wire(q)| && Wire(q)[k] == m;
      assert InOrder(l, Wire(p)[0], Wire(p)[k + 1]);
    }
  }

  // The end of an execution.

  lemma ConcludeKeeps(l: Ledger, r: nat, p: Peer, execution: (nat, nat), conclusion: JobStatus, delivered: bool)
    requires PeerOk(l, r, p) && execution in p.executing && CompletionStatus(conclusion)
    ensures var q := p.(executing := p.executing - {execution});
            PeerOk(l, r, if delivered then q.(results := q.results + [Outcome(execution.0, execution.1, conclusion)]) else q)
  {
    var q := p.(executing := p.executing - {execution});
    var p' := if delivered then q.(results := q.results + [Outcome(execution.0, execution.1, conclusion)]) else q;
    assert Wire(p') == Wire(p);
    SameStateKeeps(l, r, p, p');
    forall x | x in p'.up ensures RequestOk(l, p', x) { assert RequestOk(l, p, x); }
    forall j | j in p'.active ensures AnswersOk(p', j, p'.active[j]) { assert AnswersOk(p, j, p.active[j]); }
  }

  lemma FinishKeeps(l: Ledger, r: nat, p: Peer, j: nat, conclusion: JobStatus)
    requires PeerOk(l, r, p) && j in p.active && p.active[j].phase == Executing && CompletionStatus(conclusion)
    ensures PeerOk(l, r, p.(active := p.active[j := p.active[j].(phase := Concluded, result := Some(conclusion))],
                            finished := p.finished + {p.active[j].token}))
  {
    var t := p.active[j].token;
    var p' := p.(active := p.active[j := p.active[j].(phase := Concluded, result := Some(conclusion))], finished := p.finished + {t});
    assert Wire(p') == Wire(p) && EntryOk(l, p, j, p.active[j]);
    forall x | x in p'.adopted ensures TokenOk(l, r, p', x) { assert TokenOk(l, r, p, x); }
    forall k | k in p'.active
      ensures EntryOk(l, p', k, p'.active[k]) && Superseded(l, p', k, p'.active[k].token) && AnswersOk(p', k, p'.active[k])
    {
      assert EntryOk(l, p, k, p.active[k]) && AnswersOk(p, k, p.active[k]);
      if k != j { EntryTokensDiffer(l, p, j, k); }
      SameTokensSuperseded(l, p, p', k, p.active[k].token);
    }
    forall s | s in Wire(p') ensures MessageOk(l, r, p', s) {
      assert MessageOk(l, r, p, s);
      if s.response.Assignment? { SameTokensSuperseded(l, p, p', s.response.job, s.response.token); }
    }
    forall q | q in p'.up ensures RequestOk(l, p', q) { assert RequestOk(l, p, q); }
  }

  lemma ReportKeeps(l: Ledger, r: nat, p: Peer)
    requires PeerOk(l, r, p) && p.results != []
    ensures PeerOk(l, r, OnResult(p.(results := p.results[1..]), p.results[0], l.Now()))
  {
    var q, o := p.(results := p.results[1..]), p.results[0];
    PopResultKeeps(l, r, p);
    if o.job in q.active {
      var job := q.active[o.job];
      if job.phase != Executing || job.authorityLost || job.leaseExpires <= l.Now() {
        ForgetKeeps(l, r, q, o.job);
      } else {
        FinishKeeps(l, r, q, o.job, o.conclusion);
        var q' := q.(active := q.active[o.job := job.(phase := Concluded, result := Some(o.conclusion))],
                     finished := q.finished + {job.token});
        assert EntryOk(l, q', o.job, q'.active[o.job]);
        SendKeeps(l, r, q', Completed(o.job, job.token, o.conclusion));
      }
    }
  }

  /** Whatever the server's next message is, the client's handling of it keeps the invariant. */
  lemma ReceiveKeeps(l: Ledger, r: nat, p: Peer)
    requires PeerOk(l, r, p) && p.down != []
    ensures PeerOk(l, r, OnResponse(p.(down := p.down[1..]), p.down[0].response, l.Now()))
  {
    match p.down[0].response
    case Assignment(_, _, _) => AssignmentKeeps(l, r, p);
    case LeaseRenewed(j, _) => RenewalKeeps(l, r, p, j);
    case Cancel(j) =>
      PopDownKeeps(l, r, p);
      ForgetKeeps(l, r, p.(down := p.down[1..]), j);
  }
}
