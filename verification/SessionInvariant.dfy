// What holds between a Runner, its session and the store in every reachable state: which
// token each in-flight message is about, and which request each in-flight renewal answers.

module SessionInvariant {
  import opened Basics
  import opened RunModel
  import opened LeaseLedger
  import opened RunnerSession

  /** What the client has still to receive: the messages under way and the assignment being prepared. */
  function Wire(p: Peer): seq<Sent> {
    p.down +
    if p.server.Issuing? then [Sent(Assignment(p.server.job, p.server.token, p.server.expires), Unasked)] else []
  }

  function Acceptances(up: seq<Request>, token: nat): nat {
    if up == [] then 0
    else Acceptances(up[..|up| - 1], token) + if up[|up| - 1].Accepted? && up[|up| - 1].token == token then 1 else 0
  }

  predicate Renews(s: Sent, j: nat) {
    s.response.LeaseRenewed? && s.response.job == j
  }

  function Renewals(wire: seq<Sent>, j: nat): nat {
    if wire == [] then 0
    else Renewals(wire[..|wire| - 1], j) + if Renews(wire[|wire| - 1], j) then 1 else 0
  }

  // The parts of the invariant.

  /** The Runner once adopted this token for this job. */
  predicate Mine(l: Ledger, p: Peer, j: nat, t: nat) {
    t in p.adopted && t in l.history.owner && l.history.owner[t].job == j
  }

  predicate TokenOk(l: Ledger, r: nat, p: Peer, t: nat) {
    t in l.history.owner && l.history.owner[t].runner == r && t !in l.history.withdrawn &&
    (CompletedUnder(l, l.history.owner[t].job, t) ==> t in p.finished) &&
    (t in p.executed ==> StartedUnder(l, l.history.owner[t].job, t))
  }

  predicate TokensOk(l: Ledger, r: nat, p: Peer) {
    p.finished <= p.executed <= p.adopted && forall t {:trigger TokenOk(l, r, p, t)} | t in p.adopted :: TokenOk(l, r, p, t)
  }

  predicate PhaseMatches(p: Peer, job: LocalJob) {
    match job.phase
    case AwaitingAcceptance => job.token !in p.executed
    case AwaitingStart => job.token !in p.executed
    case Executing => job.token in p.executed && job.token !in p.finished
    case Concluded => job.token in p.finished && job.result.Some? && CompletionStatus(job.result.value)
  }

  predicate EntryOk(l: Ledger, p: Peer, j: nat, job: LocalJob) {
    Mine(l, p, j, job.token) && PhaseMatches(p, job) && (!job.authorityLost ==> Bounded(l, j, job.token, job.leaseExpires))
  }

  predicate EntriesOk(l: Ledger, p: Peer) {
    forall j {:trigger p.active[j]} | j in p.active :: EntryOk(l, p, j, p.active[j])
  }

  /** Of the Runner's tokens for the job, at most `keep` is still current. */
  predicate Superseded(l: Ledger, p: Peer, j: nat, keep: nat) {
    forall t {:trigger Mine(l, p, j, t)} | t in p.adopted && Mine(l, p, j, t) && t != keep :: !Current(l, j, t)
  }

  predicate AllSuperseded(l: Ledger, p: Peer) {
    forall j {:trigger p.active[j]} | j in p.active :: Superseded(l, p, j, p.active[j].token)
  }

  predicate OfferOk(l: Ledger, r: nat, p: Peer, j: nat, t: nat, expires: Time) {
    t in l.history.owner && l.history.owner[t] == Owner(r, j) && t !in p.adopted && t !in l.history.withdrawn &&
    !CompletedUnder(l, j, t) && Bounded(l, j, t, expires) && Superseded(l, p, j, t)
  }

  predicate RenewalOk(l: Ledger, p: Peer, j: nat, expires: Time, answers: Answer) {
    answers != Unasked && Mine(l, p, j, answers.token) && Bounded(l, j, answers.token, expires) &&
    (answers.ToHeartbeat? ==> answers.token in p.executed) && (answers.ToStart? ==> StartedUnder(l, j, answers.token)) &&
    (j in p.active ==> p.active[j].token == answers.token)
  }

  predicate MessageOk(l: Ledger, r: nat, p: Peer, s: Sent) {
    match s.response
    case Assignment(j, t, expires) => OfferOk(l, r, p, j, t, expires)
    case LeaseRenewed(j, expires) => RenewalOk(l, p, j, expires, s.answers)
    case Cancel(_) => true
  }

  predicate WireOk(l: Ledger, r: nat, p: Peer) {
    forall s {:trigger MessageOk(l, r, p, s)} | s in Wire(p) :: MessageOk(l, r, p, s)
  }

  /** After an assignment of a job no renewal for it follows, and a later assignment has superseded it. */
  predicate InOrder(l: Ledger, a: Sent, b: Sent) {
    a.response.Assignment? && a.response.job == b.response.job ==>
      !b.response.LeaseRenewed? &&
      (b.response.Assignment? ==> a.response.token != b.response.token && !Current(l, a.response.job, a.response.token))
  }

  predicate WireInOrder(l: Ledger, wire: seq<Sent>) {
    forall i, k {:trigger InOrder(l, wire[i], wire[k])} | 0 <= i < k < |wire| :: InOrder(l, wire[i], wire[k])
  }

  predicate RequestOk(l: Ledger, p: Peer, q: Request) {
    match q
    case Accepted(j, t) => Mine(l, p, j, t)
    case Started(j, t) => Mine(l, p, j, t)
    case Completed(j, t, conclusion) => Mine(l, p, j, t) && t in p.finished && CompletionStatus(conclusion)
    case Beat(_, leases) => forall a | a in leases :: Mine(l, p, a.jobId, a.token) && a.token in p.executed
  }

  predicate RequestsOk(l: Ledger, p: Peer) {
    forall q {:trigger RequestOk(l, p, q)} | q in p.up :: RequestOk(l, p, q)
  }

  /** Before acceptance at most one answer can be under way; before the start every answer is to a start request. */
  predicate AnswersOk(p: Peer, j: nat, job: LocalJob) {
    (job.phase == AwaitingAcceptance ==>
      Acceptances(p.up, job.token) + Renewals(Wire(p), j) <= 1 && forall q | q in p.up && q.Started? :: q.token != job.token) &&
    (job.phase == AwaitingStart ==>
      Acceptances(p.up, job.token) == 0 && forall s | s in Wire(p) && Renews(s, j) :: s.answers.ToStart?)
  }

  predicate AllAnswersOk(p: Peer) {
    forall j {:trigger p.active[j]} | j in p.active :: AnswersOk(p, j, p.active[j])
  }

  predicate ExecutionsOk(l: Ledger, p: Peer) {
    (forall e | e in p.executing :: e.1 in p.executed && Mine(l, p, e.0, e.1)) &&
    (forall o | o in p.results :: o.token in p.executed && Mine(l, p, o.job, o.token) && CompletionStatus(o.conclusion))
  }

  predicate ChannelsOk(p: Peer) {
    (!p.online ==> p.down == []) && (p.server == Closed ==> p.up == [])
  }

  ghost predicate PeerOk(l: Ledger, r: nat, p: Peer) {
    TokensOk(l, r, p) && EntriesOk(l, p) && AllSuperseded(l, p) && WireOk(l, r, p) && WireInOrder(l, Wire(p)) &&
    RequestsOk(l, p) && AllAnswersOk(p) && ExecutionsOk(l, p) && ChannelsOk(p)
  }

  // The invariant survives whatever the rest of the system does to the store.

  /** No token of this Runner was taken back, and none was completed that the Runner has not finished. */
  predicate Undisturbed(l': Ledger, p: Peer) {
    (forall t | t in p.adopted :: t !in l'.history.withdrawn &&
      (t in l'.history.owner && CompletedUnder(l', l'.history.owner[t].job, t) ==> t in p.finished)) &&
    (forall s | s in Wire(p) && s.response.Assignment? ::
      s.response.token !in l'.history.withdrawn && !CompletedUnder(l', s.response.job, s.response.token))
  }

  lemma TokensEvolve(l: Ledger, l': Ledger, r: nat, p: Peer)
    requires LedgerOk(l) && LedgerOk(l') && Evolves(l, l') && TokensOk(l, r, p) && Undisturbed(l', p)
    ensures TokensOk(l', r, p)
  {
    forall t | t in p.adopted ensures TokenOk(l', r, p, t) { assert TokenOk(l, r, p, t); }
  }

  lemma SupersededEvolves(l: Ledger, l': Ledger, r: nat, p: Peer, j: nat, keep: nat)
    requires LedgerOk(l) && LedgerOk(l') && Evolves(l, l') && TokensOk(l, r, p) && Superseded(l, p, j, keep)
    ensures Superseded(l', p, j, keep)
  {
    forall t | t in p.adopted && Mine(l', p, j, t) && t != keep ensures !Current(l', j, t) {
      assert TokenOk(l, r, p, t) && Mine(l, p, j, t);
      TokenEvolves(l, l', t);
    }
  }

  lemma EntriesEvolve(l: Ledger, l': Ledger, r: nat, p: Peer)
    requires LedgerOk(l) && LedgerOk(l') && Evolves(l, l') && TokensOk(l, r, p) && EntriesOk(l, p) && AllSuperseded(l, p)
    ensures EntriesOk(l', p) && AllSuperseded(l', p)
  {
    forall j | j in p.active ensures EntryOk(l', p, j, p.active[j]) && Superseded(l', p, j, p.active[j].token) {
      var job := p.active[j];
      assert EntryOk(l, p, j, job);
      if !job.authorityLost { BoundedStays(l, l', job.token, job.leaseExpires); }
      SupersededEvolves(l, l', r, p, j, job.token);
    }
  }

  lemma MessageEvolves(l: Ledger, l': Ledger, r: nat, p: Peer, s: Sent)
    requires LedgerOk(l) && LedgerOk(l') && Evolves(l, l') && TokensOk(l, r, p) && Undisturbed(l', p)
    requires s in Wire(p) && MessageOk(l, r, p, s)
    ensures MessageOk(l', r, p, s)
  {
    match s.response
    case Assignment(j, t, expires) =>
      BoundedStays(l, l', t, expires);
      SupersededEvolves(l, l', r, p, j, t);
    case LeaseRenewed(j, expires) => BoundedStays(l, l', s.answers.token, expires);
    case Cancel(_) =>
  }

  lemma WireEvolves(l: Ledger, l': Ledger, r: nat, p: Peer)
    requires LedgerOk(l) && LedgerOk(l') && Evolves(l, l') && TokensOk(l, r, p) && Undisturbed(l', p)
    requires WireOk(l, r, p) && WireInOrder(l, Wire(p))
    ensures WireOk(l', r, p) && WireInOrder(l', Wire(p))
  {
    var wire := Wire(p);
    forall s | s in wire ensures MessageOk(l', r, p, s) { MessageEvolves(l, l', r, p, s); }
    forall i, k | 0 <= i < k < |wire| ensures InOrder(l', wire[i], wire[k]) {
      assert InOrder(l, wire[i], wire[k]) && MessageOk(l, r, p, wire[i]);
      if wire[i].response.Assignment? { TokenEvolves(l, l', wire[i].response.token); }
    }
  }

  lemma PeerEvolves(l: Ledger, l': Ledger, r: nat, p: Peer)
    requires LedgerOk(l) && LedgerOk(l') && Evolves(l, l') && PeerOk(l, r, p) && Undisturbed(l', p)
    ensures PeerOk(l', r, p)
  {
    TokensEvolve(l, l', r, p);
    EntriesEvolve(l, l', r, p);
    WireEvolves(l, l', r, p);
    RequestsEvolve(l, l', p);
  }

  lemma RequestsEvolve(l: Ledger, l': Ledger, p: Peer)
    requires HistoryExtends(l.history, l'.history) && RequestsOk(l, p) && ExecutionsOk(l, p)
    ensures RequestsOk(l', p) && ExecutionsOk(l', p)
  {
    forall q | q in p.up ensures RequestOk(l', p, q) { assert RequestOk(l, p, q); }
  }
}
