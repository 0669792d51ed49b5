// Every step of a Runner, its session and the server keeps the session invariant.

module SessionSteps {
  import opened Basics
  import opened RunModel
  import opened JobInvariants
  import opened Scheduler
  import opened SchedulerSafety
  import opened LeaseLedger
  import opened RunnerSession
  import opened SessionInvariant

  // Counting messages.

  lemma {:induction false} AcceptancesAppend(a: seq<Request>, b: seq<Request>, t: nat)
    ensures Acceptances(a + b, t) == Acceptances(a, t) + Acceptances(b, t)
  {
    if b == [] {
      assert a + b == a;
    } else {
      var n := |b| - 1;
      assert (a + b)[..|a| + n] == a + b[..n];
      AcceptancesAppend(a, b[..n], t);
    }
  }

  lemma {:induction false} NoAcceptances(up: seq<Request>, t: nat)
    requires forall q | q in up && q.Accepted? :: q.token != t
    ensures Acceptances(up, t) == 0
  {
    if up != [] { NoAcceptances(up[..|up| - 1], t); }
  }

  lemma {:induction false} RenewalsAppend(a: seq<Sent>, b: seq<Sent>, j: nat)
    ensures Renewals(a + b, j) == Renewals(a, j) + Renewals(b, j)
  {
    if b == [] {
      assert a + b == a;
    } else {
      var n := |b| - 1;
      assert (a + b)[..|a| + n] == a + b[..n];
      RenewalsAppend(a, b[..n], j);
    }
  }

  lemma {:induction false} NoRenewals(wire: seq<Sent>, j: nat)
    ensures Renewals(wire, j) == 0 <==> forall s | s in wire :: !Renews(s, j)
  {
    if wire != [] {
      var n := |wire| - 1;
      NoRenewals(wire[..n], j);
      assert wire == wire[..n] + [wire[n]];
    }
  }

  lemma SuffixAcceptances(up: seq<Request>, a: nat, t: nat)
    requires a <= |up|
    ensures Acceptances(up[a..], t) <= Acceptances(up, t)
  {
    assert up == up[..a] + up[a..];
    AcceptancesAppend(up[..a], up[a..], t);
  }

  lemma SliceRenewals(wire: seq<Sent>, a: nat, b: nat, j: nat)
    requires a <= b <= |wire|
    ensures Renewals(wire[a..b], j) <= Renewals(wire, j)
  {
    assert wire == wire[..a] + wire[a..b] + wire[b..];
    RenewalsAppend(wire[..a] + wire[a..b], wire[b..], j);
    RenewalsAppend(wire[..a], wire[a..b], j);
  }

  // Losing messages or jobs.

  /** The peer `p'` is `p` with fewer jobs, executions and messages, but the same tokens. */
  predicate Fewer(p: Peer, p': Peer, x: nat, y: nat, z: nat) {
    x <= |p.up| && p'.up == p.up[x..] && y <= z <= |Wire(p)| && Wire(p') == Wire(p)[y..z] &&
    (forall j | j in p'.active :: j in p.active && p'.active[j] == p.active[j]) &&
    p'.executing <= p.executing && (forall o | o in p'.results :: o in p.results) &&
    p'.adopted == p.adopted && p'.executed == p.executed && p'.finished == p.finished && ChannelsOk(p')
  }

  lemma FewerKeepsAnswers(p: Peer, p': Peer, x: nat, y: nat, z: nat)
    requires AllAnswersOk(p) && Fewer(p, p', x, y, z)
    ensures AllAnswersOk(p')
  {
    forall j | j in p'.active ensures AnswersOk(p', j, p'.active[j]) {
      assert AnswersOk(p, j, p.active[j]);
      SuffixAcceptances(p.up, x, p.active[j].token);
      SliceRenewals(Wire(p), y, z, j);
    }
  }

  lemma FewerKeepsWire(l: Ledger, r: nat, p: Peer, p': Peer, x: nat, y: nat, z: nat)
    requires WireOk(l, r, p) && WireInOrder(l, Wire(p)) && Fewer(p, p', x, y, z)
    ensures WireOk(l, r, p') && WireInOrder(l, Wire(p'))
  {
    forall s | s in Wire(p') ensures MessageOk(l, r, p', s) {
      assert MessageOk(l, r, p, s);
      if s.response.Assignment? { SameTokensSuperseded(l, p, p', s.response.job, s.response.token); }
    }
    forall i, k | 0 <= i < k < |Wire(p')| ensures InOrder(l, Wire(p')[i], Wire(p')[k]) {
      assert InOrder(l, Wire(p)[y + i], Wire(p)[y + k]);
    }
  }

  lemma SameTokensSuperseded(l: Ledger, p: Peer, p': Peer, j: nat, keep: nat)
    requires Superseded(l, p, j, keep) && p'.adopted == p.adopted
    ensures Superseded(l, p', j, keep)
  {
    forall t | t in p'.adopted && Mine(l, p', j, t) && t != keep ensures !Current(l, j, t) { assert Mine(l, p, j, t); }
  }

  lemma FewerKeepsPeerOk(l: Ledger, r: nat, p: Peer, p': Peer, x: nat, y: nat, z: nat)
    requires PeerOk(l, r, p) && Fewer(p, p', x, y, z)
    ensures PeerOk(l, r, p')
  {
    FewerKeepsAnswers(p, p', x, y, z);
    FewerKeepsWire(l, r, p, p', x, y, z);
    forall t | t in p'.adopted ensures TokenOk(l, r, p', t) { assert TokenOk(l, r, p, t); }
    forall j | j in p'.active ensures EntryOk(l, p', j, p'.active[j]) && Superseded(l, p', j, p'.active[j].token) {
      assert EntryOk(l, p, j, p.active[j]);
      SameTokensSuperseded(l, p, p', j, p.active[j].token);
    }
    forall q | q in p'.up ensures RequestOk(l, p', q) { assert RequestOk(l, p, q); }
  }

  lemma BreakKeeps(l: Ledger, r: nat, p: Peer)
    requires PeerOk(l, r, p)
    ensures PeerOk(l, r, Disconnected(p))
  {
    assert Wire(Disconnected(p)) == Wire(p)[|p.down|..|Wire(p)|];
    assert p.up[0..] == p.up;
    FewerKeepsPeerOk(l, r, p, Disconnected(p), 0, |p.down|, |Wire(p)|);
  }

  lemma EndKeeps(l: Ledger, r: nat, p: Peer)
    requires PeerOk(l, r, p)
    ensures PeerOk(l, r, ServerEnded(p))
  {
    assert Wire(ServerEnded(p)) == Wire(p)[0..|p.down|];
    FewerKeepsPeerOk(l, r, p, ServerEnded(p), |p.up|, 0, |p.down|);
  }

  lemma ForgetKeeps(l: Ledger, r: nat, p: Peer, j: nat)
    requires PeerOk(l, r, p)
    ensures PeerOk(l, r, Forget(p, j))
  {
    assert Wire(Forget(p, j)) == Wire(p)[0..|Wire(p)|] && p.up[0..] == p.up;
    FewerKeepsPeerOk(l, r, p, Forget(p, j), 0, 0, |Wire(p)|);
  }

  lemma CrashKeeps(l: Ledger, r: nat, p: Peer)
    requires PeerOk(l, r, p)
    ensures PeerOk(l, r, Disconnected(p).(active := map[], executing := {}, results := []))
  {
    var q := Disconnected(p).(active := map[], executing := {}, results := []);
    assert Wire(q) == Wire(p)[|p.down|..|Wire(p)|] && p.up[0..] == p.up;
    FewerKeepsPeerOk(l, r, p, q, 0, |p.down|, |Wire(p)|);
  }

  /** The server leaves the state in which it prepares an assignment only by sending it or by ending. */
  lemma ServerStateKeeps(l: Ledger, r: nat, p: Peer, state: ServerState)
    requires PeerOk(l, r, p) && !p.server.Issuing? && p.server != Closed && !state.Issuing? && state != Closed
    ensures PeerOk(l, r, p.(server := state))
  {
    var q := p.(server := state);
    assert Wire(q) == Wire(p)[0..|Wire(p)|] && p.up[0..] == p.up;
    FewerKeepsPeerOk(l, r, p, q, 0, 0, |Wire(p)|);
  }

  lemma OfferKeeps(l: Ledger, r: nat, p: Peer)
    requires PeerOk(l, r, p) && p.server.Issuing?
    ensures PeerOk(l, r, Offered(p))
  {
    var q := Offered(p);
    assert p.up[0..] == p.up;
    if p.online {
      assert Wire(q) == Wire(p)[0..|Wire(p)|];
      FewerKeepsPeerOk(l, r, p, q, 0, 0, |Wire(p)|);
    } else {
      assert Wire(q) == Wire(p)[0..0];
      FewerKeepsPeerOk(l, r, p, q, 0, 0, 0);
    }
  }

  lemma PopDownKeeps(l: Ledger, r: nat, p: Peer)
    requires PeerOk(l, r, p) && p.down != []
    ensures PeerOk(l, r, p.(down := p.down[1..]))
  {
    var q := p.(down := p.down[1..]);
    assert Wire(q) == Wire(p)[1..|Wire(p)|] && p.up[0..] == p.up;
    FewerKeepsPeerOk(l, r, p, q, 0, 1, |Wire(p)|);
  }

  lemma PopUpKeeps(l: Ledger, r: nat, p: Peer)
    requires PeerOk(l, r, p) && p.up != []
    ensures PeerOk(l, r, p.(up := p.up[1..]))
  {
    var q := p.(up := p.up[1..]);
    assert Wire(q) == Wire(p)[0..|Wire(p)|];
    FewerKeepsPeerOk(l, r, p, q, 1, 0, |Wire(p)|);
  }

  lemma PopResultKeeps(l: Ledger, r: nat, p: Peer)
    requires PeerOk(l, r, p) && p.results != []
    ensures PeerOk(l, r, p.(results := p.results[1..]))
  {
    var q := p.(results := p.results[1..]);
    assert Wire(q) == Wire(p)[0..|Wire(p)|] && p.up[0..] == p.up;
    FewerKeepsPeerOk(l, r, p, q, 0, 0, |Wire(p)|);
  }

  // Sending one request.

  /** The job's state allows one more answer to an acceptance; a start request is only sent after it. */
  predicate MaySend(p: Peer, q: Request) {
    (q.Accepted? ==> forall j {:trigger p.active[j]} | j in p.active && p.active[j].token == q.token ::
      (p.active[j].phase == AwaitingAcceptance ==> Acceptances(p.up, q.token) + Renewals(Wire(p), j) == 0) &&
      p.active[j].phase != AwaitingStart) &&
    (q.Started? ==> forall j {:trigger p.active[j]} | j in p.active && p.active[j].token == q.token ::
      p.active[j].phase != AwaitingAcceptance)
  }

  lemma SendKeepsAnswers(p: Peer, q: Request)
    requires AllAnswersOk(p) && MaySend(p, q)
    ensures AllAnswersOk(p.(up := p.up + [q]))
  {
    var p' := p.(up := p.up + [q]);
    forall j | j in p'.active ensures AnswersOk(p', j, p'.active[j]) {
      assert AnswersOk(p, j, p.active[j]);
      assert Wire(p') == Wire(p) && p'.up[..|p.up|] == p.up;
    }
  }

  lemma SendKeeps(l: Ledger, r: nat, p: Peer, q: Request)
    requires PeerOk(l, r, p) && RequestOk(l, p, q) && MaySend(p, q)
    ensures PeerOk(l, r, SendUp(p, q))
  {
    if p.server != Closed {
      var p' := SendUp(p, q);
      SendKeepsAnswers(p, q);
      assert Wire(p') == Wire(p);
      SameStateKeeps(l, r, p, p');
      forall x | x in p'.up ensures RequestOk(l, p', x) { assert x in p.up ==> RequestOk(l, p, x); }
    }
  }

  /** What does not depend on the requests under way. */
  lemma SameStateKeeps(l: Ledger, r: nat, p: Peer, p': Peer)
    requires PeerOk(l, r, p) && Wire(p') == Wire(p) && p'.active == p.active
    requires p'.adopted == p.adopted && p'.executed == p.executed && p'.finished == p.finished
    ensures TokensOk(l, r, p') && EntriesOk(l, p') && AllSuperseded(l, p') && WireOk(l, r, p') && WireInOrder(l, Wire(p'))
  {
    forall t | t in p'.adopted ensures TokenOk(l, r, p', t) { assert TokenOk(l, r, p, t); }
    forall j | j in p'.active ensures EntryOk(l, p', j, p'.active[j]) && Superseded(l, p', j, p'.active[j].token) {
      assert EntryOk(l, p, j, p.active[j]);
      SameTokensSuperseded(l, p, p', j, p.active[j].token);
    }
    forall s | s in Wire(p') ensures MessageOk(l, r, p', s) {
      assert MessageOk(l, r, p, s);
      if s.response.Assignment? { SameTokensSuperseded(l, p, p', s.response.job, s.response.token); }
    }
  }
}
