// The store as the Runners see it: which lease of a job is current, until when, and the
// history of every lease token ever issued. The Runner protocol is proved on top of this.

module LeaseLedger {
  import opened PipelineCompiler
  import opened DependencyGraph
  import opened RunGraph
  import opened Basics
  import opened RunModel
  import opened JobInvariants
  import opened Scheduler
  import opened SchedulerSafety

  /** Whom a token was issued to, and for which job. */
  datatype Owner = Owner(runner: nat, job: nat)

  /** The token each job was started and completed under, and the tokens taken back. */
  datatype History = History(owner: map<nat, Owner>, started: map<nat, nat>, completed: map<nat, nat>, withdrawn: set<nat>)

  /** The scheduler with its history. */
  datatype Ledger = Ledger(world: World, history: History) {
    function Jobs(): seq<Job> { world.store.jobs }
    function Now(): Time { world.now }
  }

  const EMPTY_LEDGER := Ledger(World(EMPTY_STORE, 0, {}, map[]), History(map[], map[], map[], {}))

  /** Records what a store operation did. */
  function HistoryAfter(h: History, s: Store, op: Op, now: Time): History {
    match op
    case ClaimJob(r, t) =>
      var claimed := ClaimResult(s, r, t, now);
      if claimed.Success? && claimed.value.Some? then h.(owner := h.owner[t := Owner(r, claimed.value.value.id)]) else h
    case StartJob(r, j, t) =>
      if StartResult(s, r, j, t, now).Success? then h.(started := h.started[j := t]) else h
    case CompleteJob(r, j, t, status) =>
      if CompleteResult(s, r, j, t, status, now).Success? then h.(completed := h.completed[j := t]) else h
    case ReleaseJob(r, j, t) =>
      if ReleaseResult(s, r, j, t, now).Success? then h.(withdrawn := h.withdrawn + {t}) else h
    case _ => h
  }

  ghost function Perform(l: Ledger, op: Op, now: Time): Ledger
    requires Enabled(l.world, op)
  {
    Ledger(Apply(l.world, op, now), HistoryAfter(l.history, l.world.store, op, now))
  }

  // What an operation does to one job.

  predicate Change(j: Job, j': Job, op: Op, now: Time) {
    j' == j ||
    (op.ClaimJob? && j.status == Queued && j' == ClaimOne(j, op.runnerId, op.token, now)) ||
    (op.AcknowledgeJob? && Leased(j.status) && j' == AcknowledgeOne(j, now)) ||
    (op.ReleaseJob? && j.id == op.jobId && j.token == op.token && j.runnerId == op.runnerId && j.status == Assigned && j' == ReleaseOne(j)) ||
    (op.StartJob? && j.id == op.jobId && j.token == op.token && Leased(j.status) && j' == j.(status := Running)) ||
    (op.Heartbeat? && Leased(j.status) && j' == j.(expires := now + RUNNER_LEASE_DURATION)) ||
    (op.CompleteJob? && j.id == op.jobId && j.token == op.token && j.runnerId == op.runnerId && Leased(j.status) &&
     CompletionStatus(op.status) && j' == CompleteOne(j, op.status)) ||
    (j.status == Blocked && j' == j.(status := Queued)) ||
    (op.RecoverLeases? && RecoveredJob(j, j', now)) ||
    ((j.status == Blocked || j.status == Queued) && j' == j.(status := Skipped))
  }

  lemma {:induction false} RenewExtends(jobs: seq<Job>, runnerId: nat, leases: seq<ActiveLease>, now: Time, i: nat)
    requires i < |jobs|
    ensures var j, j' := jobs[i], RenewAll(jobs, runnerId, leases, now)[i];
            j' == j || (Leased(j.status) && j' == j.(expires := now + RUNNER_LEASE_DURATION))
  {
    if leases != [] { RenewExtends(jobs, runnerId, leases[..|leases| - 1], now, i); }
  }

  lemma CompleteChanges(s: Store, op: Op, now: Time, i: nat)
    requires i < |s.jobs| && op.CompleteJob?
    ensures i < |Effect(s, op, now).jobs| && Change(s.jobs[i], Effect(s, op, now).jobs[i], op, now)
  {
    if CompleteResult(s, op.runnerId, op.jobId, op.token, op.status, now).Success? {
      CompletedJob(s.jobs, FindJob(s.jobs, op.jobId), op.status, i);
    }
  }

  lemma HolderChanges(s: Store, op: Op, now: Time, i: nat)
    requires i < |s.jobs| && (op.AcknowledgeJob? || op.ReleaseJob? || op.StartJob? || op.ClaimJob?)
    ensures i < |Effect(s, op, now).jobs| && Change(s.jobs[i], Effect(s, op, now).jobs[i], op, now)
  {
  }

  lemma OpChanges(l: Ledger, op: Op, now: Time, i: nat)
    requires Enabled(l.world, op) && i < |l.Jobs()|
    ensures i < |Perform(l, op, now).Jobs()| && Change(l.Jobs()[i], Perform(l, op, now).Jobs()[i], op, now)
  {
    var s := l.world.store;
    match op
    case CreateRun(_, _, _) =>
    case CompleteJob(_, _, _, _) => CompleteChanges(s, op, now, i);
    case Heartbeat(runner, leases) => RenewExtends(s.jobs, runner.id, leases, now, i);
    case RecoverLeases(limit) => RecoverTouches(s, |s.jobs|, limit, now, i);
    case _ => HolderChanges(s, op, now, i);
  }

  // Lookup by job identifier.

  predicate Known(l: Ledger, j: nat) {
    FindJob(l.Jobs(), j) < |l.Jobs()|
  }

  predicate Current(l: Ledger, j: nat, t: nat) {
    t != NO_TOKEN && Known(l, j) && l.Jobs()[FindJob(l.Jobs(), j)].token == t
  }

  function Deadline(l: Ledger, j: nat): Time
    requires Known(l, j)
  {
    l.Jobs()[FindJob(l.Jobs(), j)].expires
  }

  predicate CompletedUnder(l: Ledger, j: nat, t: nat) {
    j in l.history.completed && l.history.completed[j] == t
  }

  predicate StartedUnder(l: Ledger, j: nat, t: nat) {
    j in l.history.started && l.history.started[j] == t
  }

  // The invariant of the ledger.

  predicate JobLedgerOk(l: Ledger, j: Job) {
    LeaseOk(j, l.world.issued) &&
    j.expires <= l.Now() + RUNNER_LEASE_DURATION &&
    (j.token != NO_TOKEN ==> j.token in l.history.owner && l.history.owner[j.token] == Owner(j.runnerId, j.id)) &&
    (j.status == Running ==> StartedUnder(l, j.id, j.token)) &&
    (j.id in l.history.started ==> j.status == Running || JobTerminal(j.status)) &&
    (j.id in l.history.completed ==> JobTerminal(j.status))
  }

  predicate HistoryOk(l: Ledger) {
    l.history.owner.Keys <= l.world.issued && NO_TOKEN !in l.history.owner &&
    (forall t | t in l.history.owner :: Known(l, l.history.owner[t].job)) &&
    (forall j | j in l.history.started :: Known(l, j)) && (forall j | j in l.history.completed :: Known(l, j)) &&
    (forall t | t in l.history.withdrawn :: t in l.history.owner)
  }

  predicate LedgerOk(l: Ledger) {
    DistinctIds(l.Jobs()) && HistoryOk(l) && forall i {:trigger l.Jobs()[i]} | 0 <= i < |l.Jobs()| :: JobLedgerOk(l, l.Jobs()[i])
  }

  // How leases evolve.

  /** Why a lease is no longer current. */
  predicate LeaseEnded(l: Ledger, j: Job) {
    j.expires <= l.Now() || CompletedUnder(l, j.id, j.token) || j.token in l.history.withdrawn
  }

  /** A lease is only ever prolonged or ended, and a free job only gets a token never issued before. */
  predicate JobEvolves(l: Ledger, l': Ledger, j: Job, j': Job) {
    j'.id == j.id &&
    (j.token == NO_TOKEN ==> j'.token == NO_TOKEN || j'.token !in l.history.owner) &&
    (j.token != NO_TOKEN ==> (j'.token == j.token && j.expires <= j'.expires) || (j'.token == NO_TOKEN && LeaseEnded(l', j)))
  }

  predicate HistoryExtends(h: History, h': History) {
    (forall t | t in h.owner :: t in h'.owner && h'.owner[t] == h.owner[t]) &&
    (forall j | j in h.started :: j in h'.started && h'.started[j] == h.started[j]) &&
    (forall j | j in h.completed :: j in h'.completed && h'.completed[j] == h.completed[j]) && h.withdrawn <= h'.withdrawn
  }

  predicate Evolves(l: Ledger, l': Ledger) {
    l.Now() <= l'.Now() && HistoryExtends(l.history, l'.history) && |l.Jobs()| <= |l'.Jobs()| &&
    forall i {:trigger l.Jobs()[i]} | 0 <= i < |l.Jobs()| :: JobEvolves(l, l', l.Jobs()[i], l'.Jobs()[i])
  }

  lemma FoundAt(jobs: seq<Job>, i: nat)
    requires DistinctIds(jobs) && i < |jobs|
    ensures FindJob(jobs, jobs[i].id) == i
  {
  }

  lemma SameJob(l: Ledger, l': Ledger, j: nat)
    requires LedgerOk(l) && LedgerOk(l') && Evolves(l, l') && Known(l, j)
    ensures FindJob(l'.Jobs(), j) == FindJob(l.Jobs(), j)
  {
    var i := FindJob(l.Jobs(), j);
    assert JobEvolves(l, l', l.Jobs()[i], l'.Jobs()[i]);
    FoundAt(l'.Jobs(), i);
  }

  /** The three facts about one issued token that the protocol relies on. */
  lemma TokenEvolves(l: Ledger, l': Ledger, t: nat)
    requires LedgerOk(l) && LedgerOk(l') && Evolves(l, l') && t in l.history.owner
    ensures var j := l.history.owner[t].job;
            Known(l, j) && Known(l', j) &&
            (!Current(l, j, t) ==> !Current(l', j, t)) &&
            (Current(l, j, t) && Current(l', j, t) ==> Deadline(l, j) <= Deadline(l', j)) &&
            (Current(l, j, t) && !Current(l', j, t) ==>
              Deadline(l, j) <= l'.Now() || CompletedUnder(l', j, t) || t in l'.history.withdrawn)
  {
    var j := l.history.owner[t].job;
    var i := FindJob(l.Jobs(), j);
    SameJob(l, l', j);
    assert JobEvolves(l, l', l.Jobs()[i], l'.Jobs()[i]);
  }

  /** A deadline handed out for a token: never after the store's while the token is current. */
  predicate Bounded(l: Ledger, j: nat, t: nat, expires: Time) {
    if Current(l, j, t) then expires <= Deadline(l, j)
    else expires <= l.Now() || CompletedUnder(l, j, t) || t in l.history.withdrawn
  }

  lemma BoundedStays(l: Ledger, l': Ledger, t: nat, expires: Time)
    requires LedgerOk(l) && LedgerOk(l') && Evolves(l, l') && t in l.history.owner && Bounded(l, l.history.owner[t].job, t, expires)
    ensures Bounded(l', l.history.owner[t].job, t, expires)
  {
    TokenEvolves(l, l', t);
  }

  // Every operation keeps the ledger invariant and lets leases only evolve.

  /** What the history records about a job that changed from `j` to `j'`. */
  predicate Noted(h: History, h': History, op: Op, j: Job, j': Job) {
    (op.ClaimJob? && j' != j && j.status == Queued ==> j'.token in h'.owner && h'.owner[j'.token] == Owner(j'.runnerId, j'.id)) &&
    (op.ReleaseJob? && j' != j && j.status == Assigned ==> j.token in h'.withdrawn) &&
    (op.StartJob? && j' != j && Leased(j.status) ==> j.id in h'.started && h'.started[j.id] == j.token) &&
    (op.CompleteJob? && j' != j && Leased(j.status) ==> j.id in h'.completed && h'.completed[j.id] == j.token) &&
    (j.id in h'.started ==>
      (j.id in h.started && h'.started[j.id] == h.started[j.id]) || (j'.status == Running && h'.started[j.id] == j.token)) &&
    (j.id in h'.completed ==> j.id in h.completed || JobTerminal(j'.status))
  }

  lemma StartNotes(h: History, s: Store, op: Op, now: Time, i: nat)
    requires op.StartJob?
    requires DistinctIds(s.jobs) && i < |s.jobs| && i < |Effect(s, op, now).jobs|
    requires (Leased(s.jobs[i].status) <==> s.jobs[i].token != NO_TOKEN)
    ensures Noted(h, HistoryAfter(h, s, op, now), op, s.jobs[i], Effect(s, op, now).jobs[i])
  {
    FoundAt(s.jobs, i);
  }

  lemma ReleaseNotes(h: History, s: Store, op: Op, now: Time, i: nat)
    requires op.ReleaseJob?
    requires DistinctIds(s.jobs) && i < |s.jobs| && i < |Effect(s, op, now).jobs|
    requires (Leased(s.jobs[i].status) <==> s.jobs[i].token != NO_TOKEN)
    ensures Noted(h, HistoryAfter(h, s, op, now), op, s.jobs[i], Effect(s, op, now).jobs[i])
  {
    FoundAt(s.jobs, i);
  }

  lemma ClaimNotes(h: History, s: Store, op: Op, now: Time, i: nat)
    requires op.ClaimJob?
    requires DistinctIds(s.jobs) && i < |s.jobs| && i < |Effect(s, op, now).jobs|
    requires (Leased(s.jobs[i].status) <==> s.jobs[i].token != NO_TOKEN)
    ensures Noted(h, HistoryAfter(h, s, op, now), op, s.jobs[i], Effect(s, op, now).jobs[i])
  {
    FoundAt(s.jobs, i);
  }

  lemma HistoryNotes(h: History, s: Store, op: Op, now: Time, i: nat)
    requires !op.CreateRun? && !op.CompleteJob?
    requires DistinctIds(s.jobs) && i < |s.jobs| && i < |Effect(s, op, now).jobs|
    requires (Leased(s.jobs[i].status) <==> s.jobs[i].token != NO_TOKEN)
    ensures Noted(h, HistoryAfter(h, s, op, now), op, s.jobs[i], Effect(s, op, now).jobs[i])
  {
    match op
    case StartJob(_, _, _) => StartNotes(h, s, op, now, i);
    case ReleaseJob(_, _, _) => ReleaseNotes(h, s, op, now, i);
    case ClaimJob(_, _) => ClaimNotes(h, s, op, now, i);
    case _ =>
  }

  lemma CompletionNotes(h: History, s: Store, op: Op, now: Time, i: nat)
    requires op.CompleteJob? && DistinctIds(s.jobs) && i < |s.jobs|
    requires (Leased(s.jobs[i].status) <==> s.jobs[i].token != NO_TOKEN)
    ensures |Effect(s, op, now).jobs| == |s.jobs|
    ensures Noted(h, HistoryAfter(h, s, op, now), op, s.jobs[i], Effect(s, op, now).jobs[i])
  {
    FoundAt(s.jobs, i);
    if CompleteResult(s, op.runnerId, op.jobId, op.token, op.status, now).Success? {
      CompletedJob(s.jobs, FindJob(s.jobs, op.jobId), op.status, i);
    }
  }

  /** What the ledger knows about a lease that the store accepts. */
  lemma AuthorizedLease(l: Ledger, r: nat, j: nat, t: nat, now: Time)
    requires LedgerOk(l) && Authorized(l.Jobs(), r, j, t, now)
    ensures Current(l, j, t) && t in l.history.owner && l.history.owner[t] == Owner(r, j)
    ensures j in l.history.started ==> l.history.started[j] == t
    ensures j !in l.history.completed
  {
    assert JobLedgerOk(l, l.Jobs()[FindJob(l.Jobs(), j)]);
  }

  lemma StartExtends(h: History, s: Store, op: Op, now: Time)
    requires op.StartJob? && (op.jobId in h.started && StartResult(s, op.runnerId, op.jobId, op.token, now).Success? ==>
                              h.started[op.jobId] == op.token)
    ensures HistoryExtends(h, HistoryAfter(h, s, op, now))
  {
  }

  lemma CompletionExtends(h: History, s: Store, op: Op, now: Time)
    requires op.CompleteJob?
    requires CompleteResult(s, op.runnerId, op.jobId, op.token, op.status, now).Success? ==> op.jobId !in h.completed
    ensures HistoryExtends(h, HistoryAfter(h, s, op, now))
  {
  }

  lemma RecordedExtends(l: Ledger, op: Op, now: Time)
    requires LedgerOk(l) && (op.ClaimJob? ==> op.token !in l.world.issued)
    ensures HistoryExtends(l.history, HistoryAfter(l.history, l.world.store, op, now))
  {
    match op
    case StartJob(r, j, t) =>
      if Authorized(l.Jobs(), r, j, t, now) { AuthorizedLease(l, r, j, t, now); }
      StartExtends(l.history, l.world.store, op, now);
    case CompleteJob(r, j, t, _) =>
      if Authorized(l.Jobs(), r, j, t, now) { AuthorizedLease(l, r, j, t, now); }
      CompletionExtends(l.history, l.world.store, op, now);
    case _ =>
  }

  /** A job that was in the store before. */
  lemma ChangedJobOk(l: Ledger, l': Ledger, op: Op, now: Time, i: nat)
    requires LedgerOk(l) && Enabled(l.world, op) && l.Now() <= now && i < |l.Jobs()| && l' == Perform(l, op, now)
    requires |l.Jobs()| <= |l'.Jobs()| && HistoryExtends(l.history, l'.history) && LeaseOk(l'.Jobs()[i], l'.world.issued)
    ensures JobLedgerOk(l', l'.Jobs()[i]) && JobEvolves(l, l', l.Jobs()[i], l'.Jobs()[i])
  {
    OpChanges(l, op, now, i);
    var j := l.Jobs()[i];
    assert JobLedgerOk(l, j);
    if op.CompleteJob? {
      CompletionNotes(l.history, l.world.store, op, now, i);
    } else if !op.CreateRun? {
      HistoryNotes(l.history, l.world.store, op, now, i);
    }
    assert op.ClaimJob? ==> op.token !in l.history.owner;
    ChangeIsFine(l, l', op, now, j, l'.Jobs()[i]);
  }

  lemma ChangeIsFine(l: Ledger, l': Ledger, op: Op, now: Time, j: Job, j': Job)
    requires JobLedgerOk(l, j) && LeaseOk(j', l'.world.issued) && (op.ClaimJob? ==> op.token !in l.history.owner)
    requires Change(j, j', op, now) && Noted(l.history, l'.history, op, j, j')
    requires HistoryExtends(l.history, l'.history) && l.Now() <= l'.Now() == now
    ensures JobLedgerOk(l', j') && JobEvolves(l, l', j, j')
  {
  }

  // Jobs that a new run adds, and the jobs the history names.

  lemma PerformKeepsIds(l: Ledger, op: Op, now: Time)
    requires Enabled(l.world, op)
    ensures |l.Jobs()| <= |Perform(l, op, now).Jobs()| && (!op.CreateRun? ==> |l.Jobs()| == |Perform(l, op, now).Jobs()|)
    ensures forall i | 0 <= i < |l.Jobs()| :: Perform(l, op, now).Jobs()[i].id == l.Jobs()[i].id
  {
    if !op.CreateRun? { EffectKeepsShapes(l.world.store, op, now); }
  }

  lemma AddedJobOk(l: Ledger, op: Op, now: Time, i: nat)
    requires LedgerOk(l) && op.CreateRun? && Enabled(l.world, op) && |l.Jobs()| <= i < |Perform(l, op, now).Jobs()|
    requires LeaseOk(Perform(l, op, now).Jobs()[i], Perform(l, op, now).world.issued)
    ensures JobLedgerOk(Perform(l, op, now), Perform(l, op, now).Jobs()[i])
  {
    assert !Known(l, op.ids[i - |l.Jobs()|]);
  }

  lemma KnownStays(l: Ledger, l': Ledger, j: nat)
    requires Known(l, j) && |l.Jobs()| <= |l'.Jobs()|
    requires forall i | 0 <= i < |l.Jobs()| :: l'.Jobs()[i].id == l.Jobs()[i].id
    ensures Known(l', j)
  {
    assert l'.Jobs()[FindJob(l.Jobs(), j)].id == j;
  }

  /** Claims and requests name jobs of the store. */
  lemma RecordedNames(h: History, s: Store, op: Op, now: Time)
    ensures var h' := HistoryAfter(h, s, op, now);
            (forall t | t in h'.owner :: (t in h.owner && h'.owner[t] == h.owner[t]) ||
                                         (op.ClaimJob? && t == op.token && FindJob(s.jobs, h'.owner[t].job) < |s.jobs|)) &&
            (forall j | j in h'.started :: j in h.started || FindJob(s.jobs, j) < |s.jobs|) &&
            (forall j | j in h'.completed :: j in h.completed || FindJob(s.jobs, j) < |s.jobs|) &&
            (forall t | t in h'.withdrawn :: t in h.withdrawn || (op.ReleaseJob? && t == op.token && Authorized(s.jobs, op.runnerId, op.jobId, t, now)))
  {
    if op.ClaimJob? && !ClaimRefused(s, op.runnerId) && ClaimIndex(s, op.runnerId, now) < |s.jobs| {
      assert s.jobs[ClaimIndex(s, op.runnerId, now)].id == HistoryAfter(h, s, op, now).owner[op.token].job;
    }
  }

  lemma PerformKeepsHistoryOk(l: Ledger, l': Ledger, op: Op, now: Time)
    requires LedgerOk(l) && Enabled(l.world, op) && l' == Perform(l, op, now) && HistoryExtends(l.history, l'.history)
    ensures HistoryOk(l')
  {
    PerformKeepsIds(l, op, now);
    RecordedNames(l.history, l.world.store, op, now);
    forall t | t in l'.history.owner ensures Known(l', l'.history.owner[t].job) && t in l'.world.issued && t != NO_TOKEN {
      KnownStays(l, l', l'.history.owner[t].job);
    }
    forall j | j in l'.history.started ensures Known(l', j) { KnownStays(l, l', j); }
    forall j | j in l'.history.completed ensures Known(l', j) { KnownStays(l, l', j); }
    forall t | t in l'.history.withdrawn ensures t in l'.history.owner {
      if t !in l.history.withdrawn { AuthorizedLease(l, op.runnerId, op.jobId, t, now); }
    }
  }

  /** Every store operation keeps the ledger invariant, and leases only evolve. */
  lemma PerformKeepsLedgerOk(l: Ledger, op: Op, now: Time)
    requires Inv(l.world) && LedgerOk(l) && Enabled(l.world, op) && l.Now() <= now
    ensures Inv(Perform(l, op, now).world) && LedgerOk(Perform(l, op, now)) && Evolves(l, Perform(l, op, now))
  {
    var l' := Perform(l, op, now);
    StepKeepsInv(l.world, op, now);
    RecordedExtends(l, op, now);
    PerformKeepsIds(l, op, now);
    PerformKeepsHistoryOk(l, l', op, now);
    forall i | 0 <= i < |l'.Jobs()| ensures JobLedgerOk(l', l'.Jobs()[i]) {
      if i < |l.Jobs()| { ChangedJobOk(l, l', op, now, i); } else { AddedJobOk(l, op, now, i); }
    }
    forall i | 0 <= i < |l.Jobs()| ensures JobEvolves(l, l', l.Jobs()[i], l'.Jobs()[i]) { ChangedJobOk(l, l', op, now, i); }
  }
}
