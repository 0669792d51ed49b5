// Webhook deliveries: leased to a worker, retried up to a bound, recovered after a crash,
// and committed together with the run they create (internal/store/postgres/webhook_inbox.go
// and github_ci.go, internal/githubci/orchestrator.go).

module WebhookInbox {
  import opened Basics

  const MAX_ATTEMPTS := 12
  const NO_LEASE := 0
  const RETRY_BASE_DELAY: Time := 5 * SECOND
  const RETRY_MAX_DELAY: Time := 15 * 60 * SECOND
  const MIN_LEASE: Time := SECOND
  const MAX_LEASE: Time := 10 * 60 * SECOND

  // Retry delays.

  function Pow2(n: nat): (r: nat)
    ensures r > 0
  {
    if n == 0 then 1 else 2 * Pow2(n - 1)
  }

  function Capped(delay: Time): Time {
    if delay < RETRY_MAX_DELAY then delay else RETRY_MAX_DELAY
  }

  /** Five seconds, doubled for each further attempt, and never more than a quarter of an hour. */
  function RetryDelay(attempt: int): (r: Time)
    ensures RETRY_BASE_DELAY <= r <= RETRY_MAX_DELAY
  {
    var doublings := if attempt > 1 then attempt - 1 else 0;
    Pow2Positive(doublings);
    Capped(RETRY_BASE_DELAY * Pow2(doublings))
  }

  lemma Pow2Positive(n: nat)
    ensures RETRY_BASE_DELAY * Pow2(n) >= RETRY_BASE_DELAY
  {
  }

  lemma {:induction false} CappedStays(n: nat, m: nat)
    requires n <= m && RETRY_BASE_DELAY * Pow2(n) >= RETRY_MAX_DELAY
    ensures RETRY_BASE_DELAY * Pow2(m) >= RETRY_MAX_DELAY
  {
    if n < m { CappedStays(n, m - 1); }
  }

  /** The loop of `retryDelay`, which stops doubling at the cap. */
  method ComputeRetryDelay(attempt: int) returns (delay: Time)
    ensures delay == RetryDelay(attempt)
  {
    delay := RETRY_BASE_DELAY;
    var current := 1;
    while current < attempt && delay < RETRY_MAX_DELAY
      invariant current >= 1 && (current == 1 || current <= attempt)
      invariant delay == Capped(RETRY_BASE_DELAY * Pow2(current - 1))
    {
      delay := delay * 2;
      if delay > RETRY_MAX_DELAY { delay := RETRY_MAX_DELAY; }
      current := current + 1;
    }
    if current < attempt { CappedStays(current - 1, attempt - 1); }
  }

  // Deliveries.

  datatype Status = Received | Processing | Processed | Ignored | DeadLetter

  /** What the delivery said: its event type and payload digest. */
  datatype Payload = Payload(eventType: string, digest: string)

  datatype Row = Row(payload: Payload, status: Status, attempts: nat, owner: nat, expires: Time, nextAttempt: Time, run: Option<nat>)

  /** A run created for a delivery; `details` stands for repository, commit, event, name and configuration digest. */
  datatype HookRun = HookRun(id: nat, delivery: nat, details: string, failed: bool)

  datatype WorkItem = WorkItem(delivery: nat, lease: nat, attempt: nat)

  datatype Inbox = Inbox(rows: map<nat, Row>, runs: seq<HookRun>)

  datatype Final = AsProcessed | AsIgnored | AsRetry(next: Time) | AsDead

  datatype Result<+T> = Success(value: T) | Conflict | NoDelivery | LeaseInvalid | InvalidCommit

  predicate Ended(s: Status) {
    s == Processed || s == Ignored || s == DeadLetter
  }

  predicate Held(inbox: Inbox, delivery: nat, lease: nat, now: Time) {
    delivery in inbox.rows && inbox.rows[delivery].status == Processing && inbox.rows[delivery].owner == lease &&
    now < inbox.rows[delivery].expires
  }

  /** A delivery that is already known must be the same one. */
  function Receive(inbox: Inbox, delivery: nat, payload: Payload, now: Time): Result<(Inbox, bool)> {
    if delivery !in inbox.rows then
      Success((inbox.(rows := inbox.rows[delivery := Row(payload, Received, 0, NO_LEASE, 0, now, None)]), false))
    else if inbox.rows[delivery].payload == payload then Success((inbox, true))
    else Conflict
  }

  predicate Claimable(inbox: Inbox, delivery: nat, now: Time) {
    delivery in inbox.rows && inbox.rows[delivery].status == Received && inbox.rows[delivery].nextAttempt <= now
  }

  function Claim(inbox: Inbox, delivery: nat, lease: nat, duration: Time, now: Time): Result<(Inbox, WorkItem)> {
    if duration < MIN_LEASE || duration > MAX_LEASE then LeaseInvalid
    else if !Claimable(inbox, delivery, now) then NoDelivery
    else
      var row := inbox.rows[delivery];
      Success((inbox.(rows := inbox.rows[delivery := row.(status := Processing, attempts := row.attempts + 1,
                                                         owner := lease, expires := now + duration)]),
               WorkItem(delivery, lease, row.attempts + 1)))
  }

  function FinalRow(row: Row, final: Final): Row {
    match final
    case AsRetry(next) => row.(status := Received, owner := NO_LEASE, expires := 0, nextAttempt := next)
    case AsProcessed => row.(status := Processed, owner := NO_LEASE, expires := 0)
    case AsIgnored => row.(status := Ignored, owner := NO_LEASE, expires := 0)
    case AsDead => row.(status := DeadLetter, owner := NO_LEASE, expires := 0)
  }

  /** Only the holder of a lease that has not run out may finalize; a retry must lie in the future. */
  function Finalize(inbox: Inbox, delivery: nat, lease: nat, final: Final, now: Time): Result<Inbox> {
    if (final.AsRetry? && final.next <= now) || lease == NO_LEASE || !Held(inbox, delivery, lease, now) then LeaseInvalid
    else Success(inbox.(rows := inbox.rows[delivery := FinalRow(inbox.rows[delivery], final)]))
  }

  function RecoverRow(row: Row, now: Time): Row {
    if row.attempts >= MAX_ATTEMPTS then row.(status := DeadLetter, owner := NO_LEASE, expires := 0, nextAttempt := now)
    else row.(status := Received, owner := NO_LEASE, expires := 0, nextAttempt := now)
  }

  predicate Stuck(row: Row, now: Time) {
    row.status == Processing && row.expires <= now
  }

  /** Takes back the leases in `chosen` that have run out. */
  function Recover(inbox: Inbox, chosen: set<nat>, now: Time): Inbox {
    inbox.(rows := map d | d in inbox.rows ::
      if d in chosen && Stuck(inbox.rows[d], now) then RecoverRow(inbox.rows[d], now) else inbox.rows[d])
  }

  function FindRun(runs: seq<HookRun>, delivery: nat, k: nat): (r: nat)
    requires k <= |runs|
    ensures k <= r <= |runs| && (r < |runs| ==> runs[r].delivery == delivery)
    ensures forall i | k <= i < r :: runs[i].delivery != delivery
    decreases |runs| - k
  {
    if k == |runs| || runs[k].delivery == delivery then k else FindRun(runs, delivery, k + 1)
  }

  predicate Matches(run: HookRun, details: string, failed: bool) {
    run.details == details && (failed ==> run.failed)
  }

  function FinishRow(row: Row, run: nat): Row {
    row.(status := Processed, owner := NO_LEASE, expires := 0, run := Some(run))
  }

  /** Creates the run of the delivery, or finds the one it has, and marks the delivery processed, in one transaction. */
  function Commit(inbox: Inbox, delivery: nat, lease: nat, runId: nat, details: string, failed: bool, now: Time): Result<(Inbox, HookRun, bool)> {
    if !Held(inbox, delivery, lease, now) then LeaseInvalid
    else
      var k := FindRun(inbox.runs, delivery, 0);
      if k < |inbox.runs| && !Matches(inbox.runs[k], details, failed) then InvalidCommit
      else
        var run := if k < |inbox.runs| then inbox.runs[k] else HookRun(runId, delivery, details, failed);
        Success((Inbox(inbox.rows[delivery := FinishRow(inbox.rows[delivery], run.id)],
                       if k < |inbox.runs| then inbox.runs else inbox.runs + [run]),
                 run, k == |inbox.runs|))
  }

  // The orchestrator.

  /** How a failed attempt ends: transient failures are retried until the limit. */
  function AfterFailure(item: WorkItem, transient: bool, now: Time): Final {
    if transient && item.attempt < MAX_ATTEMPTS then AsRetry(now + RetryDelay(item.attempt)) else AsDead
  }

  // The system: any number of workers, each of which may act on an item it once claimed, however late.

  datatype System = System(inbox: Inbox, now: Time, claims: seq<WorkItem>)

  const START := System(Inbox(map[], []), 0, [])

  datatype Step =
    | ReceiveStep(delivery: nat, payload: Payload)
    | ClaimStep(delivery: nat, lease: nat, duration: Time)
    | CommitStep(item: WorkItem, runId: nat, details: string, failed: bool)
    | IgnoreStep(item: WorkItem)
    | FailStep(item: WorkItem, transient: bool)
    | RecoverStep(chosen: set<nat>)

  predicate Can(s: System, step: Step, now: Time) {
    s.now <= now &&
    match step
    case ClaimStep(_, lease, _) => lease != NO_LEASE && forall c | c in s.claims :: c.lease != lease
    case CommitStep(item, _, _, _) => item in s.claims
    case IgnoreStep(item) => item in s.claims
    case FailStep(item, _) => item in s.claims
    case _ => true
  }

  function Take(s: System, step: Step, now: Time): System
    requires Can(s, step, now)
  {
    var later := s.(now := now);
    match step
    case ReceiveStep(delivery, payload) =>
      var r := Receive(s.inbox, delivery, payload, now);
      if r.Success? then later.(inbox := r.value.0) else later
    case ClaimStep(delivery, lease, duration) =>
      var r := Claim(s.inbox, delivery, lease, duration, now);
      if r.Success? then later.(inbox := r.value.0, claims := s.claims + [r.value.1]) else later
    case CommitStep(item, runId, details, failed) =>
      var r := Commit(s.inbox, item.delivery, item.lease, runId, details, failed, now);
      if r.Success? then later.(inbox := r.value.0) else later
    case IgnoreStep(item) =>
      var r := Finalize(s.inbox, item.delivery, item.lease, AsIgnored, now);
      if r.Success? then later.(inbox := r.value) else later
    case FailStep(item, transient) =>
      var r := Finalize(s.inbox, item.delivery, item.lease, AfterFailure(item, transient, now), now);
      if r.Success? then later.(inbox := r.value) else later
    case RecoverStep(chosen) => later.(inbox := Recover(s.inbox, chosen, now))
  }

  ghost predicate Next(s: System, s': System) {
    exists step, now :: Can(s, step, now) && s' == Take(s, step, now)
  }

  ghost predicate Behaviour(trace: seq<System>) {
    trace != [] && trace[0] == START &&
    forall i, j {:trigger Next(trace[i], trace[j])} | 0 <= i < |trace| && j == i + 1 && j < |trace| :: Next(trace[i], trace[j])
  }

  // The invariant.

  function Claims(claims: seq<WorkItem>, delivery: nat): nat {
    if claims == [] then 0
    else Claims(claims[..|claims| - 1], delivery) + if claims[|claims| - 1].delivery == delivery then 1 else 0
  }

  predicate HasRun(runs: seq<HookRun>, delivery: nat) {
    exists k | 0 <= k < |runs| :: runs[k].delivery == delivery
  }

  predicate RowOk(s: System, d: nat, row: Row) {
    row.attempts == Claims(s.claims, d) <= MAX_ATTEMPTS && (row.status == Received ==> row.attempts < MAX_ATTEMPTS) &&
    (row.status == Processing ==> row.owner != NO_LEASE) && (HasRun(s.inbox.runs, d) ==> row.status == Processed) &&
    (row.run.Some? ==>
      row.status == Processed && exists k | 0 <= k < |s.inbox.runs| :: s.inbox.runs[k].delivery == d && s.inbox.runs[k].id == row.run.value)
  }

  /** A lease in use is the last claim of its delivery; a work item carries the attempt count it was claimed at. */
  predicate ClaimOk(s: System, c: WorkItem) {
    c.delivery in s.inbox.rows && c.lease != NO_LEASE && 1 <= c.attempt &&
    (s.inbox.rows[c.delivery].status == Processing && s.inbox.rows[c.delivery].owner == c.lease ==>
      s.inbox.rows[c.delivery].attempts == c.attempt)
  }

  ghost predicate SystemOk(s: System) {
    (forall d {:trigger s.inbox.rows[d]} | d in s.inbox.rows :: RowOk(s, d, s.inbox.rows[d])) &&
    (forall c {:trigger ClaimOk(s, c)} | c in s.claims :: ClaimOk(s, c)) &&
    (forall i, k | 0 <= i < k < |s.inbox.runs| :: s.inbox.runs[i].delivery != s.inbox.runs[k].delivery) &&
    (forall k | 0 <= k < |s.inbox.runs| :: s.inbox.runs[k].delivery in s.inbox.rows) &&
    (forall d: nat :: d !in s.inbox.rows ==> Claims(s.claims, d) == 0)
  }

  lemma ClaimsAppend(claims: seq<WorkItem>, c: WorkItem, d: nat)
    ensures Claims(claims + [c], d) == Claims(claims, d) + if c.delivery == d then 1 else 0
  {
    assert (claims + [c])[..|claims|] == claims;
  }

  /** A change of rows that keeps runs and claims, row by row. */
  predicate RowMoves(row: Row, row': Row) {
    row'.attempts == row.attempts && row'.run == row.run &&
    (row' == row || (row.status == Processing && row'.status != Processing && row'.status != Processed && row.run == None &&
                     (row'.status == Received ==> row.attempts < MAX_ATTEMPTS)))
  }

  lemma RowMovesKeep(s: System, rows: map<nat, Row>, now: Time)
    requires SystemOk(s) && rows.Keys == s.inbox.rows.Keys && forall d {:trigger rows[d]} | d in rows :: RowMoves(s.inbox.rows[d], rows[d])
    ensures SystemOk(System(s.inbox.(rows := rows), now, s.claims))
  {
    var s' := System(s.inbox.(rows := rows), now, s.claims);
    forall d | d in rows ensures RowOk(s', d, rows[d]) { assert RowOk(s, d, s.inbox.rows[d]) && RowMoves(s.inbox.rows[d], rows[d]); }
    forall c | c in s.claims ensures ClaimOk(s', c) { assert ClaimOk(s, c) && RowMoves(s.inbox.rows[c.delivery], rows[c.delivery]); }
  }

  lemma FinalizeKeeps(s: System, item: WorkItem, final: Final, now: Time)
    requires SystemOk(s) && item in s.claims && !final.AsProcessed? && (final.AsRetry? ==> item.attempt < MAX_ATTEMPTS)
    ensures var r := Finalize(s.inbox, item.delivery, item.lease, final, now);
            SystemOk(System(if r.Success? then r.value else s.inbox, now, s.claims))
  {
    var r := Finalize(s.inbox, item.delivery, item.lease, final, now);
    var rows := if r.Success? then r.value.rows else s.inbox.rows;
    assert ClaimOk(s, item) && RowOk(s, item.delivery, s.inbox.rows[item.delivery]);
    RowMovesKeep(s, rows, now);
  }

  lemma RecoverKeeps(s: System, chosen: set<nat>, now: Time)
    requires SystemOk(s)
    ensures SystemOk(System(Recover(s.inbox, chosen, now), now, s.claims))
  {
    var rows := Recover(s.inbox, chosen, now).rows;
    forall d | d in rows ensures RowMoves(s.inbox.rows[d], rows[d]) { assert RowOk(s, d, s.inbox.rows[d]); }
    RowMovesKeep(s, rows, now);
  }

  lemma ReceiveKeeps(s: System, delivery: nat, payload: Payload, now: Time)
    requires SystemOk(s)
    ensures var r := Receive(s.inbox, delivery, payload, now);
            SystemOk(System(if r.Success? then r.value.0 else s.inbox, now, s.claims))
  {
    var r := Receive(s.inbox, delivery, payload, now);
    var s' := System(if r.Success? then r.value.0 else s.inbox, now, s.claims);
    forall d | d in s'.inbox.rows ensures RowOk(s', d, s'.inbox.rows[d]) {
      if d in s.inbox.rows { assert RowOk(s, d, s.inbox.rows[d]); }
    }
    forall c | c in s'.claims ensures ClaimOk(s', c) { assert ClaimOk(s, c); }
  }

  function ClaimedRow(row: Row, lease: nat, expires: Time): Row {
    row.(status := Processing, attempts := row.attempts + 1, owner := lease, expires := expires)
  }

  lemma ClaimKeepsRow(s: System, s': System, delivery: nat, lease: nat, expires: Time, d: nat)
    requires delivery in s.inbox.rows && s.inbox.rows[delivery].status == Received && lease != NO_LEASE
    requires s'.inbox == s.inbox.(rows := s.inbox.rows[delivery := ClaimedRow(s.inbox.rows[delivery], lease, expires)])
    requires s'.claims == s.claims + [WorkItem(delivery, lease, s.inbox.rows[delivery].attempts + 1)]
    requires d in s.inbox.rows && RowOk(s, d, s.inbox.rows[d])
    ensures RowOk(s', d, s'.inbox.rows[d])
  {
    ClaimsAppend(s.claims, WorkItem(delivery, lease, s.inbox.rows[delivery].attempts + 1), d);
  }

  lemma ClaimKeepsClaim(s: System, s': System, delivery: nat, lease: nat, expires: Time, c: WorkItem)
    requires delivery in s.inbox.rows && lease != NO_LEASE && (forall x | x in s.claims :: x.lease != lease)
    requires s'.inbox == s.inbox.(rows := s.inbox.rows[delivery := ClaimedRow(s.inbox.rows[delivery], lease, expires)])
    requires s'.claims == s.claims + [WorkItem(delivery, lease, s.inbox.rows[delivery].attempts + 1)]
    requires c in s'.claims && (c in s.claims ==> ClaimOk(s, c))
    ensures ClaimOk(s', c)
  {
  }

  lemma ClaimedKeeps(s: System, s': System, delivery: nat, lease: nat, expires: Time)
    requires SystemOk(s) && delivery in s.inbox.rows && s.inbox.rows[delivery].status == Received
    requires lease != NO_LEASE && forall x | x in s.claims :: x.lease != lease
    requires s'.inbox == s.inbox.(rows := s.inbox.rows[delivery := ClaimedRow(s.inbox.rows[delivery], lease, expires)])
    requires s'.claims == s.claims + [WorkItem(delivery, lease, s.inbox.rows[delivery].attempts + 1)]
    ensures SystemOk(s')
  {
    forall d | d in s'.inbox.rows ensures RowOk(s', d, s'.inbox.rows[d]) {
      assert RowOk(s, d, s.inbox.rows[d]);
      ClaimKeepsRow(s, s', delivery, lease, expires, d);
    }
    forall c | c in s'.claims ensures ClaimOk(s', c) {
      assert c in s.claims ==> ClaimOk(s, c);
      ClaimKeepsClaim(s, s', delivery, lease, expires, c);
    }
    forall d: nat | d !in s'.inbox.rows ensures Claims(s'.claims, d) == 0 {
      ClaimsAppend(s.claims, WorkItem(delivery, lease, s.inbox.rows[delivery].attempts + 1), d);
    }
  }

  lemma ClaimKeeps(s: System, delivery: nat, lease: nat, duration: Time, now: Time)
    requires SystemOk(s) && Can(s, ClaimStep(delivery, lease, duration), now)
    ensures SystemOk(Take(s, ClaimStep(delivery, lease, duration), now))
  {
    if Claim(s.inbox, delivery, lease, duration, now).Success? {
      ClaimedKeeps(s, Take(s, ClaimStep(delivery, lease, duration), now), delivery, lease, now + duration);
    } else {
      RowMovesKeep(s, s.inbox.rows, now);
    }
  }

  /** A delivery that is still held has no run, so committing always creates one. */
  lemma HeldHasNoRun(s: System, delivery: nat, lease: nat, now: Time)
    requires SystemOk(s) && Held(s.inbox, delivery, lease, now)
    ensures FindRun(s.inbox.runs, delivery, 0) == |s.inbox.runs| && !HasRun(s.inbox.runs, delivery)
  {
    assert RowOk(s, delivery, s.inbox.rows[delivery]);
    var k := FindRun(s.inbox.runs, delivery, 0);
  }

  lemma CommitKeeps(s: System, item: WorkItem, runId: nat, details: string, failed: bool, now: Time)
    requires SystemOk(s) && item in s.claims
    ensures var r := Commit(s.inbox, item.delivery, item.lease, runId, details, failed, now);
            SystemOk(System(if r.Success? then r.value.0 else s.inbox, now, s.claims))
  {
    var d := item.delivery;
    if Held(s.inbox, d, item.lease, now) {
      HeldHasNoRun(s, d, item.lease, now);
      CommittedOk(s, d, HookRun(runId, d, details, failed), now);
    } else {
      RowMovesKeep(s, s.inbox.rows, now);
    }
  }

  lemma CommittedOk(s: System, delivery: nat, run: HookRun, now: Time)
    requires SystemOk(s) && delivery in s.inbox.rows && run.delivery == delivery && !HasRun(s.inbox.runs, delivery)
    ensures SystemOk(System(Inbox(s.inbox.rows[delivery := FinishRow(s.inbox.rows[delivery], run.id)], s.inbox.runs + [run]), now, s.claims))
  {
    var s' := System(Inbox(s.inbox.rows[delivery := FinishRow(s.inbox.rows[delivery], run.id)], s.inbox.runs + [run]), now, s.claims);
    assert s'.inbox.runs[|s.inbox.runs|] == run;
    forall d | d in s'.inbox.rows ensures RowOk(s', d, s'.inbox.rows[d]) {
      assert RowOk(s, d, s.inbox.rows[d]);
      assert forall k | 0 <= k < |s.inbox.runs| :: s'.inbox.runs[k] == s.inbox.runs[k];
      RunsAppended(s.inbox.runs, run, d);
    }
    forall c | c in s'.claims ensures ClaimOk(s', c) { assert ClaimOk(s, c); }
  }

  lemma RunsAppended(runs: seq<HookRun>, run: HookRun, d: nat)
    ensures HasRun(runs + [run], d) <==> HasRun(runs, d) || run.delivery == d
  {
    var more := runs + [run];
    assert more[|runs|] == run;
    if HasRun(runs, d) {
      var k :| 0 <= k < |runs| && runs[k].delivery == d;
      assert more[k].delivery == d;
    }
    if HasRun(more, d) {
      var k :| 0 <= k < |more| && more[k].delivery == d;
      assert k < |runs| ==> runs[k].delivery == d;
    }
  }

  lemma TakeKeepsSystemOk(s: System, step: Step, now: Time)
    requires SystemOk(s) && Can(s, step, now)
    ensures SystemOk(Take(s, step, now))
  {
    match step
    case ReceiveStep(delivery, payload) => ReceiveKeeps(s, delivery, payload, now);
    case ClaimStep(delivery, lease, duration) => ClaimKeeps(s, delivery, lease, duration, now);
    case CommitStep(item, runId, details, failed) => CommitKeeps(s, item, runId, details, failed, now);
    case IgnoreStep(item) => FinalizeKeeps(s, item, AsIgnored, now);
    case FailStep(item, transient) => FinalizeKeeps(s, item, AfterFailure(item, transient, now), now);
    case RecoverStep(chosen) => RecoverKeeps(s, chosen, now);
  }

  lemma {:induction false} AlwaysOk(trace: seq<System>, n: nat)
    requires Behaviour(trace) && n < |trace|
    ensures SystemOk(trace[n])
  {
    if n > 0 {
      AlwaysOk(trace, n - 1);
      assert Next(trace[n - 1], trace[n]);
      var step, now :| Can(trace[n - 1], step, now) && trace[n] == Take(trace[n - 1], step, now);
      TakeKeepsSystemOk(trace[n - 1], step, now);
    }
  }

  // What the inbox guarantees.

  /** Each delivery is claimed at most twelve times. */
  lemma ClaimedAtMostTwelveTimes(trace: seq<System>, n: nat, delivery: nat)
    requires Behaviour(trace) && n < |trace|
    ensures Claims(trace[n].claims, delivery) <= MAX_ATTEMPTS
  {
    AlwaysOk(trace, n);
    var s := trace[n];
    assert delivery in s.inbox.rows ==> RowOk(s, delivery, s.inbox.rows[delivery]);
  }

  /** Each delivery has at most one run, and has one only once it is processed. */
  lemma OneRunPerDelivery(trace: seq<System>, n: nat)
    requires Behaviour(trace) && n < |trace|
    ensures forall i, k | 0 <= i < k < |trace[n].inbox.runs| :: trace[n].inbox.runs[i].delivery != trace[n].inbox.runs[k].delivery
    ensures forall i | 0 <= i < |trace[n].inbox.runs| ::
      trace[n].inbox.runs[i].delivery in trace[n].inbox.rows && trace[n].inbox.rows[trace[n].inbox.runs[i].delivery].status == Processed
  {
    AlwaysOk(trace, n);
    var s := trace[n];
    forall i | 0 <= i < |s.inbox.runs| ensures s.inbox.rows[s.inbox.runs[i].delivery].status == Processed {
      assert RowOk(s, s.inbox.runs[i].delivery, s.inbox.rows[s.inbox.runs[i].delivery]) && HasRun(s.inbox.runs, s.inbox.runs[i].delivery);
    }
  }

  lemma EndedStays(s: System, step: Step, now: Time, delivery: nat)
    requires Can(s, step, now) && delivery in s.inbox.rows && Ended(s.inbox.rows[delivery].status)
    ensures delivery in Take(s, step, now).inbox.rows && Take(s, step, now).inbox.rows[delivery] == s.inbox.rows[delivery]
  {
  }

  /** Processed, ignored and dead-lettered deliveries never change again, whatever a late worker or recovery attempts. */
  lemma {:induction false} EndedForever(trace: seq<System>, m: nat, n: nat, delivery: nat)
    requires Behaviour(trace) && m <= n < |trace| && delivery in trace[m].inbox.rows && Ended(trace[m].inbox.rows[delivery].status)
    ensures delivery in trace[n].inbox.rows && trace[n].inbox.rows[delivery] == trace[m].inbox.rows[delivery]
    decreases n
  {
    if m < n {
      EndedForever(trace, m, n - 1, delivery);
      assert Next(trace[n - 1], trace[n]);
      var step, now :| Can(trace[n - 1], step, now) && trace[n] == Take(trace[n - 1], step, now);
      EndedStays(trace[n - 1], step, now, delivery);
    }
  }

  /** A commit whose outcome the worker never learnt: if it happened, nothing the worker does afterwards undoes it. */
  lemma UnknownCommitIsSafe(s: System, item: WorkItem, runId: nat, details: string, failed: bool, transient: bool, now: Time, later: Time)
    requires SystemOk(s) && item in s.claims && s.now <= now <= later && Held(s.inbox, item.delivery, item.lease, now)
    ensures var committed := Take(s, CommitStep(item, runId, details, failed), now);
            committed.inbox.runs == s.inbox.runs + [HookRun(runId, item.delivery, details, failed)] &&
            committed.inbox.rows[item.delivery].status == Processed && committed.inbox.rows[item.delivery].run == Some(runId) &&
            Take(committed, FailStep(item, transient), later).inbox == committed.inbox &&
            Take(committed, IgnoreStep(item), later).inbox == committed.inbox &&
            Take(committed, CommitStep(item, runId, details, failed), later).inbox == committed.inbox
  {
    HeldHasNoRun(s, item.delivery, item.lease, now);
  }

  /** The delays of the twelve attempts: five seconds doubled up to 640, then a quarter of an hour. */
  lemma DelaysOfAttempts()
    ensures RetryDelay(1) == 5_000_000_000 && RetryDelay(2) == 10_000_000_000 && RetryDelay(3) == 20_000_000_000
    ensures RetryDelay(4) == 40_000_000_000 && RetryDelay(5) == 80_000_000_000 && RetryDelay(6) == 160_000_000_000
    ensures RetryDelay(7) == 320_000_000_000 && RetryDelay(8) == 640_000_000_000
    ensures forall attempt | attempt >= 9 :: RetryDelay(attempt) == 900_000_000_000
  {
    assert Pow2(1) == 2 && Pow2(2) == 4 && Pow2(3) == 8;
    assert Pow2(4) == 16 && Pow2(5) == 32 && Pow2(6) == 64 && Pow2(7) == 128 && Pow2(8) == 256;
    forall attempt | attempt >= 9 ensures RetryDelay(attempt) == 900_000_000_000 { CappedStays(8, attempt - 1); }
  }

  /** What a failed attempt leaves behind: transient ones wait for their delay, and the twelfth is the last. */
  lemma RetryWaits(s: System, item: WorkItem, now: Time)
    requires SystemOk(s) && item in s.claims && s.now <= now && Held(s.inbox, item.delivery, item.lease, now)
    ensures var row := Take(s, FailStep(item, true), now).inbox.rows[item.delivery];
            if s.inbox.rows[item.delivery].attempts < MAX_ATTEMPTS
            then row.status == Received && row.nextAttempt == now + RetryDelay(s.inbox.rows[item.delivery].attempts)
            else row.status == DeadLetter
  {
    assert ClaimOk(s, item) && RowOk(s, item.delivery, s.inbox.rows[item.delivery]);
  }

  /** The delivery does not come up again before `due`. */
  predicate NotBefore(s: System, delivery: nat, due: Time) {
    delivery in s.inbox.rows &&
    (due <= s.now || Ended(s.inbox.rows[delivery].status) ||
     (s.inbox.rows[delivery].status == Received && due <= s.inbox.rows[delivery].nextAttempt))
  }

  /** A step that hands the delivery out happens no earlier, and every step keeps that. */
  lemma NotBeforeStays(s: System, step: Step, now: Time, delivery: nat, due: Time)
    requires Can(s, step, now) && NotBefore(s, delivery, due)
    ensures NotBefore(Take(s, step, now), delivery, due)
    ensures Claims(Take(s, step, now).claims, delivery) > Claims(s.claims, delivery) ==> due <= now
  {
    if step.ClaimStep? && Claim(s.inbox, step.delivery, step.lease, step.duration, now).Success? {
      ClaimsAppend(s.claims, WorkItem(step.delivery, step.lease, s.inbox.rows[step.delivery].attempts + 1), delivery);
    }
  }

  lemma {:induction false} NotBeforeForever(trace: seq<System>, m: nat, n: nat, delivery: nat, due: Time)
    requires Behaviour(trace) && m <= n < |trace| && NotBefore(trace[m], delivery, due)
    ensures NotBefore(trace[n], delivery, due)
    decreases n
  {
    if m < n {
      NotBeforeForever(trace, m, n - 1, delivery, due);
      assert Next(trace[n - 1], trace[n]);
      var step, now :| Can(trace[n - 1], step, now) && trace[n] == Take(trace[n - 1], step, now);
      NotBeforeStays(trace[n - 1], step, now, delivery, due);
    }
  }

  /**
   * If the step from `m` fails an attempt at time t as transient and so changes the delivery,
   * every later step that claims the delivery happens after the delay of that attempt at the earliest.
   */
  lemma RetriedAfterDelay(trace: seq<System>, m: nat, n: nat, item: WorkItem, t: Time)
    requires Behaviour(trace) && m + 1 <= n && n + 1 < |trace| && Can(trace[m], FailStep(item, true), t)
    requires trace[m + 1] == Take(trace[m], FailStep(item, true), t) && trace[m + 1].inbox != trace[m].inbox
    requires Claims(trace[n + 1].claims, item.delivery) > Claims(trace[n].claims, item.delivery)
    ensures item.attempt < 12 && trace[n + 1].now >= t + RetryDelay(item.attempt)
  {
    var due := t + RetryDelay(item.attempt);
    AlwaysOk(trace, m);
    assert ClaimOk(trace[m], item) && RowOk(trace[m], item.delivery, trace[m].inbox.rows[item.delivery]);
    if item.attempt >= 12 {
      EndedIsNotClaimed(trace, m + 1, n, item.delivery);
    } else {
      NotBeforeForever(trace, m + 1, n, item.delivery, due);
      assert Next(trace[n], trace[n + 1]);
      var step, now :| Can(trace[n], step, now) && trace[n + 1] == Take(trace[n], step, now);
      NotBeforeStays(trace[n], step, now, item.delivery, due);
    }
  }

  lemma EndedIsNotClaimed(trace: seq<System>, m: nat, n: nat, delivery: nat)
    requires Behaviour(trace) && m <= n && n + 1 < |trace| && delivery in trace[m].inbox.rows && Ended(trace[m].inbox.rows[delivery].status)
    ensures Claims(trace[n + 1].claims, delivery) <= Claims(trace[n].claims, delivery)
  {
    EndedForever(trace, m, n, delivery);
    assert Next(trace[n], trace[n + 1]);
    var step, now :| Can(trace[n], step, now) && trace[n + 1] == Take(trace[n], step, now);
    var s := trace[n];
    if step.ClaimStep? && Claim(s.inbox, step.delivery, step.lease, step.duration, now).Success? {
      ClaimsAppend(s.claims, WorkItem(step.delivery, step.lease, s.inbox.rows[step.delivery].attempts + 1), delivery);
    }
  }

  /**
   * An attempt to claim succeeds exactly when the delivery waits, its time has come, and the lease asked for lasts
   * between a second and ten minutes; the worker gets the next attempt under that lease.
   */
  lemma DueIsClaimed(s: System, delivery: nat, lease: nat, duration: Time, now: Time)
    requires Can(s, ClaimStep(delivery, lease, duration), now)
    ensures var s' := Take(s, ClaimStep(delivery, lease, duration), now);
            if 1_000_000_000 <= duration <= 600_000_000_000 &&
               delivery in s.inbox.rows && s.inbox.rows[delivery].status == Received && s.inbox.rows[delivery].nextAttempt <= now
            then s'.claims == s.claims + [WorkItem(delivery, lease, s.inbox.rows[delivery].attempts + 1)] &&
                 delivery in s'.inbox.rows && s'.inbox.rows[delivery].status == Processing &&
                 s'.inbox.rows[delivery].owner == lease && s'.inbox.rows[delivery].expires == now + duration
            else s'.claims == s.claims && s'.inbox == s.inbox
  {
  }

  /** Recovery leaves a lease alone that has not run out, and takes back what it picks of the others. */
  lemma LiveLeaseSurvivesRecovery(s: System, chosen: set<nat>, now: Time, delivery: nat)
    requires SystemOk(s) && Can(s, RecoverStep(chosen), now) && delivery in s.inbox.rows
    ensures var row, row' := s.inbox.rows[delivery], Take(s, RecoverStep(chosen), now).inbox.rows[delivery];
            if row.status == Processing && row.expires <= now && delivery in chosen
            then row'.status == (if row.attempts == 12 then DeadLetter else Received) && row'.owner == NO_LEASE && row'.nextAttempt == now
            else row' == row
  {
    assert RowOk(s, delivery, s.inbox.rows[delivery]);
  }
}
