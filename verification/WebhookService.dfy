// The webhook inbox as the source writes it: transactions that update delivery rows, and
// the orchestrator that drives them. Each method is proved against WebhookInbox.

module WebhookService {
  import opened Basics
  import opened WebhookInbox

  lemma RecoverNone(inbox: Inbox, now: Time)
    ensures Recover(inbox, {}, now) == inbox
  {
    assert Recover(inbox, {}, now).rows == inbox.rows;
  }

  lemma RecoverOneMore(inbox: Inbox, chosen: set<nat>, d: nat, now: Time)
    requires d in inbox.rows && d !in chosen
    ensures Recover(inbox, chosen, now).rows[d] == inbox.rows[d]
    ensures Stuck(inbox.rows[d], now) ==>
      Recover(inbox, chosen + {d}, now).rows == Recover(inbox, chosen, now).rows[d := RecoverRow(inbox.rows[d], now)]
  {
  }

  class InboxStore {
    var rows: map<nat, Row>
    var runs: seq<HookRun>

    ghost function View(): Inbox
      reads this
    {
      Inbox(rows, runs)
    }

    constructor ()
      ensures View() == Inbox(map[], [])
    {
      rows, runs := map[], [];
    }

    method ReceiveWebhook(delivery: nat, payload: Payload, now: Time) returns (result: Result<bool>)
      modifies this
      ensures match Receive(old(View()), delivery, payload, now)
              case Success(v) => View() == v.0 && result == Success(v.1)
              case _ => View() == old(View()) && result == Conflict
    {
      if delivery in rows {
        if rows[delivery].payload != payload { return Conflict; }
        return Success(true);
      }
      rows := rows[delivery := Row(payload, Received, 0, NO_LEASE, 0, now, None)];
      return Success(false);
    }

    /** `delivery` is the row that the locking query selected; `lease` is the fresh lease identifier. */
    method ClaimWebhook(delivery: nat, lease: nat, duration: Time, now: Time) returns (result: Result<WorkItem>)
      modifies this
      ensures match Claim(old(View()), delivery, lease, duration, now)
              case Success(v) => View() == v.0 && result == Success(v.1)
              case NoDelivery => View() == old(View()) && result == NoDelivery
              case _ => View() == old(View()) && result == LeaseInvalid
    {
      if duration < SECOND || duration > 10 * 60 * SECOND { return LeaseInvalid; }
      if delivery !in rows || rows[delivery].status != Received || rows[delivery].nextAttempt > now { return NoDelivery; }
      var row := rows[delivery];
      rows := rows[delivery := row.(status := Processing, attempts := row.attempts + 1, owner := lease, expires := now + duration)];
      return Success(WorkItem(delivery, lease, rows[delivery].attempts));
    }

    method FinalizeWebhook(delivery: nat, lease: nat, final: Final, now: Time) returns (result: Result<()>)
      modifies this
      ensures match Finalize(old(View()), delivery, lease, final, now)
              case Success(after) => View() == after && result == Success(())
              case _ => View() == old(View()) && result == LeaseInvalid
    {
      if lease == NO_LEASE { return LeaseInvalid; }
      var status, next := DeadLetter, 0;
      match final {
        case AsRetry(at) =>
          if at <= now { return LeaseInvalid; }
          status, next := Received, at;
        case AsProcessed => status := Processed;
        case AsIgnored => status := Ignored;
        case AsDead =>
      }
      if !(delivery in rows && rows[delivery].status == Processing && rows[delivery].owner == lease && now < rows[delivery].expires) {
        return LeaseInvalid;
      }
      var row := rows[delivery];
      rows := rows[delivery := row.(status := status, owner := NO_LEASE, expires := 0,
                                    nextAttempt := if final.AsRetry? then next else row.nextAttempt)];
      return Success(());
    }

    /** Takes back the lease of one delivery if it has run out. */
    method RecoverLease(d: nat, now: Time) returns (recovered: bool)
      requires d in rows
      modifies this`rows
      ensures recovered <==> Stuck(old(rows)[d], now)
      ensures rows == if recovered then old(rows)[d := RecoverRow(old(rows)[d], now)] else old(rows)
    {
      var row := rows[d];
      if row.status != Processing || row.expires > now { return false; }
      if row.attempts >= MAX_ATTEMPTS {
        rows := rows[d := row.(status := DeadLetter, owner := NO_LEASE, expires := 0, nextAttempt := now)];
      } else {
        rows := rows[d := row.(status := Received, owner := NO_LEASE, expires := 0, nextAttempt := now)];
      }
      return true;
    }

    /** Takes back up to `limit` leases that have run out; `chosen` are the deliveries it took. */
    method RecoverWebhookLeases(limit: int, now: Time) returns (count: nat, valid: bool, ghost chosen: set<nat>)
      modifies this
      ensures valid <==> 1 <= limit <= 1000
      ensures View() == Recover(old(View()), chosen, now) && |chosen| == count <= (if valid then limit else 0)
      ensures forall d | d in chosen :: d in old(rows) && Stuck(old(rows)[d], now)
    {
      count, valid, chosen := 0, 1 <= limit <= 1000, {};
      RecoverNone(View(), now);
      if !valid { return; }
      ghost var before := View();
      var rest := rows.Keys;
      while rest != {} && count < limit
        invariant rest <= before.rows.Keys && chosen <= before.rows.Keys && chosen !! rest && |chosen| == count <= limit
        invariant forall d | d in chosen :: Stuck(before.rows[d], now)
        invariant View() == Recover(before, chosen, now)
        decreases |rest|
      {
        var d :| d in rest;
        rest := rest - {d};
        RecoverOneMore(before, chosen, d, now);
        var recovered := RecoverLease(d, now);
        if recovered {
          chosen := chosen + {d};
          count := count + 1;
        }
      }
    }

    /** One transaction: lock the delivery, find or insert its run, mark the delivery processed. */
    method CommitWebhookRun(delivery: nat, lease: nat, runId: nat, details: string, failed: bool, now: Time)
      returns (result: Result<(HookRun, bool)>)
      modifies this
      ensures match Commit(old(View()), delivery, lease, runId, details, failed, now)
              case Success(v) => View() == v.0 && result == Success((v.1, v.2))
              case InvalidCommit => View() == old(View()) && result == InvalidCommit
              case _ => View() == old(View()) && result == LeaseInvalid
    {
      if !(delivery in rows && rows[delivery].status == Processing && rows[delivery].owner == lease && now < rows[delivery].expires) {
        return LeaseInvalid;
      }
      var k := 0;
      while k < |runs| && runs[k].delivery != delivery
        invariant k <= |runs| && FindRun(runs, delivery, k) == FindRun(runs, delivery, 0)
      {
        k := k + 1;
      }
      var run, created := HookRun(runId, delivery, details, failed), k == |runs|;
      if !created {
        if runs[k].details != details || (failed && !runs[k].failed) { return InvalidCommit; }
        run := runs[k];
      } else {
        runs := runs + [run];
      }
      rows := rows[delivery := FinishRow(rows[delivery], run.id)];
      return Success((run, created));
    }
  }

  /** What processing a delivery came to, before anything was stored. */
  datatype Verdict = ToCommit(runId: nat, details: string, failed: bool) | ToIgnore | ToFail(transient: bool)

  datatype Outcome = RunCreated | RunReused | IgnoredDelivery | RetryScheduled | DeadLettered | NotFinalized

  /** What the outcome says has become of the delivery, and of the runs. */
  predicate Reports(before: Inbox, after: Inbox, d: nat, outcome: Outcome) {
    match outcome
    case RunCreated => d in after.rows && after.rows[d].status == Processed && |after.runs| == |before.runs| + 1
    case RunReused => d in after.rows && after.rows[d].status == Processed && after.runs == before.runs
    case IgnoredDelivery => d in after.rows && after.rows[d].status == Ignored && after.runs == before.runs
    case RetryScheduled => d in after.rows && after.rows[d].status == Received && after.runs == before.runs
    case DeadLettered => d in after.rows && after.rows[d].status == DeadLetter && after.runs == before.runs
    case NotFinalized => after == before || (d in after.rows && after.rows[d].status == Processed)
  }

  /** The inbox after `Process`; `lost` says that the answer to the commit did not arrive. */
  function ProcessedInbox(inbox: Inbox, item: WorkItem, verdict: Verdict, lost: bool, now: Time, later: Time): Inbox {
    match verdict
    case ToCommit(runId, details, failed) =>
      var r := Commit(inbox, item.delivery, item.lease, runId, details, failed, now);
      if r.Success? && !lost then r.value.0
      else FailedInbox(if r.Success? then r.value.0 else inbox, item, !r.InvalidCommit?, later)
    case ToIgnore =>
      var r := Finalize(inbox, item.delivery, item.lease, AsIgnored, now);
      if r.Success? then r.value else FailedInbox(inbox, item, true, later)
    case ToFail(transient) => FailedInbox(inbox, item, transient, later)
  }

  function FailedInbox(inbox: Inbox, item: WorkItem, transient: bool, now: Time): Inbox {
    var r := Finalize(inbox, item.delivery, item.lease, AfterFailure(item, transient, now), now);
    if r.Success? then r.value else inbox
  }

  class Orchestrator {
    const store: InboxStore

    constructor (store: InboxStore)
      ensures this.store == store
    {
      this.store := store;
    }

    method FinalizeFailure(item: WorkItem, transient: bool, now: Time) returns (outcome: Outcome)
      modifies store
      ensures store.View() == FailedInbox(old(store.View()), item, transient, now)
      ensures outcome == if store.View() == old(store.View()) then NotFinalized
                         else if transient && item.attempt < MAX_ATTEMPTS then RetryScheduled else DeadLettered
    {
      var final := AsDead;
      outcome := DeadLettered;
      if transient && item.attempt < MAX_ATTEMPTS {
        var delay := ComputeRetryDelay(item.attempt);
        final := AsRetry(now + delay);
        outcome := RetryScheduled;
      }
      var result := store.FinalizeWebhook(item.delivery, item.lease, final, now);
      if !result.Success? { outcome := NotFinalized; }
      assert result.Success? ==> store.rows[item.delivery] != old(store.rows)[item.delivery];
    }

    /** Every failure is finalized, also that of a commit whose answer was lost. */
    method Process(item: WorkItem, verdict: Verdict, lost: bool, now: Time, later: Time) returns (outcome: Outcome)
      modifies store
      ensures store.View() == ProcessedInbox(old(store.View()), item, verdict, lost, now, later)
      ensures Reports(old(store.View()), store.View(), item.delivery, outcome)
      ensures outcome == NotFinalized && store.View() != old(store.View()) ==> lost
    {
      var transient := true;
      match verdict {
        case ToCommit(runId, details, failed) =>
          var result := store.CommitWebhookRun(item.delivery, item.lease, runId, details, failed, now);
          if result.Success? && !lost { return if result.value.1 then RunCreated else RunReused; }
          transient := !result.InvalidCommit?;
        case ToIgnore =>
          var result := store.FinalizeWebhook(item.delivery, item.lease, AsIgnored, now);
          if result.Success? { return IgnoredDelivery; }
        case ToFail(t) => transient := t;
      }
      outcome := FinalizeFailure(item, transient, later);
    }
  }

  lemma FailingIsAStep(s: System, item: WorkItem, transient: bool, later: Time)
    requires SystemOk(s) && item in s.claims && s.now <= later
    ensures SystemOk(System(FailedInbox(s.inbox, item, transient, later), later, s.claims))
  {
    FinalizeKeeps(s, item, AfterFailure(item, transient, later), later);
  }

  /** Processing a delivery once is a run of at most two steps of the inbox, so all that is proved of the inbox holds of it. */
  lemma ProcessIsSteps(s: System, item: WorkItem, verdict: Verdict, lost: bool, now: Time, later: Time)
    requires SystemOk(s) && item in s.claims && s.now <= now <= later
    ensures SystemOk(System(ProcessedInbox(s.inbox, item, verdict, lost, now, later), later, s.claims))
  {
    match verdict
    case ToCommit(runId, details, failed) =>
      var r := Commit(s.inbox, item.delivery, item.lease, runId, details, failed, now);
      CommitKeeps(s, item, runId, details, failed, now);
      var first := System(if r.Success? then r.value.0 else s.inbox, now, s.claims);
      RowMovesKeep(first, first.inbox.rows, later);
      FailingIsAStep(first, item, !r.InvalidCommit?, later);
    case ToIgnore =>
      var r := Finalize(s.inbox, item.delivery, item.lease, AsIgnored, now);
      FinalizeKeeps(s, item, AsIgnored, now);
      var first := System(if r.Success? then r.value else s.inbox, now, s.claims);
      RowMovesKeep(first, first.inbox.rows, later);
      FailingIsAStep(first, item, true, later);
    case ToFail(transient) => FailingIsAStep(s, item, transient, later);
  }

  /** While the lease lasts, processing ends the delivery as the verdict says, even when the answer to the commit is lost. */
  lemma HeldIsProcessed(s: System, item: WorkItem, verdict: Verdict, lost: bool, now: Time, later: Time)
    requires SystemOk(s) && item in s.claims && s.now <= now <= later && Held(s.inbox, item.delivery, item.lease, later)
    ensures var after, row := ProcessedInbox(s.inbox, item, verdict, lost, now, later), s.inbox.rows[item.delivery];
            item.delivery in after.rows &&
            match verdict
            case ToCommit(runId, details, failed) =>
              after.rows[item.delivery].status == Processed && after.rows[item.delivery].run == Some(runId) &&
              after.runs == s.inbox.runs + [HookRun(runId, item.delivery, details, failed)]
            case ToIgnore => after.rows[item.delivery].status == Ignored && after.runs == s.inbox.runs
            case ToFail(transient) =>
              after.runs == s.inbox.runs &&
              if transient && row.attempts < 12
              then after.rows[item.delivery].status == Received && after.rows[item.delivery].nextAttempt == later + RetryDelay(row.attempts)
              else after.rows[item.delivery].status == DeadLetter
  {
    assert ClaimOk(s, item);
    HeldHasNoRun(s, item.delivery, item.lease, now);
  }

  /** Without the lease, processing changes nothing, whatever the verdict. */
  lemma UnheldIsUntouched(inbox: Inbox, item: WorkItem, verdict: Verdict, lost: bool, now: Time, later: Time)
    requires now <= later && !Held(inbox, item.delivery, item.lease, now)
    ensures ProcessedInbox(inbox, item, verdict, lost, now, later) == inbox
  {
  }

  /** A commit that contradicts the run its delivery has is dead-lettered and creates nothing. */
  lemma ContradictionIsDead(inbox: Inbox, item: WorkItem, runId: nat, details: string, failed: bool, lost: bool, now: Time, later: Time)
    requires now <= later && item.lease != NO_LEASE && Held(inbox, item.delivery, item.lease, later)
    requires Commit(inbox, item.delivery, item.lease, runId, details, failed, now).InvalidCommit?
    ensures var after := ProcessedInbox(inbox, item, ToCommit(runId, details, failed), lost, now, later);
            after.runs == inbox.runs && item.delivery in after.rows && after.rows[item.delivery].status == DeadLetter
  {
  }

  /** A late worker that processes an ended delivery changes nothing. */
  lemma LateProcessChangesNothing(inbox: Inbox, item: WorkItem, verdict: Verdict, lost: bool, now: Time, later: Time)
    requires item.delivery in inbox.rows && Ended(inbox.rows[item.delivery].status)
    ensures ProcessedInbox(inbox, item, verdict, lost, now, later) == inbox
  {
  }
}
