// Who may do what with a delivery, written out on its row: receipt, the steps of the worker that
// holds its lease, and what is left to a worker that has lost it.

module WebhookLaws {
  import opened Basics
  import opened WebhookInbox

  /** The row is leased under the item's lease, and the lease has not run out. */
  predicate HoldsDelivery(s: System, item: WorkItem, now: Time) {
    item.delivery in s.inbox.rows && s.inbox.rows[item.delivery].status == Processing &&
    s.inbox.rows[item.delivery].owner == item.lease && now < s.inbox.rows[item.delivery].expires
  }

  /** The rest of the inbox is as it was. */
  predicate OnlyChanges(s: System, s': System, delivery: nat) {
    s'.inbox.rows.Keys == s.inbox.rows.Keys && s'.claims == s.claims &&
    forall d | d in s.inbox.rows && d != delivery :: s'.inbox.rows[d] == s.inbox.rows[d]
  }

  /** A new delivery waits and is due at once; a known one is not entered again, and one that says something else is refused. */
  lemma ReceiptIs(s: System, delivery: nat, payload: Payload, now: Time)
    requires Can(s, ReceiveStep(delivery, payload), now)
    ensures var s' := Take(s, ReceiveStep(delivery, payload), now);
            if delivery in s.inbox.rows then s'.inbox == s.inbox
            else s'.inbox == s.inbox.(rows := s.inbox.rows[delivery := Row(payload, Received, 0, 0, 0, now, None)])
    ensures Receive(s.inbox, delivery, payload, now) == Conflict <==>
            delivery in s.inbox.rows && s.inbox.rows[delivery].payload != payload
    ensures Receive(s.inbox, delivery, payload, now).Success? ==>
              (Receive(s.inbox, delivery, payload, now).value.1 <==> delivery in s.inbox.rows)
  {
  }

  /** The holder ends its delivery as it says: ignored, dead-lettered, or waiting again until the retry. */
  lemma HolderEnds(s: System, item: WorkItem, transient: bool, now: Time)
    requires SystemOk(s) && item in s.claims && s.now <= now && HoldsDelivery(s, item, now)
    ensures var s' := Take(s, IgnoreStep(item), now);
            OnlyChanges(s, s', item.delivery) && s'.inbox.runs == s.inbox.runs &&
            s'.inbox.rows[item.delivery] == s.inbox.rows[item.delivery].(status := Ignored, owner := 0, expires := 0)
    ensures var s', row := Take(s, FailStep(item, transient), now), s.inbox.rows[item.delivery];
            OnlyChanges(s, s', item.delivery) && s'.inbox.runs == s.inbox.runs &&
            s'.inbox.rows[item.delivery] ==
              if transient && row.attempts < 12
              then row.(status := Received, owner := 0, expires := 0, nextAttempt := now + RetryDelay(row.attempts))
              else row.(status := DeadLetter, owner := 0, expires := 0)
  {
    assert ClaimOk(s, item);
  }

  /** The holder commits one new run with what it found, and the delivery is processed and names it. */
  lemma HolderCommits(s: System, item: WorkItem, runId: nat, details: string, failed: bool, now: Time)
    requires SystemOk(s) && item in s.claims && s.now <= now && HoldsDelivery(s, item, now)
    ensures var s' := Take(s, CommitStep(item, runId, details, failed), now);
            OnlyChanges(s, s', item.delivery) && s'.inbox.runs == s.inbox.runs + [HookRun(runId, item.delivery, details, failed)] &&
            s'.inbox.rows[item.delivery] ==
              s.inbox.rows[item.delivery].(status := Processed, owner := 0, expires := 0, run := Some(runId))
  {
    HeldHasNoRun(s, item.delivery, item.lease, now);
  }

  /** Only the holder of a live lease finalizes, and it cannot ask for a retry at once. */
  lemma FinalizedIff(inbox: Inbox, delivery: nat, lease: nat, final: Final, now: Time)
    ensures Finalize(inbox, delivery, lease, final, now).Success? <==>
            delivery in inbox.rows && inbox.rows[delivery].status == Processing && lease != 0 && inbox.rows[delivery].owner == lease &&
            now < inbox.rows[delivery].expires && (final.AsRetry? ==> now < final.next)
  {
  }

  /** A delivery that has a run already can be committed again only with what that run says, or as less of a failure. */
  lemma FoundRunMatches(inbox: Inbox, delivery: nat, lease: nat, runId: nat, details: string, failed: bool, now: Time, k: nat)
    requires Held(inbox, delivery, lease, now) && k < |inbox.runs| && inbox.runs[k].delivery == delivery
    requires forall i | 0 <= i < |inbox.runs| && i != k :: inbox.runs[i].delivery != delivery
    ensures var result, run := Commit(inbox, delivery, lease, runId, details, failed, now), inbox.runs[k];
            if run.details == details && (failed ==> run.failed)
            then result.Success? && result.value.1 == run && !result.value.2 && result.value.0.runs == inbox.runs &&
                 delivery in result.value.0.rows && result.value.0.rows[delivery].run == Some(run.id) &&
                 result.value.0.rows[delivery].status == Processed
            else result == InvalidCommit
  {
  }

  /** What the worker of an item may still try. */
  predicate StepOf(step: Step, item: WorkItem) {
    match step
    case CommitStep(i, _, _, _) => i == item
    case IgnoreStep(i) => i == item
    case FailStep(i, _) => i == item
    case _ => false
  }

  lemma OthersAreRefused(s: System, step: Step, item: WorkItem, now: Time)
    requires Can(s, step, now) && StepOf(step, item) && !HoldsDelivery(s, item, now)
    ensures Take(s, step, now).inbox == s.inbox
  {
  }

  /** The item was claimed, and its lease has run out, was taken back, or has ended with its delivery. */
  predicate Late(s: System, item: WorkItem) {
    item in s.claims && !HoldsDelivery(s, item, s.now)
  }

  /** Every claim is under a new lease, so a lost one never comes back. */
  lemma LateStays(s: System, step: Step, now: Time, item: WorkItem)
    requires Can(s, step, now) && Late(s, item)
    ensures Late(Take(s, step, now), item)
  {
  }

  lemma {:induction false} LateForever(trace: seq<System>, m: nat, n: nat, item: WorkItem)
    requires Behaviour(trace) && m <= n < |trace| && Late(trace[m], item)
    ensures Late(trace[n], item)
    decreases n
  {
    if m < n {
      LateForever(trace, m, n - 1, item);
      assert Next(trace[n - 1], trace[n]);
      var step, now :| Can(trace[n - 1], step, now) && trace[n] == Take(trace[n - 1], step, now);
      LateStays(trace[n - 1], step, now, item);
    }
  }

  /** A worker whose lease has run out, or was taken back or ended, never changes the inbox again with it. */
  lemma LateWorkerChangesNothing(trace: seq<System>, m: nat, n: nat, item: WorkItem, step: Step, now: Time)
    requires Behaviour(trace) && m <= n < |trace| && item in trace[m].claims && !HoldsDelivery(trace[m], item, trace[m].now)
    requires Can(trace[n], step, now) && StepOf(step, item)
    ensures Take(trace[n], step, now).inbox == trace[n].inbox
  {
    LateForever(trace, m, n, item);
    OthersAreRefused(trace[n], step, item, now);
  }
}
