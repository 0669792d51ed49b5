// A step index beyond the store's limit: nothing in the pipeline validator bounds the number
// of steps of a job, and a chunk of step 1024 stops the log of the job for good.

module LogStall {
  import opened Basics
  import opened JobLogs

  /** The sender waits for a chunk that the store can never take. */
  predicate Stalled(s: System) {
    s.sender.pending.Some? && s.sender.pending.value.step > MAX_STEP_INDEX
  }

  /** Stored chunks passed validation. */
  predicate StoredValid(log: Log) {
    forall i | 0 <= i < |log.chunks| :: log.chunks[i].step <= MAX_STEP_INDEX
  }

  lemma {:induction false} AlwaysStoredValid(trace: seq<System>, n: nat)
    requires Behaviour(trace) && n < |trace|
    ensures StoredValid(trace[n].log)
  {
    if n > 0 {
      AlwaysStoredValid(trace, n - 1);
      assert Next(trace[n - 1], trace[n]);
      var step :| Can(trace[n - 1], step) && trace[n] == Take(trace[n - 1], step);
    }
  }

  /** The pending chunk is the one that the store lacks. */
  lemma StalledLacksLast(s: System)
    requires SystemOk(s) && StoredValid(s.log) && Stalled(s)
    ensures |s.log.chunks| == |s.emitted| - 1 && s.sender.pending.value.sequence == |s.emitted|
  {
    var n := |s.emitted| - 1;
    assert EmittedOk(s.emitted, n, s.emitted[n]);
  }

  lemma DeliveryChangesNothing(s: System, c: Chunk, q: Claimant, expired: bool)
    requires SystemOk(s) && StoredValid(s.log) && Stalled(s) && Can(s, Deliver(c, q, expired))
    ensures Take(s, Deliver(c, q, expired)).log == s.log
  {
    StalledLacksLast(s);
    var i :| 0 <= i < |s.emitted| && s.emitted[i] == c;
    assert EmittedOk(s.emitted, i, s.emitted[i]);
  }

  lemma StallStays(s: System, step: Step)
    requires SystemOk(s) && StoredValid(s.log) && Stalled(s) && Can(s, step)
    ensures var s' := Take(s, step); s'.log == s.log && s'.sender.pending == s.sender.pending && s'.emitted == s.emitted
  {
    StalledLacksLast(s);
    if step.Deliver? { DeliveryChangesNothing(s, step.chunk, step.claimant, step.expired); }
  }

  /** Once such a chunk is pending, nothing more of the log is ever stored, and nothing more is emitted. */
  lemma {:induction false} StalledForever(trace: seq<System>, m: nat, n: nat)
    requires Behaviour(trace) && m <= n < |trace| && Stalled(trace[m])
    ensures Stalled(trace[n]) && trace[n].log == trace[m].log && trace[n].emitted == trace[m].emitted
    decreases n
  {
    if m < n {
      StalledForever(trace, m, n - 1);
      StalledStep(trace, n);
    }
  }

  lemma StalledStep(trace: seq<System>, n: nat)
    requires Behaviour(trace) && 0 < n < |trace| && Stalled(trace[n - 1])
    ensures Stalled(trace[n]) && trace[n].log == trace[n - 1].log && trace[n].emitted == trace[n - 1].emitted
  {
    AlwaysOk(trace, n - 1);
    AlwaysStoredValid(trace, n - 1);
    assert Next(trace[n - 1], trace[n]);
    var step :| Can(trace[n - 1], step) && trace[n] == Take(trace[n - 1], step);
    StallStays(trace[n - 1], step);
  }

  // Such a chunk does come to be sent.

  lemma Continue(trace: seq<System>, step: Step) returns (longer: seq<System>)
    requires Behaviour(trace) && Can(Last(trace), step)
    ensures Behaviour(longer) && trace <= longer && Last(longer) == Take(Last(trace), step)
  {
    longer := trace + [Take(Last(trace), step)];
    assert Next(Last(trace), Take(Last(trace), step));
    forall i, j | 0 <= i < |longer| && j == i + 1 && j < |longer| ensures Next(longer[i], longer[j]) {
      assert j < |trace| ==> Next(trace[i], trace[j]);
    }
  }

  const LATE_CHUNK := Chunk(1, MAX_STEP_INDEX + 1, false, [33], false)

  /** One byte written by the step with index 1024 is sent, refused even under a live lease, and stalls the log. */
  lemma LateStepStalls() returns (trace: seq<System>)
    ensures Behaviour(trace) && Stalled(Last(trace))
    ensures forall q, expired :: Can(Last(trace), Deliver(LATE_CHUNK, q, expired)) &&
              Append(Last(trace).log, LATE_CHUNK, q, expired) == Refused(InvalidChunk)
    ensures Last(trace).written == [Piece(33, 1024, false)] && Last(trace).log == EMPTY_LOG
  {
    trace := Continue([START], BeginWrite([33], MAX_STEP_INDEX + 1, false));
    assert Last(trace).written == [Piece(33, 1024, false)];
    trace := Continue(trace, Publish);
    assert Last(trace).sender.pending == Some(LATE_CHUNK) by { assert [33][..1] == [33]; }
    trace := Continue(trace, Send);
  }
}
