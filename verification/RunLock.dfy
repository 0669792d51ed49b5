// Completions of one run, interleaved statement by statement. Each statement sees what has
// been committed and what its own transaction wrote. Taking the run row lock before reading
// siblings loses no wake-up; without the lock a join can stay blocked for ever.

module RunLock {
  import opened PipelineCompiler
  import opened Basics
  import opened RunModel
  import opened JobInvariants
  import opened PostgresRuns

  const RUN := 1

  /** How far a completion has come: the statement it executed last. */
  datatype Phase = Begun | Locked | Marked | Spread | Summarized(final: Option<RunStatus>)

  /** A completion of the job at `index`; `writes` are the row versions that it has not committed. */
  datatype Txn = Txn(index: nat, status: JobStatus, phase: Phase, writes: map<nat, Job>)

  /** The committed rows of the run, its status, who holds the lock on its row, and the open transactions. */
  datatype Shared = Shared(jobs: seq<Job>, status: RunStatus, holder: Option<nat>, txns: map<nat, Txn>)

  function Overlay(jobs: seq<Job>, writes: map<nat, Job>): (r: seq<Job>)
    ensures |r| == |jobs|
  {
    seq(|jobs|, i requires 0 <= i < |jobs| => if i in writes then writes[i] else jobs[i])
  }

  /** The rows as an UPDATE of the transaction leaves them, recorded as its writes. */
  function Written(writes: map<nat, Job>, before: seq<Job>, after: seq<Job>): map<nat, Job>
    requires |before| == |after|
  {
    map i: nat | i < |after| && (i in writes || after[i] != before[i]) :: after[i]
  }

  function SpreadRows(view: seq<Job>, status: JobStatus): (r: seq<Job>)
    ensures |r| == |view|
  {
    if status == Succeeded then UnblockReady(view, RUN) else Sweep(view, RUN)
  }

  predicate RowFree(s: Shared, t: nat, i: nat) {
    forall u | u in s.txns && u != t :: i !in s.txns[u].writes
  }

  // The steps.

  datatype Step =
    | Begin(txn: nat, index: nat, status: JobStatus)
    | Lock(txn: nat)
    | Mark(txn: nat)
    | Propagate(txn: nat)
    | Summarize(txn: nat)
    | Commit(txn: nat)
    | Rollback(txn: nat)
    | Touch(index: nat, row: Job)

  predicate In(s: Shared, t: nat, phase: Phase) {
    t in s.txns && s.txns[t].phase == phase
  }

  /** With `locking`, the second statement waits for the run row; without it, it is skipped. */
  predicate Can(s: Shared, step: Step, locking: bool) {
    match step
    case Begin(t, i, status) => t !in s.txns && i < |s.jobs| && CompletionStatus(status)
    case Lock(t) => In(s, t, Begun) && (locking ==> s.holder == None)
    case Mark(t) => In(s, t, Locked) && s.txns[t].index < |s.jobs| && Leased(s.jobs[s.txns[t].index].status) && RowFree(s, t, s.txns[t].index)
    case Propagate(t) =>
      In(s, t, Marked) &&
      (var view := Overlay(s.jobs, s.txns[t].writes);
       forall i | 0 <= i < |view| && SpreadRows(view, s.txns[t].status)[i] != view[i] :: RowFree(s, t, i))
    case Summarize(t) => In(s, t, Spread)
    case Commit(t) => t in s.txns && s.txns[t].phase.Summarized?
    case Rollback(t) => t in s.txns
    case Touch(i, row) =>
      i < |s.jobs| && (forall u | u in s.txns :: i !in s.txns[u].writes) && OpenRow(s.jobs[i]) && OpenRow(row) &&
      row.runId == s.jobs[i].runId && row.key == s.jobs[i].key && row.dependencies == s.jobs[i].dependencies
  }

  /** Claiming, confirming, starting, renewing, releasing and requeueing move a job among these statuses. */
  predicate OpenRow(j: Job) {
    j.status == Queued || Leased(j.status)
  }

  function Finish(s: Shared, t: nat): Shared {
    s.(txns := s.txns - {t}, holder := if s.holder == Some(t) then None else s.holder)
  }

  function Put(s: Shared, t: nat, txn: Txn): Shared {
    s.(txns := s.txns[t := txn])
  }

  function Take(s: Shared, step: Step, locking: bool): Shared
    requires Can(s, step, locking)
  {
    match step
    case Begin(t, i, status) => Put(s, t, Txn(i, status, Begun, map[]))
    case Lock(t) => Put(s.(holder := if locking then Some(t) else s.holder), t, s.txns[t].(phase := Locked))
    case Mark(t) =>
      var i := s.txns[t].index;
      Put(s, t, s.txns[t].(phase := Marked, writes := map[i := EndOne(s.jobs[i], s.txns[t].status)]))
    case Propagate(t) =>
      var txn := s.txns[t];
      var view := Overlay(s.jobs, txn.writes);
      Put(s, t, txn.(phase := Spread, writes := Written(txn.writes, view, SpreadRows(view, txn.status))))
    case Summarize(t) =>
      var view := Overlay(s.jobs, s.txns[t].writes);
      Put(s, t, s.txns[t].(phase := Summarized(if RunUnfinished(view, RUN) then None else Some(FinalStatus(view, RUN)))))
    case Commit(t) =>
      var txn := s.txns[t];
      Finish(s.(jobs := Overlay(s.jobs, txn.writes), status := if txn.phase.final.Some? then txn.phase.final.value else s.status), t)
    case Rollback(t) => Finish(s, t)
    case Touch(i, row) => s.(jobs := s.jobs[i := row])
  }

  ghost predicate Next(s: Shared, s': Shared, locking: bool) {
    exists step :: Can(s, step, locking) && s' == Take(s, step, locking)
  }

  ghost predicate Behaviour(trace: seq<Shared>, locking: bool) {
    trace != [] && Initial(trace[0]) &&
    forall i, j {:trigger Next(trace[i], trace[j], locking)} | 0 <= i < |trace| && j == i + 1 && j < |trace| ::
      Next(trace[i], trace[j], locking)
  }

  /** A run of this store with no completion under way; the summary of its jobs and its status agree. */
  ghost predicate Initial(s: Shared) {
    s.holder == None && s.txns == map[] && NoneForgotten(s.jobs) && AllOfRun(s.jobs) && EndedTogether(s)
  }

  predicate AllOfRun(jobs: seq<Job>) {
    forall i | 0 <= i < |jobs| :: jobs[i].runId == RUN
  }

  // What must hold of the committed rows.

  predicate Forgotten(jobs: seq<Job>, j: Job) {
    j.status == Blocked && Ready(jobs, RUN, j.dependencies)
  }

  /** No blocked job has had all its dependencies succeed. */
  predicate NoneForgotten(jobs: seq<Job>) {
    forall i {:trigger Forgotten(jobs, jobs[i])} | 0 <= i < |jobs| :: !Forgotten(jobs, jobs[i])
  }

  /** The run has ended exactly when all its jobs have. */
  predicate EndedTogether(s: Shared) {
    RunUnfinished(s.jobs, RUN) <==> !RunTerminal(s.status)
  }

  // The invariant under locking.

  /** What a transaction may have written to a row. */
  predicate WriteOk(txn: Txn, i: nat, row: Job, written: Job) {
    written.runId == row.runId && written.key == row.key && written.dependencies == row.dependencies &&
    (if i == txn.index then Leased(row.status) && written.status == txn.status
     else (row.status == Blocked && written.status == Queued) || ((row.status == Blocked || row.status == Queued) && written.status == Skipped))
  }

  predicate WritesOk(jobs: seq<Job>, txn: Txn) {
    CompletionStatus(txn.status) &&
    forall i {:trigger txn.writes[i]} | i in txn.writes :: i < |jobs| && WriteOk(txn, i, jobs[i], txn.writes[i])
  }

  ghost predicate TxnOk(s: Shared, t: nat, txn: Txn) {
    WritesOk(s.jobs, txn) && (txn.phase != Begun ==> s.holder == Some(t)) &&
    (txn.phase == Begun || txn.phase == Locked ==> txn.writes == map[]) &&
    (txn.phase == Marked ==> txn.index < |s.jobs| && txn.writes == map[txn.index := EndOne(s.jobs[txn.index], txn.status)]) &&
    (txn.phase == Spread || txn.phase.Summarized? ==> txn.index in txn.writes && NoneForgotten(Overlay(s.jobs, txn.writes))) &&
    (txn.phase.Summarized? ==>
      (txn.phase.final == None <==> RunUnfinished(Overlay(s.jobs, txn.writes), RUN)) &&
      (txn.phase.final.Some? ==> RunTerminal(txn.phase.final.value)))
  }

  ghost predicate SharedOk(s: Shared) {
    AllOfRun(s.jobs) && NoneForgotten(s.jobs) && EndedTogether(s) &&
    forall t {:trigger s.txns[t]} | t in s.txns :: TxnOk(s, t, s.txns[t])
  }

  /** Rows with the same keys and dependencies, the same jobs succeeded and the same jobs blocked. */
  predicate SameMarks(a: seq<Job>, b: seq<Job>) {
    |a| == |b| &&
    forall i {:trigger a[i]} {:trigger b[i]} | 0 <= i < |a| ::
      a[i].runId == b[i].runId && a[i].key == b[i].key && a[i].dependencies == b[i].dependencies &&
      (a[i].status == Succeeded <==> b[i].status == Succeeded) && (a[i].status == Blocked <==> b[i].status == Blocked)
  }

  lemma SameMarksReady(a: seq<Job>, b: seq<Job>, dependencies: seq<string>)
    requires SameMarks(a, b)
    ensures Ready(a, RUN, dependencies) <==> Ready(b, RUN, dependencies)
  {
    forall d | d in dependencies ensures SucceededKey(a, RUN, d) <==> SucceededKey(b, RUN, d) {
      if SucceededKey(a, RUN, d) {
        var k :| 0 <= k < |a| && a[k].runId == RUN && a[k].key == d && a[k].status == Succeeded;
        assert b[k].key == d;
      }
      if SucceededKey(b, RUN, d) {
        var k :| 0 <= k < |b| && b[k].runId == RUN && b[k].key == d && b[k].status == Succeeded;
        assert a[k].key == d;
      }
    }
  }

  lemma SameMarksNoneForgotten(a: seq<Job>, b: seq<Job>)
    requires SameMarks(a, b) && NoneForgotten(a)
    ensures NoneForgotten(b)
  {
    forall i | 0 <= i < |b| ensures !Forgotten(b, b[i]) {
      assert !Forgotten(a, a[i]);
      SameMarksReady(a, b, b[i].dependencies);
    }
  }

  // Unblocking leaves no job forgotten.

  lemma SpreadForgetsNone(view: seq<Job>, status: JobStatus)
    requires AllOfRun(view) && CompletionStatus(status)
    ensures NoneForgotten(SpreadRows(view, status))
  {
    var after := SpreadRows(view, status);
    forall i | 0 <= i < |after| ensures !Forgotten(after, after[i]) {
      if status == Succeeded && Forgotten(after, after[i]) {
        assert after[i] == UnblockReadyOne(view, RUN, view[i]);
        UnblockedReady(view, view[i].dependencies);
      }
    }
  }

  lemma UnblockedReady(view: seq<Job>, dependencies: seq<string>)
    requires Ready(UnblockReady(view, RUN), RUN, dependencies)
    ensures Ready(view, RUN, dependencies)
  {
    var after := UnblockReady(view, RUN);
    forall d | d in dependencies ensures SucceededKey(view, RUN, d) {
      assert SucceededKey(after, RUN, d);
      var k :| 0 <= k < |after| && after[k].runId == RUN && after[k].key == d && after[k].status == Succeeded;
      assert after[k] == UnblockReadyOne(view, RUN, view[k]);
    }
  }

  lemma OverlayWritten(jobs: seq<Job>, writes: map<nat, Job>, after: seq<Job>)
    requires |after| == |jobs| && (forall i | i in writes :: i < |jobs|)
    ensures Overlay(jobs, Written(writes, Overlay(jobs, writes), after)) == after
  {
    var view := Overlay(jobs, writes);
    forall i | 0 <= i < |jobs| ensures Overlay(jobs, Written(writes, view, after))[i] == after[i] {
      assert view[i] == if i in writes then writes[i] else jobs[i];
    }
  }

  lemma SpreadWritesOk(jobs: seq<Job>, txn: Txn, view: seq<Job>)
    requires CompletionStatus(txn.status) && txn.index < |jobs| && Leased(jobs[txn.index].status)
    requires txn.writes == map[txn.index := EndOne(jobs[txn.index], txn.status)] && view == Overlay(jobs, txn.writes)
    ensures var writes := Written(txn.writes, view, SpreadRows(view, txn.status));
            txn.index in writes && WritesOk(jobs, txn.(phase := Spread, writes := writes))
  {
    var after := SpreadRows(view, txn.status);
    assert after[txn.index] == view[txn.index];
    var next := txn.(phase := Spread, writes := Written(txn.writes, view, after));
    forall i | i in next.writes ensures i < |jobs| && WriteOk(next, i, jobs[i], next.writes[i]) {
      assert i != txn.index ==> view[i] == jobs[i];
    }
  }

  lemma PropagateKeepsTxn(s: Shared, t: nat, locking: bool)
    requires SharedOk(s) && Can(s, Propagate(t), locking)
    ensures TxnOk(Take(s, Propagate(t), locking), t, Take(s, Propagate(t), locking).txns[t])
  {
    var txn := s.txns[t];
    assert TxnOk(s, t, txn);
    assert txn.index in txn.writes && WriteOk(txn, txn.index, s.jobs[txn.index], txn.writes[txn.index]);
    var view := Overlay(s.jobs, txn.writes);
    SpreadWritesOk(s.jobs, txn, view);
    SpreadForgetsNone(view, txn.status);
    OverlayWritten(s.jobs, txn.writes, SpreadRows(view, txn.status));
  }

  // A row that no transaction has written changes among the open statuses.

  lemma TouchKeepsTxn(s: Shared, i: nat, row: Job, t: nat, locking: bool)
    requires SharedOk(s) && Can(s, Touch(i, row), locking) && t in s.txns
    ensures TxnOk(Take(s, Touch(i, row), locking), t, s.txns[t])
  {
    var s', txn := Take(s, Touch(i, row), locking), s.txns[t];
    assert TxnOk(s, t, txn);
    var a, b := Overlay(s.jobs, txn.writes), Overlay(s'.jobs, txn.writes);
    assert forall k | 0 <= k < |a| && k != i :: b[k] == a[k];
    assert SameMarks(a, b);
    if txn.phase == Spread || txn.phase.Summarized? { SameMarksNoneForgotten(a, b); }
    TouchKeepsUnfinished(a, b, i);
  }

  lemma TouchKeepsUnfinished(a: seq<Job>, b: seq<Job>, i: nat)
    requires i < |a| == |b| && (forall k | 0 <= k < |a| && k != i :: b[k] == a[k])
    requires OpenRow(a[i]) && OpenRow(b[i]) && a[i].runId == b[i].runId
    ensures RunUnfinished(a, RUN) <==> RunUnfinished(b, RUN)
  {
    if RunUnfinished(a, RUN) {
      var k :| 0 <= k < |a| && a[k].runId == RUN && !JobTerminal(a[k].status);
      assert b[k].runId == RUN && !JobTerminal(b[k].status);
    }
    if RunUnfinished(b, RUN) {
      var k :| 0 <= k < |b| && b[k].runId == RUN && !JobTerminal(b[k].status);
      assert a[k].runId == RUN && !JobTerminal(a[k].status);
    }
  }

  lemma TouchKeeps(s: Shared, i: nat, row: Job)
    requires SharedOk(s) && Can(s, Touch(i, row), true)
    ensures SharedOk(Take(s, Touch(i, row), true))
  {
    var s' := Take(s, Touch(i, row), true);
    assert SameMarks(s.jobs, s'.jobs);
    SameMarksNoneForgotten(s.jobs, s'.jobs);
    TouchKeepsUnfinished(s.jobs, s'.jobs, i);
    forall t | t in s'.txns ensures TxnOk(s', t, s'.txns[t]) { TouchKeepsTxn(s, i, row, t, true); }
  }

  /** The committing transaction holds the lock, so every other one has written nothing yet. */
  lemma CommitKeeps(s: Shared, t: nat)
    requires SharedOk(s) && Can(s, Commit(t), true)
    ensures SharedOk(Take(s, Commit(t), true))
  {
    var s' := Take(s, Commit(t), true);
    assert TxnOk(s, t, s.txns[t]);
    forall u | u in s'.txns ensures TxnOk(s', u, s'.txns[u]) { assert TxnOk(s, u, s.txns[u]); }
    CommitEndsTogether(s, t);
  }

  lemma CommitEndsTogether(s: Shared, t: nat)
    requires EndedTogether(s) && t in s.txns && s.txns[t].phase.Summarized? && TxnOk(s, t, s.txns[t]) && AllOfRun(s.jobs)
    ensures EndedTogether(Take(s, Commit(t), true))
  {
    var txn := s.txns[t];
    assert s.jobs[txn.index].runId == RUN && WriteOk(txn, txn.index, s.jobs[txn.index], txn.writes[txn.index]);
  }

  lemma StepKeepsSharedOk(s: Shared, step: Step)
    requires SharedOk(s) && Can(s, step, true)
    ensures SharedOk(Take(s, step, true))
  {
    match step
    case Touch(i, row) => TouchKeeps(s, i, row);
    case Commit(t) => CommitKeeps(s, t);
    case _ => TxnStepKeeps(s, step);
  }

  lemma TxnStepKeeps(s: Shared, step: Step)
    requires SharedOk(s) && Can(s, step, true) && !step.Touch? && !step.Commit?
    ensures SharedOk(Take(s, step, true))
  {
    var s' := Take(s, step, true);
    forall u | u in s'.txns ensures TxnOk(s', u, s'.txns[u]) {
      if u in s.txns { assert TxnOk(s, u, s.txns[u]); }
      if step.Propagate? && step.txn == u { PropagateKeepsTxn(s, u, true); }
    }
  }

  lemma {:induction false} AlwaysSharedOk(trace: seq<Shared>, n: nat)
    requires Behaviour(trace, true) && n < |trace|
    ensures SharedOk(trace[n])
  {
    if n > 0 {
      AlwaysSharedOk(trace, n - 1);
      assert Next(trace[n - 1], trace[n], true);
      var step :| Can(trace[n - 1], step, true) && trace[n] == Take(trace[n - 1], step, true);
      StepKeepsSharedOk(trace[n - 1], step);
    }
  }

  /** With the run row lock no wake-up is ever lost, and the run ends exactly when its last job does. */
  lemma NoLostWakeUp(trace: seq<Shared>, n: nat, i: nat)
    requires Behaviour(trace, true) && n < |trace| && i < |trace[n].jobs|
    ensures trace[n].jobs[i].status == Blocked ==> !Ready(trace[n].jobs, RUN, trace[n].jobs[i].dependencies)
    ensures RunTerminal(trace[n].status) <==> !RunUnfinished(trace[n].jobs, RUN)
  {
    AlwaysSharedOk(trace, n);
    assert !Forgotten(trace[n].jobs, trace[n].jobs[i]);
  }

  // Without the lock.

  const ANY := Requirements("", "", "", map[], 0)

  function Row(id: nat, key: string, dependencies: seq<string>, status: JobStatus): Job {
    Job(id, RUN, key, dependencies, ANY, status, NIL, None, NO_TOKEN, ZERO_TIME)
  }

  function Siblings(a: JobStatus, b: JobStatus): seq<Job> {
    [Row(1, "a", [], a), Row(2, "b", [], b), Row(3, "c", ["a", "b"], Blocked)]
  }

  function WroteA(phase: Phase): map<nat, Job> {
    if phase == Begun || phase == Locked then map[] else map[0 := Row(1, "a", [], Succeeded)]
  }

  function WroteB(phase: Phase): map<nat, Job> {
    if phase == Begun || phase == Locked then map[] else map[1 := Row(2, "b", [], Succeeded)]
  }

  /** Two completions under way, each at some statement. */
  function Both(a: Phase, b: Phase): Shared {
    Shared(Siblings(Running, Running), RunRunning, None,
           map[1 := Txn(0, Succeeded, a, WroteA(a)), 2 := Txn(1, Succeeded, b, WroteB(b))])
  }

  lemma NothingReady(a: JobStatus, b: JobStatus)
    requires (a == Running && (b == Running || b == Succeeded)) || (a == Succeeded && b == Running)
    ensures UnblockReady(Siblings(a, b), RUN) == Siblings(a, b)
    ensures RunUnfinished(Siblings(a, b), RUN) && NoneForgotten(Siblings(a, b)) && AllOfRun(Siblings(a, b))
  {
    var jobs := Siblings(a, b);
    assert !Ready(jobs, RUN, ["a", "b"]) by {
      assert ["a", "b"][0] in ["a", "b"] && ["a", "b"][1] in ["a", "b"];
      assert SucceededKey(jobs, RUN, "a") ==> a == Succeeded;
      assert SucceededKey(jobs, RUN, "b") ==> b == Succeeded;
    }
    assert jobs[2].dependencies == ["a", "b"];
    assert jobs[0].status != Blocked && jobs[1].status != Blocked;
    assert UnblockReady(jobs, RUN)[2] == jobs[2] && !JobTerminal(jobs[2].status) && jobs[2].runId == RUN;
  }

  lemma ViewsOfSiblings()
    ensures Overlay(Siblings(Running, Running), map[0 := Row(1, "a", [], Succeeded)]) == Siblings(Succeeded, Running)
    ensures Overlay(Siblings(Running, Running), map[1 := Row(2, "b", [], Succeeded)]) == Siblings(Running, Succeeded)
    ensures Overlay(Siblings(Succeeded, Running), map[1 := Row(2, "b", [], Succeeded)]) == Siblings(Succeeded, Succeeded)
  {
  }

  /** The state ends some run. */
  ghost predicate Reached(s: Shared, locking: bool) {
    exists trace :: Behaviour(trace, locking) && trace[|trace| - 1] == s
  }

  lemma TraceExtends(trace: seq<Shared>, s': Shared, locking: bool)
    requires Behaviour(trace, locking) && Next(trace[|trace| - 1], s', locking)
    ensures Behaviour(trace + [s'], locking)
  {
    var longer := trace + [s'];
    forall i, j | 0 <= i < |longer| && j == i + 1 && j < |longer| ensures Next(longer[i], longer[j], locking) {
      assert j < |trace| ==> Next(trace[i], trace[j], locking);
    }
  }

  lemma StepIsNext(s: Shared, step: Step, locking: bool)
    requires Can(s, step, locking)
    ensures Next(s, Take(s, step, locking), locking)
  {
  }

  lemma ReachedNext(s: Shared, step: Step, s': Shared, locking: bool)
    requires Reached(s, locking) && Can(s, step, locking) && s' == Take(s, step, locking)
    ensures Reached(s', locking)
  {
    StepIsNext(s, step, locking);
    var trace :| Behaviour(trace, locking) && trace[|trace| - 1] == s;
    TraceExtends(trace, s', locking);
    assert (trace + [s'])[|trace|] == s';
  }

  const NO_TXNS := Shared(Siblings(Running, Running), RunRunning, None, map[])
  const ONE_TXN := Shared(Siblings(Running, Running), RunRunning, None, map[1 := Txn(0, Succeeded, Begun, map[])])
  const A_COMMITTED :=
    Shared(Siblings(Succeeded, Running), RunRunning, None, map[2 := Txn(1, Succeeded, Summarized(None), WroteB(Spread))])
  const BOTH_COMMITTED := Shared(Siblings(Succeeded, Succeeded), RunRunning, None, map[])

  lemma FirstBegins()
    ensures Reached(ONE_TXN, false)
  {
    NothingReady(Running, Running);
    assert Behaviour([NO_TXNS], false) && [NO_TXNS][0] == NO_TXNS;
    ReachedNext(NO_TXNS, Begin(1, 0, Succeeded), ONE_TXN, false);
  }

  lemma BothBegin()
    ensures Reached(Both(Begun, Begun), false)
  {
    FirstBegins();
    assert Both(Begun, Begun).txns == ONE_TXN.txns[2 := Txn(1, Succeeded, Begun, map[])];
    ReachedNext(ONE_TXN, Begin(2, 1, Succeeded), Both(Begun, Begun), false);
  }

  lemma BothGoOn()
    ensures Reached(Both(Locked, Locked), false)
  {
    BothBegin();
    ReachedNext(Both(Begun, Begun), Lock(1), Both(Locked, Begun), false);
    ReachedNext(Both(Locked, Begun), Lock(2), Both(Locked, Locked), false);
  }

  lemma BothMark()
    ensures Reached(Both(Marked, Marked), false)
  {
    BothGoOn();
    ReachedNext(Both(Locked, Locked), Mark(1), Both(Marked, Locked), false);
    ReachedNext(Both(Marked, Locked), Mark(2), Both(Marked, Marked), false);
  }

  /** An UPDATE that changes no row leaves the writes of the transaction as they were. */
  lemma SpreadNothing(s: Shared, t: nat, locking: bool)
    requires In(s, t, Marked) && forall i | i in s.txns[t].writes :: i < |s.jobs|
    requires SpreadRows(Overlay(s.jobs, s.txns[t].writes), s.txns[t].status) == Overlay(s.jobs, s.txns[t].writes)
    ensures Can(s, Propagate(t), locking) && Take(s, Propagate(t), locking) == Put(s, t, s.txns[t].(phase := Spread))
  {
    var txn, view := s.txns[t], Overlay(s.jobs, s.txns[t].writes);
    assert Written(txn.writes, view, view) == txn.writes;
  }

  /** Each completion sees its own job succeeded and its sibling still running, so it unblocks nothing. */
  lemma ASpreadsNothing()
    ensures Can(Both(Marked, Marked), Propagate(1), false)
    ensures Take(Both(Marked, Marked), Propagate(1), false) == Both(Spread, Marked)
  {
    ViewsOfSiblings();
    NothingReady(Succeeded, Running);
    SpreadNothing(Both(Marked, Marked), 1, false);
  }

  lemma BSpreadsNothing()
    ensures Can(Both(Spread, Marked), Propagate(2), false)
    ensures Take(Both(Spread, Marked), Propagate(2), false) == Both(Spread, Spread)
  {
    ViewsOfSiblings();
    NothingReady(Running, Succeeded);
    SpreadNothing(Both(Spread, Marked), 2, false);
  }

  lemma BothPropagate()
    ensures Reached(Both(Spread, Spread), false)
  {
    BothMark();
    ASpreadsNothing();
    ReachedNext(Both(Marked, Marked), Propagate(1), Both(Spread, Marked), false);
    BSpreadsNothing();
    ReachedNext(Both(Spread, Marked), Propagate(2), Both(Spread, Spread), false);
  }

  lemma ASummarizes()
    ensures Take(Both(Spread, Spread), Summarize(1), false) == Both(Summarized(None), Spread)
  {
    ViewsOfSiblings();
    NothingReady(Succeeded, Running);
  }

  lemma BSummarizes()
    ensures Take(Both(Summarized(None), Spread), Summarize(2), false) == Both(Summarized(None), Summarized(None))
  {
    ViewsOfSiblings();
    NothingReady(Running, Succeeded);
  }

  lemma BothSummarize()
    ensures Reached(Both(Summarized(None), Summarized(None)), false)
  {
    BothPropagate();
    ASummarizes();
    ReachedNext(Both(Spread, Spread), Summarize(1), Both(Summarized(None), Spread), false);
    BSummarizes();
    ReachedNext(Both(Summarized(None), Spread), Summarize(2), Both(Summarized(None), Summarized(None)), false);
  }

  lemma BothCommit()
    ensures Reached(BOTH_COMMITTED, false)
  {
    BothSummarize();
    ViewsOfSiblings();
    assert Both(Summarized(None), Summarized(None)).txns - {1} == A_COMMITTED.txns;
    ReachedNext(Both(Summarized(None), Summarized(None)), Commit(1), A_COMMITTED, false);
    assert A_COMMITTED.txns - {2} == BOTH_COMMITTED.txns;
    ReachedNext(A_COMMITTED, Commit(2), BOTH_COMMITTED, false);
  }

  /** Without the lock there is a run after whose last commit a job stays blocked although its dependencies all succeeded. */
  lemma LockIsNeeded()
    ensures Reached(BOTH_COMMITTED, false) && BOTH_COMMITTED.txns == map[]
    ensures Forgotten(BOTH_COMMITTED.jobs, BOTH_COMMITTED.jobs[2])
  {
    BothCommit();
    var jobs := Siblings(Succeeded, Succeeded);
    assert SucceededKey(jobs, RUN, "a") by { assert jobs[0].key == "a"; }
    assert SucceededKey(jobs, RUN, "b") by { assert jobs[1].key == "b"; }
    assert jobs[2].dependencies == ["a", "b"];
  }
}
