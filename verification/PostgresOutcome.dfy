// What every transaction of the Postgres store keeps: dependency safety, the outcome of
// each run, and the one final commit status that goes with it.

module PostgresOutcome {
  import opened DependencyGraph
  import opened PipelineCompiler
  import opened RunGraph
  import opened Basics
  import opened RunModel
  import opened JobInvariants
  import opened PostgresRuns

  // The invariant.

  predicate InProgressOrDone(s: JobStatus) {
    s == Queued || s == Assigned || s == Running || s == Succeeded || s == Failed
  }

  /** Only jobs whose dependencies all succeeded were ever let go, and exactly the others are blocked. */
  predicate DependenciesOk(jobs: seq<Job>, j: Job) {
    (InProgressOrDone(j.status) ==> Ready(jobs, j.runId, j.dependencies)) &&
    (j.status == Blocked ==> !Ready(jobs, j.runId, j.dependencies))
  }

  predicate AllDependenciesOk(jobs: seq<Job>) {
    forall i {:trigger DependenciesOk(jobs, jobs[i])} | 0 <= i < |jobs| :: DependenciesOk(jobs, jobs[i])
  }

  predicate InPlan(nodes: seq<Node>, j: Job) {
    Node(j.key, j.dependencies) in nodes
  }

  /** The jobs of the run are the nodes of its plan. */
  predicate RunJobsAre(jobs: seq<Job>, runId: nat, nodes: seq<Node>) {
    (forall i {:trigger InPlan(nodes, jobs[i])} | 0 <= i < |jobs| && jobs[i].runId == runId :: InPlan(nodes, jobs[i])) &&
    forall x {:trigger nodes[x]} | 0 <= x < |nodes| :: NamesJob(jobs, runId, nodes[x].name)
  }

  /** What the recorded status of a run says about its jobs. */
  predicate StatusBacked(jobs: seq<Job>, runId: nat, status: RunStatus) {
    match status
    case RunSucceeded => forall i | 0 <= i < |jobs| && jobs[i].runId == runId :: jobs[i].status == Succeeded
    case RunCanceled => forall i | 0 <= i < |jobs| && jobs[i].runId == runId :: JobTerminal(jobs[i].status)
    case RunFailed => HasJobs(jobs, runId) ==> RunHas(jobs, runId, Failed)
    case _ => true
  }

  ghost predicate RunOk(db: Database, runId: nat)
    requires runId in db.runs
  {
    (SoundStages(db.runs[runId].stages) || db.runs[runId].stages == []) &&
    RunJobsAre(db.jobs, runId, Flatten(db.runs[runId].stages)) && StatusBacked(db.jobs, runId, db.runs[runId].status)
  }

  ghost predicate RunsOk(db: Database) {
    forall r {:trigger db.runs[r]} | r in db.runs :: RunOk(db, r)
  }

  /** A row of the outbox is of a run that reports, and says what the run has come to. */
  predicate OutboxRowOk(db: Database, key: OutboxKey, state: CommitState) {
    Reports(db, key.run) &&
    if key.final then RunTerminal(db.runs[key.run].status) && state == StateOf(db.runs[key.run].status)
    else db.runs[key.run].stages != [] && state == StatePending
  }

  predicate OutboxOk(db: Database) {
    (forall key {:trigger db.outbox[key]} | key in db.outbox :: OutboxRowOk(db, key, db.outbox[key])) &&
    (forall r {:trigger db.runs[r]} | r in db.runs && Reports(db, r) ::
      (RunTerminal(db.runs[r].status) ==> OutboxKey(r, true) in db.outbox) &&
      (db.runs[r].stages != [] ==> OutboxKey(r, false) in db.outbox))
  }

  predicate RunsKnown(db: Database) {
    forall i | 0 <= i < |db.jobs| :: db.jobs[i].runId in db.runs
  }

  ghost predicate JobsFine(jobs: seq<Job>) {
    ShapeOk(jobs) && AllDependenciesOk(jobs) && SkipOk(jobs) && FailureOk(jobs)
  }

  ghost predicate DatabaseOk(db: Database) {
    JobsFine(db.jobs) && RunsKnown(db) && RunsOk(db) && OutboxOk(db)
  }

  // Changing jobs without touching runs.

  /** Jobs keep their identity, and what has ended stays. */
  predicate EndedStay(a: seq<Job>, b: seq<Job>) {
    SameShapes(a, b) && forall i | 0 <= i < |a| && JobTerminal(a[i].status) :: b[i].status == a[i].status
  }

  /** No job succeeds, none is let go that was not, none is blocked that was not. */
  predicate NothingNew(a: seq<Job>, b: seq<Job>) {
    EndedStay(a, b) &&
    forall i {:trigger b[i]} | 0 <= i < |a| ::
      (b[i].status == Succeeded ==> a[i].status == Succeeded) && (b[i].status == Blocked ==> a[i].status == Blocked) &&
      (InProgressOrDone(b[i].status) ==> InProgressOrDone(a[i].status))
  }

  lemma KeySucceeds(a: seq<Job>, b: seq<Job>, runId: nat, key: string)
    requires EndedStay(a, b) && SucceededKey(a, runId, key)
    ensures SucceededKey(b, runId, key)
  {
    var k :| 0 <= k < |a| && a[k].runId == runId && a[k].key == key && a[k].status == Succeeded;
    assert SameShape(a[k], b[k]);
  }

  lemma ReadyStays(a: seq<Job>, b: seq<Job>, runId: nat, dependencies: seq<string>)
    requires EndedStay(a, b) && Ready(a, runId, dependencies)
    ensures Ready(b, runId, dependencies)
  {
    forall d | d in dependencies ensures SucceededKey(b, runId, d) { KeySucceeds(a, b, runId, d); }
  }

  lemma NotReadyStays(a: seq<Job>, b: seq<Job>, runId: nat, dependencies: seq<string>)
    requires SameShapes(a, b) && Ready(b, runId, dependencies)
    requires forall i {:trigger b[i]} | 0 <= i < |a| && a[i].runId == runId && b[i].status == Succeeded :: a[i].status == Succeeded
    ensures Ready(a, runId, dependencies)
  {
    forall d | d in dependencies ensures SucceededKey(a, runId, d) {
      var k :| 0 <= k < |b| && b[k].runId == runId && b[k].key == d && b[k].status == Succeeded;
      assert SameShape(a[k], b[k]);
    }
  }

  lemma NothingNewKeepsDependencies(a: seq<Job>, b: seq<Job>)
    requires AllDependenciesOk(a) && NothingNew(a, b)
    ensures AllDependenciesOk(b)
  {
    forall i | 0 <= i < |b| ensures DependenciesOk(b, b[i]) {
      assert SameShape(a[i], b[i]) && DependenciesOk(a, a[i]);
      if InProgressOrDone(b[i].status) { ReadyStays(a, b, b[i].runId, b[i].dependencies); }
      if b[i].status == Blocked && Ready(b, b[i].runId, b[i].dependencies) { NotReadyStays(a, b, b[i].runId, b[i].dependencies); }
    }
  }

  lemma StatusStaysBacked(a: seq<Job>, b: seq<Job>, runId: nat, status: RunStatus)
    requires EndedStay(a, b) && StatusBacked(a, runId, status)
    ensures StatusBacked(b, runId, status)
  {
    forall i | 0 <= i < |a| ensures b[i].runId == a[i].runId { assert SameShape(a[i], b[i]); }
    if status == RunFailed && HasJobs(b, runId) {
      assert HasJobs(a, runId);
      RunHasKept(a, b, runId, Failed);
    }
  }

  lemma RunJobsStay(a: seq<Job>, b: seq<Job>, runId: nat, nodes: seq<Node>)
    requires SameShapes(a, b) && RunJobsAre(a, runId, nodes)
    ensures RunJobsAre(b, runId, nodes)
  {
    forall i | 0 <= i < |b| && b[i].runId == runId ensures InPlan(nodes, b[i]) {
      assert SameShape(a[i], b[i]) && InPlan(nodes, a[i]);
    }
    forall x | 0 <= x < |nodes| ensures NamesJob(b, runId, nodes[x].name) {
      assert NamesJob(a, runId, nodes[x].name);
      var k :| 0 <= k < |a| && a[k].runId == runId && a[k].key == nodes[x].name;
      assert SameShape(a[k], b[k]);
    }
  }

  lemma JobsChange(db: Database, jobs: seq<Job>)
    requires DatabaseOk(db) && EndedStay(db.jobs, jobs) && JobsFine(jobs)
    ensures DatabaseOk(db.(jobs := jobs))
  {
    var after := db.(jobs := jobs);
    forall r | r in after.runs ensures RunOk(after, r) {
      assert RunOk(db, r);
      RunJobsStay(db.jobs, jobs, r, Flatten(db.runs[r].stages));
      StatusStaysBacked(db.jobs, jobs, r, db.runs[r].status);
    }
    forall i | 0 <= i < |jobs| ensures jobs[i].runId in after.runs { assert SameShape(db.jobs[i], jobs[i]); }
    forall r | r in after.runs && Reports(after, r)
      ensures (RunTerminal(after.runs[r].status) ==> OutboxKey(r, true) in after.outbox) &&
              (after.runs[r].stages != [] ==> OutboxKey(r, false) in after.outbox)
    {
      assert Reports(db, r) && r in db.runs && db.runs[r] == after.runs[r];
    }
    forall key | key in after.outbox ensures OutboxRowOk(after, key, after.outbox[key]) {
      assert OutboxRowOk(db, key, db.outbox[key]);
    }
  }

  lemma NothingNewKeepsJobsFine(a: seq<Job>, b: seq<Job>)
    requires JobsFine(a) && NothingNew(a, b)
    requires forall i | 0 <= i < |a| && Unsuccessful(b[i].status) :: Unsuccessful(a[i].status)
    ensures JobsFine(b)
  {
    ShapePreserved(a, b);
    NothingNewKeepsDependencies(a, b);
    forall i | 0 <= i < |b| && b[i].status == Skipped ensures a[i].status == Skipped { assert Unsuccessful(a[i].status); }
    SkipKept(a, b);
    forall i, k | 0 <= i < |b| && 0 <= k < |b| && b[i].runId == b[k].runId && Unsuccessful(b[i].status)
      ensures b[k].status != Blocked
    {
      assert SameShape(a[i], b[i]) && SameShape(a[k], b[k]);
    }
  }

  /** A leased job fails or is canceled, and what waits in its run is skipped. */
  lemma FailureKeepsJobsFine(jobs: seq<Job>, i: nat, j': Job)
    requires JobsFine(jobs) && i < |jobs| && Fails(jobs[i], j')
    ensures JobsFine(Sweep(jobs[i := j'], jobs[i].runId)) && EndedStay(jobs, Sweep(jobs[i := j'], jobs[i].runId))
  {
    var after := Sweep(jobs[i := j'], jobs[i].runId);
    ShapePreserved(jobs, after);
    assert NothingNew(jobs, after);
    NothingNewKeepsDependencies(jobs, after);
    SweepKeepsSkipOk(jobs, i, j');
    SweepKeepsFailureOk(jobs, i, j');
  }

  /** A leased job succeeds, and what became ready is queued. */
  lemma SuccessKeepsJobsFine(jobs: seq<Job>, i: nat)
    requires JobsFine(jobs) && i < |jobs| && Leased(jobs[i].status)
    ensures var after := UnblockReady(jobs[i := EndOne(jobs[i], Succeeded)], jobs[i].runId); JobsFine(after) && EndedStay(jobs, after)
  {
    var done := jobs[i := EndOne(jobs[i], Succeeded)];
    var after := UnblockReady(done, jobs[i].runId);
    ShapePreserved(jobs, after);
    SkipKept(jobs, after);
    forall k | 0 <= k < |after| ensures DependenciesOk(after, after[k]) { UnblockedDependencies(jobs, i, k); }
    forall x, y | 0 <= x < |after| && 0 <= y < |after| && after[x].runId == after[y].runId && Unsuccessful(after[x].status)
      ensures after[y].status != Blocked
    {
      assert Unsuccessful(jobs[x].status) && jobs[x].runId == jobs[y].runId;
    }
  }

  lemma UnblockedDependencies(jobs: seq<Job>, i: nat, k: nat)
    requires AllDependenciesOk(jobs) && i < |jobs| && k < |jobs| && Leased(jobs[i].status)
    ensures var after := UnblockReady(jobs[i := EndOne(jobs[i], Succeeded)], jobs[i].runId); DependenciesOk(after, after[k])
  {
    var done := jobs[i := EndOne(jobs[i], Succeeded)];
    var after := UnblockReady(done, jobs[i].runId);
    var j := jobs[k];
    assert DependenciesOk(jobs, j) && after[k] == UnblockReadyOne(done, jobs[i].runId, done[k]);
    if Ready(jobs, j.runId, j.dependencies) { ReadyStays(jobs, after, j.runId, j.dependencies); }
    if Ready(done, j.runId, j.dependencies) { ReadyStays(done, after, j.runId, j.dependencies); }
    if Ready(after, j.runId, j.dependencies) {
      NotReadyStays(done, after, j.runId, j.dependencies);
      if j.runId != jobs[i].runId { NotReadyStays(jobs, done, j.runId, j.dependencies); }
    }
  }

  // Changing the status of a run.

  lemma SetStatusKeepsRuns(db: Database, runId: nat, status: RunStatus)
    requires RunsOk(db) && runId in db.runs && StatusBacked(db.jobs, runId, status)
    ensures RunsOk(SetStatus(db, runId, status))
  {
    var after := SetStatus(db, runId, status);
    forall r | r in after.runs ensures RunOk(after, r) { assert RunOk(db, r); }
  }

  lemma ReportsStays(db: Database, runId: nat, status: RunStatus, r: nat)
    requires runId in db.runs
    ensures Reports(SetStatus(db, runId, status), r) <==> Reports(db, r)
  {
  }

  lemma OpenStatusKeepsOutbox(db: Database, runId: nat, status: RunStatus)
    requires OutboxOk(db) && runId in db.runs && !RunTerminal(db.runs[runId].status) && !RunTerminal(status)
    ensures OutboxOk(SetStatus(db, runId, status))
  {
    var after := SetStatus(db, runId, status);
    forall key | key in after.outbox ensures OutboxRowOk(after, key, after.outbox[key]) { assert OutboxRowOk(db, key, db.outbox[key]); }
    forall r | r in after.runs && Reports(after, r)
      ensures (RunTerminal(after.runs[r].status) ==> OutboxKey(r, true) in after.outbox) &&
              (after.runs[r].stages != [] ==> OutboxKey(r, false) in after.outbox)
    {
      ReportsStays(db, runId, status, r);
      assert r in db.runs && db.runs[r].stages == after.runs[r].stages;
      assert r != runId ==> db.runs[r] == after.runs[r];
    }
  }

  lemma StatusChange(db: Database, runId: nat, status: RunStatus)
    requires DatabaseOk(db) && runId in db.runs && !RunTerminal(db.runs[runId].status) && !RunTerminal(status)
    ensures DatabaseOk(SetStatus(db, runId, status))
  {
    SetStatusKeepsRuns(db, runId, status);
    OpenStatusKeepsOutbox(db, runId, status);
  }

  /** The row of a final status is new, or it says the same. */
  lemma FinalStatusFits(db: Database, runId: nat, final: RunStatus)
    requires OutboxOk(db) && runId in db.runs && RunTerminal(final)
    requires RunTerminal(db.runs[runId].status) ==> db.runs[runId].status == final
    ensures var outcome := Enqueue(SetStatus(db, runId, final), runId, final);
            outcome.Committed? &&
            outcome.value == SetStatus(db, runId, final).(outbox :=
              if Reports(db, runId) then db.outbox[OutboxKey(runId, true) := StateOf(final)] else db.outbox)
  {
    var key := OutboxKey(runId, true);
    ReportsStays(db, runId, final, runId);
    assert key in db.outbox ==> OutboxRowOk(db, key, db.outbox[key]);
    assert key in db.outbox ==> db.outbox[key := StateOf(final)] == db.outbox;
  }

  lemma FinalStatusKeepsOutbox(db: Database, runId: nat, final: RunStatus)
    requires OutboxOk(db) && runId in db.runs && RunTerminal(final)
    requires RunTerminal(db.runs[runId].status) ==> db.runs[runId].status == final
    ensures OutboxOk(SetStatus(db, runId, final).(outbox :=
              if Reports(db, runId) then db.outbox[OutboxKey(runId, true) := StateOf(final)] else db.outbox))
  {
    var key := OutboxKey(runId, true);
    var after := SetStatus(db, runId, final).(outbox :=
      if Reports(db, runId) then db.outbox[key := StateOf(final)] else db.outbox);
    forall k | k in after.outbox ensures OutboxRowOk(after, k, after.outbox[k]) {
      assert k != key ==> OutboxRowOk(db, k, db.outbox[k]);
      assert k == key && k in db.outbox ==> OutboxRowOk(db, k, db.outbox[k]);
    }
    forall r | r in after.runs && Reports(after, r)
      ensures (RunTerminal(after.runs[r].status) ==> OutboxKey(r, true) in after.outbox) &&
              (after.runs[r].stages != [] ==> OutboxKey(r, false) in after.outbox)
    {
      ReportsStays(db, runId, final, r);
      assert r in db.runs && db.runs[r].stages == after.runs[r].stages;
      assert r != runId ==> db.runs[r] == after.runs[r];
    }
  }

  /** Ending a run, once or again with the same status, never meets a different final commit status. */
  lemma EndRun(db: Database, runId: nat, final: RunStatus)
    requires DatabaseOk(db) && runId in db.runs && RunTerminal(final) && StatusBacked(db.jobs, runId, final)
    requires RunTerminal(db.runs[runId].status) ==> db.runs[runId].status == final
    ensures var outcome := Enqueue(SetStatus(db, runId, final), runId, final);
            outcome.Committed? && DatabaseOk(outcome.value) &&
            outcome.value.jobs == db.jobs && outcome.value.runs == SetStatus(db, runId, final).runs
  {
    FinalStatusFits(db, runId, final);
    FinalStatusKeepsOutbox(db, runId, final);
    SetStatusKeepsRuns(db, runId, final);
    var after := Enqueue(SetStatus(db, runId, final), runId, final).value;
    forall r | r in after.runs ensures RunOk(after, r) { assert RunOk(SetStatus(db, runId, final), r); }
  }
}
