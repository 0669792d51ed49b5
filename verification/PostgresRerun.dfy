// Creating and rerunning runs. A failed-mode rerun reuses exactly what succeeded, keeps the
// dependency invariant, and always has something to run.

module PostgresRerun {
  import opened DependencyGraph
  import opened PipelineCompiler
  import opened RunGraph
  import opened Basics
  import opened RunModel
  import opened JobInvariants
  import opened PostgresRuns
  import opened PostgresOutcome
  import opened PostgresTransactions

  // Creating a run.

  predicate AllOf(jobs: seq<Job>, runId: nat) {
    forall i | 0 <= i < |jobs| :: jobs[i].runId == runId
  }

  lemma KeyInAppended(jobs: seq<Job>, added: seq<Job>, runId: nat, r: nat, key: string)
    requires AllOf(added, runId) && (r == runId ==> FreshRun(jobs, runId))
    ensures r != runId ==> (SucceededKey(jobs + added, r, key) <==> SucceededKey(jobs, r, key))
    ensures r == runId && (forall i | 0 <= i < |added| :: added[i].status != Succeeded) ==> !SucceededKey(jobs + added, r, key)
  {
    var all := jobs + added;
    if r != runId && SucceededKey(jobs, r, key) {
      var k :| 0 <= k < |jobs| && jobs[k].runId == r && jobs[k].key == key && jobs[k].status == Succeeded;
      assert all[k] == jobs[k];
    }
    if SucceededKey(all, r, key) {
      var k :| 0 <= k < |all| && all[k].runId == r && all[k].key == key && all[k].status == Succeeded;
      assert k < |jobs| ==> jobs[k] == all[k];
      assert k >= |jobs| ==> added[k - |jobs|] == all[k];
    }
  }

  lemma ReadyInAppended(jobs: seq<Job>, added: seq<Job>, runId: nat, r: nat, dependencies: seq<string>)
    requires AllOf(added, runId) && r != runId
    ensures Ready(jobs + added, r, dependencies) <==> Ready(jobs, r, dependencies)
  {
    forall d | d in dependencies ensures SucceededKey(jobs + added, r, d) <==> SucceededKey(jobs, r, d) {
      KeyInAppended(jobs, added, runId, r, d);
    }
  }

  lemma AppendedDependencies(jobs: seq<Job>, added: seq<Job>, runId: nat, nodes: seq<Node>)
    requires AllDependenciesOk(jobs) && FreshRun(jobs, runId) && NewGraph(added, runId, nodes)
    ensures AllDependenciesOk(jobs + added)
  {
    var all := jobs + added;
    forall i | 0 <= i < |all| ensures DependenciesOk(all, all[i]) {
      if i < |jobs| {
        assert DependenciesOk(jobs, jobs[i]);
        ReadyInAppended(jobs, added, runId, jobs[i].runId, jobs[i].dependencies);
      } else {
        var deps := all[i].dependencies;
        if deps != [] {
          KeyInAppended(jobs, added, runId, runId, deps[0]);
          assert deps[0] in deps;
        }
      }
    }
  }

  lemma AppendedFailures(jobs: seq<Job>, added: seq<Job>, runId: nat)
    requires SkipOk(jobs) && FailureOk(jobs) && FreshRun(jobs, runId) && AllOf(added, runId)
    requires forall i | 0 <= i < |added| :: !Unsuccessful(added[i].status)
    ensures SkipOk(jobs + added) && FailureOk(jobs + added)
  {
    var all := jobs + added;
    forall i | 0 <= i < |all| && all[i].status == Skipped ensures RunHas(all, all[i].runId, Failed) || RunHas(all, all[i].runId, Canceled) {
      assert i < |jobs| && all[i] == jobs[i];
      RunHasPrefix(jobs, added, jobs[i].runId, Failed);
      RunHasPrefix(jobs, added, jobs[i].runId, Canceled);
    }
    forall i, k | 0 <= i < |all| && 0 <= k < |all| && all[i].runId == all[k].runId && Unsuccessful(all[i].status)
      ensures all[k].status != Blocked
    {
      assert i < |jobs| && all[i] == jobs[i];
      assert k < |jobs| ==> all[k] == jobs[k];
    }
  }

  lemma CreatedJobsFine(jobs: seq<Job>, stages: seq<Stage>, runId: nat, ids: seq<nat>)
    requires JobsFine(jobs) && FreshRun(jobs, runId) && FreshIds(jobs, ids) && |ids| == |Flatten(stages)|
    requires SoundStages(stages) || stages == []
    ensures JobsFine(jobs + NewJobs(stages, runId, ids))
  {
    var added := NewJobs(stages, runId, ids);
    if stages == [] {
      assert jobs + added == jobs;
    } else {
      SoundStagesFlattenSoundly(stages);
      assert NewGraph(added, runId, Flatten(stages));
      CreateKeepsShape(jobs, added, runId, Flatten(stages), ids);
      AppendedDependencies(jobs, added, runId, Flatten(stages));
      AppendedFailures(jobs, added, runId);
    }
  }

  lemma CreatedRunJobs(jobs: seq<Job>, stages: seq<Stage>, runId: nat, ids: seq<nat>)
    requires FreshRun(jobs, runId) && |ids| == |Flatten(stages)|
    ensures RunJobsAre(jobs + NewJobs(stages, runId, ids), runId, Flatten(stages))
  {
    var nodes, added := Flatten(stages), NewJobs(stages, runId, ids);
    var all := jobs + added;
    forall i | 0 <= i < |all| && all[i].runId == runId ensures InPlan(nodes, all[i]) {
      assert i >= |jobs| && all[i] == added[i - |jobs|] && nodes[i - |jobs|] in nodes;
    }
    forall x | 0 <= x < |nodes| ensures NamesJob(all, runId, nodes[x].name) {
      assert all[|jobs| + x] == added[x];
    }
  }

  lemma OtherRunStays(jobs: seq<Job>, added: seq<Job>, runId: nat, r: nat, nodes: seq<Node>, status: RunStatus)
    requires AllOf(added, runId) && r != runId && RunJobsAre(jobs, r, nodes) && StatusBacked(jobs, r, status)
    ensures RunJobsAre(jobs + added, r, nodes) && StatusBacked(jobs + added, r, status)
  {
    var all := jobs + added;
    assert forall i | |jobs| <= i < |all| :: all[i].runId == runId;
    assert forall i | 0 <= i < |jobs| :: all[i] == jobs[i];
    forall i | 0 <= i < |all| && all[i].runId == r ensures InPlan(nodes, all[i]) { assert InPlan(nodes, jobs[i]); }
    forall x | 0 <= x < |nodes| ensures NamesJob(all, r, nodes[x].name) {
      assert NamesJob(jobs, r, nodes[x].name);
      var k :| 0 <= k < |jobs| && jobs[k].runId == r && jobs[k].key == nodes[x].name;
      assert all[k] == jobs[k];
    }
    if status == RunFailed && HasJobs(all, r) {
      assert HasJobs(jobs, r);
      RunHasPrefix(jobs, added, r, Failed);
    }
  }

  /** The database with the run and its jobs inserted, before its commit status. */
  function Inserted(db: Database, runId: nat, row: RunRow, ids: seq<nat>): Database
    requires |ids| == |Flatten(row.stages)|
  {
    db.(runs := db.runs[runId := row], jobs := db.jobs + NewJobs(row.stages, runId, ids))
  }

  predicate NewRow(row: RunRow) {
    (row.status == RunQueued && row.stages != []) || (row.status == RunFailed && row.stages == [])
  }

  lemma InsertedRunsOk(db: Database, runId: nat, row: RunRow, ids: seq<nat>)
    requires RunsOk(db) && RunsKnown(db) && runId !in db.runs && |ids| == |Flatten(row.stages)|
    requires NewRow(row) && (SoundStages(row.stages) || row.stages == [])
    ensures RunsOk(Inserted(db, runId, row, ids)) && RunsKnown(Inserted(db, runId, row, ids))
  {
    var after, added := Inserted(db, runId, row, ids), NewJobs(row.stages, runId, ids);
    assert FreshRun(db.jobs, runId);
    CreatedRunJobs(db.jobs, row.stages, runId, ids);
    forall r | r in after.runs ensures RunOk(after, r) {
      if r != runId {
        assert RunOk(db, r);
        OtherRunStays(db.jobs, added, runId, r, Flatten(db.runs[r].stages), db.runs[r].status);
      }
    }
  }

  /** A new run has no commit status yet, so its first one is always inserted. */
  lemma FirstStatusKeepsOutbox(db: Database, runId: nat, row: RunRow, ids: seq<nat>)
    requires OutboxOk(db) && runId !in db.runs && |ids| == |Flatten(row.stages)| && NewRow(row)
    ensures var outcome := Enqueue(Inserted(db, runId, row, ids), runId, row.status);
            outcome.Committed? && OutboxOk(outcome.value)
  {
    var before := Inserted(db, runId, row, ids);
    var key := OutboxKey(runId, RunTerminal(row.status));
    assert key in db.outbox ==> OutboxRowOk(db, key, db.outbox[key]);
    var after := Enqueue(before, runId, row.status).value;
    forall k | k in after.outbox ensures OutboxRowOk(after, k, after.outbox[k]) {
      assert k in db.outbox ==> OutboxRowOk(db, k, db.outbox[k]);
    }
    forall r | r in after.runs && Reports(after, r)
      ensures (RunTerminal(after.runs[r].status) ==> OutboxKey(r, true) in after.outbox) &&
              (after.runs[r].stages != [] ==> OutboxKey(r, false) in after.outbox)
    {
      assert r != runId ==> r in db.runs && Reports(db, r) && db.runs[r] == after.runs[r];
    }
  }

  /** A commit status changes the outbox and nothing else. */
  lemma EnqueueKeepsRows(db: Database, runId: nat, status: RunStatus)
    ensures var outcome := Enqueue(db, runId, status);
            outcome.Committed? ==> outcome.value.runs == db.runs && outcome.value.jobs == db.jobs
  {
  }

  lemma AssembledOk(before: Database, after: Database)
    requires JobsFine(before.jobs) && RunsKnown(before) && RunsOk(before) && OutboxOk(after)
    requires after.runs == before.runs && after.jobs == before.jobs
    ensures DatabaseOk(after)
  {
    SameRunsOk(before, after);
  }

  lemma CreatedIsOk(db: Database, runId: nat, row: RunRow, ids: seq<nat>, after: Database)
    requires DatabaseOk(db) && FreshRow(db, runId, row.stages, ids) && NewRow(row) && (SoundStages(row.stages) || row.stages == [])
    requires OutboxOk(after) && after.runs == db.runs[runId := row] && after.jobs == db.jobs + NewJobs(row.stages, runId, ids)
    ensures DatabaseOk(after)
  {
    assert FreshRun(db.jobs, runId);
    CreatedJobsFine(db.jobs, row.stages, runId, ids);
    InsertedRunsOk(db, runId, row, ids);
    AssembledOk(Inserted(db, runId, row, ids), after);
  }

  lemma CreateKeeps(db: Database, runId: nat, row: RunRow, ids: seq<nat>)
    requires DatabaseOk(db) && FreshRow(db, runId, row.stages, ids) && NewRow(row) && (SoundStages(row.stages) || row.stages == [])
    ensures var outcome := CreateTx(db, runId, row, ids);
            outcome.Committed? && DatabaseOk(outcome.value) &&
            outcome.value.jobs == Inserted(db, runId, row, ids).jobs && outcome.value.runs == db.runs[runId := row]
  {
    FirstStatusKeepsOutbox(db, runId, row, ids);
    EnqueueKeepsRows(Inserted(db, runId, row, ids), runId, row.status);
    CreatedIsOk(db, runId, row, ids, CreateTx(db, runId, row, ids).value);
  }

  lemma SameRunsOk(a: Database, b: Database)
    requires RunsOk(a) && b.runs == a.runs && b.jobs == a.jobs
    ensures RunsOk(b)
  {
    forall r | r in b.runs ensures RunOk(b, r) { assert RunOk(a, r); }
  }

  // Rerunning in failed mode.

  /** Two runs of one plan agree on the dependencies of each key. */
  lemma SamePlanSameDependencies(jobs: seq<Job>, a: nat, b: nat, nodes: seq<Node>, i: nat, k: nat)
    requires RunJobsAre(jobs, a, nodes) && RunJobsAre(jobs, b, nodes) && UniqueNames(nodes)
    requires i < |jobs| && k < |jobs| && jobs[i].runId == a && jobs[k].runId == b && jobs[i].key == jobs[k].key
    ensures jobs[i].dependencies == jobs[k].dependencies
  {
    assert InPlan(nodes, jobs[i]) && InPlan(nodes, jobs[k]);
  }

  lemma SamePlanSameKeys(jobs: seq<Job>, a: nat, b: nat, nodes: seq<Node>, key: string)
    requires RunJobsAre(jobs, a, nodes) && RunJobsAre(jobs, b, nodes) && NamesJob(jobs, a, key)
    ensures NamesJob(jobs, b, key)
  {
    var i :| 0 <= i < |jobs| && jobs[i].runId == a && jobs[i].key == key;
    var n := Node(jobs[i].key, jobs[i].dependencies);
    assert InPlan(nodes, jobs[i]);
    var x :| 0 <= x < |nodes| && nodes[x] == n;
    assert NamesJob(jobs, b, nodes[x].name);
  }

  /** The store just after the new run was inserted: nothing of it has ended or been handed out. */
  ghost predicate JustCreated(jobs: seq<Job>, oldId: nat, newId: nat, nodes: seq<Node>) {
    JobsFine(jobs) && oldId != newId && RunJobsAre(jobs, oldId, nodes) && RunJobsAre(jobs, newId, nodes) && UniqueNames(nodes) &&
    forall i | 0 <= i < |jobs| && jobs[i].runId == newId ::
      jobs[i].status == if jobs[i].dependencies == [] then Queued else Blocked
  }

  function Rerun(jobs: seq<Job>, oldId: nat, newId: nat): (r: seq<Job>)
    ensures |r| == |jobs|
  {
    UnblockReady(Reuse(jobs, newId, oldId), newId)
  }

  /** A key has succeeded in the new run exactly when it had in the old one. */
  lemma ReusedKeys(jobs: seq<Job>, oldId: nat, newId: nat, nodes: seq<Node>, key: string)
    requires JustCreated(jobs, oldId, newId, nodes)
    ensures SucceededKey(Rerun(jobs, oldId, newId), newId, key) <==> SucceededKey(jobs, oldId, key)
    ensures SucceededKey(Reuse(jobs, newId, oldId), newId, key) <==> SucceededKey(jobs, oldId, key)
  {
    var reused, after := Reuse(jobs, newId, oldId), Rerun(jobs, oldId, newId);
    if SucceededKey(jobs, oldId, key) {
      SamePlanSameKeys(jobs, oldId, newId, nodes, key) by { assert NamesJob(jobs, oldId, key); }
      var k :| 0 <= k < |jobs| && jobs[k].runId == newId && jobs[k].key == key;
      assert reused[k] == ReuseOne(jobs, newId, oldId, jobs[k]) && after[k] == UnblockReadyOne(reused, newId, reused[k]);
    }
    if SucceededKey(reused, newId, key) {
      var k :| 0 <= k < |reused| && reused[k].runId == newId && reused[k].key == key && reused[k].status == Succeeded;
      assert reused[k] == ReuseOne(jobs, newId, oldId, jobs[k]);
    }
    if SucceededKey(after, newId, key) {
      var k :| 0 <= k < |after| && after[k].runId == newId && after[k].key == key && after[k].status == Succeeded;
      assert after[k] == UnblockReadyOne(reused, newId, reused[k]);
      assert SucceededKey(reused, newId, key);
    }
  }

  lemma ReusedReady(jobs: seq<Job>, oldId: nat, newId: nat, nodes: seq<Node>, dependencies: seq<string>)
    requires JustCreated(jobs, oldId, newId, nodes)
    ensures Ready(Rerun(jobs, oldId, newId), newId, dependencies) <==> Ready(jobs, oldId, dependencies)
    ensures Ready(Reuse(jobs, newId, oldId), newId, dependencies) <==> Ready(jobs, oldId, dependencies)
  {
    forall d | d in dependencies
      ensures SucceededKey(Rerun(jobs, oldId, newId), newId, d) <==> SucceededKey(jobs, oldId, d)
      ensures SucceededKey(Reuse(jobs, newId, oldId), newId, d) <==> SucceededKey(jobs, oldId, d)
    {
      ReusedKeys(jobs, oldId, newId, nodes, d);
    }
  }

  /** The exact status of each job of the new run. */
  lemma RerunStatus(jobs: seq<Job>, oldId: nat, newId: nat, nodes: seq<Node>, i: nat)
    requires JustCreated(jobs, oldId, newId, nodes) && i < |jobs| && jobs[i].runId == newId
    ensures var j, after := jobs[i], Rerun(jobs, oldId, newId);
            SameShape(j, after[i]) &&
            (after[i].status == Succeeded <==> SucceededKey(jobs, oldId, j.key)) &&
            (after[i].status == Queued <==> !SucceededKey(jobs, oldId, j.key) && Ready(jobs, oldId, j.dependencies)) &&
            (after[i].status == Blocked <==> !SucceededKey(jobs, oldId, j.key) && !Ready(jobs, oldId, j.dependencies))
  {
    var reused := Reuse(jobs, newId, oldId);
    assert reused[i] == ReuseOne(jobs, newId, oldId, jobs[i]);
    assert Rerun(jobs, oldId, newId)[i] == UnblockReadyOne(reused, newId, reused[i]);
    ReusedReady(jobs, oldId, newId, nodes, jobs[i].dependencies);
  }

  /** What succeeded in the old run had all its dependencies succeed there. */
  lemma SucceededIsReady(jobs: seq<Job>, oldId: nat, newId: nat, nodes: seq<Node>, i: nat)
    requires JustCreated(jobs, oldId, newId, nodes) && i < |jobs| && jobs[i].runId == newId && SucceededKey(jobs, oldId, jobs[i].key)
    ensures Ready(jobs, oldId, jobs[i].dependencies)
  {
    var k :| 0 <= k < |jobs| && jobs[k].runId == oldId && jobs[k].key == jobs[i].key && jobs[k].status == Succeeded;
    SamePlanSameDependencies(jobs, newId, oldId, nodes, i, k);
    assert DependenciesOk(jobs, jobs[k]);
  }

  lemma RerunOthers(jobs: seq<Job>, oldId: nat, newId: nat, i: nat)
    requires i < |jobs| && jobs[i].runId != newId
    ensures Rerun(jobs, oldId, newId)[i] == jobs[i]
  {
  }

  lemma RerunKeepsDependencies(jobs: seq<Job>, oldId: nat, newId: nat, nodes: seq<Node>)
    requires JustCreated(jobs, oldId, newId, nodes)
    ensures SameShapes(jobs, Rerun(jobs, oldId, newId)) && AllDependenciesOk(Rerun(jobs, oldId, newId))
  {
    var after := Rerun(jobs, oldId, newId);
    forall i | 0 <= i < |after| ensures DependenciesOk(after, after[i]) {
      var j := jobs[i];
      if j.runId == newId {
        RerunStatus(jobs, oldId, newId, nodes, i);
        ReusedReady(jobs, oldId, newId, nodes, j.dependencies);
        if after[i].status == Succeeded { SucceededIsReady(jobs, oldId, newId, nodes, i); }
      } else {
        RerunOthers(jobs, oldId, newId, i);
        assert DependenciesOk(jobs, j);
        OtherReady(jobs, oldId, newId, j.runId, j.dependencies);
      }
    }
  }

  lemma OtherReady(jobs: seq<Job>, oldId: nat, newId: nat, r: nat, dependencies: seq<string>)
    requires r != newId
    ensures Ready(Rerun(jobs, oldId, newId), r, dependencies) <==> Ready(jobs, r, dependencies)
  {
    var after := Rerun(jobs, oldId, newId);
    forall d | d in dependencies ensures SucceededKey(after, r, d) <==> SucceededKey(jobs, r, d) {
      if SucceededKey(jobs, r, d) {
        var k :| 0 <= k < |jobs| && jobs[k].runId == r && jobs[k].key == d && jobs[k].status == Succeeded;
        RerunOthers(jobs, oldId, newId, k);
      }
      if SucceededKey(after, r, d) {
        var k :| 0 <= k < |after| && after[k].runId == r && after[k].key == d && after[k].status == Succeeded;
        assert jobs[k].runId == r;
        RerunOthers(jobs, oldId, newId, k);
      }
    }
  }

  lemma RerunUnsuccessful(jobs: seq<Job>, oldId: nat, newId: nat, nodes: seq<Node>, i: nat)
    requires JustCreated(jobs, oldId, newId, nodes) && i < |jobs|
    ensures var j, j' := jobs[i], Rerun(jobs, oldId, newId)[i];
            SameShape(j, j') && (j.runId == newId ==> !Unsuccessful(j'.status) && !JobTerminal(j.status)) && (j.runId != newId ==> j' == j)
  {
    if jobs[i].runId == newId { RerunStatus(jobs, oldId, newId, nodes, i); } else { RerunOthers(jobs, oldId, newId, i); }
  }

  lemma RerunKeepsEnded(jobs: seq<Job>, oldId: nat, newId: nat, nodes: seq<Node>)
    requires JustCreated(jobs, oldId, newId, nodes)
    ensures EndedStay(jobs, Rerun(jobs, oldId, newId))
  {
    forall i | 0 <= i < |jobs| ensures SameShape(jobs[i], Rerun(jobs, oldId, newId)[i]) { RerunUnsuccessful(jobs, oldId, newId, nodes, i); }
    forall i | 0 <= i < |jobs| && JobTerminal(jobs[i].status) ensures Rerun(jobs, oldId, newId)[i].status == jobs[i].status {
      RerunUnsuccessful(jobs, oldId, newId, nodes, i);
    }
  }

  lemma RerunKeepsFailures(jobs: seq<Job>, oldId: nat, newId: nat, nodes: seq<Node>)
    requires JustCreated(jobs, oldId, newId, nodes) && EndedStay(jobs, Rerun(jobs, oldId, newId))
    ensures var after := Rerun(jobs, oldId, newId); SkipOk(after) && FailureOk(after)
  {
    var after := Rerun(jobs, oldId, newId);
    forall i | 0 <= i < |after| && Unsuccessful(after[i].status) ensures jobs[i] == after[i] && jobs[i].runId != newId {
      RerunUnsuccessful(jobs, oldId, newId, nodes, i);
    }
    SkipKept(jobs, after);
    forall i, k | 0 <= i < |after| && 0 <= k < |after| && after[i].runId == after[k].runId && Unsuccessful(after[i].status)
      ensures after[k].status != Blocked
    {
      RerunUnsuccessful(jobs, oldId, newId, nodes, k);
    }
  }

  /** An old run that failed has a failed job, whose counterpart is queued. */
  lemma RerunCanProgress(jobs: seq<Job>, oldId: nat, newId: nat, nodes: seq<Node>)
    requires JustCreated(jobs, oldId, newId, nodes) && RunHas(jobs, oldId, Failed)
    ensures RunHas(Rerun(jobs, oldId, newId), newId, Queued)
  {
    var f :| 0 <= f < |jobs| && jobs[f].runId == oldId && jobs[f].status == Failed;
    assert DependenciesOk(jobs, jobs[f]);
    SamePlanSameKeys(jobs, oldId, newId, nodes, jobs[f].key) by { assert NamesJob(jobs, oldId, jobs[f].key); }
    var k :| 0 <= k < |jobs| && jobs[k].runId == newId && jobs[k].key == jobs[f].key;
    SamePlanSameDependencies(jobs, newId, oldId, nodes, k, f);
    RerunStatus(jobs, oldId, newId, nodes, k);
    assert !SucceededKey(jobs, oldId, jobs[k].key);
  }

  // The rerun transaction.

  predicate Waiting(jobs: seq<Job>, runId: nat) {
    forall i | 0 <= i < |jobs| && jobs[i].runId == runId :: jobs[i].status == if jobs[i].dependencies == [] then Queued else Blocked
  }

  lemma NewJobsWait(jobs: seq<Job>, stages: seq<Stage>, newId: nat, ids: seq<nat>)
    requires FreshRun(jobs, newId) && |ids| == |Flatten(stages)|
    ensures Waiting(jobs + NewJobs(stages, newId, ids), newId)
    ensures forall r: nat | r != newId :: OldRunSame(jobs, jobs + NewJobs(stages, newId, ids), r)
  {
  }

  lemma NewRunJustCreated(created: Database, oldId: nat, newId: nat)
    requires DatabaseOk(created) && oldId in created.runs && newId in created.runs && oldId != newId
    requires created.runs[oldId].stages == created.runs[newId].stages && Waiting(created.jobs, newId)
    ensures JustCreated(created.jobs, oldId, newId, Flatten(created.runs[oldId].stages))
  {
    var stages := created.runs[oldId].stages;
    assert RunOk(created, oldId) && RunOk(created, newId);
    if SoundStages(stages) { SoundStagesFlattenSoundly(stages); }
  }

  predicate OldRunSame(jobs: seq<Job>, created: seq<Job>, oldId: nat) {
    |jobs| <= |created| && (forall i | 0 <= i < |jobs| :: created[i] == jobs[i]) &&
    forall i | |jobs| <= i < |created| :: created[i].runId != oldId
  }

  /** The first half of a rerun: the run is inserted again under its new identifier. */
  function CreatedAgain(db: Database, oldId: nat, newId: nat, ids: seq<nat>): PostgresRuns.Outcome<Database>
    requires oldId in db.runs && |ids| == |Flatten(db.runs[oldId].stages)|
  {
    CreateTx(db, newId, db.runs[oldId].(status := RunQueued), ids)
  }

  lemma CreatedAgainDescribed(db: Database, oldId: nat, newId: nat, ids: seq<nat>, created: Database)
    requires DatabaseOk(created) && RunsKnown(db) && oldId in db.runs && FreshRow(db, newId, db.runs[oldId].stages, ids)
    requires created.jobs == db.jobs + NewJobs(db.runs[oldId].stages, newId, ids)
    requires created.runs == db.runs[newId := db.runs[oldId].(status := RunQueued)]
    ensures JustCreated(created.jobs, oldId, newId, Flatten(db.runs[oldId].stages)) && OldRunSame(db.jobs, created.jobs, oldId)
  {
    assert FreshRun(db.jobs, newId);
    NewJobsWait(db.jobs, db.runs[oldId].stages, newId, ids);
    NewRunJustCreated(created, oldId, newId);
  }

  /** A run that has jobs has a plan. */
  lemma PlanIsNotEmpty(db: Database, runId: nat)
    requires RunsOk(db) && runId in db.runs && HasJobs(db.jobs, runId)
    ensures db.runs[runId].stages != []
  {
    assert RunOk(db, runId);
    var i :| 0 <= i < |db.jobs| && db.jobs[i].runId == runId;
    assert InPlan(Flatten(db.runs[runId].stages), db.jobs[i]);
  }

  lemma CreatedAgainCommits(db: Database, oldId: nat, newId: nat, ids: seq<nat>) returns (created: Database)
    requires DatabaseOk(db) && oldId in db.runs && HasJobs(db.jobs, oldId) && FreshRow(db, newId, db.runs[oldId].stages, ids)
    ensures CreatedAgain(db, oldId, newId, ids) == Committed(created) && DatabaseOk(created)
    ensures created.jobs == db.jobs + NewJobs(db.runs[oldId].stages, newId, ids)
    ensures created.runs == db.runs[newId := db.runs[oldId].(status := RunQueued)]
  {
    assert RunOk(db, oldId);
    PlanIsNotEmpty(db, oldId);
    CreateKeeps(db, newId, db.runs[oldId].(status := RunQueued), ids);
    created := CreatedAgain(db, oldId, newId, ids).value;
  }

  lemma FailedRunHasFailedJob(db: Database, oldId: nat)
    requires RunsOk(db) && Rerunnable(db, oldId, true)
    ensures RunHas(db.jobs, oldId, Failed)
  {
    assert RunOk(db, oldId);
  }

  /** A failed-mode rerun is the insertion followed by the two updates. */
  lemma RerunInTwoHalves(db: Database, oldId: nat, newId: nat, ids: seq<nat>, created: Database)
    requires Rerunnable(db, oldId, true) && FreshRow(db, newId, db.runs[oldId].stages, ids)
    requires CreatedAgain(db, oldId, newId, ids) == Committed(created)
    ensures RerunTx(db, oldId, newId, ids, true) == Committed(created.(jobs := Rerun(created.jobs, oldId, newId)))
  {
  }

  lemma RerunAppliedKeeps(created: Database, oldId: nat, newId: nat, nodes: seq<Node>)
    requires DatabaseOk(created) && JustCreated(created.jobs, oldId, newId, nodes)
    ensures DatabaseOk(created.(jobs := Rerun(created.jobs, oldId, newId)))
  {
    RerunJobsFine(created.jobs, oldId, newId, nodes);
    JobsChange(created, Rerun(created.jobs, oldId, newId));
  }

  /** The new run after the insertion and the two updates of a failed-mode rerun. */
  lemma FailedRerunKeeps(db: Database, oldId: nat, newId: nat, ids: seq<nat>)
    requires DatabaseOk(db) && Rerunnable(db, oldId, true) && FreshRow(db, newId, db.runs[oldId].stages, ids)
    ensures var outcome := RerunTx(db, oldId, newId, ids, true);
            outcome.Committed? && DatabaseOk(outcome.value) && RunsStay(db, outcome.value)
  {
    var created := CreatedAgainCommits(db, oldId, newId, ids);
    CreatedAgainDescribed(db, oldId, newId, ids, created);
    RerunInTwoHalves(db, oldId, newId, ids, created);
    RerunAppliedKeeps(created, oldId, newId, Flatten(db.runs[oldId].stages));
  }

  lemma RerunJobsFine(jobs: seq<Job>, oldId: nat, newId: nat, nodes: seq<Node>)
    requires JustCreated(jobs, oldId, newId, nodes)
    ensures JobsFine(Rerun(jobs, oldId, newId)) && EndedStay(jobs, Rerun(jobs, oldId, newId))
  {
    RerunKeepsDependencies(jobs, oldId, newId, nodes);
    RerunKeepsEnded(jobs, oldId, newId, nodes);
    RerunKeepsFailures(jobs, oldId, newId, nodes);
    ShapePreserved(jobs, Rerun(jobs, oldId, newId));
  }

  lemma RerunKeeps(db: Database, oldId: nat, newId: nat, ids: seq<nat>, failedMode: bool)
    requires DatabaseOk(db) && (oldId in db.runs ==> FreshRow(db, newId, db.runs[oldId].stages, ids))
    ensures GoodOutcome(db, RerunTx(db, oldId, newId, ids, failedMode))
  {
    if Rerunnable(db, oldId, failedMode) {
      if failedMode {
        FailedRerunKeeps(db, oldId, newId, ids);
      } else {
        FullRerunKeeps(db, oldId, newId, ids);
      }
    }
  }

  lemma FullRerunIsCreation(db: Database, oldId: nat, newId: nat, ids: seq<nat>)
    requires Rerunnable(db, oldId, false) && FreshRow(db, newId, db.runs[oldId].stages, ids)
    ensures RerunTx(db, oldId, newId, ids, false) == CreatedAgain(db, oldId, newId, ids)
  {
  }

  lemma FullRerunKeeps(db: Database, oldId: nat, newId: nat, ids: seq<nat>)
    requires DatabaseOk(db) && Rerunnable(db, oldId, false) && FreshRow(db, newId, db.runs[oldId].stages, ids)
    ensures var outcome := RerunTx(db, oldId, newId, ids, false);
            outcome.Committed? && DatabaseOk(outcome.value) && RunsStay(db, outcome.value)
  {
    FullRerunIsCreation(db, oldId, newId, ids);
    var created := CreatedAgainCommits(db, oldId, newId, ids);
  }

  /** What the jobs of the new run of a failed-mode rerun are, in terms of the jobs of the old run. */
  ghost predicate RerunOf(jobs: seq<Job>, after: seq<Job>, oldId: nat, newId: nat) {
    (forall key :: NamesJob(after, newId, key) <==> NamesJob(jobs, oldId, key)) &&
    (forall i {:trigger after[i]} | 0 <= i < |after| && after[i].runId == newId ::
      (after[i].status == Succeeded <==> SucceededKey(jobs, oldId, after[i].key)) &&
      (after[i].status == Succeeded ==> Ready(after, newId, after[i].dependencies)) &&
      (after[i].status == Queued <==> after[i].status != Succeeded && Ready(after, newId, after[i].dependencies)) &&
      (after[i].status == Succeeded || after[i].status == Queued || after[i].status == Blocked)) &&
    RunHas(after, newId, Queued)
  }

  lemma OldKeys(jobs: seq<Job>, created: seq<Job>, oldId: nat, key: string)
    requires OldRunSame(jobs, created, oldId)
    ensures SucceededKey(jobs, oldId, key) <==> SucceededKey(created, oldId, key)
    ensures NamesJob(jobs, oldId, key) <==> NamesJob(created, oldId, key)
  {
    if SucceededKey(jobs, oldId, key) {
      var k :| 0 <= k < |jobs| && jobs[k].runId == oldId && jobs[k].key == key && jobs[k].status == Succeeded;
      assert created[k] == jobs[k];
    }
    if NamesJob(jobs, oldId, key) {
      var k :| 0 <= k < |jobs| && jobs[k].runId == oldId && jobs[k].key == key;
      assert created[k] == jobs[k];
    }
  }

  lemma RerunKeysSame(jobs: seq<Job>, oldId: nat, newId: nat, nodes: seq<Node>, key: string)
    requires JustCreated(jobs, oldId, newId, nodes)
    ensures NamesJob(Rerun(jobs, oldId, newId), newId, key) <==> NamesJob(jobs, oldId, key)
  {
    var after := Rerun(jobs, oldId, newId);
    if NamesJob(after, newId, key) {
      var k :| 0 <= k < |after| && after[k].runId == newId && after[k].key == key;
      RerunUnsuccessful(jobs, oldId, newId, nodes, k);
      assert NamesJob(jobs, newId, key) by { assert jobs[k].runId == newId && jobs[k].key == key; }
      SamePlanSameKeys(jobs, newId, oldId, nodes, key);
    }
    if NamesJob(jobs, oldId, key) {
      SamePlanSameKeys(jobs, oldId, newId, nodes, key);
      var k :| 0 <= k < |jobs| && jobs[k].runId == newId && jobs[k].key == key;
      RerunUnsuccessful(jobs, oldId, newId, nodes, k);
    }
  }

  lemma OldRunHas(jobs: seq<Job>, created: seq<Job>, oldId: nat, status: JobStatus)
    requires OldRunSame(jobs, created, oldId) && RunHas(jobs, oldId, status)
    ensures RunHas(created, oldId, status)
  {
    var k :| 0 <= k < |jobs| && jobs[k].runId == oldId && jobs[k].status == status;
    assert created[k] == jobs[k];
  }

  /** Exactly the old run's successes are reused, they are closed under dependencies, readiness is exact, and something is queued. */
  lemma FailedRerun(db: Database, oldId: nat, newId: nat, ids: seq<nat>)
    requires DatabaseOk(db) && Rerunnable(db, oldId, true) && FreshRow(db, newId, db.runs[oldId].stages, ids)
    ensures var outcome := RerunTx(db, oldId, newId, ids, true);
            outcome.Committed? && RerunOf(db.jobs, outcome.value.jobs, oldId, newId)
  {
    var created := CreatedAgainCommits(db, oldId, newId, ids);
    CreatedAgainDescribed(db, oldId, newId, ids, created);
    RerunInTwoHalves(db, oldId, newId, ids, created);
    FailedRunHasFailedJob(db, oldId);
    OldRunHas(db.jobs, created.jobs, oldId, Failed);
    RerunDescribed(db.jobs, created.jobs, oldId, newId, Flatten(db.runs[oldId].stages));
  }

  lemma RerunDescribed(jobs: seq<Job>, created: seq<Job>, oldId: nat, newId: nat, nodes: seq<Node>)
    requires OldRunSame(jobs, created, oldId) && JustCreated(created, oldId, newId, nodes) && RunHas(created, oldId, Failed)
    ensures RerunOf(jobs, Rerun(created, oldId, newId), oldId, newId)
  {
    var after := Rerun(created, oldId, newId);
    RerunCanProgress(created, oldId, newId, nodes);
    forall key ensures NamesJob(after, newId, key) <==> NamesJob(jobs, oldId, key) {
      OldKeys(jobs, created, oldId, key);
      RerunKeysSame(created, oldId, newId, nodes, key);
    }
    forall i | 0 <= i < |after| && after[i].runId == newId
      ensures (after[i].status == Succeeded <==> SucceededKey(jobs, oldId, after[i].key)) &&
              (after[i].status == Succeeded ==> Ready(after, newId, after[i].dependencies)) &&
              (after[i].status == Queued <==> after[i].status != Succeeded && Ready(after, newId, after[i].dependencies)) &&
              (after[i].status == Succeeded || after[i].status == Queued || after[i].status == Blocked)
    {
      RerunUnsuccessful(created, oldId, newId, nodes, i);
      RerunStatus(created, oldId, newId, nodes, i);
      ReusedReady(created, oldId, newId, nodes, created[i].dependencies);
      OldKeys(jobs, created, oldId, created[i].key);
      if after[i].status == Succeeded { SucceededIsReady(created, oldId, newId, nodes, i); }
    }
  }
}
