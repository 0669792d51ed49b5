// What every step of the scheduler keeps about the jobs: identity and shape, leases,
// dependency safety and exact readiness, and the effect of a failure on its run.

module JobInvariants {
  import opened DependencyGraph
  import opened PipelineCompiler
  import opened RunGraph
  import opened Basics
  import opened RunModel

  // Shape: what never changes after a run is created.

  predicate SameShape(a: Job, b: Job) {
    a.id == b.id && a.runId == b.runId && a.key == b.key && a.dependencies == b.dependencies && a.requirements == b.requirements
  }

  predicate SameShapes(a: seq<Job>, b: seq<Job>) {
    |a| == |b| && forall i | 0 <= i < |a| :: SameShape(a[i], b[i])
  }

  predicate DistinctIds(jobs: seq<Job>) {
    (forall i | 0 <= i < |jobs| :: jobs[i].id != NIL) && forall i, j | 0 <= i < j < |jobs| :: jobs[i].id != jobs[j].id
  }

  predicate DistinctKeys(jobs: seq<Job>) {
    forall i, j | 0 <= i < j < |jobs| && jobs[i].runId == jobs[j].runId :: jobs[i].key != jobs[j].key
  }

  predicate NamesJob(jobs: seq<Job>, runId: nat, key: string) {
    exists k | 0 <= k < |jobs| :: jobs[k].runId == runId && jobs[k].key == key
  }

  /** Some job of the run with this key has succeeded. */
  predicate SucceededKey(jobs: seq<Job>, runId: nat, key: string) {
    exists k | 0 <= k < |jobs| :: jobs[k].runId == runId && jobs[k].key == key && jobs[k].status == Succeeded
  }

  predicate DependenciesKnown(jobs: seq<Job>) {
    forall i, d | 0 <= i < |jobs| && d in jobs[i].dependencies :: NamesJob(jobs, jobs[i].runId, d)
  }

  predicate RanksRun(jobs: seq<Job>, runId: nat, rank: map<string, nat>) {
    forall i | 0 <= i < |jobs| && jobs[i].runId == runId ::
      jobs[i].key in rank && forall d | d in jobs[i].dependencies :: d in rank && rank[d] < rank[jobs[i].key]
  }

  ghost predicate Acyclic(jobs: seq<Job>, runId: nat) {
    exists rank :: RanksRun(jobs, runId, rank)
  }

  ghost predicate ShapeOk(jobs: seq<Job>) {
    DistinctIds(jobs) && DistinctKeys(jobs) && DependenciesKnown(jobs) && forall r: nat :: Acyclic(jobs, r)
  }

  lemma ShapePreserved(a: seq<Job>, b: seq<Job>)
    requires SameShapes(a, b) && ShapeOk(a)
    ensures ShapeOk(b)
  {
    forall i, d | 0 <= i < |b| && d in b[i].dependencies ensures NamesJob(b, b[i].runId, d) {
      assert SameShape(a[i], b[i]);
      assert NamesJob(a, a[i].runId, d);
      var k :| 0 <= k < |a| && a[k].runId == a[i].runId && a[k].key == d;
      assert SameShape(a[k], b[k]);
    }
    forall r: nat ensures Acyclic(b, r) {
      assert Acyclic(a, r);
      var rank :| RanksRun(a, r, rank);
      assert RanksRun(b, r, rank) by {
        forall i | 0 <= i < |b| && b[i].runId == r
          ensures b[i].key in rank && forall d | d in b[i].dependencies :: d in rank && rank[d] < rank[b[i].key]
        {
          assert SameShape(a[i], b[i]);
        }
      }
    }
    forall i, j | 0 <= i < j < |b| ensures b[i].id != b[j].id && (b[i].runId == b[j].runId ==> b[i].key != b[j].key) {
      assert SameShape(a[i], b[i]) && SameShape(a[j], b[j]);
    }
    forall i | 0 <= i < |b| ensures b[i].id != NIL { assert SameShape(a[i], b[i]); }
  }

  // Leases.

  /** A job holds a token exactly while it is assigned or running. */
  predicate LeaseOk(j: Job, issued: set<nat>) {
    (Leased(j.status) <==> j.token != NO_TOKEN) &&
    (j.token != NO_TOKEN ==> j.token in issued && j.runnerId != NIL) &&
    (j.status == Running ==> j.acceptedAt.Some?)
  }

  predicate DistinctTokens(jobs: seq<Job>) {
    forall i, j | 0 <= i < j < |jobs| && jobs[i].token != NO_TOKEN :: jobs[i].token != jobs[j].token
  }

  predicate LeasesOk(jobs: seq<Job>, issued: set<nat>) {
    (forall i | 0 <= i < |jobs| :: LeaseOk(jobs[i], issued)) && DistinctTokens(jobs)
  }

  // Dependencies and failures.

  /** A job that is neither blocked nor skipped has all its dependencies succeeded; a blocked one has not. */
  predicate ReadinessOk(jobs: seq<Job>, j: Job) {
    (j.status != Blocked && j.status != Skipped ==> Satisfied(jobs, j.runId, j.dependencies)) &&
    (j.status == Blocked ==> !Satisfied(jobs, j.runId, j.dependencies))
  }

  predicate AllReadinessOk(jobs: seq<Job>) {
    forall i {:trigger ReadinessOk(jobs, jobs[i])} | 0 <= i < |jobs| :: ReadinessOk(jobs, jobs[i])
  }

  predicate Unsuccessful(s: JobStatus) {
    s == Failed || s == Canceled || s == Skipped
  }

  /** Once a job of a run failed, was canceled or was skipped, no job of the run is blocked. */
  predicate FailureOk(jobs: seq<Job>) {
    forall i, k | 0 <= i < |jobs| && 0 <= k < |jobs| && jobs[i].runId == jobs[k].runId && Unsuccessful(jobs[i].status) ::
      jobs[k].status != Blocked
  }

  /** Only a failed or canceled job of the same run makes the scheduler skip. */
  predicate SkipOk(jobs: seq<Job>) {
    forall i | 0 <= i < |jobs| && jobs[i].status == Skipped :: RunHas(jobs, jobs[i].runId, Failed) || RunHas(jobs, jobs[i].runId, Canceled)
  }

  ghost predicate JobsOk(jobs: seq<Job>, issued: set<nat>) {
    ShapeOk(jobs) && LeasesOk(jobs, issued) && AllReadinessOk(jobs) && FailureOk(jobs) && SkipOk(jobs)
  }

  // `LastStatus` sees only which jobs have succeeded.

  predicate SuccessesGrow(a: seq<Job>, b: seq<Job>) {
    SameShapes(a, b) && forall i | 0 <= i < |a| && a[i].status == Succeeded :: b[i].status == Succeeded
  }

  lemma {:induction false} LastStatusGrows(a: seq<Job>, b: seq<Job>, runId: nat, key: string)
    requires SuccessesGrow(a, b) && LastStatus(a, runId, key) == Some(Succeeded)
    ensures LastStatus(b, runId, key) == Some(Succeeded)
  {
    var n := |a| - 1;
    assert SameShape(a[n], b[n]);
    if !(a[n].runId == runId && a[n].key == key) { LastStatusGrows(a[..n], b[..n], runId, key); }
  }

  lemma SatisfiedGrows(a: seq<Job>, b: seq<Job>, runId: nat, dependencies: seq<string>)
    requires SuccessesGrow(a, b) && Satisfied(a, runId, dependencies)
    ensures Satisfied(b, runId, dependencies)
  {
    forall d | d in dependencies ensures LastStatus(b, runId, d) == Some(Succeeded) { LastStatusGrows(a, b, runId, d); }
  }

  lemma SatisfiedSame(a: seq<Job>, b: seq<Job>, runId: nat, dependencies: seq<string>)
    requires SuccessesGrow(a, b) && SuccessesGrow(b, a)
    ensures Satisfied(a, runId, dependencies) <==> Satisfied(b, runId, dependencies)
  {
    if Satisfied(a, runId, dependencies) { SatisfiedGrows(a, b, runId, dependencies); }
    if Satisfied(b, runId, dependencies) { SatisfiedGrows(b, a, runId, dependencies); }
  }

  /** With distinct keys, the last status of a key is the status of its job. */
  lemma {:induction false} LastStatusAt(jobs: seq<Job>, i: nat)
    requires DistinctKeys(jobs) && i < |jobs|
    ensures LastStatus(jobs, jobs[i].runId, jobs[i].key) == Some(jobs[i].status)
  {
    var n := |jobs| - 1;
    if i < n {
      assert jobs[..n][i] == jobs[i];
      LastStatusAt(jobs[..n], i);
    }
  }

  // Touching one job that is queued, assigned or running and stays so.

  predicate Open(s: JobStatus) {
    s == Queued || Leased(s)
  }

  predicate Touch(j: Job, j': Job, issued: set<nat>, issued': set<nat>) {
    SameShape(j, j') && Open(j.status) && Open(j'.status) && LeaseOk(j', issued') &&
    (j'.token == j.token || j'.token == NO_TOKEN || j'.token !in issued)
  }

  lemma TouchKeepsLeases(jobs: seq<Job>, i: nat, j': Job, issued: set<nat>, issued': set<nat>)
    requires i < |jobs| && LeasesOk(jobs, issued) && issued <= issued' && Touch(jobs[i], j', issued, issued')
    ensures LeasesOk(jobs[i := j'], issued')
  {
    var after := jobs[i := j'];
    forall k | 0 <= k < |after| ensures LeaseOk(after[k], issued') { assert LeaseOk(jobs[k], issued); }
    forall a, b | 0 <= a < b < |after| && after[a].token != NO_TOKEN ensures after[a].token != after[b].token {
      assert LeaseOk(jobs[a], issued) && LeaseOk(jobs[b], issued);
    }
  }

  lemma TouchKeepsReadiness(jobs: seq<Job>, i: nat, j': Job, issued: set<nat>, issued': set<nat>)
    requires i < |jobs| && AllReadinessOk(jobs) && Touch(jobs[i], j', issued, issued')
    ensures AllReadinessOk(jobs[i := j'])
  {
    var after := jobs[i := j'];
    forall k | 0 <= k < |after| ensures ReadinessOk(after, after[k]) {
      assert ReadinessOk(jobs, jobs[k]);
      SatisfiedSame(jobs, after, jobs[k].runId, jobs[k].dependencies);
    }
  }

  lemma TouchKeepsJobsOk(jobs: seq<Job>, i: nat, j': Job, issued: set<nat>, issued': set<nat>)
    requires i < |jobs| && JobsOk(jobs, issued) && issued <= issued' && Touch(jobs[i], j', issued, issued')
    ensures JobsOk(jobs[i := j'], issued')
  {
    var after := jobs[i := j'];
    ShapePreserved(jobs, after);
    TouchKeepsLeases(jobs, i, j', issued, issued');
    TouchKeepsReadiness(jobs, i, j', issued, issued');
    SkipKept(jobs, after);
  }

  /** Failed, canceled and skipped jobs stay what they are, and nothing new is skipped. */
  lemma SkipKept(a: seq<Job>, b: seq<Job>)
    requires SameShapes(a, b) && SkipOk(a)
    requires forall i | 0 <= i < |a| && (a[i].status == Failed || a[i].status == Canceled) :: b[i].status == a[i].status
    requires forall i | 0 <= i < |a| && b[i].status == Skipped :: a[i].status == Skipped
    ensures SkipOk(b)
  {
    forall k | 0 <= k < |b| && b[k].status == Skipped
      ensures RunHas(b, b[k].runId, Failed) || RunHas(b, b[k].runId, Canceled)
    {
      assert SameShape(a[k], b[k]);
      RunHasKept(a, b, a[k].runId, Failed);
      RunHasKept(a, b, a[k].runId, Canceled);
    }
  }

  /** Jobs with this status keep it, so a run that has one still has one. */
  lemma RunHasKept(a: seq<Job>, b: seq<Job>, runId: nat, status: JobStatus)
    requires SameShapes(a, b) && forall i | 0 <= i < |a| && a[i].status == status :: b[i].status == status
    ensures RunHas(a, runId, status) ==> RunHas(b, runId, status)
  {
    if RunHas(a, runId, status) {
      var i :| 0 <= i < |a| && a[i].runId == runId && a[i].status == status;
      assert SameShape(a[i], b[i]);
    }
  }

  // Success unblocks exactly what became ready.

  lemma UnblockKeepsLeases(jobs: seq<Job>, runId: nat, issued: set<nat>)
    requires LeasesOk(jobs, issued)
    ensures LeasesOk(Unblock(jobs, runId), issued)
  {
    forall k | 0 <= k < |jobs| ensures LeaseOk(Unblock(jobs, runId)[k], issued) { assert LeaseOk(jobs[k], issued); }
  }

  lemma EndKeepsLeases(jobs: seq<Job>, i: nat, j': Job, issued: set<nat>)
    requires i < |jobs| && LeasesOk(jobs, issued) && !Leased(j'.status) && j'.token == NO_TOKEN
    ensures LeasesOk(jobs[i := j'], issued)
  {
    var after := jobs[i := j'];
    forall k | 0 <= k < |jobs| ensures LeaseOk(after[k], issued) { assert LeaseOk(jobs[k], issued); }
  }

  lemma SucceedKeepsJobsOk(jobs: seq<Job>, i: nat, issued: set<nat>)
    requires i < |jobs| && JobsOk(jobs, issued) && Leased(jobs[i].status)
    ensures JobsOk(CompleteJobs(jobs, i, Succeeded), issued)
  {
    var done := jobs[i := CompleteOne(jobs[i], Succeeded)];
    var after := Unblock(done, jobs[i].runId);
    ShapePreserved(jobs, after);
    EndKeepsLeases(jobs, i, CompleteOne(jobs[i], Succeeded), issued);
    UnblockKeepsLeases(done, jobs[i].runId, issued);
    SucceedKeepsReadiness(jobs, i);
    SkipKept(jobs, after);
    SucceedKeepsFailureOk(jobs, i);
  }

  lemma SucceedKeepsReadiness(jobs: seq<Job>, i: nat)
    requires i < |jobs| && AllReadinessOk(jobs) && Leased(jobs[i].status)
    ensures AllReadinessOk(CompleteJobs(jobs, i, Succeeded))
  {
    var after := CompleteJobs(jobs, i, Succeeded);
    forall k | 0 <= k < |after| ensures ReadinessOk(after, after[k]) { UnblockedReadiness(jobs, i, k); }
  }

  lemma SucceedKeepsFailureOk(jobs: seq<Job>, i: nat)
    requires i < |jobs| && FailureOk(jobs) && Leased(jobs[i].status)
    ensures FailureOk(CompleteJobs(jobs, i, Succeeded))
  {
    var after := CompleteJobs(jobs, i, Succeeded);
    forall x, y | 0 <= x < |after| && 0 <= y < |after| && after[x].runId == after[y].runId && Unsuccessful(after[x].status)
      ensures after[y].status != Blocked
    {
      assert Unsuccessful(jobs[x].status) && jobs[x].runId == jobs[y].runId;
    }
  }

  lemma UnblockedReadiness(jobs: seq<Job>, i: nat, k: nat)
    requires i < |jobs| && k < |jobs| && AllReadinessOk(jobs) && Leased(jobs[i].status)
    ensures var after := CompleteJobs(jobs, i, Succeeded); ReadinessOk(after, after[k])
  {
    var done := jobs[i := CompleteOne(jobs[i], Succeeded)];
    var runId, dependencies := jobs[k].runId, jobs[k].dependencies;
    SatisfiedSame(done, Unblock(done, jobs[i].runId), runId, dependencies);
    assert ReadinessOk(jobs, jobs[k]);
    SuccessReadies(jobs, done, runId, dependencies);
    if runId != jobs[i].runId { SatisfiedOtherRun(jobs, done, runId, dependencies); }
    assert Unblock(done, jobs[i].runId)[k] == UnblockOne(done, jobs[i].runId, done[k]);
  }

  lemma SuccessReadies(a: seq<Job>, b: seq<Job>, runId: nat, dependencies: seq<string>)
    requires SuccessesGrow(a, b)
    ensures Satisfied(a, runId, dependencies) ==> Satisfied(b, runId, dependencies)
  {
    if Satisfied(a, runId, dependencies) { SatisfiedGrows(a, b, runId, dependencies); }
  }

  /** Completing a job of another run changes nothing for this run. */
  lemma {:induction false} LastStatusOtherRun(a: seq<Job>, b: seq<Job>, runId: nat, key: string)
    requires SameShapes(a, b) && forall i | 0 <= i < |a| && a[i].runId == runId :: a[i].status == b[i].status
    ensures LastStatus(a, runId, key) == LastStatus(b, runId, key)
  {
    if a != [] {
      var n := |a| - 1;
      assert SameShape(a[n], b[n]);
      LastStatusOtherRun(a[..n], b[..n], runId, key);
    }
  }

  lemma SatisfiedOtherRun(a: seq<Job>, b: seq<Job>, runId: nat, dependencies: seq<string>)
    requires SameShapes(a, b) && forall i | 0 <= i < |a| && a[i].runId == runId :: a[i].status == b[i].status
    ensures Satisfied(a, runId, dependencies) <==> Satisfied(b, runId, dependencies)
  {
    forall d | d in dependencies ensures LastStatus(a, runId, d) == LastStatus(b, runId, d) {
      LastStatusOtherRun(a, b, runId, d);
    }
  }

  // A failed or canceled job sweeps its run.

  predicate Fails(j: Job, j': Job) {
    SameShape(j, j') && Leased(j.status) && (j'.status == Failed || j'.status == Canceled) && j'.token == NO_TOKEN
  }

  lemma SweepKeepsLeases(jobs: seq<Job>, runId: nat, issued: set<nat>)
    requires LeasesOk(jobs, issued)
    ensures LeasesOk(Sweep(jobs, runId), issued)
  {
    forall k | 0 <= k < |jobs| ensures LeaseOk(Sweep(jobs, runId)[k], issued) { assert LeaseOk(jobs[k], issued); }
  }

  lemma SweepKeepsReadiness(jobs: seq<Job>, i: nat, j': Job)
    requires i < |jobs| && AllReadinessOk(jobs) && Fails(jobs[i], j')
    ensures AllReadinessOk(Sweep(jobs[i := j'], jobs[i].runId))
  {
    var after := Sweep(jobs[i := j'], jobs[i].runId);
    forall k | 0 <= k < |after| ensures ReadinessOk(after, after[k]) {
      assert ReadinessOk(jobs, jobs[k]);
      SatisfiedSame(jobs, after, jobs[k].runId, jobs[k].dependencies);
    }
  }

  lemma SweepKeepsSkipOk(jobs: seq<Job>, i: nat, j': Job)
    requires i < |jobs| && SkipOk(jobs) && Fails(jobs[i], j')
    ensures SkipOk(Sweep(jobs[i := j'], jobs[i].runId))
  {
    var runId := jobs[i].runId;
    var after := Sweep(jobs[i := j'], runId);
    assert after[i] == j';
    forall k | 0 <= k < |after| && after[k].status == Skipped
      ensures RunHas(after, after[k].runId, Failed) || RunHas(after, after[k].runId, Canceled)
    {
      if after[k].runId != runId {
        RunHasKept(jobs, after, after[k].runId, Failed);
        RunHasKept(jobs, after, after[k].runId, Canceled);
      }
    }
  }

  lemma SweepKeepsFailureOk(jobs: seq<Job>, i: nat, j': Job)
    requires i < |jobs| && FailureOk(jobs) && Fails(jobs[i], j')
    ensures FailureOk(Sweep(jobs[i := j'], jobs[i].runId))
  {
    var after := Sweep(jobs[i := j'], jobs[i].runId);
    forall x, y | 0 <= x < |after| && 0 <= y < |after| && after[x].runId == after[y].runId && Unsuccessful(after[x].status)
      ensures after[y].status != Blocked
    {
      if jobs[x].runId != jobs[i].runId { assert jobs[x].runId == jobs[y].runId && Unsuccessful(jobs[x].status); }
    }
  }

  lemma FailKeepsJobsOk(jobs: seq<Job>, i: nat, j': Job, issued: set<nat>)
    requires i < |jobs| && JobsOk(jobs, issued) && Fails(jobs[i], j')
    ensures JobsOk(Sweep(jobs[i := j'], jobs[i].runId), issued)
  {
    ShapePreserved(jobs, Sweep(jobs[i := j'], jobs[i].runId));
    EndKeepsLeases(jobs, i, j', issued);
    SweepKeepsLeases(jobs[i := j'], jobs[i].runId, issued);
    SweepKeepsReadiness(jobs, i, j');
    SweepKeepsSkipOk(jobs, i, j');
    SweepKeepsFailureOk(jobs, i, j');
  }

  // A new run.

  predicate FreshIds(jobs: seq<Job>, ids: seq<nat>) {
    (forall i | 0 <= i < |ids| :: ids[i] != NIL && forall k | 0 <= k < |jobs| :: jobs[k].id != ids[i]) &&
    forall i, j | 0 <= i < j < |ids| :: ids[i] != ids[j]
  }

  predicate FreshRun(jobs: seq<Job>, runId: nat) {
    forall k | 0 <= k < |jobs| :: jobs[k].runId != runId
  }

  /** New jobs of a sound job graph, not yet succeeded. */
  ghost predicate NewGraph(added: seq<Job>, runId: nat, nodes: seq<Node>) {
    SoundGraph(nodes) && |added| == |nodes| &&
    forall i | 0 <= i < |added| ::
      added[i].runId == runId && added[i].key == nodes[i].name && added[i].dependencies == nodes[i].dependsOn &&
      added[i].status == (if nodes[i].dependsOn == [] then Queued else Blocked)
  }

  lemma NewGraphAcyclic(added: seq<Job>, runId: nat, nodes: seq<Node>)
    requires NewGraph(added, runId, nodes)
    ensures Acyclic(added, runId)
  {
    var g := GraphOf(nodes);
    GraphOfUnique(nodes);
    AcyclicIsRanked(g);
    var rank :| Ranked(g, rank);
    forall i | 0 <= i < |added|
      ensures added[i].key in rank && forall d | d in added[i].dependencies :: d in rank && rank[d] < rank[added[i].key]
    {
      forall d | d in added[i].dependencies ensures d in rank && rank[d] < rank[added[i].key] {
        assert Declares(nodes, d);
        var x :| 0 <= x < |nodes[i].dependsOn| && nodes[i].dependsOn[x] == d;
        assert g[nodes[i].name][x] in g;
      }
    }
    assert RanksRun(added, runId, rank);
  }

  lemma CreateKeepsAcyclic(jobs: seq<Job>, added: seq<Job>, runId: nat, nodes: seq<Node>, r: nat)
    requires NewGraph(added, runId, nodes) && FreshRun(jobs, runId) && Acyclic(jobs, r)
    ensures Acyclic(jobs + added, r)
  {
    if r == runId {
      NewGraphAcyclic(added, runId, nodes);
      var rank :| RanksRun(added, r, rank);
      assert RanksRun(jobs + added, r, rank);
    } else {
      var rank :| RanksRun(jobs, r, rank);
      assert RanksRun(jobs + added, r, rank);
    }
  }

  lemma NamesJobGrows(jobs: seq<Job>, added: seq<Job>, runId: nat, key: string)
    requires NamesJob(jobs, runId, key) || NamesJob(added, runId, key)
    ensures NamesJob(jobs + added, runId, key)
  {
    var all := jobs + added;
    if NamesJob(jobs, runId, key) {
      var k :| 0 <= k < |jobs| && jobs[k].runId == runId && jobs[k].key == key;
      assert all[k] == jobs[k];
    } else {
      var k :| 0 <= k < |added| && added[k].runId == runId && added[k].key == key;
      assert all[|jobs| + k] == added[k];
    }
  }

  lemma CreateKeepsDependenciesKnown(jobs: seq<Job>, added: seq<Job>, runId: nat, nodes: seq<Node>)
    requires NewGraph(added, runId, nodes) && DependenciesKnown(jobs)
    ensures DependenciesKnown(jobs + added)
  {
    var all := jobs + added;
    forall i, d | 0 <= i < |all| && d in all[i].dependencies ensures NamesJob(all, all[i].runId, d) {
      if i < |jobs| {
        assert NamesJob(jobs, jobs[i].runId, d);
      } else {
        assert Declares(nodes, d) by { assert d in nodes[i - |jobs|].dependsOn; }
        var k :| 0 <= k < |nodes| && nodes[k].name == d;
        assert added[k].key == d;
      }
      NamesJobGrows(jobs, added, all[i].runId, d);
    }
  }

  lemma CreateKeepsShape(jobs: seq<Job>, added: seq<Job>, runId: nat, nodes: seq<Node>, ids: seq<nat>)
    requires NewGraph(added, runId, nodes) && FreshRun(jobs, runId) && FreshIds(jobs, ids) && ShapeOk(jobs)
    requires |ids| == |added| && forall i | 0 <= i < |added| :: added[i].id == ids[i]
    ensures ShapeOk(jobs + added)
  {
    forall r: nat ensures Acyclic(jobs + added, r) { CreateKeepsAcyclic(jobs, added, runId, nodes, r); }
    CreateKeepsDependenciesKnown(jobs, added, runId, nodes);
    var all, n := jobs + added, |jobs|;
    forall i, j | 0 <= i < j < |all| ensures all[i].id != all[j].id && (all[i].runId == all[j].runId ==> all[i].key != all[j].key) {
      if j >= n {
        assert all[j] == added[j - n];
        if i >= n { assert all[i] == added[i - n] && nodes[i - n].name != nodes[j - n].name; }
      }
    }
  }

  lemma {:induction false} LastStatusAppend(jobs: seq<Job>, added: seq<Job>, runId: nat, key: string)
    requires FreshRun(added, runId)
    ensures LastStatus(jobs + added, runId, key) == LastStatus(jobs, runId, key)
    decreases |added|
  {
    if added == [] {
      assert jobs + added == jobs;
    } else {
      var n := |added| - 1;
      assert (jobs + added)[..|jobs| + n] == jobs + added[..n];
      LastStatusAppend(jobs, added[..n], runId, key);
    }
  }

  /** No job of the run has succeeded yet. */
  lemma {:induction false} LastStatusUnsucceeded(jobs: seq<Job>, runId: nat, key: string)
    requires !RunHas(jobs, runId, Succeeded)
    ensures LastStatus(jobs, runId, key) != Some(Succeeded)
  {
    if jobs != [] {
      var n := |jobs| - 1;
      assert !RunHas(jobs[..n], runId, Succeeded) by { assert forall i | 0 <= i < n :: jobs[..n][i] == jobs[i]; }
      LastStatusUnsucceeded(jobs[..n], runId, key);
    }
  }

  lemma CreateKeepsReadiness(jobs: seq<Job>, added: seq<Job>, runId: nat, nodes: seq<Node>)
    requires NewGraph(added, runId, nodes) && FreshRun(jobs, runId) && AllReadinessOk(jobs)
    ensures AllReadinessOk(jobs + added)
  {
    var all := jobs + added;
    forall k | 0 <= k < |all| ensures ReadinessOk(all, all[k]) {
      if k < |jobs| {
        assert ReadinessOk(jobs, jobs[k]);
        forall d | d in jobs[k].dependencies ensures LastStatus(all, jobs[k].runId, d) == LastStatus(jobs, jobs[k].runId, d) {
          LastStatusAppend(jobs, added, jobs[k].runId, d);
        }
      } else if all[k].dependencies != [] {
        assert !RunHas(all, runId, Succeeded);
        LastStatusUnsucceeded(all, runId, all[k].dependencies[0]);
      }
    }
  }

  lemma CreateKeepsJobsOk(jobs: seq<Job>, added: seq<Job>, runId: nat, nodes: seq<Node>, ids: seq<nat>, issued: set<nat>)
    requires JobsOk(jobs, issued) && NewGraph(added, runId, nodes) && FreshRun(jobs, runId) && FreshIds(jobs, ids)
    requires |ids| == |added| && forall i | 0 <= i < |added| :: added[i].id == ids[i] && added[i].token == NO_TOKEN
    ensures JobsOk(jobs + added, issued)
  {
    var all := jobs + added;
    CreateKeepsShape(jobs, added, runId, nodes, ids);
    CreateKeepsReadiness(jobs, added, runId, nodes);
    forall k | 0 <= k < |all| && all[k].status == Skipped
      ensures RunHas(all, all[k].runId, Failed) || RunHas(all, all[k].runId, Canceled)
    {
      RunHasPrefix(jobs, added, jobs[k].runId, Failed);
      RunHasPrefix(jobs, added, jobs[k].runId, Canceled);
    }
  }

  lemma RunHasPrefix(jobs: seq<Job>, added: seq<Job>, runId: nat, status: JobStatus)
    ensures RunHas(jobs, runId, status) ==> RunHas(jobs + added, runId, status)
  {
    if RunHas(jobs, runId, status) {
      var i :| 0 <= i < |jobs| && jobs[i].runId == runId && jobs[i].status == status;
      assert (jobs + added)[i] == jobs[i];
    }
  }

  // Progress.

  /** A blocked job waits, directly or through other blocked jobs, for one that is queued, assigned or running. */
  lemma {:induction false} BlockedWaitsForOpen(jobs: seq<Job>, issued: set<nat>, i: nat, rank: map<string, nat>) returns (k: nat)
    requires JobsOk(jobs, issued) && i < |jobs| && jobs[i].status == Blocked && RanksRun(jobs, jobs[i].runId, rank)
    ensures k < |jobs| && jobs[k].runId == jobs[i].runId && Open(jobs[k].status)
    decreases rank[jobs[i].key]
  {
    assert ReadinessOk(jobs, jobs[i]);
    var d :| d in jobs[i].dependencies && LastStatus(jobs, jobs[i].runId, d) != Some(Succeeded);
    assert NamesJob(jobs, jobs[i].runId, d);
    var n :| 0 <= n < |jobs| && jobs[n].runId == jobs[i].runId && jobs[n].key == d;
    LastStatusAt(jobs, n);
    if jobs[n].status == Blocked {
      k := BlockedWaitsForOpen(jobs, issued, n, rank);
    } else {
      k := n;
    }
  }

  /** No deadlock: a run with a blocked job always has a job that is queued, assigned or running. */
  lemma NoDeadlock(jobs: seq<Job>, issued: set<nat>, i: nat)
    requires JobsOk(jobs, issued) && i < |jobs| && jobs[i].status == Blocked
    ensures exists k :: 0 <= k < |jobs| && jobs[k].runId == jobs[i].runId && Open(jobs[k].status)
  {
    assert Acyclic(jobs, jobs[i].runId);
    var rank :| RanksRun(jobs, jobs[i].runId, rank);
    var k := BlockedWaitsForOpen(jobs, issued, i, rank);
  }
}
