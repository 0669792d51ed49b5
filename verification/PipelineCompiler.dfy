// The pipeline validator (internal/pipeline/compiler.go) and the flattening of
// stages and jobs into one job graph (internal/run/store.go, MemoryStore.Create).

module PipelineCompiler {
  import opened DependencyGraph

  /** What a job asks of a Runner. */
  datatype Requirements = Requirements(
    os: string, architecture: string, executor: string, labels: map<string, string>, diskBytes: nat)

  /** A decoded job; `fieldsValid` stands for the checks of fields outside the dependency graph. */
  datatype JobSpec = JobSpec(name: string, dependsOn: seq<string>, fieldsValid: bool, runsOn: Requirements)

  datatype Stage = Stage(name: string, dependsOn: seq<string>, jobs: seq<JobSpec>)

  /** A decoded pipeline; `headerValid` stands for version, name, concurrency and triggers. */
  datatype Pipeline = Pipeline(headerValid: bool, stages: seq<Stage>)

  const MAX_NAME_LENGTH := 63

  predicate IsAlphanumeric(c: char) {
    'a' <= c <= 'z' || 'A' <= c <= 'Z' || '0' <= c <= '9'
  }

  predicate IsNameChar(c: char) {
    IsAlphanumeric(c) || c == '.' || c == '_' || c == '-'
  }

  /** The name pattern: 1 to 63 characters, none of them a slash. */
  predicate ValidName(name: string) {
    1 <= |name| <= MAX_NAME_LENGTH && IsAlphanumeric(name[0]) && forall i | 0 <= i < |name| :: IsNameChar(name[i])
  }

  function StageNodes(stages: seq<Stage>): seq<Node> {
    seq(|stages|, i requires 0 <= i < |stages| => Node(stages[i].name, stages[i].dependsOn))
  }

  function JobNodes(jobs: seq<JobSpec>): seq<Node> {
    seq(|jobs|, i requires 0 <= i < |jobs| => Node(jobs[i].name, jobs[i].dependsOn))
  }

  predicate ValidNames(nodes: seq<Node>) {
    forall i | 0 <= i < |nodes| :: ValidName(nodes[i].name)
  }

  predicate Declares(nodes: seq<Node>, name: string) {
    exists i | 0 <= i < |nodes| :: nodes[i].name == name
  }

  /** Every dependency names another item of the list. */
  predicate KnownDependencies(nodes: seq<Node>) {
    forall i, j | 0 <= i < |nodes| && 0 <= j < |nodes[i].dependsOn| ::
      nodes[i].dependsOn[j] != nodes[i].name && Declares(nodes, nodes[i].dependsOn[j])
  }

  /** One level of the pipeline is sound: well-named, uniquely, with known and acyclic dependencies. */
  ghost predicate SoundLevel(nodes: seq<Node>) {
    nodes != [] && ValidNames(nodes) && UniqueNames(nodes) && KnownDependencies(nodes) && !Cyclic(GraphOf(nodes))
  }

  /** Items that depend on nothing are sound. */
  lemma IndependentIsSound(nodes: seq<Node>)
    requires nodes != [] && ValidNames(nodes) && UniqueNames(nodes) && forall i | 0 <= i < |nodes| :: nodes[i].dependsOn == []
    ensures SoundLevel(nodes)
  {
    var g := GraphOf(nodes);
    GraphOfUnique(nodes);
    RankedIsAcyclic(g, map a | a in g :: 0);
  }

  ghost predicate SoundJobs(jobs: seq<JobSpec>) {
    SoundLevel(JobNodes(jobs)) && forall i | 0 <= i < |jobs| :: jobs[i].fieldsValid
  }

  /** What `Validate` promises of a pipeline that it accepts. */
  ghost predicate Sound(p: Pipeline) {
    p.headerValid && SoundLevel(StageNodes(p.stages)) && StagesSound(p.stages, |p.stages|)
  }

  ghost predicate StagesSound(stages: seq<Stage>, n: nat)
    requires n <= |stages|
  {
    forall i | 0 <= i < n :: SoundJobs(stages[i].jobs)
  }

  // The validators. Each counts problems in the order in which the source appends them.

  /** The dependencies of one item name other members of `names`. */
  predicate KnownValues(names: set<string>, name: string, values: seq<string>) {
    forall j | 0 <= j < |values| :: values[j] != name && values[j] in names
  }

  predicate KnownIn(names: set<string>, g: Graph, keys: set<string>) {
    forall a {:trigger KnownValues(names, a, Successors(g, a))} | a in keys :: KnownValues(names, a, Successors(g, a))
  }

  method CheckDependencies(names: set<string>, name: string, values: seq<string>) returns (problems: nat)
    ensures problems == 0 <==> KnownValues(names, name, values)
  {
    problems := 0;
    for j := 0 to |values|
      invariant problems == 0 <==> KnownValues(names, name, values[..j])
    {
      if values[j] == name {
        problems := problems + 1;
      } else if values[j] !in names {
        problems := problems + 1;
      }
      assert values[..j + 1] == values[..j] + [values[j]];
    }
    assert values[..|values|] == values;
  }

  method ValidateDependencies(names: set<string>, dependencies: Graph) returns (problems: nat)
    ensures problems == 0 <==> KnownIn(names, dependencies, dependencies.Keys) && !Cyclic(dependencies)
  {
    problems := 0;
    var rest, done := dependencies.Keys, {};
    while rest != {}
      invariant rest + done == dependencies.Keys
      invariant problems == 0 <==> KnownIn(names, dependencies, done)
      decreases |rest|
    {
      var name :| name in rest;
      assert Successors(dependencies, name) == dependencies[name];
      var more := CheckDependencies(names, name, dependencies[name]);
      problems := problems + more;
      rest, done := rest - {name}, done + {name};
    }
    var cyclic := HasCycle(dependencies);
    if cyclic { problems := problems + 1; }
  }

  /** Names seen so far, the graph built so far, and whether a name was invalid or repeated. */
  method CheckName(names: set<string>, name: string) returns (problems: nat)
    ensures problems == 0 <==> ValidName(name) && name !in names
  {
    problems := 0;
    if !ValidName(name) {
      problems := 1;
    } else if name in names {
      problems := 1;
    }
  }

  ghost predicate CollectedFrom(nodes: seq<Node>, names: set<string>, g: Graph) {
    g == GraphOf(nodes) && forall x :: x in names <==> Declares(nodes, x)
  }

  lemma CollectOne(nodes: seq<Node>, names: set<string>, g: Graph, last: Node)
    requires CollectedFrom(nodes, names, g)
    ensures CollectedFrom(nodes + [last], names + {last.name}, g[last.name := last.dependsOn])
    ensures UniqueNames(nodes + [last]) <==> UniqueNames(nodes) && last.name !in names
    ensures ValidNames(nodes + [last]) <==> ValidNames(nodes) && ValidName(last.name)
  {
    var more := nodes + [last];
    assert more[..|nodes|] == nodes && more[|nodes|] == last;
    forall x ensures x in names + {last.name} <==> Declares(more, x) {
      if Declares(nodes, x) {
        var i :| 0 <= i < |nodes| && nodes[i].name == x;
        assert more[i].name == x;
      }
      if Declares(more, x) && x != last.name {
        var i :| 0 <= i < |more| && more[i].name == x;
        assert nodes[i].name == x;
      }
    }
    assert forall i | 0 <= i < |nodes| :: more[i] == nodes[i];
  }

  /** With unique names, checking the collected graph is checking the list. */
  lemma KnownInIsKnownDependencies(nodes: seq<Node>, names: set<string>, g: Graph)
    requires CollectedFrom(nodes, names, g) && UniqueNames(nodes)
    ensures KnownIn(names, g, g.Keys) <==> KnownDependencies(nodes)
  {
    GraphOfUnique(nodes);
    if KnownDependencies(nodes) {
      forall a | a in g ensures KnownValues(names, a, Successors(g, a)) {
        var i :| 0 <= i < |nodes| && nodes[i].name == a;
        assert nodes[i].dependsOn == Successors(g, a);
      }
    }
    if KnownIn(names, g, g.Keys) {
      forall i, j | 0 <= i < |nodes| && 0 <= j < |nodes[i].dependsOn|
        ensures nodes[i].dependsOn[j] != nodes[i].name && Declares(nodes, nodes[i].dependsOn[j])
      {
        assert KnownValues(names, nodes[i].name, Successors(g, nodes[i].name));
      }
    }
  }

  method ValidateJobs(jobs: seq<JobSpec>) returns (problems: nat)
    ensures problems == 0 <==> SoundJobs(jobs)
  {
    if |jobs| == 0 { return 1; }
    problems := 0;
    var names, deps: Graph := {}, map[];
    ghost var nodes := JobNodes(jobs);
    for i := 0 to |jobs|
      invariant CollectedFrom(nodes[..i], names, deps)
      invariant problems == 0 <==>
        ValidNames(nodes[..i]) && UniqueNames(nodes[..i]) && forall k | 0 <= k < i :: jobs[k].fieldsValid
    {
      var bad := CheckName(names, jobs[i].name);
      CollectOne(nodes[..i], names, deps, nodes[i]);
      assert nodes[..i + 1] == nodes[..i] + [nodes[i]];
      problems := problems + bad;
      names, deps := names + {jobs[i].name}, deps[jobs[i].name := jobs[i].dependsOn];
      if !jobs[i].fieldsValid { problems := problems + 1; }
    }
    assert nodes[..|jobs|] == nodes;
    if problems == 0 { KnownInIsKnownDependencies(nodes, names, deps); }
    var graphProblems := ValidateDependencies(names, deps);
    problems := problems + graphProblems;
  }

  method ValidateStage(names: set<string>, stage: Stage) returns (problems: nat)
    ensures problems == 0 <==> ValidName(stage.name) && stage.name !in names && SoundJobs(stage.jobs)
  {
    problems := CheckName(names, stage.name);
    var more := ValidateJobs(stage.jobs);
    problems := problems + more;
  }

  /** The names and the graph of the stages, and whether each stage is sound by itself. */
  method ValidateStages(stages: seq<Stage>) returns (problems: nat, names: set<string>, deps: Graph)
    ensures CollectedFrom(StageNodes(stages), names, deps)
    ensures problems == 0 <==>
      ValidNames(StageNodes(stages)) && UniqueNames(StageNodes(stages)) && StagesSound(stages, |stages|)
  {
    problems, names, deps := 0, {}, map[];
    ghost var nodes := StageNodes(stages);
    for i := 0 to |stages|
      invariant CollectedFrom(nodes[..i], names, deps)
      invariant problems == 0 <==> ValidNames(nodes[..i]) && UniqueNames(nodes[..i]) && StagesSound(stages, i)
    {
      var bad := ValidateStage(names, stages[i]);
      CollectOne(nodes[..i], names, deps, nodes[i]);
      assert nodes[..i + 1] == nodes[..i] + [nodes[i]];
      problems := problems + bad;
      names, deps := names + {stages[i].name}, deps[stages[i].name := stages[i].dependsOn];
    }
    assert nodes[..|stages|] == nodes;
  }

  /** Accepts exactly the sound pipelines. */
  method Validate(p: Pipeline) returns (accepted: bool)
    ensures accepted <==> Sound(p)
  {
    var problems := 0;
    if !p.headerValid { problems := problems + 1; }
    if |p.stages| == 0 { problems := problems + 1; }
    var stageProblems, names, deps := ValidateStages(p.stages);
    problems := problems + stageProblems;
    if problems == 0 { KnownInIsKnownDependencies(StageNodes(p.stages), names, deps); }
    var graphProblems := ValidateDependencies(names, deps);
    accepted := problems + graphProblems == 0;
  }
}

/** One job graph for a run: every job of each depended-on stage, then same-stage dependencies. */
module RunGraph {
  import opened DependencyGraph
  import opened PipelineCompiler

  function Key(stage: string, job: string): string {
    stage + "/" + job
  }

  function StageKeys(stage: Stage): seq<string> {
    seq(|stage.jobs|, i requires 0 <= i < |stage.jobs| => Key(stage.name, stage.jobs[i].name))
  }

  /** The keys under one stage name, as the map `stageJobs` accumulates them. */
  function KeysOfStage(stages: seq<Stage>, name: string): seq<string> {
    if stages == [] then []
    else
      var before := KeysOfStage(stages[..|stages| - 1], name);
      if stages[|stages| - 1].name == name then before + StageKeys(stages[|stages| - 1]) else before
  }

  function StageDependencyKeys(stages: seq<Stage>, dependsOn: seq<string>): seq<string> {
    if dependsOn == [] then []
    else
      StageDependencyKeys(stages, dependsOn[..|dependsOn| - 1]) + KeysOfStage(stages, dependsOn[|dependsOn| - 1])
  }

  function JobDependencyKeys(stage: string, dependsOn: seq<string>): seq<string> {
    seq(|dependsOn|, i requires 0 <= i < |dependsOn| => Key(stage, dependsOn[i]))
  }

  function FlatJob(stages: seq<Stage>, stage: Stage, job: JobSpec): Node {
    Node(Key(stage.name, job.name),
         StageDependencyKeys(stages, stage.dependsOn) + JobDependencyKeys(stage.name, job.dependsOn))
  }

  function FlatStage(stages: seq<Stage>, stage: Stage): seq<Node> {
    seq(|stage.jobs|, i requires 0 <= i < |stage.jobs| => FlatJob(stages, stage, stage.jobs[i]))
  }

  /** The jobs of the first `n` stages, in order. */
  function FlatPrefix(stages: seq<Stage>, n: nat): seq<Node>
    requires n <= |stages|
  {
    if n == 0 then [] else FlatPrefix(stages, n - 1) + FlatStage(stages, stages[n - 1])
  }

  function Flatten(stages: seq<Stage>): seq<Node> {
    FlatPrefix(stages, |stages|)
  }

  predicate SlashFree(s: string) {
    forall i | 0 <= i < |s| :: s[i] != '/'
  }

  /** The text before the first slash, and after it. */
  function StagePart(key: string): string {
    if key == "" || key[0] == '/' then "" else [key[0]] + StagePart(key[1..])
  }

  function JobPart(key: string): string {
    if |StagePart(key)| < |key| then key[|StagePart(key)| + 1..] else ""
  }

  lemma {:induction false} StagePartOfKey(stage: string, job: string)
    requires SlashFree(stage)
    ensures StagePart(Key(stage, job)) == stage && JobPart(Key(stage, job)) == job
  {
    var key := Key(stage, job);
    if stage != "" {
      assert key[1..] == Key(stage[1..], job);
      StagePartOfKey(stage[1..], job);
      assert stage == [stage[0]] + stage[1..];
      assert key == stage + ("/" + job);
    }
    assert key[|stage| + 1..] == job;
  }

  /** Names contain no slash, so a key determines its stage and its job. */
  lemma KeyIsInjective(stage: string, job: string, stage': string, job': string)
    requires ValidName(stage) && ValidName(stage') && Key(stage, job) == Key(stage', job')
    ensures stage == stage' && job == job'
  {
    ValidNameIsSlashFree(stage);
    ValidNameIsSlashFree(stage');
    StagePartOfKey(stage, job);
    StagePartOfKey(stage', job');
  }

  lemma ValidNameIsSlashFree(name: string)
    requires ValidName(name)
    ensures SlashFree(name)
  {
    forall i | 0 <= i < |name| ensures name[i] != '/' { assert IsNameChar(name[i]); }
  }

  /** Where a flattened job comes from. */
  predicate At(stages: seq<Stage>, n: Node, i: nat, k: nat) {
    i < |stages| && k < |stages[i].jobs| && n == FlatJob(stages, stages[i], stages[i].jobs[k])
  }

  ghost predicate FromStages(stages: seq<Stage>, n: Node, limit: nat) {
    exists i: nat, k: nat :: i < limit && At(stages, n, i, k)
  }

  lemma {:induction false} FlatMembers(stages: seq<Stage>, n: nat, x: nat)
    requires n <= |stages| && x < |FlatPrefix(stages, n)|
    ensures FromStages(stages, FlatPrefix(stages, n)[x], n)
  {
    var before := FlatPrefix(stages, n - 1);
    if x < |before| {
      FlatMembers(stages, n - 1, x);
    } else {
      assert At(stages, FlatPrefix(stages, n)[x], n - 1, x - |before|);
    }
  }

  lemma {:induction false} FlatContains(stages: seq<Stage>, n: nat, i: nat, k: nat)
    requires i < n <= |stages| && k < |stages[i].jobs|
    ensures exists x :: 0 <= x < |FlatPrefix(stages, n)| && FlatPrefix(stages, n)[x] == FlatJob(stages, stages[i], stages[i].jobs[k])
  {
    var before := FlatPrefix(stages, n - 1);
    if i < n - 1 {
      FlatContains(stages, n - 1, i, k);
      var x :| 0 <= x < |before| && before[x] == FlatJob(stages, stages[i], stages[i].jobs[k]);
      assert FlatPrefix(stages, n)[x] == before[x];
    } else {
      assert FlatPrefix(stages, n)[|before| + k] == FlatJob(stages, stages[i], stages[i].jobs[k]);
    }
  }

  ghost predicate SoundStages(stages: seq<Stage>) {
    SoundLevel(StageNodes(stages)) && forall i | 0 <= i < |stages| :: SoundLevel(JobNodes(stages[i].jobs))
  }

  lemma SoundNames(stages: seq<Stage>, i: nat, k: nat)
    requires SoundStages(stages) && i < |stages| && k < |stages[i].jobs|
    ensures ValidName(stages[i].name) && ValidName(stages[i].jobs[k].name)
  {
    assert StageNodes(stages)[i].name == stages[i].name;
    assert SoundLevel(JobNodes(stages[i].jobs));
    assert JobNodes(stages[i].jobs)[k].name == stages[i].jobs[k].name;
  }

  lemma {:induction false} FlatKeysUnique(stages: seq<Stage>, n: nat)
    requires SoundStages(stages) && n <= |stages|
    ensures UniqueNames(FlatPrefix(stages, n))
  {
    if n > 0 {
      FlatKeysUnique(stages, n - 1);
      var before, all := FlatPrefix(stages, n - 1), FlatPrefix(stages, n);
      forall x, y | 0 <= x < y < |all| ensures all[x].name != all[y].name {
        if y >= |before| {
          var k := y - |before|;
          SoundNames(stages, n - 1, k);
          if x < |before| {
            FlatMembers(stages, n - 1, x);
            var i: nat, j: nat :| i < n - 1 && At(stages, before[x], i, j);
            KeysDiffer(stages, i, j, n - 1, k);
          } else {
            KeysDiffer(stages, n - 1, x - |before|, n - 1, k);
          }
        }
      }
    }
  }

  lemma KeysDiffer(stages: seq<Stage>, i: nat, j: nat, i': nat, j': nat)
    requires SoundStages(stages) && i <= i' < |stages| && j < |stages[i].jobs| && j' < |stages[i'].jobs|
    requires i < i' || j < j'
    ensures Key(stages[i].name, stages[i].jobs[j].name) != Key(stages[i'].name, stages[i'].jobs[j'].name)
  {
    SoundNames(stages, i, j);
    SoundNames(stages, i', j');
    assert i < i' ==> StageNodes(stages)[i].name != StageNodes(stages)[i'].name;
    assert i == i' ==> JobNodes(stages[i].jobs)[j].name != JobNodes(stages[i].jobs)[j'].name by {
      assert SoundLevel(JobNodes(stages[i].jobs));
    }
    if Key(stages[i].name, stages[i].jobs[j].name) == Key(stages[i'].name, stages[i'].jobs[j'].name) {
      KeyIsInjective(stages[i].name, stages[i].jobs[j].name, stages[i'].name, stages[i'].jobs[j'].name);
    }
  }

  // Which keys a flattened job depends on.

  predicate JobOfStage(stages: seq<Stage>, name: string, key: string, i: nat, k: nat) {
    i < |stages| && stages[i].name == name && k < |stages[i].jobs| && key == Key(name, stages[i].jobs[k].name)
  }

  lemma {:induction false} KeysOfStageExact(stages: seq<Stage>, name: string, key: string)
    ensures key in KeysOfStage(stages, name) <==> exists i: nat, k: nat :: JobOfStage(stages, name, key, i, k)
  {
    if stages != [] {
      var n := |stages| - 1;
      var init := stages[..n];
      KeysOfStageExact(init, name, key);
      if i: nat, k: nat :| JobOfStage(stages, name, key, i, k) {
        if i < n {
          assert JobOfStage(init, name, key, i, k);
        } else {
          assert StageKeys(stages[n])[k] == key;
        }
      }
      if key in KeysOfStage(stages, name) {
        if key in KeysOfStage(init, name) {
          var i: nat, k: nat :| JobOfStage(init, name, key, i, k);
          assert JobOfStage(stages, name, key, i, k);
        } else {
          var k :| 0 <= k < |StageKeys(stages[n])| && StageKeys(stages[n])[k] == key;
          assert JobOfStage(stages, name, key, n, k);
        }
      }
    }
  }

  lemma {:induction false} StageDependencyKeysExact(stages: seq<Stage>, dependsOn: seq<string>, key: string)
    ensures key in StageDependencyKeys(stages, dependsOn) <==>
      exists i: nat, k: nat :: i < |stages| && stages[i].name in dependsOn && JobOfStage(stages, stages[i].name, key, i, k)
  {
    if dependsOn != [] {
      var init, last := dependsOn[..|dependsOn| - 1], dependsOn[|dependsOn| - 1];
      assert dependsOn == init + [last];
      StageDependencyKeysExact(stages, init, key);
      KeysOfStageExact(stages, last, key);
    }
  }

  /** A job depends on every job of the stages its stage depends on, on its named siblings, and on nothing else. */
  lemma FlatJobDependencies(stages: seq<Stage>, stage: Stage, job: JobSpec, key: string)
    ensures key in FlatJob(stages, stage, job).dependsOn <==>
      (exists i: nat, k: nat :: i < |stages| && stages[i].name in stage.dependsOn && JobOfStage(stages, stages[i].name, key, i, k)) ||
      (exists sibling :: sibling in job.dependsOn && key == Key(stage.name, sibling))
  {
    StageDependencyKeysExact(stages, stage.dependsOn, key);
    if sibling :| sibling in job.dependsOn && key == Key(stage.name, sibling) {
      var j :| 0 <= j < |job.dependsOn| && job.dependsOn[j] == sibling;
      assert JobDependencyKeys(stage.name, job.dependsOn)[j] == key;
    }
  }

  /** The job at `(i, k)` depends on the job at `(i', k')` across stages or within one. */
  predicate DependsAt(stages: seq<Stage>, i: nat, k: nat, i': nat, k': nat) {
    i < |stages| && k < |stages[i].jobs| && i' < |stages| && k' < |stages[i'].jobs| &&
    (stages[i'].name in stages[i].dependsOn || (i' == i && stages[i].jobs[k'].name in stages[i].jobs[k].dependsOn))
  }

  /** In a sound pipeline every dependency key is the key of a job of the pipeline. */
  lemma DependencyTarget(stages: seq<Stage>, i: nat, k: nat, key: string) returns (i': nat, k': nat)
    requires SoundStages(stages) && i < |stages| && k < |stages[i].jobs|
    requires key in FlatJob(stages, stages[i], stages[i].jobs[k]).dependsOn
    ensures DependsAt(stages, i, k, i', k') && key == Key(stages[i'].name, stages[i'].jobs[k'].name)
  {
    var stage, job := stages[i], stages[i].jobs[k];
    FlatJobDependencies(stages, stage, job, key);
    if i0: nat, k0: nat :| i0 < |stages| && stages[i0].name in stage.dependsOn && JobOfStage(stages, stages[i0].name, key, i0, k0) {
      i', k' := i0, k0;
    } else {
      var sibling :| sibling in job.dependsOn && key == Key(stage.name, sibling);
      assert SoundLevel(JobNodes(stage.jobs));
      assert JobNodes(stage.jobs)[k].dependsOn == job.dependsOn;
      assert Declares(JobNodes(stage.jobs), sibling);
      i', k' := i, var j :| 0 <= j < |JobNodes(stage.jobs)| && JobNodes(stage.jobs)[j].name == sibling; j;
    }
  }

  lemma FlatDependenciesKnown(stages: seq<Stage>, x: nat, key: string)
    requires SoundStages(stages) && x < |Flatten(stages)| && key in Flatten(stages)[x].dependsOn
    ensures Declares(Flatten(stages), key)
  {
    FlatMembers(stages, |stages|, x);
    var i: nat, k: nat :| i < |stages| && At(stages, Flatten(stages)[x], i, k);
    var i', k' := DependencyTarget(stages, i, k, key);
    FlatContains(stages, |stages|, i', k');
  }

  // The flattened graph descends in (rank of the stage, rank of the job in its stage).

  ghost function StageRank(stages: seq<Stage>, stage: string): nat
    requires SoundStages(stages)
  {
    var rank := RankOf(GraphOf(StageNodes(stages)));
    if stage in rank then rank[stage] else 0
  }

  ghost function JobRank(stages: seq<Stage>, stage: string, job: string): nat
    requires SoundStages(stages)
  {
    if i :| 0 <= i < |stages| && stages[i].name == stage then
      assert SoundLevel(JobNodes(stages[i].jobs));
      var rank := RankOf(GraphOf(JobNodes(stages[i].jobs)));
      if job in rank then rank[job] else 0
    else 0
  }

  ghost function Measure(stages: seq<Stage>): string -> (nat, nat)
    requires SoundStages(stages)
  {
    (key: string) => (StageRank(stages, StagePart(key)), JobRank(stages, StagePart(key), JobPart(key)))
  }

  /** A rank of a sound level decreases from an item to each of its dependencies. */
  lemma RankDecreases(nodes: seq<Node>, i: nat, j: nat)
    requires SoundLevel(nodes) && i < |nodes| && j < |nodes| && nodes[j].name in nodes[i].dependsOn
    ensures var rank := RankOf(GraphOf(nodes));
            nodes[i].name in rank && nodes[j].name in rank && rank[nodes[j].name] < rank[nodes[i].name]
  {
    GraphOfUnique(nodes);
    var g := GraphOf(nodes);
    var x :| 0 <= x < |nodes[i].dependsOn| && nodes[i].dependsOn[x] == nodes[j].name;
    assert g[nodes[i].name][x] in g;
  }

  lemma MeasureOfKey(stages: seq<Stage>, i: nat, k: nat)
    requires SoundStages(stages) && i < |stages| && k < |stages[i].jobs|
    ensures Measure(stages)(Key(stages[i].name, stages[i].jobs[k].name)) ==
            (StageRank(stages, stages[i].name), JobRank(stages, stages[i].name, stages[i].jobs[k].name))
  {
    SoundNames(stages, i, k);
    ValidNameIsSlashFree(stages[i].name);
    StagePartOfKey(stages[i].name, stages[i].jobs[k].name);
  }

  lemma StageRankDecreases(stages: seq<Stage>, i: nat, i': nat)
    requires SoundStages(stages) && i < |stages| && i' < |stages| && stages[i'].name in stages[i].dependsOn
    ensures StageRank(stages, stages[i'].name) < StageRank(stages, stages[i].name)
  {
    RankDecreases(StageNodes(stages), i, i');
  }

  lemma JobRankDecreases(stages: seq<Stage>, i: nat, k: nat, k': nat)
    requires SoundStages(stages) && i < |stages| && k < |stages[i].jobs| && k' < |stages[i].jobs|
    requires stages[i].jobs[k'].name in stages[i].jobs[k].dependsOn
    ensures JobRank(stages, stages[i].name, stages[i].jobs[k'].name) < JobRank(stages, stages[i].name, stages[i].jobs[k].name)
  {
    assert SoundLevel(JobNodes(stages[i].jobs));
    StageIndexUnique(stages, i);
    RankDecreases(JobNodes(stages[i].jobs), k, k');
  }

  lemma DependencyDescends(stages: seq<Stage>, i: nat, k: nat, i': nat, k': nat)
    requires SoundStages(stages) && DependsAt(stages, i, k, i', k')
    ensures LexLess(Measure(stages)(Key(stages[i'].name, stages[i'].jobs[k'].name)),
                    Measure(stages)(Key(stages[i].name, stages[i].jobs[k].name)))
  {
    MeasureOfKey(stages, i, k);
    MeasureOfKey(stages, i', k');
    RanksDescend(stages, i, k, i', k');
  }

  lemma RanksDescend(stages: seq<Stage>, i: nat, k: nat, i': nat, k': nat)
    requires SoundStages(stages) && DependsAt(stages, i, k, i', k')
    ensures LexLess((StageRank(stages, stages[i'].name), JobRank(stages, stages[i'].name, stages[i'].jobs[k'].name)),
                    (StageRank(stages, stages[i].name), JobRank(stages, stages[i].name, stages[i].jobs[k].name)))
  {
    if stages[i'].name in stages[i].dependsOn {
      StageRankDecreases(stages, i, i');
    } else {
      JobRankDecreases(stages, i, k, k');
    }
  }

  lemma StageIndexUnique(stages: seq<Stage>, i: nat)
    requires SoundStages(stages) && i < |stages|
    ensures forall x | 0 <= x < |stages| && stages[x].name == stages[i].name :: x == i
  {
    forall x | 0 <= x < |stages| && x != i ensures stages[x].name != stages[i].name {
      assert StageNodes(stages)[x].name != StageNodes(stages)[i].name;
    }
  }

  lemma FlatDescends(stages: seq<Stage>)
    requires SoundStages(stages)
    ensures Descends(GraphOf(Flatten(stages)), Measure(stages))
  {
    var nodes := Flatten(stages);
    var g := GraphOf(nodes);
    FlatKeysUnique(stages, |stages|);
    GraphOfUnique(nodes);
    forall a, b | a in g && b in g && Edge(g, a, b) ensures LexLess(Measure(stages)(b), Measure(stages)(a)) {
      var x :| 0 <= x < |nodes| && nodes[x].name == a;
      FlatMembers(stages, |stages|, x);
      var i: nat, k: nat :| i < |stages| && At(stages, nodes[x], i, k);
      assert b in nodes[x].dependsOn;
      var i', k' := DependencyTarget(stages, i, k, b);
      DependencyDescends(stages, i, k, i', k');
    }
  }

  /** A job graph that a scheduler can finish: unique keys, known dependencies, no cycle. */
  ghost predicate SoundGraph(nodes: seq<Node>) {
    UniqueNames(nodes) && !Cyclic(GraphOf(nodes)) &&
    forall x, key | 0 <= x < |nodes| && key in nodes[x].dependsOn :: Declares(nodes, key)
  }

  lemma SoundPipelineStages(p: Pipeline)
    requires Sound(p)
    ensures SoundStages(p.stages)
  {
    forall i | 0 <= i < |p.stages| ensures SoundLevel(JobNodes(p.stages[i].jobs)) { assert SoundJobs(p.stages[i].jobs); }
  }

  /** If the validator accepts a pipeline, the flattened two-level graph is one sound job graph. */
  lemma AcceptedFlattensSoundly(p: Pipeline)
    requires Sound(p)
    ensures SoundGraph(Flatten(p.stages))
  {
    SoundPipelineStages(p);
    SoundStagesFlattenSoundly(p.stages);
  }

  lemma SoundStagesFlattenSoundly(stages: seq<Stage>)
    requires SoundStages(stages)
    ensures SoundGraph(Flatten(stages))
  {
    var nodes := Flatten(stages);
    assert !Cyclic(GraphOf(nodes)) by {
      FlatDescends(stages);
      DescendingIsAcyclic(GraphOf(nodes), Measure(stages));
    }
    FlatKeysUnique(stages, |stages|);
    forall x: nat, key | x < |nodes| && key in nodes[x].dependsOn ensures Declares(nodes, key) {
      FlatDependenciesKnown(stages, x, key);
    }
  }
}
