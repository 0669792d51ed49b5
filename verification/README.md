# Verified model of the YuanCI control plane

YuanCI runs CI pipelines: a compiler checks a pipeline, a store schedules its jobs and leases
them to Runners, Runners execute them and stream their logs back, and a webhook inbox turns
repository events into runs. This project models those parts in Dafny and proves what they
promise. `dafny verify dfyconfig.toml` checks all of it.

The parts, in reading order:

- **Pipelines** (`DependencyGraph.dfy`, `PipelineCompiler.dfy`): the validator with its coloured
  cycle search, and the flattening of stages and jobs into one job graph.
- **Scheduler** (`RunModel.dfy`, `JobInvariants.dfy`, `Scheduler.dfy`, `SchedulerSafety.dfy`,
  `TransitionTable.dfy`, `RunOutcome.dfy`, `RunRevival.dfy`, `StoreLaws.dfy`,
  `RecoveryLaws.dfy`, `SchedulerWitness.dfy`, `MemoryStore.dfy`): what each operation of the
  in-memory store does, as functions; the store itself as a class over mutable job objects, proved
  against them; and the properties of every sequence of operations under a clock that never goes back.
- **Runner protocol** (`LeaseLedger.dfy`, `RunnerSession.dfy`, `SessionInvariant.dfy`,
  `SessionSteps.dfy`, `ClientSteps.dfy`, `ServerSteps.dfy`, `RunnerProtocol.dfy`, `ProtocolWitness.dfy`,
  `Conclusions.dfy`, `StoredConclusions.dfy`, `SessionLaws.dfy`, `WorkClient.dfy`, `WorkServer.dfy`):
  any number of Runners, one server and one store. Sessions are two FIFO channels; a broken session
  loses what was under way to the client, and a server that ends loses what was under way to it. The
  proof tags each renewal with the request it answers; the client never sees the tag.
- **Postgres store** (`PostgresRuns.dfy`, `PostgresOutcome.dfy`, `PostgresTransactions.dfy`,
  `PostgresRerun.dfy`, `PostgresHistory.dfy`, `PostgresStranding.dfy`, `PostgresEndings.dfy`,
  `PostgresLaws.dfy`,
  `PostgresWitness.dfy`, `PostgresStore.dfy`, `RunLock.dfy`): its transactions
  on runs, jobs and the commit-status outbox, first as functions and as statements over tables,
  then the completions of one run interleaved statement by statement.
- **Job logs** (`JobLogs.dfy`, `LogStall.dfy`, `LogFencing.dfy`, `LogStore.dfy`,
  `LogService.dfy`): the stop-and-wait
  sender, the store's lease and sequence checks, and a network that loses, duplicates and reorders. A
  job has one sender, because a log buffer belongs to one execution
  (`RunnerProtocol.ExecutedAtMostOnce`); the job row that the store finds is left free for each
  delivery, so the results hold whatever becomes of the lease.
- **Redaction** (`Redaction.dfy`): the streaming redactor and the whole-input scan it refines.
- **Webhooks** (`WebhookInbox.dfy`, `WebhookLaws.dfy`, `WebhookService.dfy`): the delivery inbox and the orchestrator.

What the code does differently from what its documents or tests promise:

- The in-memory store can set a run that recovery failed back to running
  (`SchedulerWitness.FailedRunIsRevived`); `RunRevival.RevivedIff` says exactly when.
- In the Postgres store an outcome is final (`PostgresHistory.EndedForever`), but a job of a failed
  run can stay queued for good (`PostgresWitness.RecoveryLeavesAQueuedJob`). `PostgresStranding` says
  exactly which transactions leave one behind and when it is for good.
- The job transition table is not the step relation of the store: an assigned job can be completed
  directly, or requeued and skipped by one recovery (`SchedulerWitness.UnstartedCompletes`,
  `SchedulerWitness.RequeuedIsSkipped`). `TransitionTable.LeavesTableIff` shows that nothing else
  leaves the table, and two table steps always suffice.
- A run of the in-memory store can be queued again while a job of it executes
  (`SchedulerWitness.QueuedRunExecutes`): recovery asks what has started, not what is assigned
  (`RecoveryLaws.RecoveredRunIs`).
- A redacted log can contain a secret that the replacement text spells or completes
  (`RedactionScan.MarkSpellsSecret`, `RedactionScan.MarkCompletesSecret`). A secret apart from that
  text never appears (`RedactionScan.ApartSecretAbsent`).
- The validator demands at least one step of a job and bounds their number by nothing, while a log
  chunk is valid only for step indexes up to 1023: output of a later step stops the log of the job
  for good (`LogStall.LateStepStalls`, `LogStall.StalledForever`).
- The branch of the webhook commit that finds an existing run is never taken while runs are created
  only by that commit (`WebhookInbox.HeldHasNoRun`).

Conventions: identifiers and lease tokens are numbers, zero standing for the nil identifier and the
empty token; new identifiers and tokens are parameters, required to be fresh. Times are nanoseconds,
and an operation reads the clock once.

## Model

| member | source | states |
|---|---|---|
| RedactionScan.LongestIsLongest | internal/runner/redaction.go:65-73 | the match that replaces text is a secret at the front and no longer secret stands there |
| RedactionScan.StretchIsLongest | internal/runner/redaction.go:61-88 | wherever a segment of the scan begins, no secret that stands there is longer than what it replaces, and where a byte passes none stands |
| RedactionScan.ScanRebuildsInput | internal/runner/redaction.go:61-88 | passed bytes and replaced stretches, put together in order, are the input |
| RedactionScan.SpansAreSecrets | internal/runner/redaction.go:74-86 | every replaced stretch is a whole secret, or the last stretch and a proper prefix of a secret |
| RedactionScan.NoSecretPassesThrough | internal/runner/redaction.go:61-93 | no secret occurs inside a stretch of consecutive passed-through bytes |
| RedactionScan.ApartSecretAbsent | internal/runner/redaction_test.go:14-54 | a secret that does not run into the mark and does not occur in it appears in no output, whatever the input and the other secrets |
| RedactionScan.BracketFreeIsApart | internal/runner/redaction.go:74-86 | a secret without bracket bytes never runs into the mark |
| RedactionScan.SecretNeverInOutputIff | internal/runner/redaction_test.go:14-54 | a secret that does not run into the mark is absent from the output of every input exactly when it does not occur in the mark |
| RedactionScan.NeverPrintedIsNotInMark | internal/runner/redaction.go:74-86 | of any secret: one that is never printed does not occur in the mark |
| RedactionScan.SoleSecretNeverInOutputIff | internal/runner/redaction_test.go:14-54 | a sole secret without an opening bracket is never printed exactly when no end of the mark begins it and it does not occur in the mark |
| RedactionScan.MarkSpellsSecret | internal/runner/redaction.go:74-86 | the secret RED shows that absence can fail: its own replacement contains it |
| RedactionScan.MarkCompletesSecret | internal/runner/redaction.go:74-86 | the secret ]x, which the mark does not contain, is printed by some input: the end of a mark completes it |
| RedactingWriter.HeadIsStable | internal/runner/redaction.go:61-88 | a buffer that awaits no longer secret decides its first segment as the whole input would |
| RedactingWriter.DrainRefinesScan | internal/runner/redaction.go:61-88 | what a drain emits, completed by a scan of what it keeps and of any later input, is the scan of all of it |
| RedactingWriter.FeedRefinesScan | internal/runner/redaction.go:39-88 | after any bytes, the decided segments plus a scan of the buffer and any rest equal the batch scan; the buffer is empty or a proper prefix of a secret |
| RedactingWriter.BufferStaysSmall | internal/runner/redaction.go:20-37 | the buffer stays below the longest admitted secret |
| RedactingWriter.CheckBounds | internal/runner/redaction.go:20-37 | accepts exactly the secret lists within the count, length and total bounds |
| RedactingWriter.MatchFront | internal/runner/redaction.go:63-73 | computes the longest secret at the front of the buffer and whether a longer one may still come |
| RedactingWriter.Writer.Write | internal/runner/redaction.go:39-60 | keeps the writer equal to the byte-by-byte feed of everything written so far; a closed writer refuses |
| RedactingWriter.Writer.Close | internal/runner/redaction.go:94-103 | however the input was split into writes, the target holds the longest-match scan of the whole input |
| DependencyGraph.CycleSearch.Visit | internal/pipeline/compiler.go:300-322 | one coloured visit: a find is a real cycle, otherwise the visited names are closed under dependencies |
| DependencyGraph.HasCycle | internal/pipeline/compiler.go:299-329 | true exactly when the graph has a directed cycle, in any key order and with edges to absent names |
| DependencyGraph.AcyclicIsRanked | internal/pipeline/compiler.go:299-329 | a graph without a cycle has a rank that every edge decreases |
| DependencyGraph.RankedIsAcyclic | internal/pipeline/compiler.go:299-329 | a graph with such a rank has no cycle |
| PipelineCompiler.ValidateDependencies | internal/pipeline/compiler.go:282-297 | no problem exactly when every dependency is another declared name and there is no cycle |
| PipelineCompiler.ValidateJobs | internal/pipeline/compiler.go:154-219 | no problem exactly when the jobs of a stage are sound: named, unique, known and acyclic dependencies |
| PipelineCompiler.Validate | internal/pipeline/compiler.go:54-98 | accepts exactly the pipelines that are sound at both levels |
| RunGraph.KeyIsInjective | internal/run/store.go:114-118 | names hold no slash, so a job key determines stage and job |
| RunGraph.FlatJobDependencies | internal/run/store.go:119-127 | a flattened job depends on exactly every job of each depended-on stage and its same-stage dependencies |
| RunGraph.FlatKeysUnique | internal/run/store.go:114-137 | the flattened keys are unique |
| RunGraph.FlatDependenciesKnown | internal/run/store.go:120-127 | every dependency key names a job of the same run |
| RunGraph.DependencyDescends | internal/run/store.go:114-137 | each flattened dependency is earlier in the combined stage and job order |
| RunGraph.AcceptedFlattensSoundly | internal/pipeline/compiler.go:54-98 | an accepted pipeline flattens to one acyclic job graph with unique keys and known dependencies |
| MemoryStore.MemoryStore.Create | internal/run/store.go:101-140 | adds the record in front and exactly the flattened jobs behind; refuses a known run or an undecodable plan |
| MemoryStore.MemoryStore.ClaimRunnerJob | internal/run/runner_memory.go:14-50 | new state and result are those of the claim function: capacity, first matching queued job, new lease, run set running |
| MemoryStore.MemoryStore.AcknowledgeRunnerJob | internal/run/runner_memory.go:52-68 | confirms a live lease once and changes nothing else |
| MemoryStore.MemoryStore.ReleaseRunnerJob | internal/run/runner_memory.go:70-86 | requeues an unconfirmed assignment of the holder, and nothing else |
| MemoryStore.MemoryStore.StartRunnerJob | internal/run/runner_memory.go:88-101 | sets a confirmed live lease running, and nothing else |
| MemoryStore.MemoryStore.RenewRunnerLeases | internal/run/runner_memory.go:103-130 | registers the Runner and prolongs exactly the listed leases that are alive and current |
| MemoryStore.MemoryStore.CompleteRunnerJob | internal/run/runner_memory.go:132-160 | ends the holder's job, unblocks or skips its run and finalizes it |
| MemoryStore.MemoryStore.RecoverExpiredRunnerLeases | internal/run/recovery_memory.go:9-52 | the loop that requeues expired assignments and fails expired executions, up to the limit |
| MemoryStore.MemoryStore.UnblockRun | internal/run/store.go:224-246 | queues exactly the blocked jobs of the run whose dependencies succeeded, by the collected states |
| MemoryStore.MemoryStore.Finalize | internal/run/store.go:267-298 | records an outcome only when every job of the run has ended |
| StoreLaws.ClaimedJobFits | internal/run/runner_memory.go:14-50 | a claim hands out a queued job that the Runner meets requirement by requirement, while it holds fewer live leases than its capacity, with a new unconfirmed lease of thirty seconds, and changes no other job |
| StoreLaws.FittingJobIsClaimed | internal/run/runner_memory.go:33-47 | a Runner with room gets a job whenever one that fits is queued, and none later than the first |
| StoreLaws.ClaimStartsRun | internal/run/runner_memory.go:33-45 | a claim sets the run of the job running and keeps its first start time |
| StoreLaws.AcknowledgeLaw | internal/run/runner_memory.go:52-68 | granted exactly to Runner and token of a lease that is alive; only the first confirmation is recorded |
| StoreLaws.ReleaseLaw | internal/run/runner_memory.go:70-86 | granted exactly for an assignment of the holder that was never confirmed; the job is free again |
| StoreLaws.StartLaw | internal/run/runner_memory.go:88-101 | granted exactly for a confirmed live lease of the holder |
| StoreLaws.CompleteLaw | internal/run/runner_memory.go:132-160 | granted exactly for a live lease of the holder and one of the three conclusions; the job ends so and its lease is gone |
| StoreLaws.CompletionEndsRun | internal/run/store.go:267-298 | a completion leaves the record of an unfinished run alone; the last one records the end; other records do not change |
| StoreLaws.RenewLaw | internal/run/runner_memory.go:103-130 | a heartbeat prolongs exactly the leases that it names and that are the Runner's own, current and alive |
| StoreLaws.RenewAnswers | internal/run/runner_memory.go:115-128 | each lease of a heartbeat is answered by its new deadline or by a revocation |
| StoreLaws.HeartbeatLaw | internal/run/runner_store.go:87-113 | a heartbeat registers the Runner as it describes itself exactly when every bound of the validation is met, and changes nothing otherwise |
| StoreLaws.NilIsRefused | internal/run/runner_memory.go:162-167 | a request without Runner, job or token is refused before anything is looked up |
| StoreLaws.CreationLaw | internal/run/store.go:101-140 | a run with a new identifier comes in front of the others, and each job of its plan behind theirs with its own requirements, waiting, under no lease |
| RecoveryLaws.RunningRecovers | internal/run/recovery_memory.go:17-36 | recovery fails an execution exactly when it handles it |
| RecoveryLaws.WaitingRecovers | internal/run/recovery_memory.go:32-36 | recovery skips a waiting job exactly when it handles an execution of its run |
| RecoveryLaws.RowsRecover | internal/run/recovery_memory.go:17-36 | a handled assignment keeps neither Runner, token nor confirmation, a handled execution no token, and no other row changes but in its status |
| RecoveryLaws.RecoveryAnswers | internal/run/recovery_memory.go:9-52 | recovery answers the numbers of assignments and of executions that it handled; a limit outside 1 to 100 is refused |
| RecoveryLaws.RecoveredRunIs | internal/run/recovery_memory.go:17-70 | recovery fails a run of which it handles an execution, queues one again of which it handles an assignment and nothing ever started, and changes nothing else |
| Scheduler.BehaviourKeepsInv | internal/run/runner_memory.go:14-160 | every reachable state keeps identity, acyclicity, lease discipline, readiness and the effect of failures |
| SchedulerSafety.DependencySafety | internal/run/store.go:224-246 | a job that was let go has all its dependencies succeeded; a blocked one has one that has not |
| SchedulerSafety.NeverDeadlocked | internal/run/runner_memory.go:146-158 | a run with a blocked job always has one that is queued, assigned or running |
| SchedulerSafety.EveryStepIsJobStep | internal/run/state.go:46-57 | each operation moves each job by at most two steps of the transition table and never reuses a token |
| TransitionTable.LeavesTableIff | internal/run/state.go:46-57 | in a step a job leaves the transition table exactly when its holder completes it unstarted, or when one recovery requeues it and then fails a later job of its run |
| TransitionTable.AssignedRecovers | internal/run/recovery_memory.go:17-36 | what recovery makes of an assigned job, from the store it finds: kept, requeued, or requeued and skipped |
| SchedulerWitness.UnstartedCompletes | internal/run/runner_memory.go:142-143 | from the empty store a job is claimed and completed without having been started |
| SchedulerWitness.RequeuedIsSkipped | internal/run/recovery_memory.go:17-36 | from the empty store, one recovery requeues a claimed job and then skips it |
| SchedulerSafety.TerminalForever | internal/run/runner_memory.go:142-145 | a job that ended never changes again |
| SchedulerSafety.FencedForever | internal/run/runner_memory.go:183-190 | a token that is no longer a job's lease never becomes it again |
| SchedulerSafety.FencedOff | internal/run/runner_memory.go:52-160 | from the moment a token is no longer the lease, every later request with it is refused and changes nothing |
| SchedulerSafety.StaleIsRevoked | internal/run/runner_memory.go:115-126 | a heartbeat that lists such a token gets a revocation and prolongs nothing for it |
| StoreLaws.LeasesWithinCapacity | internal/run/runner_memory.go:24-47 | in every reachable state the live leases of a Runner, counted on the jobs, are no more than some capacity that it registered |
| RunOutcome.OutcomesAreBacked | internal/run/store.go:267-298 | succeeded means every job succeeded, failed means one failed, canceled means all ended, and a run whose jobs ended has an outcome |
| RunOutcome.OutcomeIs | internal/run/store.go:267-298 | once all jobs of a run have ended it succeeded exactly if all succeeded, failed exactly if one failed, and was canceled exactly if one was and none failed |
| RunOutcome.TerminalRunChangesIffClaimed | internal/run/recovery_memory.go:23-42 | one step changes an outcome of this store exactly when it claims a job of that run |
| RunRevival.RevivedIff | internal/run/runner_memory.go:33-45 | a run that has ended can be set running again exactly when a job of it is queued or assigned and some Runner can take that job; otherwise its outcome stays for ever |
| RunRevival.SettledForever | internal/run/recovery_memory.go:23-42 | an outcome with no such job is the same in every later state |
| SchedulerWitness.FailedRunIsRevived | internal/run/runner_memory.go:33-45 | a run of the store, from the empty one, in which recovery fails a pipeline run and a later claim sets it running again |
| SchedulerWitness.QueuedRunExecutes | internal/run/recovery_memory.go:54-70 | a run of the store in which a run is queued again while a job of it goes on to execute |
| LeaseLedger.TokenEvolves | internal/run/runner_memory.go:183-190 | an issued token that is not current never becomes current; a current one is only prolonged, or ends by expiry, completion or release |
| LeaseLedger.PerformKeepsLedgerOk | internal/run/runner_memory.go:14-160 | every store operation keeps the ledger of leases: owner, start and completion tokens, deadlines |
| SessionSteps.FewerKeepsPeerOk | internal/runner/work.go:155-253 | losing jobs, messages or a whole session keeps the session invariant |
| ClientSteps.ResentOnce | internal/runner/work.go:184-191 | a reconnect resends an acceptance at most once, and only while it is awaited |
| ClientSteps.AssignmentIsNew | internal/runner/work.go:268-274 | an assignment that arrives is never one the client already has |
| ClientSteps.AdvanceKeeps | internal/runner/work.go:309-327 | advancing the phase on a renewal keeps the invariant, because the renewal answers the awaited request |
| ClientSteps.ReceiveKeeps | internal/runner/work.go:255-367 | handling any server message keeps the invariant |
| ServerSteps.RenewalIsInOrder | internal/runnergrpc/server.go:368-369 | a renewal that is sent follows no assignment of the same job and concerns the client's own lease |
| ServerSteps.AcceptanceIsTheOnlyOne | internal/runnergrpc/server.go:349-370 | while acceptance is awaited, at most one acceptance or renewal of the job is under way |
| ServerSteps.GrantedRenewal | internal/runnergrpc/server.go:252-266 | a granted heartbeat renewal is of exactly the listed lease, until its new deadline |
| ServerSteps.ClaimKeeps | internal/runnergrpc/server.go:267-294 | handing out a job keeps the invariant: its token is new and supersedes the earlier ones |
| ServerSteps.WithdrawUnaffected | internal/runnergrpc/server.go:297-313 | taking an assignment back before it was sent concerns no token a Runner has seen |
| RunnerProtocol.NextKeepsSystemOk | internal/runner/work.go:155-367 | every event of any Runner, session, server or the store keeps the invariant of the whole system |
| RunnerProtocol.ExecutedAtMostOnce | internal/runner/work.go:313-320 | over every run, with sessions breaking, resends and recovery, Execute is called at most once per job |
| ProtocolWitness.ExecutionHappens | internal/runner/work.go:291-320 | the protocol does get work done: a run of it leads from an empty store to the one execution of its job |
| RunnerProtocol.StepExecutes | internal/runner/work.go:313-320 | a step adds to the executed leases exactly those whose execution it starts |
| RunnerProtocol.StartPrecedesExecution | internal/run/runner_memory.go:88-101 | nothing executes before the store started the job under that very lease, and the job is never queued again |
| RunnerProtocol.AuthorityIsExclusive | internal/runner/work.go:489-518 | in every reachable state at most one Runner has a job with authority not lost and an unexpired local lease |
| RunnerProtocol.AuthorityIsCurrent | internal/runner/work.go:300-308 | a local lease with authority is the store's current one with no later deadline, or the Runner completed the job under it |
| RunnerProtocol.ExecutionIsBacked | internal/runner/work.go:300-308 | while a Runner executes with authority, the store has that Runner, that token, status running and a deadline no earlier |
| RunnerProtocol.ConclusionIsOwn | internal/runner/work.go:207-219 | a conclusion taken from the results channel for an executing job is that of this very execution |
| StoredConclusions.ReportsAreTrue | internal/runner/work.go:207-219 | over every run, whatever a Runner has stored or sent as the conclusion of a job is how its own execution of that job ended |
| StoredConclusions.ConcludedOnce | internal/runner/work.go:434-451 | an execution ends at most once |
| StoredConclusions.StoredSuccessIsTrue | internal/run/runner_memory.go:132-160 | a job that the store records as succeeded or canceled was executed, and its execution ended so |
| StoredConclusions.AcceptedConclusionIsStored | internal/run/runner_memory.go:132-160 | if the store accepted a completion under the token of an execution, the job has the status with which that execution ended |
| RunnerProtocol.RenewalAnswersItsJob | internal/runner/work.go:291-320 | a renewal names only a job, yet it answers a request about the client's lease; a start is awaited only by answers to a start |
| WorkClient.Client.HandleResponse | internal/runner/work.go:255-367 | the client after a server message is the one the protocol steps describe |
| WorkClient.Client.HandleResult | internal/runner/work.go:207-219 | takes the end of an execution: reports it once, or drops it when authority is gone |
| WorkClient.Client.Connect | internal/runner/work.go:184-194 | resends the awaited transition of each job and then one heartbeat |
| WorkClient.Client.CollectLeases | internal/runner/work.go:420-432 | lists exactly the started jobs whose authority is not lost |
| SessionLaws.HeartbeatLists | internal/runner/work.go:420-432 | a tick sends one heartbeat that lists exactly the started jobs whose authority is not lost, under their tokens |
| SessionLaws.ReconnectRepeats | internal/runner/work.go:175-194 | a new session repeats exactly the requests that are awaited, then sends a heartbeat |
| SessionLaws.RenewalLaw | internal/runner/work.go:291-327 | a renewal in time prolongs the local lease and the Runner asks to start, starts, or reports again; a late one ends the job |
| SessionLaws.AssignmentLaw | internal/runner/work.go:263-290 | an assignment is adopted and accepted only while its lease is alive and there is room |
| SessionLaws.CancelLaw | internal/runner/work.go:341-352 | a cancellation makes the Runner forget that job and nothing else |
| SessionLaws.ReportLaw | internal/runner/work.go:207-219 | the end of an execution is reported at once and only under a live lease with authority |
| SessionLaws.EndingLaw | internal/runner/work.go:434-451 | the end of an execution waits to be reported unless it was interrupted, and nothing else changes |
| SessionLaws.ExpiryLaw | internal/runner/work.go:489-528 | a lease that runs out takes the authority of its job, which is then forgotten; other jobs are not touched |
| SessionLaws.RunnersHaveRoom | internal/runner/work.go:275-280 | in every reachable state a Runner has no more jobs at hand than its capacity |
| SessionLaws.HeartbeatIsAnswered | internal/runnergrpc/server.go:252-266 | every lease of a heartbeat is answered in order, by its new deadline or a cancellation |
| SessionLaws.RequestIsAnswered | internal/runnergrpc/server.go:349-370 | an acceptance or start of a live lease is answered by its deadline; any other ends the session |
| SessionLaws.CompletionIsServed | internal/runnergrpc/server.go:372-394 | a completion that the store accepts is not answered; one that it refuses ends the session |
| SessionLaws.FittingJobIsIssued | internal/runnergrpc/server.go:264-279 | after a heartbeat a Runner with room is issued a job whenever one fits it, under a new token for thirty seconds |
| SessionLaws.NothingIsIssued | internal/runnergrpc/server.go:264-271 | a full Runner is issued nothing and its session goes on; one that is not registered loses it |
| SessionLaws.IssuedIsSent | internal/runnergrpc/server.go:276-294 | an issued job is sent with the lease it was issued under |
| SessionLaws.WithdrawLaw | internal/runnergrpc/server.go:297-313 | an assignment that could not be sent fails the job for good or frees it |
| WorkServer.SessionTable.BeginSession | internal/runnergrpc/server.go:406-414 | lets a call in exactly when no other call serves its Runner; at no time do two calls serve the same Runner |
| WorkServer.SessionTable.EndSession | internal/runnergrpc/server.go:416-420 | the end of a call frees its Runner and nobody else |
| WorkServer.Session.ReceiveNext | internal/runnergrpc/server.go:127-172 | one request drives one store operation; its answer is sent, or the session ends when the store refuses |
| WorkServer.Session.SendAnswers | internal/runnergrpc/server.go:252-266 | one renewal or cancellation for each lease of a heartbeat, in order |
| WorkServer.Session.ClaimNextJob | internal/runnergrpc/server.go:267-274 | one turn of the claim loop |
| WorkServer.Session.WithdrawAssignment | internal/runnergrpc/server.go:297-313 | without a credential the job fails for good or goes back to the queue, and the session ends |
| PostgresStore.Tables.EnqueueCommitStatus | internal/store/postgres/commit_status.go:15-62 | inserts the status under its key, or insists that the existing row says the same |
| PostgresStore.Tables.ClaimRunnerJob | internal/store/postgres/runner_jobs.go:101-122 | hands out a queued job only in a run that is queued or running |
| PostgresStore.Tables.UnblockDependents | internal/store/postgres/runner_jobs.go:282-289 | queues exactly the blocked jobs that were ready when the statement began |
| PostgresStore.Tables.FinalizeRun | internal/store/postgres/runner_jobs.go:281-318 | unblocks or skips, and ends the run with its commit status when nothing remains |
| PostgresStore.Tables.CompleteRunnerJob | internal/store/postgres/runner_jobs.go:239-279 | the completion transaction, with rollback |
| PostgresStore.Tables.RecoverRun | internal/store/postgres/runner_recovery.go:55-139 | recovers the locked expired jobs of one run in order, then fails it, queues it again or leaves it |
| PostgresStore.Tables.CancelRun | internal/store/postgres/run_actions.go:124-154 | cancels what has not ended, unless the run has ended |
| PostgresStore.Tables.RerunRun | internal/store/postgres/run_rerun.go:11-80 | creates the new run and, in failed mode, reuses successes and unblocks |
| PostgresOutcome.SuccessKeepsJobsFine | internal/store/postgres/runner_jobs.go:282-289 | after a success exactly the jobs with an unfinished dependency stay blocked |
| PostgresOutcome.FailureKeepsJobsFine | internal/store/postgres/runner_jobs.go:290-295 | after a failure nothing of the run stays blocked and only skipped jobs are left behind |
| PostgresOutcome.EndRun | internal/store/postgres/commit_status.go:46-60 | ending a run, once or again with the same status, keeps the outbox and never meets a different row |
| PostgresTransactions.FinalAgrees | internal/store/postgres/runner_jobs.go:296-312 | a run that recovery failed early is summarized as failed again |
| PostgresTransactions.RecoverKeeps | internal/store/postgres/runner_recovery.go:85-139 | recovery keeps the database invariant and every ended run |
| PostgresHistory.RunKeeps | internal/store/postgres/runner_jobs.go:17-318 | every transaction keeps the invariant, leaves ended runs alone and meets no conflicting status |
| PostgresHistory.EndedForever | internal/store/postgres/runner_jobs.go:56-57 | a run that has ended never changes its status |
| PostgresHistory.OutcomeIsBacked | internal/store/postgres/runner_jobs.go:296-312 | succeeded means every job succeeded; canceled means none open; failed means a failed job or no jobs |
| PostgresHistory.StatusNeverMismatches | internal/store/postgres/commit_status.go:53-60 | the duplicate-key check fails in no reachable state for no transaction |
| PostgresHistory.OneFinalStatus | internal/store/postgres/commit_status.go:15-60 | a run of a known repository with a full commit has a final status exactly when it has ended: success for succeeded, failure for failed, error for canceled |
| PostgresHistory.OnePendingStatus | internal/store/postgres/commit_status.go:15-60 | such a run with a plan has announced itself as pending, and no other |
| PostgresHistory.ReportedSuccessIsTrue | internal/store/postgres/commit_status.go:33-43 | a success is reported only of a run whose jobs all succeeded, a failure only with a failed job or no jobs |
| PostgresEndings.OutcomeIs | internal/store/postgres/runner_jobs.go:296-312 | a run with jobs has succeeded exactly when all have, has ended when all have, and failed or was canceled only if one of them was |
| PostgresLaws.ClaimIs | internal/store/postgres/runner_jobs.go:56-117 | a claim hands out only a queued job of a run that is queued or running, under a new unconfirmed lease of thirty seconds, and the run is running then |
| PostgresLaws.RequestIs | internal/store/postgres/runner_jobs.go:124-179 | acceptance, release and start change only the job whose live lease they name |
| PostgresLaws.CompletionIs | internal/store/postgres/runner_jobs.go:239-295 | a completion commits exactly for a live lease and a conclusion; of the jobs of its run a success queues what is ready and anything else skips what waits |
| PostgresLaws.CancellationIs | internal/store/postgres/run_actions.go:124-154 | a cancellation ends every job of an open run that has not ended and takes its lease; an ended run stays as it is |
| PostgresLaws.RecoveryIs | internal/store/postgres/runner_recovery.go:84-139 | what recovery makes of each job and of the run, from the jobs it finds and the order in which it handles them |
| PostgresLaws.RerunIs | internal/store/postgres/run_rerun.go:20-59 | a rerun is granted exactly for an ended run with jobs, in failed mode only if it failed, and leaves the jobs of other runs alone |
| PostgresStranding.RecoveryStrandsIff | internal/store/postgres/runner_recovery.go:74-123 | recovery that fails a run leaves a job of it queued exactly when the last lease it handles is an assignment |
| PostgresStranding.StrandsIff | internal/store/postgres/runner_jobs.go:124-147 | a transaction leaves a queued job in an ended run exactly when it is such a recovery, a recovery of assignments of a failed run, or a release in one |
| PostgresStranding.LeftIsNeverHandedOut | internal/store/postgres/runner_jobs.go:56-57 | a job left queued in an ended run is never handed out: it stays queued or is skipped |
| PostgresStranding.LeftForGoodIff | internal/store/postgres/runner_jobs.go:290-295 | it stays queued in every continuation exactly when no job of its run is running or holds a live lease |
| PostgresWitness.RecoveryLeavesAQueuedJob | internal/store/postgres/runner_recovery.go:74-123 | a run of the store, from the empty database, after which a failed run keeps a queued job for good |
| PostgresRerun.FailedRerun | internal/store/postgres/run_rerun.go:58-72 | a failed-mode rerun reuses exactly the old successes, closed under dependencies; queued means ready and not reused; something is queued |
| PostgresRerun.FailedRerunKeeps | internal/store/postgres/run_rerun.go:50-72 | a rerun keeps the database invariant and leaves other runs alone |
| PostgresRerun.CreateKeeps | internal/store/postgres/store.go:67-128 | inserting a run keeps the invariant and always finds its first commit status free |
| RunLock.NoLostWakeUp | internal/store/postgres/runner_jobs.go:252-289 | with the run row lock, in every interleaving of statements no committed blocked job is ready, and the run ends exactly with its last job |
| RunLock.LockIsNeeded | internal/store/postgres/store.go:242-252 | without the lock an interleaving leaves a job blocked for ever after the last commit |
| JobLogs.StoredInOrder | internal/store/postgres/logs.go:39-84 | under loss, duplication and reordering the stored chunks are a prefix of the emitted ones, in order and once each |
| JobLogs.PassedMeansStored | internal/runner/logs.go:79-87 | an acknowledgement moves the sender on only when the store holds the chunk |
| JobLogs.AcceptedIff | internal/store/postgres/logs.go:13-71 | a chunk that was sent is accepted exactly when its step index is in range, its sender runs the job under a live lease, and the log has not expired: no conflict and no limit, ever |
| JobLogs.OnlyTheHolderLogs | internal/store/postgres/logs.go:24-30 | a step stores or acknowledges something only for the Runner that runs the job under its live lease |
| JobLogs.RefusedChangesNothing | internal/store/postgres/logs.go:24-45 | a delivery without that lease or past retention changes nothing |
| LogFencing.FencedRunnerLogsNothing | internal/store/postgres/logs.go:24-30 | from the moment a token is no longer the lease of the job, no chunk sent with it is stored |
| LogStore.AppendedIff | internal/store/postgres/logs.go:13-85 | from any client: a chunk is accepted exactly when it is well-formed, from the holder of the lease, before the log expires, and stored already or the next that fits |
| LogStore.AnyClientKeepsLimits | internal/store/postgres/logs.go:49-84 | whatever requests arrive, the log keeps its limits and what is stored stays in its place |
| JobLogs.EmittedIsValid | internal/run/logs.go:39-46 | an emitted chunk passes the validation exactly when its step index is at most 1023 |
| LogStall.StalledForever | internal/run/logs.go:39-46 | once a chunk with a greater step index is pending, nothing more of the log is ever emitted or stored |
| LogStall.LateStepStalls | internal/runner/logs.go:37-76 | one byte written by the step with index 1024 is sent, refused under a live lease, and stalls the log |
| JobLogs.LimitsHold | internal/run/logs.go:9-14 | at most 16 MiB in at most 8192 chunks, at most one empty marker and only at the end; the bytes with their steps and streams are a prefix of what was written |
| JobLogs.WrittenIsStored | internal/runner/logs.go:37-76 | between two writes everything written is stored under its step and stream, unless the log was closed or the job canceled |
| LogService.LogBuffer.Write | internal/runner/logs.go:37-76 | the write loop makes exactly the publish and acknowledge steps of the sender; it reports all bytes, or on cancellation those acknowledged |
| LogService.LogBuffer.Publish | internal/runner/logs.go:48-60 | the next chunk, or the marker when the limits are reached |
| LogService.LogBuffer.Ack | internal/runner/logs.go:79-87 | clears the pending chunk only for its own sequence number |
| LogService.LogTable.AppendLogChunk | internal/store/postgres/logs.go:13-84 | accepts the next sequence number or an identical replay, and refuses everything else |
| WebhookInbox.ComputeRetryDelay | internal/githubci/orchestrator.go:203-212 | the doubling loop computes five seconds times two to the attempt minus one, capped at a quarter of an hour |
| WebhookInbox.ClaimedAtMostTwelveTimes | internal/store/postgres/webhook_inbox.go:63-92 | each delivery is claimed at most twelve times |
| WebhookInbox.OneRunPerDelivery | internal/store/postgres/github_ci.go:66-163 | each delivery has at most one run, and has one only when it is processed |
| WebhookInbox.EndedForever | internal/store/postgres/webhook_inbox.go:94-121 | processed, ignored and dead-lettered deliveries never change again |
| WebhookInbox.UnknownCommitIsSafe | internal/store/postgres/github_ci.go:80-88 | after a commit whose answer was lost, nothing the worker does changes the delivery or its run |
| WebhookInbox.HeldHasNoRun | internal/store/postgres/github_ci.go:97-119 | a delivery that is still held has no run, so a commit always creates one |
| WebhookInbox.RetryWaits | internal/githubci/orchestrator.go:148-170 | what a transient failure leaves behind: a delivery that waits for its delay, or after the twelfth attempt a dead letter |
| WebhookInbox.RetriedAfterDelay | internal/store/postgres/webhook_inbox.go:63-92 | over every behaviour, a delivery whose attempt failed as transient is claimed again only after the delay of that attempt |
| WebhookInbox.DelaysOfAttempts | internal/githubci/orchestrator.go:203-212 | the delays are 5, 10, 20, 40, 80, 160, 320 and 640 seconds, then a quarter of an hour |
| WebhookInbox.DueIsClaimed | internal/store/postgres/webhook_inbox.go:63-92 | a claim succeeds exactly when the delivery waits and its time has come, and leases the next attempt |
| WebhookInbox.LiveLeaseSurvivesRecovery | internal/store/postgres/webhook_inbox.go:123-154 | recovery leaves a lease alone that has not run out; of the others it requeues or dead-letters what it picks |
| WebhookLaws.ReceiptIs | internal/store/postgres/webhook_inbox.go:27-58 | a new delivery is entered and due at once, a known one is not entered again, and one that contradicts it is refused |
| WebhookLaws.HolderEnds | internal/githubci/orchestrator.go:131-170 | the holder of a live lease ends its delivery as ignored, dead-lettered, or waiting for the delay of its attempt |
| WebhookLaws.HolderCommits | internal/store/postgres/github_ci.go:66-163 | the holder of a live lease commits one new run with what it found, and its delivery names that run |
| WebhookLaws.FinalizedIff | internal/store/postgres/webhook_inbox.go:94-121 | a delivery is finalized exactly by the holder of its live lease, and a retry only for later |
| WebhookLaws.FoundRunMatches | internal/store/postgres/github_ci.go:97-119 | a commit for a delivery that has a run already is accepted exactly when it says the same, and then creates nothing |
| WebhookLaws.LateWorkerChangesNothing | internal/store/postgres/webhook_inbox.go:108-119 | over every behaviour, from the moment a worker's lease has run out or was taken back, nothing it tries changes the inbox |
| WebhookService.InboxStore.ClaimWebhook | internal/store/postgres/webhook_inbox.go:63-92 | leases a due delivery and counts the attempt |
| WebhookService.InboxStore.FinalizeWebhook | internal/store/postgres/webhook_inbox.go:94-121 | only the holder of a live lease finalizes, and a retry must lie in the future |
| WebhookService.InboxStore.RecoverWebhookLeases | internal/store/postgres/webhook_inbox.go:123-154 | takes back at most the limit of expired leases; the twelfth attempt is dead-lettered |
| WebhookService.InboxStore.CommitWebhookRun | internal/store/postgres/github_ci.go:66-163 | creates or finds the run and finishes the delivery in one transaction |
| WebhookService.Orchestrator.FinalizeFailure | internal/githubci/orchestrator.go:148-170 | schedules a retry or dead-letters, and reports which |
| WebhookService.Orchestrator.Process | internal/githubci/orchestrator.go:60-129 | the inbox after processing a delivery, also when the answer to the commit is lost; the outcome says what became of the delivery and its run |
| WebhookService.ProcessIsSteps | internal/githubci/orchestrator.go:60-69 | processing keeps the inbox invariant |
| WebhookService.HeldIsProcessed | internal/githubci/orchestrator.go:60-129 | while the lease lasts, processing ends the delivery as the verdict says, also when the answer to the commit is lost |
| WebhookService.UnheldIsUntouched | internal/githubci/orchestrator.go:60-69 | a worker without the lease changes nothing, whatever its verdict |
| WebhookService.ContradictionIsDead | internal/githubci/orchestrator.go:148-170 | a commit that contradicts the run of the delivery is dead-lettered and creates nothing |
| WebhookService.LateProcessChangesNothing | internal/githubci/orchestrator.go:60-69 | a late worker that processes an ended delivery changes nothing |

## Left out

- RedactionScan.SoleSecretNeverInOutputIff: of secrets that run into the mark and contain an opening bracket, or stand beside other secrets, whether an input prints them depends on how the list overlaps itself; for those only the sufficient condition of `RedactionScan.ApartSecretAbsent` is given.
- RunnerProtocol.ExecutedAtMostOnce: the timer that ends a lease fires as one step at any time after the deadline; goroutine scheduling inside a step is not modelled.
- RunnerProtocol.AuthorityIsExclusive: server and Runners read one shared clock; clock skew between machines is not modelled.
- RunLock.NoLostWakeUp: the transactions that hold the run lock are completions; claiming, starting, renewing, releasing and requeueing appear as single-row changes; cancellation and the failure of expired executions appear only in the one-transaction-per-step model.
- WorkClient.Client.HandleResponse: entries of the `active` map are values that are replaced, so the pointer that an execution holds to its entry is not modelled; acknowledgements and rejections of log chunks are left to the log model.
- PipelineCompiler.ValidateJobs: one boolean stands for the checks of a job's fields outside the dependency graph (images, commands, timeouts, sizes, services).
- PipelineCompiler.Validate: one boolean stands for the header and trigger checks.
- PostgresStore.Tables.ClaimRunnerJob: the row that the locking query selects is a parameter, because rows locked by others are skipped; Runner matching and the creation order are not repeated for this store.
- PostgresStore.Tables.RecoverRun: one run of a recovery batch; the batch is a sequence of such steps in one transaction, none of which can fail; the limit on the batch bounds only how many are picked.
- PostgresStore.Tables.RerunRun: the idempotency key of the request, which makes a repeated request return the earlier run, is not modelled.
- WebhookService.InboxStore.ClaimWebhook: the row that the locking query selects is a parameter.
- WebhookService.InboxStore.CommitWebhookRun: the fields compared with an existing run are one string.
- WebhookService.Orchestrator.Process: what the settings, the repository and the compiler say of the event is a parameter.
- WorkServer.SessionTable.BeginSession: in `RunnerProtocol` the server's end of a Runner is one session, and connecting requires it to be closed; the table is what makes that so.
- Log acknowledgements and log chunks are not messages of the Runner protocol model; they have a model of their own.
- Timestamps of rows other than lease expiry and retry time in the Postgres model, audit events, and the delivery of commit statuses.
- The renewal timestamp of the in-memory store, which is written and never read.
- Decoding of YAML and JSON, and error texts.
- The older claim, start and complete calls without Runner identity, which make the same steps with weaker checks.
- Certificates, enrolment, authorization, credentials, Docker execution, HTTP handlers, browser sessions, repository clients, rate limits and the web console.
- Failures of the redactor's target writer.
