# A verified model of swarm-deploy

swarm-deploy keeps Docker Swarm stacks in line with a Git repository. This project models the parts of it whose
correctness is an argument rather than a line of code, and proves that argument for all inputs and all runs. The project
file names every module, so `dafny verify dfyconfig.toml` takes them together.

## What is modelled

**Deployment lifecycle** (`Retry`, `DeploymentModel`, `DeploymentStore`, `DeploymentService`, `DeploymentBrackets`,
`DeploymentLifecycle`, `DeploymentController`, `DeploymentRuns`, `DeploymentGuarantees`, `DeploymentObligations`,
`DeploymentSpacing`, `DeploymentExecution`, `DeploymentStarts`, `DeploymentOutcomes`). A persisted state machine of
deployments and attempts: starts, retries with capped exponential backoff, supersession, completion, update generations
with their undo, crash and recovery, and the in-memory completion that outlives a failed commit. The store is explicit
tables with atomic transactions; a commit may land, roll back, or land and still be reported failed. `Service` and
`Controller` are the imperative forms, proved against functions on the tables; `DeploymentRuns` interleaves the atomic
steps of all stacks, and `ExecuteIsRun` shows that one Execute is such a run. `DeploymentStarts` says exactly when a
start makes an attempt and what it stores and publishes, `DeploymentOutcomes` which of the calls an execution makes
decides every persisted column. Executions of one stack are serialized, as the callers of the controller arrange it.

**Alerts and ordered projections** (`Projection`, `Recommendations`, `Alerts`, `AlertSubscriber`, `AlertLifecycle`,
`AlertGuarantees`, `AlertEffects`). Version rows that accept an event only when it is newer, and the two projections
built on them: recommendations, and alerts with their failure streaks, threshold and published transitions. Deliveries
may be repeated, reordered, fail in the handler or fail at commit. `AlertGuarantees` holds over all histories,
`AlertEffects` says what each event does to the incident of its resource.

**Event fan-out** (`EventTopic`, `EventRuns`). A topic with bounded subscriber buffers and a one-slot resync channel.
Channels are named by handles, so a consumer keeps its own after the topic forgot it. `EventRuns` splits a publish into
the sends and overflow requests it is made of and interleaves them with consumers, subscriptions, closes and broken
streams.

**Assistant protocol** (`ServiceTargets`, `PendingOperations`, `PendingRuns`, `PendingEffects`, `AssistantGraph`).
Confirm-then-claim under concurrent handlers of any conversations, and the tool-calling loop under arbitrary model
replies, tool outcomes and guard verdicts.

**Byte and tree algorithms** (`DockerLogs`, `LogLines`, `TailBuffer`, `TaskSpec`, `TaskDifferences`). The Docker log
demultiplexer and line reassembler, the in-place tail buffer, and the structural diff of normalized task specifications,
which names one path for each deepest difference.

`Wrappers` and `Text` hold what the modules share. Induction is always written out in the lemma bodies.

## What the proofs found

The model follows the code. Six expectations fail on it. Each has a concrete input and its exact condition:

- A verification whose rollout is unknown is persisted without its list of unresolved services
  (`internal/modules/deployments/modelstore/sqlite.go`, lines 1031 to 1036), so the first deployment of a stack may
  record a generation of a service that is not listed as unresolved (`RecordedGenerationNeedNotBeUnresolved`).
  Recorded generations lie within the unresolved services if and only if obligations were known
  (`RecordedGenerationIsUnresolvedIffKnown`). After a crash the recovery lists the desired services again: a recorded
  service is then unresolved if and only if obligations were known or it is desired (`RecordSurvivesCrash`). The
  deployer records services of the desired state only (`internal/modules/deployments/deployer/services/applier.go`,
  lines 297 and 365), so its records always survive.
- A start whose commit lands but is reported failed leaves a running attempt that is neither executed nor waiting
  (`AmbiguousStartLeavesStray`). Along every run these starts, and no others, make such attempts
  (`StrayIffAmbiguousStart`, `RunningAttemptWaitsIffNotStray`). The attempt keeps running and stalls its stack until a
  recovery or a changed desired state lands (`StepEndsStrayIff`, `StrayStallsUnchangedStack`).
- An undo restores the previous state if and only if the generation it puts back was absent or names its service
  (`UndoRestoresExactly`); `UnnamedGenerationIsLost` is a concrete case.
- A drift alert of a stack whose name holds `/` is attributed to the text before the first separator
  (`CutFindsStackIff`), so a configuration change may resolve it although its stack remains
  (`ConfiguredStackLosesDriftAlert`). It survives if and only if that text names a configured stack
  (`DriftAlertSurvivesIff`).
- A claimed operation on a listed service runs if and only if the earliest service that answers to its full target is
  that service (`ListedServiceIsRequestedIff`), which proper names guarantee (`ListedServiceIsRequested`). Beside
  service `b/c` of stack `a`, the service `c` of stack `a/b` is refused (`NestedServiceIsRefused`).
- Pending operations are claimed by comparing values. An equal operation stored again within the same instant may be
  claimed in place of the one that the handler read (`EqualOperationMayBeClaimed`). A won claim takes the very
  operation read if and only if nothing was stored for the conversation in between (`ClaimTakesWhatWasReadIff`), in
  particular when no two operations of a conversation are stored at one instant (`ClaimTakesWhatWasRead`). Either way
  each stored operation executes at most once, and only after its own conversation confirmed an equal one.

## Model

| member | source | states |
|---|---|---|
| Retry.RetryDelay | internal/modules/deployments/service.go:180-189 | The doubling loop yields min(60·2^(n-1), 3600) seconds for every attempt count, without leaving 64 bits and in at most six rounds |
| Retry.DelayIsCappedFromSeven | internal/modules/deployments/service.go:52-54 | From the seventh attempt on the backoff is exactly one hour |
| Retry.DelayDoubles | internal/modules/deployments/service.go:180-189 | The first delay is one minute, and each further one doubles the last up to an hour |
| DeploymentModel.State | internal/modules/deployments/completion.go:147-218 | Rejects a completion exactly for a diagnostic on success or a misplaced observation time; every accepted one is coherent, carries its public error code and its event stage |
| DeploymentModel.ClassifyExecutionFailure | internal/modules/deployments/controller.go:355-367 | Every failure of the deployer becomes a completion that the table accepts |
| DeploymentStore.LatestRow | internal/modules/deployments/modelstore/sqlite.go:758-777 | The newest row of a stack: no later row belongs to it |
| DeploymentStore.NewestAttempt | internal/modules/deployments/service.go:191-217 | The attempt with the greatest number |
| DeploymentStore.Persist | internal/storage/db.go:44-51 | A transaction lands whole or not at all, and may be reported failed although it landed |
| DeploymentService.UnresolvedServices | internal/modules/deployments/service.go:366-381 | The inherited obligations, in the order of the desired state: its services that were unresolved before, or all of them when obligations of an ended attempt were never known |
| DeploymentService.InheritedIff | internal/modules/deployments/service.go:366-381 | A desired service is inherited exactly if it was unresolved, or the predecessor failed or was interrupted with obligations nobody established |
| DeploymentService.KeepSplits | internal/modules/deployments/service.go:373-380 | Names are kept one by one, in the order of the desired state |
| DeploymentService.UnresolvedGenerations | internal/modules/deployments/verification.go:75-88 | Exactly the recorded generations of the given names |
| DeploymentService.DesiredServiceRemovals | internal/modules/deployments/service.go:139-152 | The services of the previous desired state missing from the current one, sorted |
| DeploymentService.RemovalsCount | internal/modules/deployments/service.go:139-152 | A service is removed as often as the previous desired state has it and the current one lacks it |
| DeploymentService.ObligationsAfter | internal/modules/deployments/completion.go:115-135 | What a completion leaves owed, sorted: nothing after success, otherwise what the rollout report names, or the whole desired state without a report, and if it ended in apply also what was owed before; generations stay within it |
| DeploymentService.Service.Complete | internal/modules/deployments/completion.go:71-145 | The imperative completion refines the transaction on the tables, under every commit outcome |
| DeploymentService.Service.StartExistingDeployment | internal/modules/deployments/service.go:154-178 | Refines the retry transaction of an unchanged desired state; StartsIff says when that makes an attempt |
| DeploymentService.Service.Supersede | internal/modules/deployments/service.go:191-203 | A running previous deployment is ended as interrupted before it is replaced |
| DeploymentService.Service.StartIfChanged | internal/modules/deployments/service.go:65-137 | The whole imperative start refines the start transaction under every commit outcome; StartsIff, AttemptStored, ReplacementInherits and StartPublishes say what that does |
| DeploymentService.Service.RecordUpdateGeneration | internal/modules/deployments/verification.go:14-36 | Persists the generation before a service write and returns what an undo needs |
| DeploymentService.Service.UndoUpdateGeneration | internal/modules/deployments/verification.go:37-58 | Restores what the receipt says, and changes nothing when the generation was replaced or the attempt has ended |
| DeploymentService.Service.InterruptRunning | internal/modules/deployments/service.go:322-364 | Recovery ends every running attempt in one transaction |
| DeploymentService.InterruptAllStopsAtError | internal/modules/deployments/service.go:347-364 | The recovery loop stops at its first failure, which is the failure of the whole |
| DeploymentStarts.StartsIff | internal/modules/deployments/service.go:90-178 | On valid tables a start makes an attempt if and only if no deployment exists and the source changed, the digest differs, or the newest deployment failed or was interrupted and a retry is asked for by hand or is retryable and its backoff is over |
| DeploymentStarts.FailedAttemptIsRetried | internal/modules/deployments/service.go:154-178 | The concrete retries: by hand at once, and by itself after an hour at the latest when the failure may pass |
| DeploymentStarts.AttemptStored | internal/modules/deployments/service.go:90-178 | The attempt is the running newest one of a row with the requested desired state: of the failed row itself, or of a new row |
| DeploymentStarts.ReplacementInherits | internal/modules/deployments/service.go:105-137 | A new desired state takes over exactly the services it still has of what its ended predecessor owes, in its own order, with their generations |
| DeploymentStarts.StartPublishes | internal/modules/deployments/service.go:105-152 | A changed desired state publishes the interruption of a running predecessor and one removal, in sorted order, for every service it no longer has; other starts publish nothing |
| DeploymentStarts.ExecuteStartsIff | internal/modules/deployments/controller.go:139-152 | From every reachable state with writable tables an execution starts an attempt if and only if one is due; otherwise it tells the outcome of the newest deployment and which services nobody else may retry |
| DeploymentStarts.FailureStartsNothing | internal/modules/deployments/controller.go:139-152 | On any tables nothing starts before a waiting completion is settled, and an unconfirmed start is told as a failure without an attempt |
| DeploymentBrackets.SurvivingRecordsAlone | internal/modules/deployments/verification.go:14-58 | On the tables, after any interleaving of records and undos that is last-in-first-out per service, refused, rolled back, landed unreported or landed, obligations are until the attempt ends those of the landed records not undone alone, and the undo of a service's newest one is accepted |
| DeploymentBrackets.EndedAttemptRefuses | internal/modules/deployments/verification.go:14-58 | Once the attempt has ended it stays ended, and its records and undos change nothing |
| DeploymentBrackets.UndoRestoresExactly | internal/modules/deployments/verification.go:37-73 | An undo right after its record restores the previous verification if and only if the generation replaced was absent or named its service |
| DeploymentBrackets.UnnamedGenerationIsLost | internal/modules/deployments/verification.go:44-52 | The concrete case that fails: a generation without a service identifier is dropped by a later undo |
| DeploymentBrackets.UndoRemovesRecord | internal/modules/deployments/verification.go:37-58 | Undoing the newest record of a service leaves the replay of the other records |
| DeploymentBrackets.UndoRestoresTables | internal/modules/deployments/verification.go:14-58 | On the tables, record then undo gives the same tables back |
| DeploymentLifecycle.CompleteKeepsLifecycle | internal/modules/deployments/completion.go:85-145 | Every accepted completion keeps attempt numbering, one running attempt per stack, baselines and the one-event-per-attempt outbox |
| DeploymentLifecycle.StartKeepsLifecycle | internal/modules/deployments/service.go:90-137 | Every start succeeds on valid tables, keeps the invariant and leaves at most one fresh running attempt of its stack |
| DeploymentLifecycle.ReplacementEffect | internal/modules/deployments/service.go:105-137 | A replacement owes exactly what the interrupted deployment still owes of the new desired state |
| DeploymentLifecycle.RetryKeepsLifecycle | internal/modules/deployments/modelstore/sqlite.go:859-885 | A retry of an ended unsuccessful attempt succeeds, keeps the invariant and leaves verification and desired state untouched |
| DeploymentLifecycle.RecordKeepsLifecycle | internal/modules/deployments/verification.go:14-58 | Recording keeps the invariant and yields a receipt that later undos may rely on |
| DeploymentLifecycle.UndoKeepsLifecycle | internal/modules/deployments/verification.go:37-58 | Undoing with such a receipt keeps the invariant |
| DeploymentLifecycle.InterruptAllEffect | internal/modules/deployments/service.go:347-364 | Recovery of any list of distinct running attempts ends exactly those and touches nothing else |
| DeploymentLifecycle.RecoveryLeavesNothingRunning | internal/modules/deployments/service.go:328-364 | After recovery nothing runs, and every deployment that did not run is unchanged |
| DeploymentLifecycle.RecordSurvivesCrash | internal/modules/deployments/verification.go:14-36 | A recorded service is still unresolved after a crash and recovery if and only if obligations were known or the service is desired |
| DeploymentLifecycle.RecordedGenerationIsUnresolvedIffKnown | internal/modules/deployments/modelstore/sqlite.go:1031-1055 | After a record every stored generation belongs to an unresolved service if and only if obligations were known; otherwise the store drops the list |
| DeploymentController.Select | internal/modules/deployments/controller.go:139-222 | No path of an execution builds a completion that the table rejects, and the status and code shown are those that the table persists; FirstFailureDecides says which completion it is |
| DeploymentOutcomes.FirstFailureDecides | internal/modules/deployments/controller.go:154-220 | The first call that failed, or whose context had ended, decides: one equivalence per outcome, the diagnostic is its own, an observation is claimed exactly if nothing failed or the cleanup did, and after the deployer was called its rollout report is carried on every failure |
| DeploymentOutcomes.OneCallFailsFirst | internal/modules/deployments/controller.go:154-220 | Exactly one call fails first, unless none fails |
| DeploymentOutcomes.ExecuteRecordsFirstFailure | internal/modules/deployments/controller.go:139-222 | From every reachable state: the attempt an execution started is persisted with every column, the one event and the obligations that its first failing call demands, or, if the commit rolled back, waits with a completion that demands them |
| DeploymentOutcomes.RetryableIff | internal/modules/deployments/completion.go:154-170 | Which outcomes may be retried |
| DeploymentOutcomes.RecoveryRecordsInterruption | internal/modules/deployments/service.go:347-364 | Recovery ends a running attempt of valid tables as retryable with an unknown outcome, tells so once, and leaves every desired service owed besides those owed before |
| DeploymentOutcomes.StaleAttemptIsSynchronized | internal/modules/deployments/service.go:347-364 | An attempt marked running below an ended deployment takes over its outcome, without an event |
| DeploymentOutcomes.PolicyRejectionIsFinal | internal/modules/deployments/completion.go:115-218 | A policy rejection may not be retried and leaves only the inherited obligations |
| DeploymentController.Controller.Complete | internal/modules/deployments/controller.go:271-289 | A completion that returns any error waits in memory, also one refused as no longer running; a persisted one is dropped from it |
| DeploymentController.Controller.RecoverPending | internal/modules/deployments/controller.go:291-325 | Settles a waiting completion before the next start, or refuses to start |
| DeploymentStarts.SettlesIff | internal/modules/deployments/controller.go:291-325 | A waiting completion is dropped exactly when repeating it succeeds, or is refused for an attempt of its stack that provably no longer runs; otherwise it stays, with the error found |
| DeploymentStarts.RecoverSettles | internal/modules/deployments/controller.go:291-325 | From every reachable state a waiting completion is settled once the tables can be written and inspected |
| DeploymentController.Controller.Execute | internal/modules/deployments/controller.go:139-222 | The imperative execution refines the step-by-step function under arbitrary deployer behaviour and commit outcomes, about which ExecuteRecordsFirstFailure and ExecuteStartsIff speak |
| DeploymentRuns.NextKeepsInv | internal/modules/deployments/controller.go:139-325 | Every atomic step keeps the invariants of tables and memory and never changes an ended attempt |
| DeploymentRuns.RunKeepsInv | internal/modules/deployments/controller.go:132-325 | So does every run |
| DeploymentGuarantees.OneRunningAttemptPerStack | internal/modules/deployments/service.go:90-137 | In every reachable state a stack has at most one running attempt |
| DeploymentGuarantees.RowsAreCoherent | internal/modules/deployments/completion.go:147-242 | Attempts are numbered 1..n, only the newest runs, the deployment mirrors it, and every ended attempt is coherent |
| DeploymentGuarantees.NothingRunsAfterRecovery | internal/modules/deployments/service.go:322-345 | After a committed recovery nothing is running |
| DeploymentGuarantees.RunningAttemptWaitsIffNotStray | internal/modules/deployments/controller.go:271-325 | Between executions of its stack a running attempt waits in pending if and only if no start of the run made it under a commit that landed but was reported failed |
| DeploymentGuarantees.StrayIffAmbiguousStart | internal/modules/deployments/controller.go:146-165 | Along every run, crashes included, the attempts nobody waits for are exactly those that a start of the run made under such a commit |
| DeploymentGuarantees.AmbiguousStartLeavesStray | internal/modules/deployments/controller.go:146-165 | The concrete run: one first start whose commit lands but is reported failed |
| DeploymentGuarantees.StepEndsStrayIff | internal/modules/deployments/service.go:90-178 | A step ends such an attempt if and only if it is a recovery that lands or a start of a changed digest of its stack that lands |
| DeploymentGuarantees.RecordedGenerationNeedNotBeUnresolved | internal/modules/deployments/modelstore/sqlite.go:1031-1036 | The concrete run: after the first deployment of a stack records a service, the store holds its generation but not its obligation |
| DeploymentGuarantees.StrayStallsUnchangedStack | internal/modules/deployments/service.go:154-165 | Along every run in which neither a recovery nor a start of a changed digest of its stack lands, such an attempt keeps running, nothing waits for it, and it stays the newest attempt of its stack |
| DeploymentGuarantees.PendingIsNeverOverwritten | internal/modules/deployments/controller.go:271-289 | No step replaces a waiting completion by another |
| DeploymentGuarantees.StartOnlyWhenSettled | internal/modules/deployments/controller.go:146-165 | A new attempt starts only when nothing waits for its stack, and is then the only running one |
| DeploymentGuarantees.OneTerminalEventPerAttempt | internal/modules/deployments/completion.go:90-145 | Each attempt publishes exactly one completion event, telling its persisted outcome; baselines are the newest successes |
| DeploymentExecution.ExecuteIsRun | internal/modules/deployments/controller.go:139-222 | One Execute is exactly a run of the atomic steps and leaves no execution under way |
| DeploymentExecution.ExecuteLeavesNothingUnaccounted | internal/modules/deployments/controller.go:139-222 | When Execute returns from any reachable state, a running attempt of its stack waits in pending if and only if no ambiguous start, past or of this execution, made it |
| DeploymentExecution.ExecuteTellsThePersistedOutcome | internal/modules/deployments/controller.go:190-222 | The status and error code returned are the persisted ones once the attempt has ended; until then its completion waits |
| DeploymentObligations.CompletionReleasesExactly | internal/modules/deployments/completion.go:115-135 | A completion settles an owed service exactly when its attempt runs, its commit lands, and it succeeded, or got past apply with a rollout report, or without one a desired state, that lacks the service |
| DeploymentObligations.StartReleasesExactly | internal/modules/deployments/service.go:90-137 | A start that lands settles an owed service exactly when it changes the stack's digest to a desired state without it |
| DeploymentObligations.UndoReleasesExactly | internal/modules/deployments/verification.go:37-58 | An accepted undo settles an owed service exactly when its own record had added it |
| DeploymentObligations.StepReleasesExactly | internal/modules/deployments/controller.go:139-325 | The same for every atomic step: an owed service is settled exactly by the steps that discharge it |
| DeploymentObligations.ObligationsAreNeverLost | internal/modules/deployments/service.go:366-381 | Along every run, with refused and rolled-back transactions, crashes and recovery, a service stays owed if and only if no step is an enabled, accepted and landed completion, replacement or undo that settles it |
| DeploymentObligations.SettledAtDischarge | internal/modules/deployments/completion.go:115-135 | Conversely, a service no longer owed was settled by a discharging step of the run |
| DeploymentSpacing.AutomaticAttemptsAreSpaced | internal/modules/deployments/service.go:154-189 | With an unchanged digest and no manual retry of that stack, attempt k+1 starts at least the delays numbered j+1 to k after attempt j+1, for every j and k; from the seventh on, m more take m hours |
| Projection.ProjectionStore.AdvanceProjection | internal/storage/projection.go:13-66 | Accepted exactly when no version is stored, or the stored one happened earlier, or at the same instant with a smaller identifier; then, and only then, the version is stored |
| Projection.NewerIsTotal | internal/storage/projection.go:50-52 | The version order is strict and total |
| Recommendations.OrderedSubscriber.Handle | internal/modules/recommendations/sqlite_subscriber.go:16-36 | One transaction: a stale event does nothing, a failing handler leaves neither version nor advice |
| Recommendations.ProjectionReflectsNewest | internal/modules/recommendations/sqlite_subscriber.go:16-36 | Under duplicates, reorderings, failures and retries the projection holds the version and advice of the successfully handled event with the latest time and, at that time, the greatest identifier |
| Recommendations.DeliveriesConverge | internal/modules/recommendations/sqlite_subscriber.go:16-36 | Histories that handled the same events end with the same version and recommendations |
| Recommendations.HandledEventIsNoLater | internal/storage/projection.go:47-62 | No handled event of a stack is later than the stored version, nor at its instant with a greater identifier |
| Recommendations.DeliveryCounts | internal/modules/recommendations/sqlite_subscriber.go:16-36 | A delivery changes version and advice of its stack exactly if it is news and its handler succeeds; errors are a missing time and a failing handler of news |
| Recommendations.AcceptedVersionsIncrease | internal/storage/projection.go:47-62 | A stored version that changes becomes later in time, or greater in identifier at the same time |
| Alerts.RenderIsInjective | internal/modules/alertmanagement/model/kind.go:20-36 | The stored fingerprint text identifies kind and resource |
| Alerts.CutFindsStackIff | internal/modules/alertmanagement/subscriber.go:324-334 | A drift alert is attributed to its stack exactly when the stack name holds no separator |
| AlertSubscriber.AlertStore.FindOpenByFingerprint | internal/modules/alertmanagement/modelstore/sqlite.go:158-165 | Finds the open row of a fingerprint |
| AlertSubscriber.AlertStore.Create | internal/modules/alertmanagement/modelstore/sqlite.go:30-91 | Rejects a row without resource and a second open row of a fingerprint, and changes nothing then |
| AlertSubscriber.Subscriber.HandleServiceDrift | internal/modules/alertmanagement/subscriber.go:102-142 | Refines the drift handler on rows, streaks and publications |
| AlertSubscriber.Subscriber.HandleGitPullFailed | internal/modules/alertmanagement/subscriber.go:183-225 | Refines the repository failure handler |
| AlertSubscriber.Subscriber.HandleFailed | internal/modules/alertmanagement/subscriber.go:364-434 | Refines the deployment failure handler, including failures of removed stacks |
| AlertSubscriber.Subscriber.HandleNode | internal/modules/alertmanagement/node.go:11-51 | Refines the node handler; EndingEventConcludes and OccurringEventReports say what that does |
| AlertSubscriber.Subscriber.HandleConfigurationChanged | internal/modules/alertmanagement/subscriber.go:281-322 | Refines the configuration reconciliation loop |
| AlertSubscriber.SQLSubscriber.Handle | internal/modules/alertmanagement/sqlite_subscriber.go:30-67 | One transaction per event: stale and repeated events do nothing, failures and rollbacks leave no trace |
| AlertEffects.EndingEventConcludes | internal/modules/alertmanagement/subscriber.go:51-100 | After a node returned, a drift was fixed, a service or repository was removed, or a deployment or pull succeeded, its resource has no open incident: the one that was open carries reason, message, time and event, its end is published once, and no other row changes |
| AlertEffects.OccurringEventReports | internal/modules/alertmanagement/subscriber.go:102-225 | A reported problem that is not held back leaves its incident open: the open row counts it and says what it says, field by field, or a new row opens and is published once; a held-back one changes no incident |
| AlertEffects.UncountedProblemIsOpen | internal/modules/alertmanagement/node.go:21-35 | A lost node or an unresolved drift is an open incident at once |
| AlertEffects.OtherEventsChangeNoIncident | internal/modules/alertmanagement/subscriber.go:51-100 | An event that neither ends nor reports a problem changes no row and publishes nothing |
| AlertEffects.OnlyNamelessIsRefused | internal/modules/alertmanagement/modelstore/sqlite.go:30-47 | An event is refused only if it would open an incident of a nameless resource, or the configuration is not ready |
| AlertEffects.ConfigurationChangeConcludes | internal/modules/alertmanagement/subscriber.go:281-353 | A configuration change closes each open row of an absent stack with its message, publishes each end once in row order, and leaves the other rows alone |
| AlertEffects.DeliveryCounts | internal/modules/alertmanagement/sqlite_subscriber.go:30-67 | Undated events are refused, old news is ignored, and news changes version and incidents together or not at all; success is reported exactly if handler and commit succeeded |
| AlertEffects.SameRowIffSameSubject | internal/modules/alertmanagement/sqlite_subscriber.go:31-58 | Two events share a version row exactly if they concern the same node, stack, repository or service text |
| AlertEffects.LateDeliveryIsIgnored | internal/modules/alertmanagement/sqlite_subscriber.go:30-67 | Once an event was handled, every older one of its subject is ignored for good |
| AlertLifecycle.ResolveAbsentExactly | internal/modules/alertmanagement/subscriber.go:304-320 | The reconciliation loop resolves exactly the open alerts of absent stacks |
| AlertGuarantees.HandledKeeps | internal/modules/alertmanagement/subscriber.go:51-100 | Every handler keeps rows, publications and streaks in step; only a failure of a removed stack lets occurrences and streak differ |
| AlertGuarantees.AtMostOneOpenAlert | internal/modules/alertmanagement/modelstore/sqlite.go:30-91 | At most one open alert per fingerprint along every delivery history |
| AlertGuarantees.TransitionsAlternate | internal/modules/alertmanagement/subscriber.go:494-502 | Opened and Resolved strictly alternate from Opened, each Resolved names the incident just opened, and an alert is open exactly when Opened outnumber Resolved |
| AlertGuarantees.StreaksStayBelowThreshold | internal/modules/alertmanagement/subscriber.go:374-421 | No open alert means a streak below three; an open one has seen at least its streak |
| AlertGuarantees.OccurrencesMatchStreak | internal/modules/alertmanagement/subscriber.go:368-389 | Exactly its streak, when no failure was reported while the stack was removed |
| AlertGuarantees.StreakCountsFailures | internal/modules/alertmanagement/modelstore/sqlite.go:221-268 | The stored streak is the number of failures applied since the last recovery or removal |
| AlertGuarantees.FailureOpensAlertIff | internal/modules/alertmanagement/subscriber.go:401-416 | A counted failure leaves an alert open unless it is temporary and fewer than three came; a new alert counts them all |
| AlertGuarantees.ConfigurationChangeResolvesExactly | internal/modules/alertmanagement/subscriber.go:281-353 | After a configuration change no open stack or drift alert names an absent stack; those that did are resolved as removed and every other row is untouched |
| AlertGuarantees.DriftAlertSurvivesIff | internal/modules/alertmanagement/subscriber.go:305-334 | A drift alert survives exactly when the text before its first separator is configured |
| AlertGuarantees.ConfiguredStackLosesDriftAlert | internal/modules/alertmanagement/subscriber.go:305-334 | The concrete history: a drift alert of the configured stack a/b is resolved as removed by a configuration change that still names a/b |
| EventTopic.EventTopic.Subscribe | internal/swarm/events.go:269-295 | A closed topic hands out closed channels and no identifier; otherwise a fresh identifier and an open channel |
| EventTopic.EventTopic.Unsubscribe | internal/swarm/events.go:297-308 | Closes the channel once; unknown identifiers change nothing |
| EventTopic.EventTopic.Publish | internal/swarm/events.go:310-326 | An event that fits is buffered behind the others, one that does not leaves a resync waiting, the older one if there was one; counts the channels that newly have one (RequestsAreCounted) |
| EventTopic.RequestsAreCounted | internal/swarm/events.go:310-326 | The count is that of the channels without a waiting request that have one afterwards |
| EventTopic.EventTopic.RequestResync | internal/swarm/events.go:328-335 | Every registered channel has a resync waiting afterwards, older requests win |
| EventTopic.EventTopic.Close | internal/swarm/events.go:337-350 | Closes every registered channel exactly once, and is idempotent |
| EventRuns.StepKeeps | internal/swarm/events.go:257-359 | Every interleaved step of reader, callers and consumers keeps the invariant |
| EventRuns.UndisturbedSendIsOffer | internal/swarm/events.go:315-323 | Send and overflow request, undisturbed, are the atomic share of a publish |
| EventRuns.StepOnBuffer | internal/swarm/events.go:310-326 | In any interleaving a send appends exactly when there is room, a receive takes the oldest, and nothing else touches a buffer |
| EventRuns.StepOnResync | internal/swarm/events.go:352-359 | A request waits exactly when the reader asks and none waited; only its consumer takes it away |
| EventRuns.StepOnOpen | internal/swarm/events.go:297-350 | A channel closes exactly by its own unsubscription or with the topic |
| EventRuns.SubscribeStarts | internal/swarm/events.go:269-295 | A new channel is empty, has the asked capacity and no past, and is registered unless the topic is closed |
| EventRuns.WaitingResyncStaysUntilTaken | internal/swarm/events.go:352-359 | Along every run the first waiting request stays until its consumer takes it |
| EventRuns.EventsKeepTheirOrder | internal/swarm/events.go:310-326 | Received plus buffered events are an order-preserving subsequence of those since subscription |
| EventRuns.NoSilentLoss | internal/swarm/events.go:122-182 | With the stream up, the reader idle and no resync waiting, everything since the last taken resync was received or is buffered |
| EventRuns.LossIsSignalled | internal/swarm/events.go:310-359 | Even mid-sweep a loss shows: the slot is full, the stream is down, or the reader still owes the request |
| EventRuns.OpenIffRegistered | internal/swarm/events.go:297-350 | A channel is open exactly while registered, so none is closed twice or sent to after its close |
| ServiceTargets.ResolveFindsListedService | internal/modules/assistant/pending_operation.go:353-401 | A resolved target is in the catalogue; in the most specific tier with any match it is the earliest full match, or the only match |
| ServiceTargets.ResolveIsUnknownIff | internal/modules/assistant/pending_operation.go:353-401 | Nothing is found exactly when the target is blank or nothing matches in any tier |
| ServiceTargets.ResolveFindsIff | internal/modules/assistant/pending_operation.go:353-401 | A service is found exactly if the most specific tier with any match is the full target or has a single match |
| ServiceTargets.FullTargetIsFound | internal/modules/assistant/pending_operation.go:353-363 | Written in full, a target finds the earliest service it names |
| ServiceTargets.NameThenStack | internal/modules/assistant/pending_operation.go:365-383 | Otherwise a service name, and then a stack name, finds the one entry so named and is ambiguous between two |
| ServiceTargets.PartIsFound | internal/modules/assistant/pending_operation.go:385-401 | And then a part of a target or name finds the only entry that has it |
| PendingOperations.PendingOperationStore.GetPending | internal/modules/assistant/pending_operation.go:99-111 | Returns an unexpired operation, discards an expired one |
| PendingOperations.PendingOperationStore.ClaimPending | internal/modules/assistant/pending_operation.go:126-142 | Succeeds exactly for an unexpired stored operation equal to the one given, and takes it out; an expired one is discarded |
| PendingOperations.RequestFollowsOperation | internal/modules/assistant/pending_operation.go:293-330 | A tool request runs exactly the claimed operation, on a listed service, and only when its tool is allowed |
| PendingEffects.RequestIsRemembered | internal/modules/assistant/pending_operation.go:151-186 | A request is stored with what it asks and the service found, unless the catalogue is unreadable; confirmation is asked for exactly if nothing is missing |
| PendingEffects.ReplyFillsIn | internal/modules/assistant/pending_operation.go:234-291 | A reply keeps what is known and fills in the service it names, or else the count; confirmation follows exactly when nothing is missing |
| PendingEffects.RequestIff | internal/modules/assistant/pending_operation.go:293-330 | A claimed operation asks for its tool exactly if the tool is allowed and, unless it synchronizes everything, the catalogue resolves its service to itself; with its own replica count |
| PendingEffects.ListedServiceIsRequested | internal/modules/assistant/pending_operation.go:293-330 | An operation on a listed service of proper names always runs when its tool is allowed |
| PendingEffects.ListedServiceIsRequestedIff | internal/modules/assistant/pending_operation.go:293-330 | For any names it runs exactly if the earliest service that answers to its full target is that service |
| PendingEffects.NestedServiceIsRefused | internal/modules/assistant/pending_operation.go:293-330 | The concrete case: beside service b/c of stack a, the listed service c of stack a/b is refused |
| PendingEffects.AgreementRuns | internal/modules/assistant/pending_operation.go:209-343 | Agreement in time to a stored operation wins its claim, removes it and runs its tool if allowed and listed |
| PendingEffects.RefusalWithdraws | internal/modules/assistant/pending_operation.go:209-250 | A refusal or unrelated message withdraws the stored operation, an unclear answer does not; no other conversation is touched |
| PendingEffects.StoredForItsTime | internal/modules/assistant/pending_operation.go:113-118 | What a handler stores replaces its conversation's operation and expires after the store's time |
| PendingEffects.ReadFinds | internal/modules/assistant/pending_operation.go:99-111 | A reader finds the stored operation exactly while it has not expired |
| PendingRuns.StepKeeps | internal/modules/assistant/pending_operation.go:188-343 | Every interleaving of handlers keeps store, receipts and executions consistent |
| PendingRuns.AtMostOneExecutionPerOperation | internal/modules/assistant/pending_operation.go:126-142 | Each stored operation leads to at most one execution |
| PendingRuns.ExecutionWasConfirmed | internal/modules/assistant/pending_operation.go:209-343 | An execution follows an affirmative reply in the conversation of the stored operation, at its confirmation stage, and a claim before expiry; it runs that operation, with an allowed tool, on a service of the catalogue |
| PendingRuns.ClaimTakesWhatWasRead | internal/modules/assistant/pending_operation.go:293-300 | When operations of a conversation are stored at different instants, a won claim takes the very operation the handler read |
| PendingRuns.ClaimTakesAnEqualOperation | internal/modules/assistant/pending_operation.go:126-142 | In any case it takes an operation equal in every field to the one read, stored no earlier for the same conversation, and removes it from the store |
| PendingRuns.ClaimTakesWhatWasReadIff | internal/modules/assistant/pending_operation.go:126-142 | A won claim takes the very operation read if and only if nothing was stored for the conversation between the read and the claim |
| PendingRuns.EqualOperationMayBeClaimed | internal/modules/assistant/pending_operation.go:126-142 | The concrete run: an operation is read, cancelled and stored again within one instant, and the reader's claim takes the later one |
| PendingRuns.OnlyOneClaimWins | internal/modules/assistant/pending_operation.go:126-142 | Two claims of one stored operation never both win |
| AssistantGraph.EffectiveToolSet | internal/modules/assistant/graph_tool.go:49-77 | Exactly the capability and utility tools that pass the allow-list, plus the security tool |
| AssistantGraph.Offered | internal/modules/assistant/graph_tool.go:35-47 | Exactly the defined, effective, non-mutating tools |
| AssistantGraph.OfferedSplits | internal/modules/assistant/graph_tool.go:35-47 | Tools are offered one by one, in definition order |
| AssistantGraph.RoundAppends | internal/modules/assistant/graph.go:579-613 | A round runs the permitted calls in order and adds one result and one message per selected call |
| AssistantGraph.SelectedReports | internal/modules/assistant/graph.go:567-582 | Of the calls selected for a round at most one report runs, and none once a report was attempted |
| AssistantGraph.SelectedIsAsked | internal/modules/assistant/graph.go:567-582 | Only calls the model asked for are selected, and a selected report is selected alone and only as the first; SelectionIsRound has the other direction |
| AssistantGraph.SelectionIsRound | internal/modules/assistant/graph.go:557-618 | Call by call: with a fresh report asked for, the earliest one alone is answered; otherwise every call that is no report is, in the order asked, with one result and one message each, and exactly the permitted ones reach their tools in that order |
| AssistantGraph.OnlyReportsTerminate | internal/modules/assistant/terminal_tool.go:26-65 | Inside the graph only a report can end the conversation |
| AssistantGraph.Execution.GenerateAnswer | internal/modules/assistant/graph.go:497-555 | At the tool limit no tools are offered and tool calls are ignored |
| AssistantGraph.Execution.ExecuteMCP | internal/modules/assistant/graph.go:557-618 | Executes the round that SelectionIsRound describes call by call, and keeps every safety property of the state |
| AssistantGraph.Execution.GuardMCPResults | internal/modules/assistant/graph.go:656-676 | Stops exactly when some result fails the guard, naming the tool of the first |
| AssistantGraph.Execution.Turn | internal/modules/assistant/graph.go:282-325 | One turn in terms of the reply: an answer, or the round it asks for, call by call; an injection exactly if a result fails the guard, the fixed rejection exactly after one accepted report, otherwise another turn |
| AssistantGraph.Execution.Run | internal/modules/assistant/graph.go:282-325 | For every model, tool and guard behaviour: at most four completions, the first three with exactly the offered tools and the fourth with none, no mutating or ineffective tool, at most one report, no unguarded tool output in any request, and an ending that follows from the last reply or result |
| DockerLogs.Demultiplex | internal/swarm/service_manager.go:606-662 | The cursor loop yields the payloads of the maximal frame prefix and then the rest verbatim, for every byte string |
| DockerLogs.ParsePartitions | internal/swarm/service_manager.go:607-609 | Frames and rest make up the raw stream again: nothing is lost or invented |
| DockerLogs.OtherTextPasses | internal/swarm/service_manager.go:611-662 | Text that begins with no complete frame passes unchanged |
| DockerLogs.DemuxOfEncode | internal/swarm/service_manager.go:606-662 | Encoded frames before any tail give their payloads back before the tail |
| DockerLogs.DemuxInvertsEncode | internal/swarm/service_manager.go:606-662 | Demultiplexing inverts multiplexing |
| LogLines.LogReader.AppendPayload | internal/swarm/service_manager.go:775-799 | Completes the lines of one stream and buffers the unfinished rest |
| LogLines.LogReader.ReadFrames | internal/swarm/service_manager.go:685-753 | The frame loop refines the recursive reader, for every byte string |
| LogLines.SplitContinues | internal/swarm/service_manager.go:782-798 | More text after a split only continues the unfinished line |
| LogLines.SplitIsLines | internal/swarm/service_manager.go:785-797 | Every complete line ends with its only newline and no rest retains one |
| LogLines.BuffersHoldNoNewline | internal/swarm/service_manager.go:775-799 | Between frames no line buffer retains a newline |
| LogLines.LinesAreSplitContent | internal/swarm/service_manager.go:685-817 | For every byte string the lines of each stream are the newline split of its payloads, the unfinished one included exactly when the reader finished |
| LogLines.FramingDoesNotMatter | internal/swarm/service_manager.go:685-817 | Two framings and interleavings of the same output show the same lines of each stream |
| LogLines.FinishedLinesLoseNothing | internal/swarm/service_manager.go:801-817 | The lines of a finished stream, joined, are what it wrote |
| LogLines.ReaderEndsIff | internal/swarm/service_manager.go:685-753 | Frames and rest make up the raw stream, and the rest alone decides between the end, unframed text and a broken-off payload |
| LogLines.EarlierFramesFirst | internal/swarm/service_manager.go:685-799 | At every frame boundary the result so far is exactly the lines that both streams had completed by then |
| LogLines.UnfinishedErrorIsLast | internal/swarm/service_manager.go:801-817 | An unfinished line of standard error comes last of all |
| TailBuffer.LastForgets | internal/swarm/service_log_tail.go:38-55 | Only the last bytes of a text matter to what is kept later |
| TailBuffer.TailBuffer.Write | internal/swarm/service_log_tail.go:38-55 | In place and within the first allocation, keeps the last bytes of old contents and new text |
| TailBuffer.TailBuffer.Truncated | internal/swarm/service_log_tail.go:64-64 | Reports truncation exactly when more was written than the limit |
| TailBuffer.Collect | internal/swarm/service_log_tail.go:13-26 | After any writes the buffer holds the last min(limit, total) bytes of all that was written, and truncation means some were lost |
| TaskSpec.AppendDifferences | internal/swarm/task_spec.go:130-189 | The walk appending to one shared list finds exactly the recursive differences |
| TaskSpec.NoPathsIffEqual | internal/swarm/task_spec.go:130-189 | No path is found exactly between equal values |
| TaskSpec.PathsLieUnder | internal/swarm/task_spec.go:130-157 | Every path found lies at or below the compared one |
| TaskSpec.AllUnderIff | internal/swarm/task_spec.go:61-72 | All differences lie in one field exactly when that field is the only one that differs |
| TaskDifferences.PathsAreDeepestDifferences | internal/swarm/task_spec.go:130-189 | For any two values: one path for each deepest place where they differ and no other, in field order, spelled by the fields entered |
| TaskDifferences.DeepestStep | internal/swarm/task_spec.go:140-157 | A deepest difference behind a pointer or field is one of the values there |
| TaskSpec.NormalizeFixesExactlyExplicit | internal/swarm/task_spec.go:79-128 | Normalizing fills in every default and changes nothing exactly in specifications that leave none open |
| TaskSpec.NormalizeFillsIn | internal/swarm/task_spec.go:79-128 | What a specification sets it keeps, and what it leaves open gets the engine's default: isolation, ten seconds of grace, five of restart delay, any condition, no attempt limit, empty resources and placement, and the runtime of its only kind |
| TaskSpec.NormalizeIsIdempotent | internal/swarm/task_spec.go:79-128 | Normalizing twice is normalizing once |
| TaskSpec.ReflectIsFaithful | internal/swarm/task_spec.go:130-157 | Reflection tells specifications apart |
| TaskSpec.CompareServiceTemplate | internal/swarm/task_spec.go:35-49 | The comparison is the differences of the normalized specifications |
| TaskSpec.EqualIff | internal/swarm/task_spec.go:51-54 | Equal is reported exactly for equal normalized specifications |
| TaskSpec.PlacementOnlyIff | internal/swarm/task_spec.go:61-72 | Placement-only exactly when they differ and overwriting Placement makes them equal |
| TaskSpec.OlderForceUpdateOnlyIff | internal/swarm/task_spec.go:41-59 | Older-generation-only exactly when nothing but ForceUpdate differs and the task's is smaller |

## Left out

- SQL text, schema migrations and SQLite settings: the store is tables with atomic transactions.
- Rows written before attempts had a table of their own: a running deployment without attempts is refused instead of being given one.
- Superseded as a displayed status: it is computed when deployments are listed and is never stored.
- Commit, diff and start columns of deployments, init-job logs, registry credentials, metrics, tracing and logging: they influence no modelled decision.
- Options handed to the deployer (stackOptions): the deployer may do anything, so only a failure to read them matters.
- Single-service remediation through ExecuteService: it starts no attempt and stores nothing.
- Texts of diagnostics and their masking: a diagnostic is its safe text and the flags the code tests.
- UUIDs: deployments, attempts, stored operations and alerts are named by their position in creation order.
- DeploymentSpacing.AutomaticAttemptsAreSpaced: assumes a clock that does not run backwards and no manual retry of the stack concerned, as the code's own bound does; a changed digest begins a deployment whose attempts are counted anew.
- DeploymentBrackets.SurvivingRecordsAlone: undos are last-in-first-out per service and generations name their service, which is how the deployer uses them.
- Projection.ProjectionStore.AdvanceProjection: identifiers are compared byte by byte as the database does; that they are UUID version 7 (section 5.7 of RFC 9562) is not needed.
- Recommendations.DeliveriesConverge: assumes that one version of a stack means one event.
- Pruning of resolved alerts beyond one hundred rows: no handler reads a resolved row.
- AlertSubscriber.Subscriber.HandleConfigurationChanged: resolves in row order, not by last update; only the order between publications of different fingerprints depends on it.
- updateConcurrentFailure and generated fallback event identifiers: handlers run one at a time under a lock, and the durable subscriber refuses events without identifier.
- AlertSubscriber.Subscriber.HandleFailed: occurrences and streaks are unbounded counts, not 64-bit ones.
- Recipients of alert notifications and the shape of the published snapshot: a publication carries the row itself.
- DeploymentOutcomes.ExecuteRecordsFirstFailure: recorded generations name their service, as the deployer's do.
- EventTopic.EventTopic.Publish: requires only that registered channels are open; OfferKeepsValid shows that the topic stays valid. A buffer of capacity zero never accepts a send, although a waiting receiver could.
- Node and secret payloads of events and the reconnect delay: the stream is up or down, and events may be missed while it is down.
- PendingRuns.ExecutionWasConfirmed: how a reply is read as yes, no or unrelated is an input of the handler; the word lists are not modelled.
- PendingEffects.RequestIsRemembered: a service that the resolver finds has a stack and a name, as the catalogue's services do.
- PendingEffects.ListedServiceIsRequestedIff: stack and service of the operation are trimmed, as the catalogue holds them.
- ServiceTargets.ResolveFindsListedService: trims and folds ASCII only; the model fallback for targets that do not resolve is an arbitrary resolution.
- AssistantGraph.Execution.Run: starts after routing and retrieval with arbitrary prepared messages; wordings of notices and of failed calls are arbitrary.
- DockerLogs.Demultiplex: frame sizes are converted to a 64-bit int, so a negative size cannot arise.
- LogLines.LogReader.ReadFrames: reads a finite text and then the end of the stream; cancellation, other read errors and the scan of unframed text are not modelled, and unfinished lines of both streams are flushed in one fixed order.
- TailBuffer.TailBuffer.Write: the total is an unbounded count, and a negative limit cannot be allocated.
- TaskSpec.AppendDifferences: values are finite trees compared structurally, so cyclic pointers, functions and NaN are outside the model; collections are leaves, as in the code.
- TaskSpec.CompareServiceTemplate: the fields of a container specification that normalization does not touch follow the ones it does.
