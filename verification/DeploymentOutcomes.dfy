/** What an execution leaves of the calls it made: the first one that failed decides every persisted column. */
module DeploymentOutcomes {
  import opened Wrappers
  import opened DeploymentModel
  import opened DeploymentStore
  import opened DeploymentService
  import opened DeploymentLifecycle
  import opened DeploymentController
  import opened DeploymentRuns
  import opened DeploymentExecution
  import opened DeploymentObligations

  // ---------------------------------------------------------------- the first failing call

  /** The calls of one execution, in order. */
  datatype Call = ReadOptions | Deploying | Observing | CleaningUp

  predicate Precedes(a: Call, b: Call) {
    match b
    case ReadOptions => false
    case Deploying => a == ReadOptions
    case Observing => a == ReadOptions || a == Deploying
    case CleaningUp => a != CleaningUp
  }

  /** What a call reports: its own error, or else that the execution's context had ended. */
  function ErrorIn(env: Environment, call: Call): Option<Diagnostic> {
    match call
    case ReadOptions => env.optionsError
    case Deploying =>
      if env.deployError.Some? then Some(env.deployError.value.diagnostic) else env.contextErrors.0
    case Observing => if env.observeError.Some? then env.observeError else env.contextErrors.1
    case CleaningUp => if env.cleanupError.Some? then env.cleanupError else env.contextErrors.2
  }

  predicate FailsFirst(env: Environment, call: Call) {
    ErrorIn(env, call).Some? && forall earlier :: Precedes(earlier, call) ==> ErrorIn(env, earlier).None?
  }

  predicate NothingFails(env: Environment) {
    forall call :: ErrorIn(env, call).None?
  }

  predicate ConvergenceConfirmed(env: Environment) {
    env.deployError.Some? && env.deployError.value.convergence && env.deployError.value.confirmedConvergence
  }

  predicate ConvergenceUnconfirmed(env: Environment) {
    env.deployError.Some? && env.deployError.value.convergence && !env.deployError.value.confirmedConvergence
  }

  predicate InitJobsFailed(env: Environment) {
    env.deployError.Some? && !env.deployError.value.convergence && env.deployError.value.initJobs
  }

  /** The failure may be gone when the same is tried again. */
  predicate MayPass(d: Diagnostic) {
    d.deadlineExceeded || d.updateDeferred || d.temporary
  }

  /** The calls in order: each fails first if it fails and none before it did. */
  lemma CallsInOrder(env: Environment)
    ensures FailsFirst(env, ReadOptions) <==> ErrorIn(env, ReadOptions).Some?
    ensures FailsFirst(env, Deploying) <==> ErrorIn(env, ReadOptions).None? && ErrorIn(env, Deploying).Some?
    ensures FailsFirst(env, Observing) <==>
      ErrorIn(env, ReadOptions).None? && ErrorIn(env, Deploying).None? && ErrorIn(env, Observing).Some?
    ensures FailsFirst(env, CleaningUp) <==>
      && ErrorIn(env, ReadOptions).None? && ErrorIn(env, Deploying).None? && ErrorIn(env, Observing).None?
      && ErrorIn(env, CleaningUp).Some?
    ensures NothingFails(env) <==>
      && ErrorIn(env, ReadOptions).None? && ErrorIn(env, Deploying).None? && ErrorIn(env, Observing).None?
      && ErrorIn(env, CleaningUp).None?
  {
  }

  /** Exactly one call fails first, unless none fails. */
  lemma OneCallFailsFirst(env: Environment)
    ensures NothingFails(env) <==> forall call :: !FailsFirst(env, call)
    ensures forall a, b :: FailsFirst(env, a) && FailsFirst(env, b) ==> a == b
  {
    CallsInOrder(env);
  }

  /** The completion is decided by the call that failed first: its outcome, its diagnostic, whether an observation is
      claimed, and whose rollout report it carries. */
  lemma FirstFailureDecides(env: Environment)
    ensures var c := Select(env).0;
      && (c.outcome == OutcomeSucceeded <==> NothingFails(env))
      && (c.outcome == OutcomeCleanupFailed <==> FailsFirst(env, CleaningUp))
      && (c.outcome == OutcomeVerificationInterrupted <==>
            FailsFirst(env, Observing) || (FailsFirst(env, Deploying) && ConvergenceUnconfirmed(env)))
      && (c.outcome == OutcomeConvergenceFailed <==> FailsFirst(env, Deploying) && ConvergenceConfirmed(env))
      && (c.outcome == OutcomeInitJobFailed <==> FailsFirst(env, Deploying) && InitJobsFailed(env))
      && (c.outcome == OutcomeApplyFailed <==>
            || FailsFirst(env, ReadOptions)
            || (FailsFirst(env, Deploying) && !ConvergenceConfirmed(env) && !ConvergenceUnconfirmed(env)
                && !InitJobsFailed(env)))
      && c.observedAt == (if NothingFails(env) || FailsFirst(env, CleaningUp) then Some(env.observedAt) else None)
      && (forall call :: FailsFirst(env, call) ==>
            && c.diagnostic == ErrorIn(env, call)
            && c.verification == (if call == ReadOptions then UNKNOWN_ROLLOUT else env.rollout))
      && (NothingFails(env) ==> c.diagnostic == None)
      && (c.retryable <==> FailsFirst(env, ReadOptions))
  {
    CallsInOrder(env);
  }

  // ---------------------------------------------------------------- the persisted columns

  /** The columns of an attempt that ended, told by what its execution met. */
  predicate PersistedAs(env: Environment, p: Progress, now: int) {
    && (NothingFails(env) ==>
          p == Progress(Succeeded, NoError, false, PhaseCompleted, StageSucceeded, StageSkipped, StageSucceeded,
                        ActualObserved, Some(env.observedAt), Some(now)))
    && (FailsFirst(env, CleaningUp) ==>
          p == Progress(Failed, CodePruneFailed, MayPass(ErrorIn(env, CleaningUp).value), PhaseCleanup,
                        StageSucceeded, StageSkipped, StageFailed, ActualObserved, Some(env.observedAt), Some(now)))
    && (FailsFirst(env, Observing) || (FailsFirst(env, Deploying) && ConvergenceUnconfirmed(env)) ==>
          p == Progress(Interrupted, CodeVerificationUnknown, true, PhaseVerification,
                        StageSucceeded, StageUnknown, StageSkipped, ActualUnknown, None, Some(now)))
    && (FailsFirst(env, Deploying) && ConvergenceConfirmed(env) ==>
          p == Progress(Failed, CodeConvergenceFailed, false, PhaseVerification,
                        StageSucceeded, StageFailed, StageSkipped, ActualUnknown, None, Some(now)))
    && (FailsFirst(env, Deploying) && InitJobsFailed(env) ==>
          p == Progress(Failed, CodeInitFailed, MayPass(ErrorIn(env, Deploying).value), PhaseApply,
                        StageFailed, StageSkipped, StageSkipped, ActualUnknown, None, Some(now)))
    && (FailsFirst(env, Deploying) && !ConvergenceConfirmed(env) && !ConvergenceUnconfirmed(env) && !InitJobsFailed(env)
        ==> p == Progress(Failed, CodeApplyFailed, MayPass(ErrorIn(env, Deploying).value), PhaseApply,
                          StageFailed, StageSkipped, StageSkipped, ActualUnknown, None, Some(now)))
    && (FailsFirst(env, ReadOptions) ==>
          p == Progress(Failed, CodeApplyFailed, true, PhaseApply,
                        StageFailed, StageSkipped, StageSkipped, ActualUnknown, None, Some(now)))
  }

  /** The services the deployer leaves unproven, as far as the execution can tell. */
  function Unproven(env: Environment, desired: Desired): seq<string> {
    if FailsFirst(env, ReadOptions) then desired.services
    else if env.rollout.known then env.rollout.unresolved
    else if FailsFirst(env, Deploying) && InitJobsFailed(env) then []
    else desired.services
  }

  /** The obligations of the deployment afterwards: none after success, otherwise what the deployer left unproven; only
      after a failure to apply also others, those it owed before. */
  predicate OwesAfter(env: Environment, d: Deployment) {
    && (forall n :: n in d.verification.unresolved ==>
          !NothingFails(env) && (n in Unproven(env, d.desired) || d.progress.phase == PhaseApply))
    && (!NothingFails(env) ==> forall n :: n in Unproven(env, d.desired) ==> n in d.verification.unresolved)
  }

  /** The one completion event of an attempt, by status. */
  function PublishedAs(id: AttemptId, p: Progress): Event {
    var stage := if p.errorCode == CodeProcessInterrupted then None else Some(p.phase);
    if p.status == Succeeded then DeploySuccess(id)
    else if p.status == Failed then DeployFailed(id, p.errorCode, stage)
    else DeployInterrupted(id, p.errorCode, stage)
  }

  lemma SelectedState(env: Environment, now: int)
    ensures State(Select(env).0).Ok?
    ensures PersistedAs(env, State(Select(env).0).value.progress.(finishedAt := Some(now)), now)
  {
    CallsInOrder(env);
  }

  lemma SelectedReport(env: Environment, desired: Desired)
    ensures var st := State(Select(env).0).value;
      && (st.progress.status == Succeeded <==> NothingFails(env))
      && (!NothingFails(env) ==>
            (if st.rollout.known then st.rollout.unresolved else desired.services) == Unproven(env, desired))
  {
    CallsInOrder(env);
  }

  lemma EndedOwes(d: Deployment, env: Environment, now: int)
    requires d.attempts != []
    ensures OwesAfter(env, Ended(d, State(Select(env).0).value, now))
  {
    SelectedReport(env, d.desired);
  }

  /** What the caller is told of an attempt it started, and what the tables and the waiting completions hold then. */
  ghost predicate Records(env: Environment, stack: string, db: Db, pending: PendingMap, result: ExecuteResult) {
    result.attempt.Some? ==>
      var id := result.attempt.value;
      && Exists(db.rows, id) && db.rows[id.deployment].stack == stack
      && id.index == |db.rows[id.deployment].attempts| - 1
      && result.status.Some?
      && (exists p :: PersistedAs(env, p, env.finishNow) && result.status.value == p.status
                      && result.errorCode == p.errorCode)
      && (result.failed <==> !NothingFails(env) || env.finishCommit != Committed)
      && (RunningAt(db.rows, id) <==> env.finishCommit == RolledBack)
      && (RunningAt(db.rows, id) ==>
            && stack in pending && pending[stack].id == id && State(pending[stack].completion).Ok?
            && PersistedAs(env, State(pending[stack].completion).value.progress.(finishedAt := Some(env.finishNow)),
                           env.finishNow))
      && (!RunningAt(db.rows, id) ==>
            && PersistedAs(env, AttemptAt(db.rows, id).progress, env.finishNow)
            && db.rows[id.deployment].progress == AttemptAt(db.rows, id).progress
            && EventsOf(db.outbox, id) == [PublishedAs(id, AttemptAt(db.rows, id).progress)]
            && OwesAfter(env, db.rows[id.deployment]))
  }

  lemma FinishRecords(s: Sys, stack: string, env: Environment)
    requires Inv(s) && CanFinish(s.mem, stack)
    ensures var id := s.mem.inflight[stack].id; var (c, status) := Select(env);
      var (db, pending, r) := Finish(s.db, s.mem.pending, stack, id, c, env.finishNow, env.finishCommit);
      Records(env, stack, db, pending,
              ExecuteResult(Some(id), Some(status), ErrorCodeOf(c.outcome), false, [], status != Succeeded || r.Err?))
  {
    var id := s.mem.inflight[stack].id;
    var (c, status) := Select(env);
    var (db, pending, r) := Finish(s.db, s.mem.pending, stack, id, c, env.finishNow, env.finishCommit);
    var d := s.db.rows[id.deployment];
    assert RunningAt(s.db.rows, id) && RowOk(d);
    RunningAttemptIsNewest(s.db.rows, id);
    SelectedState(env, env.finishNow);
    CompletedRows(s.db, id, c, env.finishNow, env.finishCommit);
    CompletionEffect(s.db, id, c, env.finishNow, env.finishCommit);
    FirstFailureDecides(env);
    if env.finishCommit != RolledBack {
      EndedRecords(s.db, db, id, env);
    }
  }

  lemma {:induction false} EndedRecords(before: Db, db: Db, id: AttemptId, env: Environment)
    requires Lifecycle(db) && RunningAt(before.rows, id) && RowOk(before.rows[id.deployment])
    requires id.index == |before.rows[id.deployment].attempts| - 1
    requires db.rows == before.rows[id.deployment :=
                          Ended(before.rows[id.deployment], State(Select(env).0).value, env.finishNow)]
    ensures Exists(db.rows, id) && !RunningAt(db.rows, id)
    ensures PersistedAs(env, AttemptAt(db.rows, id).progress, env.finishNow)
    ensures db.rows[id.deployment].progress == AttemptAt(db.rows, id).progress
    ensures EventsOf(db.outbox, id) == [PublishedAs(id, AttemptAt(db.rows, id).progress)]
    ensures OwesAfter(env, db.rows[id.deployment])
  {
    SelectedState(env, env.finishNow);
    EndedOwes(before.rows[id.deployment], env, env.finishNow);
    assert EventsOf(db.outbox, id) == ExpectedEvents(db.rows, id);
  }

  lemma StartedRecords(s: Sys, req: Request, env: Environment)
    requires Inv(s) && CanFinish(s.mem, req.stack) && LegalCalls(env.callbacks)
    ensures var (db, pending, result) := ExecuteStarted(s.db, s.mem.pending, s.mem.inflight[req.stack].id, req, env);
      Records(env, req.stack, db, pending, result)
  {
    var id := s.mem.inflight[req.stack].id;
    var calls := if env.optionsError.Some? then [] else CallSteps(id, |s.mem.receipts|, env.callbacks);
    CallsAreUndisturbed(id, |s.mem.receipts|, env.callbacks);
    if env.optionsError.None? { CallbacksAreSteps(s, id, env.callbacks); }
    RunKeepsInv(s, calls);
    FinishRecords(Run(s, calls), req.stack, env);
  }

  lemma ReadyRecords(s: Sys, req: Request, env: Environment)
    requires Inv(s) && CanStart(s.mem, req.stack) && LegalCalls(env.callbacks)
    ensures var (db, pending, result) := ExecuteReady(s.db, s.mem.pending, req, env);
      Records(env, req.stack, db, pending, result)
  {
    var start := StartStep(req, env.startNow, env.startCommit);
    StartMatches(s, req, env.startNow, env.startCommit);
    if CanFinish(Next(s, start).mem, req.stack) {
      NextKeepsInv(s, start);
      StartedRecords(Next(s, start), req, env);
    }
  }

  /** From every reachable state: the attempt an execution started ends with the columns, the event and the obligations
      that its first failing call demands, or, if its commit rolled back, waits with a completion that demands them. */
  lemma ExecuteRecordsFirstFailure(s: Sys, req: Request, env: Environment)
    requires Inv(s) && CanRecover(s.mem, req.stack) && LegalCalls(env.callbacks)
    ensures var (db, pending, result) := ExecuteSteps(s.db, s.mem.pending, req, env);
      Records(env, req.stack, db, pending, result)
  {
    var recover := RecoverStep(req.stack, env.recoverNow, env.recoverCommit, env.inspectFails);
    var recovered := Next(s, recover);
    NextKeepsInv(s, recover);
    RecoverMatches(s, req, env);
    if CanStart(recovered.mem, req.stack) { ReadyRecords(recovered, req, env); }
  }

  // ---------------------------------------------------------------- interruption and rejection

  /** What may be retried: an interruption always, and a failure to apply, to initialize or to clean up whose diagnostic
      may pass, or of which the controller says so; a success, a rejection or a confirmed divergence never. */
  lemma RetryableIff(c: Completion)
    requires State(c).Ok?
    ensures State(c).value.progress.retryable <==>
      || c.outcome in {OutcomeVerificationInterrupted, OutcomeProcessInterrupted}
      || (c.outcome == OutcomeApplyFailed && c.retryable)
      || (c.outcome in {OutcomeApplyFailed, OutcomeInitJobFailed, OutcomeCleanupFailed} && c.diagnostic.Some?
          && MayPass(c.diagnostic.value))
  {
  }

  /** Recovery gives an attempt that is marked running below an ended deployment the deployment's own outcome, without
      an event of its own. */
  lemma StaleAttemptIsSynchronized(db: Db, id: AttemptId, now: int)
    requires Exists(db.rows, id) && AttemptAt(db.rows, id).progress.status == Running
    requires db.rows[id.deployment].progress.status != Running
    ensures InterruptOne(db, id, now).Ok?
    ensures var (after, _) := InterruptOne(db, id, now).value; var d := db.rows[id.deployment];
      && after.outbox == db.outbox && after.baselines == db.baselines
      && |after.rows| == |db.rows|
      && (forall i :: 0 <= i < |db.rows| && i != id.deployment ==> after.rows[i] == db.rows[i])
      && after.rows[id.deployment] ==
           d.(attempts := d.attempts[id.index := d.attempts[id.index].(progress := d.progress)])
  {
  }

  lemma InterruptedColumns(d: Deployment, now: int)
    requires d.attempts != [] && d.progress.status == Running
    ensures var after := InterruptedRow(d, now);
      && |after.attempts| == |d.attempts|
      && after.progress ==
           Progress(Interrupted, CodeProcessInterrupted, true, PhaseApply, StageUnknown, StageSkipped, StageSkipped,
                    ActualUnknown, None, Some(now))
      && after.attempts[|d.attempts| - 1].progress == after.progress
      && (forall n :: n in after.verification.unresolved <==>
            n in d.desired.services || n in d.verification.unresolved)
  {
  }

  /** Recovery interrupts a running attempt of unknown fate: it may be retried, and it owes every desired service. */
  lemma {:induction false} RecoveryRecordsInterruption(db: Db, id: AttemptId, now: int)
    requires Lifecycle(db) && RunningAt(db.rows, id)
    ensures InterruptTx(db, now).Ok?
    ensures var after := InterruptTx(db, now).value.0; var d := db.rows[id.deployment];
      && Exists(after.rows, id)
      && AttemptAt(after.rows, id).progress ==
           Progress(Interrupted, CodeProcessInterrupted, true, PhaseApply, StageUnknown, StageSkipped, StageSkipped,
                    ActualUnknown, None, Some(now))
      && after.rows[id.deployment].progress == AttemptAt(after.rows, id).progress
      && EventsOf(after.outbox, id) == [DeployInterrupted(id, CodeProcessInterrupted, None)]
      && (forall n :: n in after.rows[id.deployment].verification.unresolved <==>
            n in d.desired.services || n in d.verification.unresolved)
  {
    RecoveryLeavesNothingRunning(db, now);
    RunningAttemptIsNewest(db.rows, id);
    var after := InterruptTx(db, now).value.0;
    assert after.rows[id.deployment] == InterruptedRow(db.rows[id.deployment], now);
    InterruptedColumns(db.rows[id.deployment], now);
    assert EventsOf(after.outbox, id) == ExpectedEvents(after.rows, id);
  }

  /** A policy rejection is a failure of apply that no retry can mend, and it leaves only the inherited obligations. */
  lemma PolicyRejectionIsFinal(c: Completion, v: Verification, desired: Desired)
    requires c.outcome == OutcomePolicyRejected && c.observedAt == None
    ensures State(c).Ok?
    ensures var st := State(c).value;
      && st.progress == Progress(Failed, CodePolicyRejected, false, PhaseApply, StageFailed, StageSkipped, StageSkipped,
                                 ActualUnknown, None, None)
      && (!c.verification.known ==>
            forall n :: n in ObligationsAfter(v, desired, st).unresolved <==> n in v.unresolved)
  {
  }
}
