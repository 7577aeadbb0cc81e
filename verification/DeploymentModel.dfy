/** Deployments, attempts, verification obligations and the table of terminal outcomes. */
module DeploymentModel {
  import opened Wrappers

  datatype Status = Running | Succeeded | Failed | Interrupted

  datatype Phase = PhaseApply | PhaseVerification | PhaseCleanup | PhaseCompleted

  datatype Stage = StagePending | StageRunning | StageSucceeded | StageFailed | StageUnknown | StageSkipped

  datatype ActualState = ActualUnknown | ActualObserved

  /** Stable public failure categories; NoError stands for the empty string. */
  datatype ErrorCode =
    | NoError
    | CodeApplyFailed
    | CodePolicyRejected
    | CodeInitFailed
    | CodeConvergenceFailed
    | CodeVerificationUnknown
    | CodePruneFailed
    | CodeProcessInterrupted

  /** The pre-update boundary of one service write. Times are instants in nanoseconds. */
  datatype Generation = Generation(
    serviceId: string, forceUpdate: nat, after: int, mode: nat, beforeSpecDigest: string, tasksAfter: int)

  /** The value a lookup yields for a service without a recorded generation. */
  const NO_GENERATION := Generation("", 0, 0, 0, "", 0)

  datatype Verification = Verification(known: bool, unresolved: seq<string>, generations: map<string, Generation>)

  /** The effective desired state: its identity digest and its service names in file order. */
  datatype Desired = Desired(digest: string, services: seq<string>)

  /** The outcome columns that attempts and deployments share. */
  datatype Progress = Progress(
    status: Status, errorCode: ErrorCode, retryable: bool, phase: Phase,
    apply: Stage, verification: Stage, cleanup: Stage,
    actual: ActualState, observedAt: Option<int>, finishedAt: Option<int>)

  datatype Attempt = Attempt(number: nat, startedAt: int, progress: Progress)

  /** One deployment row with its attempt rows in insertion order. */
  datatype Deployment = Deployment(
    stack: string, desired: Desired, verification: Verification, progress: Progress, attempts: seq<Attempt>)

  /** Rows are named by position: the deployment's row and the attempt's place in it. */
  datatype AttemptId = AttemptId(deployment: nat, index: nat)

  const RUNNING := Progress(
    Running, NoError, false, PhaseApply, StageRunning, StagePending, StagePending, ActualUnknown, None, None)

  // ---------------------------------------------------------------- completions

  datatype Outcome =
    | OutcomeSucceeded
    | OutcomeApplyFailed
    | OutcomePolicyRejected
    | OutcomeInitJobFailed
    | OutcomeConvergenceFailed
    | OutcomeVerificationInterrupted
    | OutcomeCleanupFailed
    | OutcomeProcessInterrupted

  /** What the retry classification can see of a diagnostic error. */
  datatype Diagnostic = Diagnostic(deadlineExceeded: bool, updateDeferred: bool, temporary: bool)

  datatype Completion = Completion(
    outcome: Outcome, verification: Verification, diagnostic: Option<Diagnostic>,
    retryable: bool, observedAt: Option<int>)

  const UNKNOWN_ROLLOUT := Verification(false, [], map[])

  const PROCESS_INTERRUPTED := Completion(OutcomeProcessInterrupted, UNKNOWN_ROLLOUT, None, false, None)

  datatype CompletionState = CompletionState(
    rollout: Verification, progress: Progress, eventStage: Option<Phase>)

  datatype Error =
    | NotFound
    | NotRunning
    | InconsistentDeployment
    | InvalidCompletion
    | StackMismatch
    | StillRunning
    | StorageFailure

  function ErrorCodeOf(outcome: Outcome): ErrorCode {
    match outcome
    case OutcomeSucceeded => NoError
    case OutcomeApplyFailed => CodeApplyFailed
    case OutcomePolicyRejected => CodePolicyRejected
    case OutcomeInitJobFailed => CodeInitFailed
    case OutcomeConvergenceFailed => CodeConvergenceFailed
    case OutcomeVerificationInterrupted => CodeVerificationUnknown
    case OutcomeCleanupFailed => CodePruneFailed
    case OutcomeProcessInterrupted => CodeProcessInterrupted
  }

  /** A failed pre-apply check leaves only the inherited obligations. */
  function RolloutObligations(c: Completion): Verification {
    if !c.verification.known && (c.outcome == OutcomeInitJobFailed || c.outcome == OutcomePolicyRejected)
    then Verification(true, [], map[])
    else c.verification
  }

  function RetryEligible(c: Completion): bool {
    match c.outcome
    case OutcomeVerificationInterrupted | OutcomeProcessInterrupted => true
    case OutcomeApplyFailed | OutcomeInitJobFailed | OutcomeCleanupFailed =>
      || (c.outcome == OutcomeApplyFailed && c.retryable)
      || (c.diagnostic.Some? &&
          (c.diagnostic.value.deadlineExceeded || c.diagnostic.value.updateDeferred || c.diagnostic.value.temporary))
    case _ => false
  }

  /** The terminal columns a completion selects. It is rejected exactly for a diagnostic on success or a
      misplaced observation timestamp; every accepted one is coherent and carries its public error code. */
  function State(c: Completion): (r: Result<CompletionState, Error>)
    ensures r.Err? <==>
      || (c.outcome == OutcomeSucceeded && c.diagnostic.Some?)
      || (c.outcome == OutcomeCleanupFailed && c.observedAt.None?)
      || (c.outcome != OutcomeSucceeded && c.outcome != OutcomeCleanupFailed && c.observedAt.Some?)
    ensures r.Ok? ==>
      && Coherent(r.value.progress)
      && r.value.progress.errorCode == ErrorCodeOf(c.outcome)
      && r.value.progress.finishedAt == None
      && (r.value.progress.status == Succeeded <==> c.outcome == OutcomeSucceeded)
      && r.value.eventStage == EventStage(r.value.progress)
  {
    var code := ErrorCodeOf(c.outcome);
    var retry := RetryEligible(c);
    match c.outcome
    case OutcomeSucceeded =>
      if c.diagnostic.Some? then Err(InvalidCompletion)
      else Ok(CompletionState(
        RolloutObligations(c),
        Progress(Succeeded, code, retry, PhaseCompleted, StageSucceeded, StageSkipped, StageSucceeded,
          if c.observedAt.Some? then ActualObserved else ActualUnknown, c.observedAt, None),
        None))
    case OutcomeApplyFailed | OutcomePolicyRejected | OutcomeInitJobFailed =>
      if c.observedAt.Some? then Err(InvalidCompletion)
      else Ok(CompletionState(
        RolloutObligations(c),
        Progress(Failed, code, retry, PhaseApply, StageFailed, StageSkipped, StageSkipped, ActualUnknown, None, None),
        Some(PhaseApply)))
    case OutcomeConvergenceFailed | OutcomeVerificationInterrupted =>
      if c.observedAt.Some? then Err(InvalidCompletion)
      else
        var failed := c.outcome == OutcomeConvergenceFailed;
        Ok(CompletionState(
          RolloutObligations(c),
          Progress(if failed then Failed else Interrupted, code, retry, PhaseVerification, StageSucceeded,
            if failed then StageFailed else StageUnknown, StageSkipped, ActualUnknown, None, None),
          Some(PhaseVerification)))
    case OutcomeCleanupFailed =>
      if c.observedAt.None? then Err(InvalidCompletion)
      else Ok(CompletionState(
        RolloutObligations(c),
        Progress(Failed, code, retry, PhaseCleanup, StageSucceeded, StageSkipped, StageFailed,
          ActualObserved, c.observedAt, None),
        Some(PhaseCleanup)))
    case OutcomeProcessInterrupted =>
      if c.observedAt.Some? then Err(InvalidCompletion)
      else Ok(CompletionState(
        RolloutObligations(c),
        Progress(Interrupted, code, retry, PhaseApply, StageUnknown, StageSkipped, StageSkipped,
          ActualUnknown, None, None),
        None))
  }

  /** The columns an unfinished attempt receives when its process is gone. */
  const INTERRUPTION := CompletionState(
    UNKNOWN_ROLLOUT,
    Progress(Interrupted, CodeProcessInterrupted, true, PhaseApply, StageUnknown, StageSkipped, StageSkipped,
      ActualUnknown, None, None),
    None)

  /** Terminal columns that tell one consistent story. */
  predicate Coherent(p: Progress) {
    && p.status != Running
    && (p.actual == ActualObserved <==> p.observedAt.Some?)
    && (p.status == Succeeded <==> p.phase == PhaseCompleted)
    && (p.status == Succeeded <==> p.errorCode == NoError)
    && (p.phase == PhaseCleanup ==> p.observedAt.Some?)
    && (p.observedAt.Some? ==> p.apply == StageSucceeded)
    && (p.cleanup == StageSucceeded <==> p.status == Succeeded)
    && (p.retryable ==> p.status == Failed || p.status == Interrupted)
    && p.apply != StageRunning
  }

  /** The stage an event reports, read back from persisted columns. */
  function EventStage(p: Progress): Option<Phase> {
    if p.status == Succeeded || p.errorCode == CodeProcessInterrupted then None else Some(p.phase)
  }

  // ---------------------------------------------------------------- execution results

  /** What the deployer's error reveals to the failure classification. */
  datatype DeployError = DeployError(
    convergence: bool, confirmedConvergence: bool, initJobs: bool, diagnostic: Diagnostic)

  /** The classified failure is accepted by the completion table, and the status the controller shows its
      caller before persistence is the one the table persists. */
  function ClassifyExecutionFailure(e: DeployError): (c: Completion)
    ensures State(c).Ok?
    ensures State(c).value.progress.status == CompletionStatus(c)
    ensures ErrorCodeOf(c.outcome) != NoError
    ensures c.outcome == OutcomeConvergenceFailed <==> e.convergence && e.confirmedConvergence
    ensures c.outcome == OutcomeInitJobFailed <==> !e.convergence && e.initJobs
  {
    if e.convergence then
      if e.confirmedConvergence
      then Completion(OutcomeConvergenceFailed, UNKNOWN_ROLLOUT, Some(e.diagnostic), false, None)
      else Completion(OutcomeVerificationInterrupted, UNKNOWN_ROLLOUT, Some(e.diagnostic), false, None)
    else if e.initJobs then Completion(OutcomeInitJobFailed, UNKNOWN_ROLLOUT, Some(e.diagnostic), false, None)
    else Completion(OutcomeApplyFailed, UNKNOWN_ROLLOUT, Some(e.diagnostic), false, None)
  }

  function CompletionStatus(c: Completion): Status {
    if c.outcome == OutcomeVerificationInterrupted || c.outcome == OutcomeProcessInterrupted
    then Interrupted else Failed
  }

}
