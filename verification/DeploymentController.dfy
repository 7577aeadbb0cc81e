/** Synchronous execution of one stack: recovery of a pending completion, start, deployment, completion. */
module DeploymentController {
  import opened Wrappers
  import opened DeploymentModel
  import opened DeploymentStore
  import opened DeploymentService

  /** A completion whose persistence was not confirmed. */
  datatype Pending = Pending(id: AttemptId, completion: Completion)

  type PendingMap = map<string, Pending>

  datatype Request = Request(stack: string, desired: Desired, sourceChanged: bool, manualRetry: bool)

  /** Record and undo callbacks the deployer issues while it applies services. */
  datatype Callback =
    | RecordCallback(name: string, generation: Generation, commit: Commit)
    | UndoCallback(receipt: nat, commit: Commit)

  /** Everything one execution takes from outside: clocks, commits, and the results of external calls.
      An error of the execution context counts only where the call before it succeeded. */
  datatype Environment = Environment(
    recoverNow: int, recoverCommit: Commit, inspectFails: bool,
    startNow: int, startCommit: Commit,
    optionsError: Option<Diagnostic>,
    callbacks: seq<Callback>, rollout: Verification, deployError: Option<DeployError>,
    observeError: Option<Diagnostic>, observedAt: int,
    cleanupError: Option<Diagnostic>,
    contextErrors: (Option<Diagnostic>, Option<Diagnostic>, Option<Diagnostic>),
    finishNow: int, finishCommit: Commit)

  datatype ExecuteResult = ExecuteResult(
    attempt: Option<AttemptId>, status: Option<Status>, errorCode: ErrorCode,
    retryDeferred: bool, unresolved: seq<string>, failed: bool)

  const NOTHING := ExecuteResult(None, None, NoError, false, [], false)

  // ---------------------------------------------------------------- the steps

  /** A completion that was not confirmed is kept; a confirmed one clears the stack's entry. */
  function Conclude(pending: PendingMap, stack: string, id: AttemptId, c: Completion, r: Result<(), Error>)
    : PendingMap
  {
    if r.Err? then pending[stack := Pending(id, c)] else pending - {stack}
  }

  function Finish(db: Db, pending: PendingMap, stack: string, id: AttemptId, c: Completion, now: int, commit: Commit)
    : (Db, PendingMap, Result<(), Error>)
  {
    var (after, r) := CompleteTransaction(db, id, c, now, commit);
    (after, Conclude(pending, stack, id, c, r), r)
  }

  /** What the result of the repeated completion, on the tables it left, means for the waiting entry. */
  function Settle(rows: seq<Deployment>, stack: string, p: Pending, r: Result<(), Error>, inspectFails: bool)
    : Result<(), Error>
  {
    if r.Ok? || r.error != NotRunning then r
    else if inspectFails then Err(StorageFailure)
    else if !Exists(rows, p.id) then Err(NotFound)
    else if rows[p.id.deployment].stack != stack then Err(StackMismatch)
    else if AttemptAt(rows, p.id).progress.status == Running then Err(StillRunning)
    else Ok(())
  }

  /** A pending completion is dropped once it is persisted or its attempt has provably ended. */
  function Recover(db: Db, pending: PendingMap, stack: string, now: int, commit: Commit, inspectFails: bool)
    : (Db, PendingMap, Result<(), Error>)
  {
    if stack !in pending then (db, pending, Ok(()))
    else
      var p := pending[stack];
      var (after, r) := CompleteTransaction(db, p.id, p.completion, now, commit);
      var settled := Settle(after.rows, stack, p, r, inspectFails);
      (after, if settled.Ok? then pending - {stack} else pending, settled)
  }

  function ContextError(own: Option<Diagnostic>, context: Option<Diagnostic>): Option<Diagnostic> {
    if own.Some? then own else context
  }

  function DeployFailure(env: Environment): Option<DeployError> {
    if env.deployError.Some? then env.deployError
    else if env.contextErrors.0.Some? then Some(DeployError(false, false, false, env.contextErrors.0.value))
    else None
  }

  /** The completion an execution selects, with the status it shows its caller. No path selects a completion
      that the completion table rejects, and the shown status and code are the ones the table persists. */
  function Select(env: Environment): (r: (Completion, Status))
    ensures State(r.0).Ok?
    ensures r.1 == State(r.0).value.progress.status
    ensures ErrorCodeOf(r.0.outcome) == State(r.0).value.progress.errorCode
    ensures r.1 == Succeeded <==>
      && env.optionsError.None? && env.deployError.None? && env.observeError.None? && env.cleanupError.None?
      && env.contextErrors == (None, None, None)
  {
    var observeFailure := ContextError(env.observeError, env.contextErrors.1);
    var cleanupFailure := ContextError(env.cleanupError, env.contextErrors.2);
    if env.optionsError.Some? then
      (Completion(OutcomeApplyFailed, UNKNOWN_ROLLOUT, env.optionsError, true, None), Failed)
    else if DeployFailure(env).Some? then
      var c := ClassifyExecutionFailure(DeployFailure(env).value).(verification := env.rollout);
      (c, CompletionStatus(c))
    else if observeFailure.Some? then
      (Completion(OutcomeVerificationInterrupted, env.rollout, observeFailure, false, None), Interrupted)
    else if cleanupFailure.Some? then
      (Completion(OutcomeCleanupFailed, env.rollout, cleanupFailure, false, Some(env.observedAt)), Failed)
    else
      (Completion(OutcomeSucceeded, UNKNOWN_ROLLOUT, None, false, Some(env.observedAt)), Succeeded)
  }

  /** What one callback does to the tables and to the receipts handed out so far. */
  function Called(db: Db, receipts: seq<Receipt>, id: AttemptId, call: Callback): (Db, seq<Receipt>) {
    match call
    case RecordCallback(name, g, commit) =>
      var (after, r) := Persist(db, RecordTx(db, id, name, g), commit);
      (after, if r.Ok? then receipts + [r.value] else receipts)
    case UndoCallback(k, commit) =>
      if k < |receipts| then (Persist(db, UndoTx(db, receipts[k]), commit).0, receipts) else (db, receipts)
  }

  /** The record and undo transactions of one deployment, with the receipts they hand out. */
  function Callbacks(db: Db, id: AttemptId, calls: seq<Callback>): (Db, seq<Receipt>) {
    if calls == [] then (db, [])
    else
      var (work, receipts) := Callbacks(db, id, calls[..|calls| - 1]);
      Called(work, receipts, id, calls[|calls| - 1])
  }

  /** Services that independent self-healing must not retry while a deployment retry is deferred. */
  function Deferred(latest: Deployment, desired: Desired): seq<string> {
    if latest.progress.phase == PhaseApply then desired.services else Inherited(latest, desired)
  }

  function Unchanged(db: Db, req: Request): ExecuteResult {
    var i := LatestRow(db.rows, req.stack);
    if i < 0 then NOTHING
    else
      var latest := db.rows[i];
      var deferred := latest.progress.status == Failed || latest.progress.status == Interrupted;
      ExecuteResult(None, Some(latest.progress.status), latest.progress.errorCode, deferred,
        if deferred then Deferred(latest, req.desired) else [], false)
  }

  /** From a started attempt to its completion. */
  function ExecuteStarted(db: Db, pending: PendingMap, id: AttemptId, req: Request, env: Environment)
    : (Db, PendingMap, ExecuteResult)
  {
    var deployed := if env.optionsError.Some? then db else Callbacks(db, id, env.callbacks).0;
    var (c, status) := Select(env);
    var (finished, held, done) := Finish(deployed, pending, req.stack, id, c, env.finishNow, env.finishCommit);
    (finished, held,
     ExecuteResult(Some(id), Some(status), ErrorCodeOf(c.outcome), false, [], status != Succeeded || done.Err?))
  }

  /** From tables with nothing pending for the stack. */
  function ExecuteReady(db: Db, pending: PendingMap, req: Request, env: Environment): (Db, PendingMap, ExecuteResult) {
    var (started, r) := Persist(db,
      StartTx(db, req.stack, req.desired, req.sourceChanged, req.manualRetry, env.startNow), env.startCommit);
    if r.Err? then (started, pending, NOTHING.(failed := true))
    else if r.value == None then (started, pending, Unchanged(started, req))
    else ExecuteStarted(started, pending, r.value.value, req, env)
  }

  function ExecuteSteps(db: Db, pending: PendingMap, req: Request, env: Environment): (Db, PendingMap, ExecuteResult) {
    var (recovered, waiting, ready) :=
      Recover(db, pending, req.stack, env.recoverNow, env.recoverCommit, env.inspectFails);
    if ready.Err? then (recovered, waiting, NOTHING.(failed := true))
    else ExecuteReady(recovered, waiting, req, env)
  }

  // ---------------------------------------------------------------- the controller

  class Controller {
    const lifecycle: Service
    var pending: PendingMap

    constructor (lifecycle: Service)
      ensures this.lifecycle == lifecycle && pending == map[]
    {
      this.lifecycle := lifecycle;
      pending := map[];
    }

    method Complete(stack: string, id: AttemptId, c: Completion, now: int, commit: Commit)
      returns (r: Result<(), Error>)
      modifies this, lifecycle
      ensures (lifecycle.db, pending, r) == Finish(old(lifecycle.db), old(pending), stack, id, c, now, commit)
    {
      r := lifecycle.Complete(id, c, now, commit);
      if r.Err? {
        pending := pending[stack := Pending(id, c)];
      } else {
        pending := pending - {stack};
      }
    }

    method RecoverPending(stack: string, now: int, commit: Commit, inspectFails: bool) returns (r: Result<(), Error>)
      modifies this, lifecycle
      ensures (lifecycle.db, pending, r) == Recover(old(lifecycle.db), old(pending), stack, now, commit, inspectFails)
    {
      if stack !in pending {
        return Ok(());
      }
      var p := pending[stack];
      r := lifecycle.Complete(p.id, p.completion, now, commit);
      if r.Ok? {
        pending := pending - {stack};
        return;
      }
      if r.error != NotRunning {
        return;
      }
      if inspectFails {
        return Err(StorageFailure);
      }
      var rows := lifecycle.db.rows;
      if !Exists(rows, p.id) {
        return Err(NotFound);
      }
      if rows[p.id.deployment].stack != stack {
        return Err(StackMismatch);
      }
      if AttemptAt(rows, p.id).progress.status == Running {
        return Err(StillRunning);
      }
      pending := pending - {stack};
      r := Ok(());
    }

    /** The deployer's side of the update-generation protocol. */
    method RunCallbacks(id: AttemptId, calls: seq<Callback>)
      modifies lifecycle
      ensures lifecycle.db == Callbacks(old(lifecycle.db), id, calls).0
    {
      var receipts: seq<Receipt> := [];
      for i := 0 to |calls|
        invariant (lifecycle.db, receipts) == Callbacks(old(lifecycle.db), id, calls[..i])
      {
        assert calls[..i + 1][..i] == calls[..i];
        match calls[i] {
          case RecordCallback(name, g, commit) =>
            var r := lifecycle.RecordUpdateGeneration(id, name, g, commit);
            if r.Ok? { receipts := receipts + [r.value]; }
          case UndoCallback(k, commit) =>
            if k < |receipts| { var _ := lifecycle.UndoUpdateGeneration(receipts[k], commit); }
        }
      }
      assert calls[..|calls|] == calls;
    }

    method Deploy(id: AttemptId, env: Environment) returns (c: Completion, status: Status)
      modifies lifecycle
      ensures (c, status) == Select(env)
      ensures lifecycle.db == if env.optionsError.Some? then old(lifecycle.db)
                              else Callbacks(old(lifecycle.db), id, env.callbacks).0
    {
      if env.optionsError.Some? {
        return Completion(OutcomeApplyFailed, UNKNOWN_ROLLOUT, env.optionsError, true, None), Failed;
      }
      RunCallbacks(id, env.callbacks);
      var deployFailure := DeployFailure(env);
      if deployFailure.Some? {
        c := ClassifyExecutionFailure(deployFailure.value);
        c := c.(verification := env.rollout);
        return c, CompletionStatus(c);
      }
      var observeFailure := ContextError(env.observeError, env.contextErrors.1);
      if observeFailure.Some? {
        return Completion(OutcomeVerificationInterrupted, env.rollout, observeFailure, false, None), Interrupted;
      }
      var cleanupFailure := ContextError(env.cleanupError, env.contextErrors.2);
      if cleanupFailure.Some? {
        return Completion(OutcomeCleanupFailed, env.rollout, cleanupFailure, false, Some(env.observedAt)), Failed;
      }
      c, status := Completion(OutcomeSucceeded, UNKNOWN_ROLLOUT, None, false, Some(env.observedAt)), Succeeded;
    }

    method Execute(req: Request, env: Environment) returns (result: ExecuteResult)
      modifies this, lifecycle
      ensures (lifecycle.db, pending, result) == ExecuteSteps(old(lifecycle.db), old(pending), req, env)
    {
      result := NOTHING;
      var ready := RecoverPending(req.stack, env.recoverNow, env.recoverCommit, env.inspectFails);
      if ready.Err? {
        return result.(failed := true);
      }
      var started := lifecycle.StartIfChanged(
        req.stack, req.desired, req.sourceChanged, req.manualRetry, env.startNow, env.startCommit);
      if started.Err? {
        return result.(failed := true);
      }
      if started.value == None {
        return Unchanged(lifecycle.db, req);
      }
      var id := started.value.value;
      var c, status := Deploy(id, env);
      result := result.(attempt := Some(id), status := Some(status), errorCode := ErrorCodeOf(c.outcome));
      var done := Complete(req.stack, id, c, env.finishNow, env.finishCommit);
      result := result.(failed := status != Succeeded || done.Err?);
    }
  }
}
