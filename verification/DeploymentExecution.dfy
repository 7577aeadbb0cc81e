/** One execution as a run of steps, and what its caller is told. */
module DeploymentExecution {
  import opened Wrappers
  import opened DeploymentModel
  import opened DeploymentStore
  import opened DeploymentService
  import opened DeploymentLifecycle
  import opened DeploymentController
  import opened DeploymentRuns
  import opened DeploymentGuarantees

  lemma {:induction false} RunConcat(s: Sys, a: seq<Step>, b: seq<Step>)
    ensures Run(s, a + b) == Run(Run(s, a), b)
  {
    if b == [] {
      assert a + b == a;
    } else {
      RunConcat(s, a, b[..|b| - 1]);
      assert (a + b)[..|a + b| - 1] == a + b[..|b| - 1];
    }
  }

  function CallStep(id: AttemptId, base: nat, call: Callback): Step {
    match call
    case RecordCallback(name, g, commit) => RecordStep(id, name, g, commit)
    case UndoCallback(k, commit) => UndoStep(base + k, commit)
  }

  function CallSteps(id: AttemptId, base: nat, calls: seq<Callback>): seq<Step> {
    if calls == [] then []
    else CallSteps(id, base, calls[..|calls| - 1]) + [CallStep(id, base, calls[|calls| - 1])]
  }

  lemma CallIsStep(db: Db, mem: Memory, own: seq<Receipt>, id: AttemptId, call: Callback)
    requires mem.up
    ensures var (after, receipts) := Called(db, own, id, call);
      Next(Sys(db, mem.(receipts := mem.receipts + own)), CallStep(id, |mem.receipts|, call))
        == Sys(after, mem.(receipts := mem.receipts + receipts))
  {
    if call.RecordCallback? {
      var r := Persist(db, RecordTx(db, id, call.name, call.generation), call.commit).1;
      if r.Ok? { assert mem.receipts + own + [r.value] == mem.receipts + (own + [r.value]); }
    }
  }

  lemma {:induction false} CallbacksAreSteps(s: Sys, id: AttemptId, calls: seq<Callback>)
    requires s.mem.up
    ensures var t := Run(s, CallSteps(id, |s.mem.receipts|, calls));
      var (db, receipts) := Callbacks(s.db, id, calls);
      t == Sys(db, s.mem.(receipts := s.mem.receipts + receipts))
  {
    if calls == [] {
      assert s.mem.receipts + [] == s.mem.receipts;
    } else {
      var earlier := calls[..|calls| - 1];
      var last := calls[|calls| - 1];
      CallbacksAreSteps(s, id, earlier);
      RunAppended(s, CallSteps(id, |s.mem.receipts|, earlier), CallStep(id, |s.mem.receipts|, last));
      var (work, receipts) := Callbacks(s.db, id, earlier);
      CallIsStep(work, s.mem, receipts, id, last);
    }
  }

  /** The steps after a start: the deployer's callbacks, unless it was never called, and the completion. */
  function ClosingSteps(s: Sys, req: Request, env: Environment): seq<Step> {
    if CanFinish(s.mem, req.stack) then
      (if env.optionsError.Some? then []
       else CallSteps(s.mem.inflight[req.stack].id, |s.mem.receipts|, env.callbacks)) +
      [FinishStep(req.stack, Select(env).0, env.finishNow, env.finishCommit)]
    else []
  }

  function ReadySteps(s: Sys, req: Request, env: Environment): seq<Step> {
    if CanStart(s.mem, req.stack) then
      var start := StartStep(req, env.startNow, env.startCommit);
      [start] + ClosingSteps(Next(s, start), req, env)
    else []
  }

  function ExecuteTrace(s: Sys, req: Request, env: Environment): seq<Step> {
    var recover := RecoverStep(req.stack, env.recoverNow, env.recoverCommit, env.inspectFails);
    [recover] + ReadySteps(Next(s, recover), req, env)
  }

  lemma {:induction false} RunFirst(s: Sys, step: Step, rest: seq<Step>)
    ensures Run(s, [step] + rest) == Run(Next(s, step), rest)
  {
    RunAppended(s, [], step);
    assert [] + [step] == [step];
    RunConcat(s, [step], rest);
  }

  lemma FinishMatches(s: Sys, stack: string, c: Completion, now: int, commit: Commit)
    requires CanFinish(s.mem, stack) && State(c).Ok?
    ensures var (db, pending, r) := Finish(s.db, s.mem.pending, stack, s.mem.inflight[stack].id, c, now, commit);
      var t := Next(s, FinishStep(stack, c, now, commit));
      t.db == db && t.mem.pending == pending && stack !in t.mem.inflight
  {
  }

  lemma {:induction false} ClosingIsRun(s: Sys, req: Request, env: Environment)
    requires CanFinish(s.mem, req.stack)
    ensures var (db, pending, result) := ExecuteStarted(s.db, s.mem.pending, s.mem.inflight[req.stack].id, req, env);
      var t := Run(s, ClosingSteps(s, req, env));
      t.db == db && t.mem.pending == pending && req.stack !in t.mem.inflight
  {
    var id := s.mem.inflight[req.stack].id;
    var calls := if env.optionsError.Some? then [] else CallSteps(id, |s.mem.receipts|, env.callbacks);
    if env.optionsError.None? { CallbacksAreSteps(s, id, env.callbacks); }
    var deployed := Run(s, calls);
    assert deployed.mem == s.mem.(receipts := deployed.mem.receipts) by {
      if env.optionsError.Some? { assert Run(s, []) == s; }
    }
    FinishMatches(deployed, req.stack, Select(env).0, env.finishNow, env.finishCommit);
    RunAppended(s, calls, FinishStep(req.stack, Select(env).0, env.finishNow, env.finishCommit));
  }

  lemma {:induction false} ReadyIsRun(s: Sys, req: Request, env: Environment)
    requires CanStart(s.mem, req.stack)
    ensures var (db, pending, result) := ExecuteReady(s.db, s.mem.pending, req, env);
      var t := Run(s, ReadySteps(s, req, env));
      t.db == db && t.mem.pending == pending && req.stack !in t.mem.inflight
  {
    var start := StartStep(req, env.startNow, env.startCommit);
    var started := Next(s, start);
    RunFirst(s, start, ClosingSteps(started, req, env));
    if CanFinish(started.mem, req.stack) { ClosingIsRun(started, req, env); }
  }

  /** The controller's Execute is exactly a run of the steps above, and leaves no execution under way. */
  lemma {:induction false} ExecuteIsRun(s: Sys, req: Request, env: Environment)
    requires CanRecover(s.mem, req.stack)
    ensures var (db, pending, result) := ExecuteSteps(s.db, s.mem.pending, req, env);
      var t := Run(s, ExecuteTrace(s, req, env));
      t.db == db && t.mem.pending == pending && req.stack !in t.mem.inflight
  {
    var recover := RecoverStep(req.stack, env.recoverNow, env.recoverCommit, env.inspectFails);
    var recovered := Next(s, recover);
    RunFirst(s, recover, ReadySteps(recovered, req, env));
    RecoverMatches(s, req, env);
    if CanStart(recovered.mem, req.stack) { ReadyIsRun(recovered, req, env); }
  }

  lemma RecoverMatches(s: Sys, req: Request, env: Environment)
    requires CanRecover(s.mem, req.stack)
    ensures var (db, pending, r) :=
        Recover(s.db, s.mem.pending, req.stack, env.recoverNow, env.recoverCommit, env.inspectFails);
      var t := Next(s, RecoverStep(req.stack, env.recoverNow, env.recoverCommit, env.inspectFails));
      && t.db == db && t.mem.pending == pending
      && (CanStart(t.mem, req.stack) <==> r.Ok?) && (r.Err? ==> req.stack !in t.mem.inflight)
  {
    if req.stack !in s.mem.pending { assert s.mem.pending - {req.stack} == s.mem.pending; }
  }

  // ---------------------------------------------------------------- what Execute leaves

  predicate LegalCalls(calls: seq<Callback>) {
    forall i :: 0 <= i < |calls| ==> calls[i].RecordCallback? ==> calls[i].generation.serviceId != ""
  }

  predicate Undisturbed(steps: seq<Step>) {
    forall i :: 0 <= i < |steps| ==> Legal(steps[i]) && !steps[i].CrashStep?
  }

  lemma {:induction false} CallsAreUndisturbed(id: AttemptId, base: nat, calls: seq<Callback>)
    requires LegalCalls(calls)
    ensures Undisturbed(CallSteps(id, base, calls))
  {
    if calls != [] {
      var last := calls[|calls| - 1];
      CallsAreUndisturbed(id, base, calls[..|calls| - 1]);
      assert Legal(CallStep(id, base, last)) && !CallStep(id, base, last).CrashStep?;
    }
  }

  lemma TraceIsUndisturbed(s: Sys, req: Request, env: Environment)
    requires LegalCalls(env.callbacks)
    ensures Undisturbed(ExecuteTrace(s, req, env))
  {
    var recovered := Next(s, RecoverStep(req.stack, env.recoverNow, env.recoverCommit, env.inspectFails));
    ReadyIsUndisturbed(recovered, req, env);
  }

  lemma ReadyIsUndisturbed(s: Sys, req: Request, env: Environment)
    requires LegalCalls(env.callbacks)
    ensures Undisturbed(ReadySteps(s, req, env))
  {
    var started := Next(s, StartStep(req, env.startNow, env.startCommit));
    if CanFinish(started.mem, req.stack) {
      CallsAreUndisturbed(started.mem.inflight[req.stack].id, |started.mem.receipts|, env.callbacks);
    }
  }

  lemma StaysUp(s: Sys, step: Step)
    requires s.mem.up && !step.CrashStep?
    ensures Next(s, step).mem.up
  {
  }

  lemma {:induction false} UndisturbedKeepsUp(s: Sys, steps: seq<Step>)
    requires s.mem.up && Undisturbed(steps)
    ensures Run(s, steps).mem.up
  {
    if steps != [] {
      UndisturbedKeepsUp(s, steps[..|steps| - 1]);
      StaysUp(Run(s, steps[..|steps| - 1]), steps[|steps| - 1]);
    }
  }

  /** When Execute returns from any reachable state, a running attempt of the stack waits in pending if and only if no
      start, of the past run or of this execution, made it under a commit that landed but was reported failed. */
  lemma {:induction false} ExecuteLeavesNothingUnaccounted(steps: seq<Step>, req: Request, env: Environment,
                                                           id: AttemptId)
    requires LegalRun(steps) && LegalCalls(env.callbacks) && CanRecover(Run(INITIAL, steps).mem, req.stack)
    ensures var s := Run(INITIAL, steps);
      var (db, pending, result) := ExecuteSteps(s.db, s.mem.pending, req, env);
      RunningAt(db.rows, id) && db.rows[id.deployment].stack == req.stack ==>
        ((req.stack in pending && pending[req.stack].id == id) <==>
          !StartedAmbiguously(steps + ExecuteTrace(s, req, env), id))
  {
    var s := Run(INITIAL, steps);
    var trace := ExecuteTrace(s, req, env);
    TraceIsUndisturbed(s, req, env);
    UndisturbedKeepsUp(s, trace);
    ExecuteIsRun(s, req, env);
    RunConcat(INITIAL, steps, trace);
    RunningAttemptWaitsIffNotStray(steps + trace, id);
  }

  /** What the completion of a started attempt leaves: either it still runs and its completion waits, or it has
      ended with the status and error code that the caller is shown. */
  lemma FinishedAsShown(s: Sys, stack: string, env: Environment)
    requires Inv(s) && CanFinish(s.mem, stack)
    ensures var id := s.mem.inflight[stack].id;
      var (c, status) := Select(env);
      var (db, pending, r) := Finish(s.db, s.mem.pending, stack, id, c, env.finishNow, env.finishCommit);
      && Exists(db.rows, id)
      && (RunningAt(db.rows, id) ==> r.Err? && stack in pending && pending[stack] == Pending(id, c))
      && (!RunningAt(db.rows, id) ==>
           && AttemptAt(db.rows, id).progress.status == status
           && AttemptAt(db.rows, id).progress.errorCode == ErrorCodeOf(c.outcome))
  {
    var id := s.mem.inflight[stack].id;
    var c := Select(env).0;
    CompletionEffect(s.db, id, c, env.finishNow, env.finishCommit);
  }

  /** What the caller is told about an attempt, measured against the tables and the waiting completions. */
  predicate ToldTruthfully(db: Db, pending: PendingMap, stack: string, c: Completion, result: ExecuteResult) {
    result.attempt.Some? ==>
      var id := result.attempt.value;
      && Exists(db.rows, id) && result.status.Some?
      && (RunningAt(db.rows, id) ==> stack in pending && pending[stack] == Pending(id, c))
      && (!RunningAt(db.rows, id) ==>
           && AttemptAt(db.rows, id).progress.status == result.status.value
           && AttemptAt(db.rows, id).progress.errorCode == result.errorCode)
  }

  lemma StartedTellsTheTruth(s: Sys, req: Request, env: Environment)
    requires Inv(s) && CanFinish(s.mem, req.stack) && LegalCalls(env.callbacks)
    ensures var (db, pending, result) := ExecuteStarted(s.db, s.mem.pending, s.mem.inflight[req.stack].id, req, env);
      ToldTruthfully(db, pending, req.stack, Select(env).0, result)
  {
    var id := s.mem.inflight[req.stack].id;
    var calls := if env.optionsError.Some? then [] else CallSteps(id, |s.mem.receipts|, env.callbacks);
    CallsAreUndisturbed(id, |s.mem.receipts|, env.callbacks);
    if env.optionsError.None? { CallbacksAreSteps(s, id, env.callbacks); }
    RunKeepsInv(s, calls);
    FinishedAsShown(Run(s, calls), req.stack, env);
  }

  lemma StartMatches(s: Sys, req: Request, now: int, commit: Commit)
    requires CanStart(s.mem, req.stack)
    ensures var (db, r) := Persist(s.db, TxOf(s.db, req, now), commit);
      var t := Next(s, StartStep(req, now, commit));
      && t.db == db && t.mem.pending == s.mem.pending
      && (CanFinish(t.mem, req.stack) <==> r.Ok? && r.value.Some?)
      && (CanFinish(t.mem, req.stack) ==> t.mem.inflight[req.stack].id == r.value.value)
  {
  }

  lemma ReadyTellsTheTruth(s: Sys, req: Request, env: Environment)
    requires Inv(s) && CanStart(s.mem, req.stack) && LegalCalls(env.callbacks)
    ensures var (db, pending, result) := ExecuteReady(s.db, s.mem.pending, req, env);
      ToldTruthfully(db, pending, req.stack, Select(env).0, result)
  {
    var start := StartStep(req, env.startNow, env.startCommit);
    StartMatches(s, req, env.startNow, env.startCommit);
    if CanFinish(Next(s, start).mem, req.stack) {
      NextKeepsInv(s, start);
      StartedTellsTheTruth(Next(s, start), req, env);
    }
  }

  /** The status and error code Execute returns for its attempt are the persisted ones once the attempt has ended,
      and until then its completion waits in pending. */
  lemma ExecuteTellsThePersistedOutcome(s: Sys, req: Request, env: Environment)
    requires Inv(s) && CanRecover(s.mem, req.stack) && LegalCalls(env.callbacks)
    ensures var (db, pending, result) := ExecuteSteps(s.db, s.mem.pending, req, env);
      ToldTruthfully(db, pending, req.stack, Select(env).0, result)
  {
    var recover := RecoverStep(req.stack, env.recoverNow, env.recoverCommit, env.inspectFails);
    var recovered := Next(s, recover);
    NextKeepsInv(s, recover);
    RecoverMatches(s, req, env);
    if CanStart(recovered.mem, req.stack) { ReadyTellsTheTruth(recovered, req, env); }
  }
}
