/** What callers may rely on in every reachable state of the deployment controller. */
module DeploymentGuarantees {
  import opened Wrappers
  import opened DeploymentModel
  import opened DeploymentStore
  import opened DeploymentService
  import opened DeploymentLifecycle
  import opened DeploymentController
  import opened DeploymentRuns

  lemma {:induction false} ReachableIsInv(steps: seq<Step>)
    requires LegalRun(steps)
    ensures Inv(Run(INITIAL, steps))
  {
    EmptyIsOk();
    RunKeepsInv(INITIAL, steps);
  }

  // ---------------------------------------------------------------- lifecycle

  /** A stack never has two running attempts. */
  lemma {:induction false} OneRunningAttemptPerStack(steps: seq<Step>, x: AttemptId, y: AttemptId)
    requires LegalRun(steps)
    ensures var rows := Run(INITIAL, steps).db.rows;
      RunningAt(rows, x) && RunningAt(rows, y) && rows[x.deployment].stack == rows[y.deployment].stack ==> x == y
  {
    ReachableIsInv(steps);
    var rows := Run(INITIAL, steps).db.rows;
    if RunningAt(rows, x) && RunningAt(rows, y) {
      RunningAttemptIsNewest(rows, x);
      RunningAttemptIsNewest(rows, y);
    }
  }

  /** Attempts are numbered from one, only the newest may run, the deployment mirrors it, and every ended attempt is
      coherent: observed exactly with a timestamp, succeeded exactly when completed without an error code. */
  lemma {:induction false} RowsAreCoherent(steps: seq<Step>, i: nat, k: nat)
    requires LegalRun(steps) && i < |Run(INITIAL, steps).db.rows| && k < |Run(INITIAL, steps).db.rows[i].attempts|
    ensures var d := Run(INITIAL, steps).db.rows[i]; var p := d.attempts[k].progress;
      && d.attempts[k].number == k + 1
      && (k + 1 < |d.attempts| ==> p.status == Failed || p.status == Interrupted)
      && (k + 1 == |d.attempts| ==> d.progress == p)
      && (p.status != Running ==> Coherent(p) && p.finishedAt.Some?)
  {
    ReachableIsInv(steps);
    assert RowOk(Run(INITIAL, steps).db.rows[i]);
  }

  /** Recovery that is reported done leaves no attempt and no deployment running. */
  lemma {:induction false} NothingRunsAfterRecovery(steps: seq<Step>, now: int, id: AttemptId)
    requires LegalRun(steps) && !Run(INITIAL, steps).mem.up
    ensures var s := Next(Run(INITIAL, steps), RestartStep(now, Committed));
      s.mem.up && !RunningAt(s.db.rows, id)
  {
    ReachableIsInv(steps);
    RecoveryLeavesNothingRunning(Run(INITIAL, steps).db, now);
    RestartLeaves(Run(INITIAL, steps), now, Committed);
  }

  // ---------------------------------------------------------------- exactly once

  /** The step is a start that makes attempt id, whose commit lands but is reported failed. */
  predicate StartsAmbiguously(s: Sys, step: Step, id: AttemptId) {
    && step.StartStep? && step.commit == CommittedUnreported && CanStart(s.mem, step.req.stack)
    && TxOf(s.db, step.req, step.now).Ok? && TxOf(s.db, step.req, step.now).value.1 == Some(id)
  }

  predicate AmbiguousAt(steps: seq<Step>, i: nat, id: AttemptId)
    requires i < |steps|
  {
    StartsAmbiguously(Run(INITIAL, steps[..i]), steps[i], id)
  }

  /** Some step of the run started attempt id ambiguously. */
  ghost predicate StartedAmbiguously(steps: seq<Step>, id: AttemptId) {
    exists i :: 0 <= i < |steps| && AmbiguousAt(steps, i, id)
  }

  lemma OnlyStartsMakeStrays(s: Sys, step: Step)
    requires !step.StartStep?
    ensures Next(s, step).mem.strays == s.mem.strays
  {
  }

  lemma StartMakesStray(s: Sys, step: Step, id: AttemptId)
    requires step.StartStep?
    ensures id in Next(s, step).mem.strays <==> id in s.mem.strays || StartsAmbiguously(s, step, id)
  {
  }

  lemma NewStray(s: Sys, step: Step, id: AttemptId)
    requires id in Next(s, step).mem.strays && id !in s.mem.strays
    ensures StartsAmbiguously(s, step, id)
  {
    if step.StartStep? { StartMakesStray(s, step, id); } else { OnlyStartsMakeStrays(s, step); }
  }

  lemma StrayStays(s: Sys, step: Step, id: AttemptId)
    requires id in s.mem.strays
    ensures id in Next(s, step).mem.strays
  {
    if step.StartStep? { StartMakesStray(s, step, id); } else { OnlyStartsMakeStrays(s, step); }
  }

  lemma AmbiguousInPrefix(steps: seq<Step>, n: nat, i: nat, id: AttemptId)
    requires i < n <= |steps|
    ensures AmbiguousAt(steps[..n], i, id) <==> AmbiguousAt(steps, i, id)
  {
    assert steps[..n][..i] == steps[..i] && steps[..n][i] == steps[i];
  }

  lemma {:induction false} StrayHasAmbiguousStart(steps: seq<Step>, id: AttemptId) returns (i: nat)
    requires id in Run(INITIAL, steps).mem.strays
    ensures i < |steps| && AmbiguousAt(steps, i, id)
  {
    i := |steps| - 1;
    if id in Run(INITIAL, steps[..i]).mem.strays {
      var j := StrayHasAmbiguousStart(steps[..i], id);
      AmbiguousInPrefix(steps, i, j, id);
      i := j;
    } else {
      NewStray(Run(INITIAL, steps[..i]), steps[i], id);
    }
  }

  lemma {:induction false} AmbiguousStartAdds(steps: seq<Step>, id: AttemptId)
    requires steps != [] && AmbiguousAt(steps, |steps| - 1, id)
    ensures id in Run(INITIAL, steps).mem.strays
  {
    StartMakesStray(Run(INITIAL, steps[..|steps| - 1]), steps[|steps| - 1], id);
  }

  lemma {:induction false} StrayOutlivesRun(steps: seq<Step>, n: nat, id: AttemptId)
    requires n <= |steps| && id in Run(INITIAL, steps[..n]).mem.strays
    ensures id in Run(INITIAL, steps).mem.strays
  {
    var m := |steps| - 1;
    if n == |steps| {
      assert steps[..n] == steps;
    } else {
      assert steps[..m][..n] == steps[..n];
      StrayOutlivesRun(steps[..m], n, id);
      StrayStays(Run(INITIAL, steps[..m]), steps[m], id);
    }
  }

  lemma {:induction false} AmbiguousStartStays(steps: seq<Step>, i: nat, id: AttemptId)
    requires i < |steps| && AmbiguousAt(steps, i, id)
    ensures id in Run(INITIAL, steps).mem.strays
  {
    AmbiguousInPrefix(steps, i + 1, i, id);
    AmbiguousStartAdds(steps[..i + 1], id);
    StrayOutlivesRun(steps, i + 1, id);
  }

  /** The history set holds exactly the attempts that a start of the run made under a commit that landed but was
      reported failed. */
  lemma {:induction false} StrayIffAmbiguousStart(steps: seq<Step>, id: AttemptId)
    ensures id in Run(INITIAL, steps).mem.strays <==> StartedAmbiguously(steps, id)
  {
    if id in Run(INITIAL, steps).mem.strays {
      var i := StrayHasAmbiguousStart(steps, id);
    }
    if StartedAmbiguously(steps, id) {
      var i :| 0 <= i < |steps| && AmbiguousAt(steps, i, id);
      AmbiguousStartStays(steps, i, id);
    }
  }

  /** Between executions of a stack, a running attempt waits in pending, if and only if no start of the run made it
      under a commit that landed but was reported failed. */
  lemma {:induction false} RunningAttemptWaitsIffNotStray(steps: seq<Step>, id: AttemptId)
    requires LegalRun(steps)
    ensures var s := Run(INITIAL, steps);
      s.mem.up && RunningAt(s.db.rows, id) && s.db.rows[id.deployment].stack !in s.mem.inflight ==>
        var stack := s.db.rows[id.deployment].stack;
        (stack in s.mem.pending && s.mem.pending[stack].id == id) <==> !StartedAmbiguously(steps, id)
  {
    ReachableIsInv(steps);
    StrayIffAmbiguousStart(steps, id);
  }

  // ---------------------------------------------------------------- what becomes of a stray

  /** Only recovery, or the start of a changed desired state, ends a stray. */
  predicate EndsStray(s: Sys, step: Step, id: AttemptId)
    requires Exists(s.db.rows, id)
  {
    match step
    case RestartStep(_, commit) => !s.mem.up && commit != RolledBack
    case StartStep(req, _, commit) =>
      && CanStart(s.mem, req.stack) && req.stack == s.db.rows[id.deployment].stack && commit != RolledBack
      && req.desired.digest != s.db.rows[id.deployment].desired.digest
    case _ => false
  }

  /** An attempt that is neither executing nor waiting outlives every completion. */
  lemma CompletionStepKeepsStray(s: Sys, step: Step, id: AttemptId)
    requires Inv(s) && id in s.mem.strays && RunningAt(s.db.rows, id) && (step.FinishStep? || step.RecoverStep?)
    ensures RunningAt(Next(s, step).db.rows, id)
  {
    if step.FinishStep? {
      if CanFinish(s.mem, step.stack) && State(step.completion).Ok? {
        CompletionEffect(s.db, s.mem.inflight[step.stack].id, step.completion, step.now, step.commit);
      }
    } else if CanRecover(s.mem, step.stack) && step.stack in s.mem.pending {
      var p := s.mem.pending[step.stack];
      assert PendingEntryOk(s.db.rows, step.stack, p);
      CompletionEffect(s.db, p.id, p.completion, step.now, step.commit);
    }
  }

  lemma {:induction false} ReplacementEndsRunningIff(before: seq<Deployment>, after: seq<Deployment>, i: nat,
                                                     stack: string, now: int, id: AttemptId)
    requires RowsOk(before) && RunningIsNewest(before) && RunningAt(before, id) && i == LatestRow(before, stack)
    requires |after| == |before| + 1 && after[..|before|] == before[i := InterruptedRow(before[i], now)]
    ensures RunningAt(after, id) <==> before[id.deployment].stack != stack
  {
    RunningAttemptIsNewest(before, id);
    assert after[id.deployment] == after[..|before|][id.deployment];
  }

  lemma RetryKeepsRunning(rows: seq<Deployment>, i: nat, now: int, id: AttemptId)
    requires i < |rows| && RunningAt(rows, id)
    ensures RunningAt(rows[i := Restarted(rows[i], now)], id)
  {
  }

  lemma UnchangedStartKeepsRunning(db: Db, req: Request, now: int, id: AttemptId)
    requires Lifecycle(db) && RunningAt(db.rows, id) && TxOf(db, req, now).Ok?
    requires var i := LatestRow(db.rows, req.stack); i >= 0 ==> db.rows[i].desired.digest == req.desired.digest
    ensures RunningAt(TxOf(db, req, now).value.0.rows, id)
  {
    var i := LatestRow(db.rows, req.stack);
    if i >= 0 {
      assert RowOk(db.rows[i]);
      RetryEffect(db, i, now);
      RetryKeepsRunning(db.rows, i, now, id);
    }
  }

  lemma ChangedStartEndsRunningIff(db: Db, i: nat, req: Request, now: int, id: AttemptId)
    requires Lifecycle(db) && RunningAt(db.rows, id) && i == LatestRow(db.rows, req.stack)
    requires StartChanged(db, i, req.stack, req.desired, now).Ok?
    ensures RunningAt(StartChanged(db, i, req.stack, req.desired, now).value.0.rows, id) <==>
      db.rows[id.deployment].stack != req.stack
  {
    ReplacementEffect(db, i, req.stack, req.desired, now);
    var after := StartChanged(db, i, req.stack, req.desired, now).value.0.rows;
    ReplacementEndsRunningIff(db.rows, after, i, req.stack, now, id);
  }

  /** A start leaves the running attempts of other stacks alone; in its own stack it interrupts the running one
      exactly when the desired state has changed. */
  lemma StartEndsRunningIff(db: Db, req: Request, now: int, id: AttemptId)
    requires Lifecycle(db) && RunningAt(db.rows, id) && TxOf(db, req, now).Ok?
    ensures RunningAt(TxOf(db, req, now).value.0.rows, id) <==>
      !(req.stack == db.rows[id.deployment].stack && req.desired.digest != db.rows[id.deployment].desired.digest)
  {
    var i := LatestRow(db.rows, req.stack);
    RunningRowIsLatest(db.rows, id);
    if i >= 0 && db.rows[i].desired.digest != req.desired.digest {
      ChangedStartEndsRunningIff(db, i, req, now, id);
    } else {
      UnchangedStartKeepsRunning(db, req, now, id);
    }
  }

  lemma StartStepEndsStrayIff(s: Sys, step: Step, id: AttemptId)
    requires Inv(s) && RunningAt(s.db.rows, id) && step.StartStep?
    ensures RunningAt(Next(s, step).db.rows, id) <==> !EndsStray(s, step, id)
  {
    var req := step.req;
    if CanStart(s.mem, req.stack) {
      StartLeaves(s, req, step.now, step.commit);
      StartEndsRunningIff(s.db, req, step.now, id);
    }
  }

  lemma VerificationKeepsRunning(s: Sys, step: Step, id: AttemptId)
    requires RunningAt(s.db.rows, id) && (step.RecordStep? || step.UndoStep?)
    ensures RunningAt(Next(s, step).db.rows, id)
  {
  }

  lemma RestartEndsAll(s: Sys, step: Step, id: AttemptId)
    requires Inv(s) && RunningAt(s.db.rows, id) && step.RestartStep?
    ensures RunningAt(Next(s, step).db.rows, id) <==> !EndsStray(s, step, id)
  {
    RecoveryLeavesNothingRunning(s.db, step.now);
    RestartLeaves(s, step.now, step.commit);
    var next := Next(s, step);
    if s.mem.up || step.commit == RolledBack {
      assert next.db == s.db;
    } else {
      assert next.db == InterruptTx(s.db, step.now).value.0;
      assert !RunningAt(next.db.rows, id);
    }
  }

  /** A step ends a stray exactly when it is a recovery or a start of a changed desired state that lands. */
  lemma StepEndsStrayIff(s: Sys, step: Step, id: AttemptId)
    requires Inv(s) && id in s.mem.strays && RunningAt(s.db.rows, id)
    ensures RunningAt(Next(s, step).db.rows, id) <==> !EndsStray(s, step, id)
  {
    match step
    case RecoverStep(_, _, _, _) => CompletionStepKeepsStray(s, step, id);
    case FinishStep(_, _, _, _) => CompletionStepKeepsStray(s, step, id);
    case StartStep(_, _, _) => StartStepEndsStrayIff(s, step, id);
    case RecordStep(_, _, _, _) => VerificationKeepsRunning(s, step, id);
    case UndoStep(_, _) => VerificationKeepsRunning(s, step, id);
    case CrashStep =>
    case RestartStep(_, _) => RestartEndsAll(s, step, id);
  }

  /** No step of the run ends the attempt. */
  ghost predicate NeverEnded(s: Sys, steps: seq<Step>, id: AttemptId) {
    forall i :: 0 <= i < |steps| ==>
      Exists(Run(s, steps[..i]).db.rows, id) ==> !EndsStray(Run(s, steps[..i]), steps[i], id)
  }

  lemma {:induction false} NeverEndedShrinks(s: Sys, steps: seq<Step>, id: AttemptId)
    requires steps != [] && NeverEnded(s, steps, id)
    ensures var m := |steps| - 1; var before := Run(s, steps[..m]);
      NeverEnded(s, steps[..m], id) && (Exists(before.db.rows, id) ==> !EndsStray(before, steps[m], id))
  {
    var m := |steps| - 1;
    assert forall i :: 0 <= i < m ==> steps[..m][..i] == steps[..i] && steps[..m][i] == steps[i];
  }

  /** Along a run whose steps never end it, a stray keeps running, and stays a stray. */
  lemma {:induction false} StrayKeepsRunning(s: Sys, steps: seq<Step>, id: AttemptId)
    requires Inv(s) && LegalRun(steps) && id in s.mem.strays && RunningAt(s.db.rows, id) && NeverEnded(s, steps, id)
    ensures var after := Run(s, steps); id in after.mem.strays && RunningAt(after.db.rows, id)
  {
    if steps != [] {
      var m := |steps| - 1;
      NeverEndedShrinks(s, steps, id);
      StrayKeepsRunning(s, steps[..m], id);
      RunKeepsInv(s, steps[..m]);
      StepEndsStrayIff(Run(s, steps[..m]), steps[m], id);
      StrayStays(Run(s, steps[..m]), steps[m], id);
    }
  }

  /** A stray stalls its stack: until a recovery or a changed desired state lands, it keeps running, it remains the
      newest attempt of its stack, and no execution or waiting completion ends it. */
  lemma {:induction false} StrayStallsUnchangedStack(s: Sys, steps: seq<Step>, id: AttemptId)
    requires Inv(s) && LegalRun(steps) && id in s.mem.strays && RunningAt(s.db.rows, id) && NeverEnded(s, steps, id)
    ensures var rows := Run(s, steps).db.rows; var d := s.db.rows[id.deployment];
      && RunningAt(rows, id) && !HeldBy(Run(s, steps).mem, d.stack, id)
      && LatestRow(rows, d.stack) == id.deployment && |rows[id.deployment].attempts| == |d.attempts|
  {
    RunKeepsInv(s, steps);
    StrayKeepsRunning(s, steps, id);
    var rows := Run(s, steps).db.rows;
    assert ExtendsRow(s.db.rows[id.deployment], rows[id.deployment]);
    RunningAttemptIsNewest(s.db.rows, id);
    RunningAttemptIsNewest(rows, id);
  }

  /** A process that recovered empty tables may start a deployment of the stack. */
  lemma FirstExecutionIsReady(stack: string)
    ensures var steps := [RestartStep(0, Committed), RecoverStep(stack, 0, Committed, false)];
      Run(INITIAL, steps) == Sys(EMPTY, Memory(true, map[], map[stack := Ready], [], {}))
  {
    var restart, recover := RestartStep(0, Committed), RecoverStep(stack, 0, Committed, false);
    RunAppended(INITIAL, [], restart);
    RunAppended(INITIAL, [restart], recover);
    assert [] + [restart] == [restart] && [restart] + [recover] == [restart, recover];
    assert Run(INITIAL, [restart]) == Sys(EMPTY, Memory(true, map[], map[], [], {}));
  }

  /** The concrete input: one first start whose commit lands but is reported failed. */
  lemma AmbiguousStartLeavesStray(req: Request, now: int)
    requires req.sourceChanged
    ensures var steps := [RestartStep(0, Committed), RecoverStep(req.stack, 0, Committed, false),
                          StartStep(req, now, CommittedUnreported)];
      var s := Run(INITIAL, steps);
      && RunningAt(s.db.rows, AttemptId(0, 0)) && s.mem.up
      && s.mem.pending == map[] && s.mem.inflight == map[]
  {
    var steps := [RestartStep(0, Committed), RecoverStep(req.stack, 0, Committed, false)];
    var start := StartStep(req, now, CommittedUnreported);
    FirstExecutionIsReady(req.stack);
    RunAppended(INITIAL, steps, start);
    assert steps + [start] == [steps[0], steps[1], start];
  }

  /** The concrete run in which the first deployment of a stack records a generation that its unresolved list does not
      name: nothing is known about its obligations yet. */
  lemma RecordedGenerationNeedNotBeUnresolved(req: Request, name: string, g: Generation, now: int)
    requires req.sourceChanged && g.serviceId != ""
    ensures var steps := [RestartStep(0, Committed), RecoverStep(req.stack, 0, Committed, false),
                          StartStep(req, now, Committed), RecordStep(AttemptId(0, 0), name, g, Committed)];
      var rows := Run(INITIAL, steps).db.rows;
      && LegalRun(steps) && RunningAt(rows, AttemptId(0, 0))
      && name in rows[0].verification.generations && name !in rows[0].verification.unresolved
  {
    var steps := [RestartStep(0, Committed), RecoverStep(req.stack, 0, Committed, false)];
    var start, record := StartStep(req, now, Committed), RecordStep(AttemptId(0, 0), name, g, Committed);
    FirstExecutionIsReady(req.stack);
    RunAppended(INITIAL, steps, start);
    RunAppended(INITIAL, steps + [start], record);
    assert steps + [start] + [record] == [steps[0], steps[1], start, record];
    var s := Run(INITIAL, steps + [start]);
    assert s.mem.up && s.db.rows ==
      [Deployment(req.stack, req.desired, Persisted(UNKNOWN_ROLLOUT), RUNNING, [NewAttempt(1, now)])];
  }

  lemma OnlyFinishFillsPending(s: Sys, step: Step, stack: string)
    requires !step.FinishStep? && stack in Next(s, step).mem.pending
    ensures stack in s.mem.pending && Next(s, step).mem.pending[stack] == s.mem.pending[stack]
  {
  }

  /** A completion fills pending only where nothing waits, so no step replaces a waiting completion. */
  lemma PendingIsNeverOverwritten(s: Sys, step: Step, stack: string)
    requires InflightOk(s.db.rows, s.mem) && stack in s.mem.pending && stack in Next(s, step).mem.pending
    ensures Next(s, step).mem.pending[stack] == s.mem.pending[stack]
  {
    if step.FinishStep? {
      assert CanFinish(s.mem, step.stack) ==> step.stack !in s.mem.pending;
    } else {
      OnlyFinishFillsPending(s, step, stack);
    }
  }

  /** A new attempt of a stack starts only when nothing waits for it, and then every other attempt of the stack
      has ended. */
  lemma StartOnlyWhenSettled(s: Sys, req: Request, now: int, commit: Commit, id: AttemptId)
    requires Inv(s) && CanStart(s.mem, req.stack)
    ensures req.stack !in s.mem.pending
    ensures var after := NextStart(s, req, now, commit).db.rows;
      RunningAt(after, id) && !Exists(s.db.rows, id) ==>
        forall y :: y != id && RunningAt(after, y) ==> after[y.deployment].stack != req.stack
  {
    StartKeepsInv(s, req, now, commit);
    StartKeepsLifecycle(s.db, req.stack, req.desired, req.sourceChanged, req.manualRetry, now);
    var after := NextStart(s, req, now, commit).db.rows;
    if RunningAt(after, id) && !Exists(s.db.rows, id) {
      var x := TxOf(s.db, req, now).value.1.value;
      forall y | y != id && RunningAt(after, y) ensures after[y.deployment].stack != req.stack {
        assert id == x;
        assert ExtendsRow(s.db.rows[y.deployment], after[y.deployment]);
      }
    }
  }

  /** Each attempt publishes its completion exactly once: one event telling the persisted outcome when it has
      ended, none before; and a baseline is the newest succeeded deployment of its stack. */
  lemma {:induction false} OneTerminalEventPerAttempt(steps: seq<Step>, id: AttemptId)
    requires LegalRun(steps)
    ensures var db := Run(INITIAL, steps).db;
      && EventsOf(db.outbox, id) == ExpectedEvents(db.rows, id)
      && BaselinesOk(db)
  {
    ReachableIsInv(steps);
  }
}
