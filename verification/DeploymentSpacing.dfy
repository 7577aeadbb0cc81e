/** The time between automatic attempts of one deployment, over whole runs. */
module DeploymentSpacing {
  import opened Wrappers
  import opened DeploymentModel
  import opened DeploymentStore
  import opened DeploymentService
  import opened DeploymentLifecycle
  import opened DeploymentController
  import opened DeploymentRuns
  import opened Retry

  function NowOf(step: Step): Option<int> {
    match step
    case RecoverStep(_, now, _, _) => Some(now)
    case StartStep(_, now, _) => Some(now)
    case FinishStep(_, _, now, _) => Some(now)
    case RestartStep(now, _) => Some(now)
    case _ => None
  }

  function Tick(clock: int, step: Step): int {
    if NowOf(step).Some? then NowOf(step).value else clock
  }

  function Clock(start: int, steps: seq<Step>): int {
    if steps == [] then start else Tick(Clock(start, steps[..|steps| - 1]), steps[|steps| - 1])
  }

  /** The clock never runs backwards, and no retry of the stack is requested by hand. */
  ghost predicate AutomaticRun(start: int, steps: seq<Step>, stack: string) {
    forall i :: 0 <= i < |steps| ==>
      && Clock(start, steps[..i]) <= Tick(Clock(start, steps[..i]), steps[i])
      && (steps[i].StartStep? && steps[i].req.stack == stack ==> !steps[i].req.manualRetry)
  }

  predicate EndsAfterStart(a: Attempt, clock: int) {
    && a.startedAt <= clock
    && (a.progress.finishedAt.Some? ==> a.startedAt <= a.progress.finishedAt.value <= clock)
  }

  /** The attempt with number n + 1 starts at least the backoff delay after its predecessor ended. */
  predicate Follows(earlier: Attempt, later: Attempt, n: nat) {
    earlier.progress.finishedAt.Some? && earlier.progress.finishedAt.value + Delay(n) <= later.startedAt
  }

  predicate SpacedAttempts(attempts: seq<Attempt>, clock: int) {
    && (forall k :: 0 <= k < |attempts| ==> EndsAfterStart(attempts[k], clock))
    && (forall k, m :: 0 <= k < |attempts| && m == k + 1 && m < |attempts| ==> Follows(attempts[k], attempts[m], m))
  }

  /** The attempts of every deployment of the stack are spaced. */
  predicate Spaced(rows: seq<Deployment>, stack: string, clock: int) {
    forall i :: 0 <= i < |rows| && rows[i].stack == stack ==> SpacedAttempts(rows[i].attempts, clock)
  }

  lemma SpacedLater(rows: seq<Deployment>, clock: int, later: int, stack: string)
    requires Spaced(rows, stack, clock) && clock <= later
    ensures Spaced(rows, stack, later)
  {
  }

  lemma EndedSpaced(d: Deployment, st: CompletionState, now: int)
    requires RowOk(d) && SpacedAttempts(d.attempts, now) && d.progress.status == Running
    ensures SpacedAttempts(Ended(d, st, now).attempts, now)
  {
    LastEndedSpaced(d.attempts, st.progress.(finishedAt := Some(now)), now);
  }

  lemma LastEndedSpaced(attempts: seq<Attempt>, p: Progress, now: int)
    requires SpacedAttempts(attempts, now) && attempts != [] && p.finishedAt == Some(now)
    ensures SpacedAttempts(attempts[|attempts| - 1 := attempts[|attempts| - 1].(progress := p)], now)
  {
  }

  lemma InterruptedSpaced(d: Deployment, now: int)
    requires RowOk(d) && SpacedAttempts(d.attempts, now)
    ensures SpacedAttempts(InterruptedRow(d, now).attempts, now)
  {
    if d.progress.status == Running { EndedSpaced(d, INTERRUPTION, now); }
  }

  lemma CompletionSpaced(db: Db, id: AttemptId, c: Completion, now: int, commit: Commit, stack: string)
    requires Lifecycle(db) && State(c).Ok? && Exists(db.rows, id) && Spaced(db.rows, stack, now)
    ensures Spaced(CompleteTransaction(db, id, c, now, commit).0.rows, stack, now)
  {
    var st := State(c).value;
    CompleteIffRunning(db, id, st, now);
    if RunningAt(db.rows, id) {
      CompleteEffect(db, id, st, now);
      if db.rows[id.deployment].stack == stack { EndedSpaced(db.rows[id.deployment], st, now); }
    }
  }

  lemma RetriedSpaced(d: Deployment, now: int)
    requires RowOk(d) && SpacedAttempts(d.attempts, now) && RetryAllowed(d, now)
    ensures SpacedAttempts(Restarted(d, now).attempts, now)
  {
  }

  lemma ReplacementSpaced(db: Db, i: nat, req: Request, now: int, stack: string)
    requires Lifecycle(db) && i == LatestRow(db.rows, req.stack) && Spaced(db.rows, stack, now)
    requires StartChanged(db, i, req.stack, req.desired, now).Ok?
    ensures Spaced(StartChanged(db, i, req.stack, req.desired, now).value.0.rows, stack, now)
  {
    ReplacementEffect(db, i, req.stack, req.desired, now);
    if req.stack == stack { InterruptedSpaced(db.rows[i], now); }
    AppendedSpaced(db.rows, StartChanged(db, i, req.stack, req.desired, now).value.0.rows, i, now, stack);
  }

  lemma AppendedSpaced(before: seq<Deployment>, after: seq<Deployment>, i: nat, now: int, stack: string)
    requires Spaced(before, stack, now) && i < |before| && |after| == |before| + 1
    requires after[..|before|] == before[i := InterruptedRow(before[i], now)]
    requires before[i].stack == stack ==> SpacedAttempts(InterruptedRow(before[i], now).attempts, now)
    requires after[|before|].attempts == [NewAttempt(1, now)]
    ensures Spaced(after, stack, now)
  {
    var kept := after[..|before|];
    assert forall k :: 0 <= k < |before| ==> after[k] == kept[k];
  }

  lemma StartSpaced(db: Db, req: Request, now: int, stack: string)
    requires Lifecycle(db) && Spaced(db.rows, stack, now) && TxOf(db, req, now).Ok?
    requires req.stack == stack ==> !req.manualRetry
    ensures Spaced(TxOf(db, req, now).value.0.rows, stack, now)
  {
    var i := LatestRow(db.rows, req.stack);
    if i >= 0 {
      if db.rows[i].desired.digest != req.desired.digest {
        ReplacementSpaced(db, i, req, now, stack);
      } else {
        assert RowOk(db.rows[i]);
        RetryEffect(db, i, now);
        if req.stack == stack && RetryAllowed(db.rows[i], now) { RetriedSpaced(db.rows[i], now); }
      }
    }
  }

  lemma RecoverySpaced(db: Db, now: int, stack: string)
    requires Lifecycle(db) && Spaced(db.rows, stack, now) && InterruptTx(db, now).Ok?
    ensures Spaced(InterruptTx(db, now).value.0.rows, stack, now)
  {
    RecoveryLeavesNothingRunning(db, now);
    forall i | 0 <= i < |db.rows| && db.rows[i].stack == stack
      ensures SpacedAttempts(InterruptedRow(db.rows[i], now).attempts, now) {
      InterruptedSpaced(db.rows[i], now);
    }
  }

  lemma RecordSpaced(db: Db, id: AttemptId, name: string, g: Generation, clock: int, stack: string)
    requires Spaced(db.rows, stack, clock) && RecordTx(db, id, name, g).Ok?
    ensures Spaced(RecordTx(db, id, name, g).value.0.rows, stack, clock)
  {
  }

  lemma UndoSpaced(db: Db, r: Receipt, clock: int, stack: string)
    requires Spaced(db.rows, stack, clock) && UndoTx(db, r).Ok?
    ensures Spaced(UndoTx(db, r).value.0.rows, stack, clock)
  {
  }

  lemma RecoverStepSpaced(s: Sys, k: string, now: int, commit: Commit, inspectFails: bool, stack: string)
    requires Inv(s) && Spaced(s.db.rows, stack, now) && CanRecover(s.mem, k)
    ensures Spaced(NextRecover(s, k, now, commit, inspectFails).db.rows, stack, now)
  {
    if k in s.mem.pending {
      var p := s.mem.pending[k];
      assert PendingEntryOk(s.db.rows, k, p);
      CompletionSpaced(s.db, p.id, p.completion, now, commit, stack);
    }
  }

  lemma FinishStepSpaced(s: Sys, k: string, c: Completion, now: int, commit: Commit, stack: string)
    requires Inv(s) && Spaced(s.db.rows, stack, now) && CanFinish(s.mem, k) && State(c).Ok?
    ensures Spaced(NextFinish(s, k, s.mem.inflight[k].id, c, now, commit).db.rows, stack, now)
  {
    CompletionSpaced(s.db, s.mem.inflight[k].id, c, now, commit, stack);
  }

  lemma StartStepSpaced(s: Sys, req: Request, now: int, commit: Commit, stack: string)
    requires Inv(s) && Spaced(s.db.rows, stack, now) && (req.stack == stack ==> !req.manualRetry)
    ensures Spaced(NextStart(s, req, now, commit).db.rows, stack, now)
  {
    if TxOf(s.db, req, now).Ok? { StartSpaced(s.db, req, now, stack); }
  }

  lemma VerificationStepSpaced(s: Sys, step: Step, clock: int, stack: string)
    requires Spaced(s.db.rows, stack, clock) && (step.RecordStep? || step.UndoStep?)
    ensures Spaced(Next(s, step).db.rows, stack, clock)
  {
    if step.RecordStep? {
      if RecordTx(s.db, step.id, step.name, step.generation).Ok? {
        RecordSpaced(s.db, step.id, step.name, step.generation, clock, stack);
      }
    } else if step.receipt < |s.mem.receipts| && UndoTx(s.db, s.mem.receipts[step.receipt]).Ok? {
      UndoSpaced(s.db, s.mem.receipts[step.receipt], clock, stack);
    }
  }

  lemma RestartStepSpaced(s: Sys, step: Step, stack: string)
    requires Inv(s) && step.RestartStep? && Spaced(s.db.rows, stack, step.now)
    ensures Spaced(Next(s, step).db.rows, stack, step.now)
  {
    RecoveryLeavesNothingRunning(s.db, step.now);
    RestartLeaves(s, step.now, step.commit);
    RecoverySpaced(s.db, step.now, stack);
  }

  lemma StepKeepsSpaced(s: Sys, step: Step, clock: int, stack: string)
    requires Inv(s) && Spaced(s.db.rows, stack, clock) && clock <= Tick(clock, step)
    requires step.StartStep? && step.req.stack == stack ==> !step.req.manualRetry
    ensures Spaced(Next(s, step).db.rows, stack, Tick(clock, step))
  {
    SpacedLater(s.db.rows, clock, Tick(clock, step), stack);
    match step
    case RecoverStep(k, now, commit, inspectFails) =>
      if CanRecover(s.mem, k) { RecoverStepSpaced(s, k, now, commit, inspectFails, stack); }
    case StartStep(req, now, commit) =>
      if CanStart(s.mem, req.stack) { StartStepSpaced(s, req, now, commit, stack); }
    case RecordStep(_, _, _, _) => VerificationStepSpaced(s, step, clock, stack);
    case UndoStep(_, _) => VerificationStepSpaced(s, step, clock, stack);
    case FinishStep(k, c, now, commit) =>
      if CanFinish(s.mem, k) && State(c).Ok? { FinishStepSpaced(s, k, c, now, commit, stack); }
    case CrashStep =>
    case RestartStep(_, _) => RestartStepSpaced(s, step, stack);
  }

  lemma {:induction false} RunKeepsSpaced(start: int, steps: seq<Step>, stack: string)
    requires LegalRun(steps) && AutomaticRun(start, steps, stack)
    ensures Inv(Run(INITIAL, steps)) && Spaced(Run(INITIAL, steps).db.rows, stack, Clock(start, steps))
  {
    EmptyIsOk();
    RunKeepsInv(INITIAL, steps);
    if steps != [] {
      var earlier := steps[..|steps| - 1];
      assert forall i :: 0 <= i < |earlier| ==> earlier[..i] == steps[..i];
      RunKeepsSpaced(start, earlier, stack);
      StepKeepsSpaced(Run(INITIAL, earlier), steps[|steps| - 1], Clock(start, earlier), stack);
    }
  }

  lemma {:induction false} SpacedAttemptsAddUp(attempts: seq<Attempt>, clock: int, j: nat, k: nat)
    requires SpacedAttempts(attempts, clock) && j <= k < |attempts|
    ensures attempts[j].startedAt + TotalDelay(k) - TotalDelay(j) <= attempts[k].startedAt
    decreases k
  {
    if j < k {
      SpacedAttemptsAddUp(attempts, clock, j, k - 1);
      assert Follows(attempts[k - 1], attempts[k], k);
    }
  }

  /** From six delays on, each further one is an hour. */
  lemma {:induction false} TotalDelayGrowsByHours(j: nat, k: nat)
    requires 6 <= j <= k
    ensures TotalDelay(k) - TotalDelay(j) == (k - j) * HOUR as int
    decreases k
  {
    if j < k {
      TotalDelayGrowsByHours(j, k - 1);
      DelayIsCappedFromSeven(k);
    }
  }

  /** Automatic attempts are spaced: within any window of a deployment's attempts, attempt number k + 1 starts at least
      the delays numbered j + 1 to k after attempt number j + 1; from the seventh attempt on each is an hour, so m
      further attempts take at least m hours. */
  lemma {:induction false} AutomaticAttemptsAreSpaced(start: int, steps: seq<Step>, i: nat, j: nat, k: nat)
    requires LegalRun(steps) && i < |Run(INITIAL, steps).db.rows|
    requires AutomaticRun(start, steps, Run(INITIAL, steps).db.rows[i].stack)
    requires j <= k < |Run(INITIAL, steps).db.rows[i].attempts|
    ensures var attempts := Run(INITIAL, steps).db.rows[i].attempts;
      && attempts[k].startedAt - attempts[j].startedAt >= TotalDelay(k) - TotalDelay(j)
      && (j >= 6 ==> attempts[k].startedAt - attempts[j].startedAt >= (k - j) * HOUR as int)
  {
    var rows := Run(INITIAL, steps).db.rows;
    RunKeepsSpaced(start, steps, rows[i].stack);
    assert SpacedAttempts(rows[i].attempts, Clock(start, steps));
    SpacedAttemptsAddUp(rows[i].attempts, Clock(start, steps), j, k);
    if j >= 6 { TotalDelayGrowsByHours(j, k); }
  }
}
