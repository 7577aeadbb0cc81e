/** Verification obligations over whole runs: an unresolved service is never lost. */
module DeploymentObligations {
  import opened Wrappers
  import opened DeploymentModel
  import opened DeploymentStore
  import opened DeploymentService
  import opened DeploymentLifecycle
  import opened DeploymentController
  import opened DeploymentRuns

  /** The services the stack's current deployment still has to prove converged. */
  function Owed(rows: seq<Deployment>, stack: string): seq<string> {
    var i := LatestRow(rows, stack);
    if i < 0 then [] else rows[i].verification.unresolved
  }

  /** A completion that settles service n: success, or an end after apply whose rollout report, or in its
      absence the desired state, does not contain n. */
  predicate Releases(desired: Desired, c: Completion, n: string) {
    State(c).Ok? &&
    var st := State(c).value;
    || st.progress.status == Succeeded
    || (st.progress.phase != PhaseApply && n !in (if st.rollout.known then st.rollout.unresolved else desired.services))
  }

  /** A completion of attempt id settles service n of a stack: it is accepted, its commit lands, and it releases n. */
  predicate Settles(rows: seq<Deployment>, id: AttemptId, c: Completion, commit: Commit, stack: string, n: string) {
    && RunningAt(rows, id) && rows[id.deployment].stack == stack && commit != RolledBack
    && Releases(rows[id.deployment].desired, c, n)
  }

  /** A start replaces the stack's desired state by one without n, and its commit lands. */
  predicate Replaces(rows: seq<Deployment>, req: Request, commit: Commit, stack: string, n: string) {
    && req.stack == stack && n !in req.desired.services && commit != RolledBack
    && LatestRow(rows, stack) >= 0 && rows[LatestRow(rows, stack)].desired.digest != req.desired.digest
  }

  /** An undo is accepted, its commit lands, and its record had added n. */
  predicate TakesBack(db: Db, r: Receipt, commit: Commit, stack: string, n: string) {
    && UndoTx(db, r).Ok? && db.rows[r.id.deployment].stack == stack && commit != RolledBack
    && r.name == n && !r.unresolved
  }

  /** The steps that settle service n of a stack: an enabled releasing completion, now or from pending; an enabled
      start of a new desired state without n; an accepted undo of the record that added n. */
  predicate Discharges(s: Sys, step: Step, stack: string, n: string) {
    match step
    case FinishStep(k, c, _, commit) =>
      CanFinish(s.mem, k) && Settles(s.db.rows, s.mem.inflight[k].id, c, commit, stack, n)
    case RecoverStep(k, _, commit, _) =>
      CanRecover(s.mem, k) && k in s.mem.pending &&
      Settles(s.db.rows, s.mem.pending[k].id, s.mem.pending[k].completion, commit, stack, n)
    case StartStep(req, _, commit) => CanStart(s.mem, req.stack) && Replaces(s.db.rows, req, commit, stack, n)
    case UndoStep(k, commit) =>
      s.mem.up && k < |s.mem.receipts| && TakesBack(s.db, s.mem.receipts[k], commit, stack, n)
    case _ => false
  }

  lemma {:induction false} LatestOfSameStacks(before: seq<Deployment>, after: seq<Deployment>, stack: string)
    requires |before| == |after| && forall i :: 0 <= i < |before| ==> after[i].stack == before[i].stack
    ensures LatestRow(after, stack) == LatestRow(before, stack)
  {
  }

  lemma {:induction false} LatestOfAppended(before: seq<Deployment>, after: seq<Deployment>, stack: string)
    requires |after| == |before| + 1 && forall i :: 0 <= i < |before| ==> after[i].stack == before[i].stack
    ensures LatestRow(after, stack) == if after[|before|].stack == stack then |before| else LatestRow(before, stack)
  {
  }

  // ---------------------------------------------------------------- completions

  lemma EndedRowOwes(d: Deployment, c: Completion, now: int, n: string)
    requires RowOk(d) && State(c).Ok? && n in d.verification.unresolved
    ensures n in Ended(d, State(c).value, now).verification.unresolved <==> !Releases(d.desired, c, n)
  {
  }

  lemma InterruptedRowOwes(d: Deployment, now: int, n: string)
    requires n in d.verification.unresolved
    ensures n in InterruptedRow(d, now).verification.unresolved
  {
  }

  /** Replacing one row changes what a stack owes only through its newest row. */
  lemma ReplacedRowOwes(rows: seq<Deployment>, i: nat, d: Deployment, stack: string)
    requires i < |rows| && d.stack == rows[i].stack
    ensures Owed(rows[i := d], stack) ==
      if LatestRow(rows, stack) == i then d.verification.unresolved else Owed(rows, stack)
  {
    LatestOfSameStacks(rows, rows[i := d], stack);
  }

  lemma CompletedRows(db: Db, id: AttemptId, c: Completion, now: int, commit: Commit)
    requires Lifecycle(db) && State(c).Ok? && Exists(db.rows, id)
    ensures CompleteTransaction(db, id, c, now, commit).0.rows ==
      if RunningAt(db.rows, id) && commit != RolledBack
      then db.rows[id.deployment := Ended(db.rows[id.deployment], State(c).value, now)] else db.rows
  {
    var st := State(c).value;
    CompleteIffRunning(db, id, st, now);
    if RunningAt(db.rows, id) { CompleteEffect(db, id, st, now); }
  }

  /** A completion, however its commit ends, settles an owed service exactly when it is accepted, lands and
      releases it. */
  lemma CompletionReleasesExactly(db: Db, id: AttemptId, c: Completion, now: int, commit: Commit, stack: string,
                                  n: string)
    requires Lifecycle(db) && State(c).Ok? && Exists(db.rows, id) && n in Owed(db.rows, stack)
    ensures n in Owed(CompleteTransaction(db, id, c, now, commit).0.rows, stack) <==>
      !Settles(db.rows, id, c, commit, stack, n)
  {
    CompletedRows(db, id, c, now, commit);
    if RunningAt(db.rows, id) {
      var d := db.rows[id.deployment];
      assert RowOk(d);
      RunningRowIsLatest(db.rows, id);
      ReplacedRowOwes(db.rows, id.deployment, Ended(d, State(c).value, now), stack);
      if d.stack == stack { EndedRowOwes(d, c, now, n); }
    }
  }

  // ---------------------------------------------------------------- starts

  lemma ReplacementKeepsOwed(db: Db, i: nat, req: Request, now: int, stack: string, n: string)
    requires Lifecycle(db) && i == LatestRow(db.rows, req.stack) && n in Owed(db.rows, stack)
    requires StartChanged(db, i, req.stack, req.desired, now).Ok?
    ensures n in Owed(StartChanged(db, i, req.stack, req.desired, now).value.0.rows, stack) <==>
      (req.stack == stack ==> n in req.desired.services)
  {
    ReplacementEffect(db, i, req.stack, req.desired, now);
    var after := StartChanged(db, i, req.stack, req.desired, now).value.0.rows;
    if req.stack == stack { InterruptedRowOwes(db.rows[i], now, n); }
    AppendedOwes(db.rows, after, i, req, now, stack, n);
  }

  /** A replacement appends a row that owes what the interrupted one still owes of the new desired state. */
  lemma {:induction false} AppendedOwes(before: seq<Deployment>, after: seq<Deployment>, i: nat, req: Request,
                                        now: int, stack: string, n: string)
    requires i == LatestRow(before, req.stack) && n in Owed(before, stack) && |after| == |before| + 1
    requires after[..|before|] == before[i := InterruptedRow(before[i], now)] && after[|before|].stack == req.stack
    requires req.stack == stack ==> n in InterruptedRow(before[i], now).verification.unresolved
    requires forall m :: m in after[|before|].verification.unresolved <==>
      m in req.desired.services && m in after[i].verification.unresolved
    ensures n in Owed(after, stack) <==> (req.stack == stack ==> n in req.desired.services)
  {
    var kept := after[..|before|];
    assert forall k :: 0 <= k < |before| ==> after[k] == kept[k];
    LatestOfAppended(before, after, stack);
  }

  lemma {:induction false} FirstRowKeepsOwed(db: Db, req: Request, now: int, stack: string)
    requires LatestRow(db.rows, req.stack) < 0 && TxOf(db, req, now).Ok? && LatestRow(db.rows, stack) >= 0
    ensures Owed(TxOf(db, req, now).value.0.rows, stack) == Owed(db.rows, stack)
  {
    if req.sourceChanged {
      var first := Deployment(req.stack, req.desired, UNKNOWN_ROLLOUT, RUNNING, [NewAttempt(1, now)]);
      LatestOfAppended(db.rows, db.rows + [first], stack);
    }
  }

  /** A start that lands keeps an owed service exactly unless it changes the stack's desired state to one without it. */
  lemma StartReleasesExactly(db: Db, req: Request, now: int, stack: string, n: string)
    requires Lifecycle(db) && n in Owed(db.rows, stack) && TxOf(db, req, now).Ok?
    ensures n in Owed(TxOf(db, req, now).value.0.rows, stack) <==> !Replaces(db.rows, req, Committed, stack, n)
  {
    var i := LatestRow(db.rows, req.stack);
    if i < 0 {
      FirstRowKeepsOwed(db, req, now, stack);
    } else if db.rows[i].desired.digest != req.desired.digest {
      ReplacementKeepsOwed(db, i, req, now, stack, n);
    } else {
      assert RowOk(db.rows[i]);
      RetryEffect(db, i, now);
      ReplacedRowOwes(db.rows, i, Restarted(db.rows[i], now), stack);
    }
  }

  // ---------------------------------------------------------------- records, undos, recovery

  lemma RecordKeepsOwed(db: Db, id: AttemptId, name: string, g: Generation, stack: string, n: string)
    requires Lifecycle(db) && RecordTx(db, id, name, g).Ok? && n in Owed(db.rows, stack)
    ensures n in Owed(RecordTx(db, id, name, g).value.0.rows, stack)
  {
    var d := db.rows[id.deployment];
    assert RowOk(d);
    ReplacedRowOwes(db.rows, id.deployment, d.(verification := Persisted(Recorded(d.verification, name, g))), stack);
  }

  /** An accepted undo settles a service exactly when its own record had added it. */
  lemma UndoReleasesExactly(db: Db, r: Receipt, stack: string, n: string)
    requires Lifecycle(db) && UndoTx(db, r).Ok? && n in Owed(db.rows, stack)
    ensures n in Owed(UndoTx(db, r).value.0.rows, stack) <==> !TakesBack(db, r, Committed, stack, n)
  {
    var d := db.rows[r.id.deployment];
    assert RowOk(d);
    RunningRowIsLatest(db.rows, r.id);
    ReplacedRowOwes(db.rows, r.id.deployment, d.(verification := Persisted(Undone(d.verification, r))), stack);
  }

  lemma RecoveryKeepsOwed(db: Db, now: int, stack: string, n: string)
    requires Lifecycle(db) && InterruptTx(db, now).Ok? && n in Owed(db.rows, stack)
    ensures n in Owed(InterruptTx(db, now).value.0.rows, stack)
  {
    RecoveryLeavesNothingRunning(db, now);
    LatestOfSameStacks(db.rows, InterruptTx(db, now).value.0.rows, stack);
    InterruptedRowOwes(db.rows[LatestRow(db.rows, stack)], now, n);
  }

  // ---------------------------------------------------------------- every step

  lemma CompletionStepReleasesExactly(s: Sys, step: Step, stack: string, n: string)
    requires Inv(s) && n in Owed(s.db.rows, stack) && (step.FinishStep? || step.RecoverStep?)
    ensures n in Owed(Next(s, step).db.rows, stack) <==> !Discharges(s, step, stack, n)
  {
    if step.FinishStep? {
      if CanFinish(s.mem, step.stack) && State(step.completion).Ok? {
        var id := s.mem.inflight[step.stack].id;
        CompletionReleasesExactly(s.db, id, step.completion, step.now, step.commit, stack, n);
      }
    } else if CanRecover(s.mem, step.stack) && step.stack in s.mem.pending {
      var p := s.mem.pending[step.stack];
      assert PendingEntryOk(s.db.rows, step.stack, p);
      CompletionReleasesExactly(s.db, p.id, p.completion, step.now, step.commit, stack, n);
    }
  }

  lemma StartStepRows(s: Sys, req: Request, now: int, commit: Commit)
    requires TxOf(s.db, req, now).Ok?
    ensures Next(s, StartStep(req, now, commit)).db ==
      if CanStart(s.mem, req.stack) && commit != RolledBack then TxOf(s.db, req, now).value.0 else s.db
  {
  }

  lemma StartStepReleasesExactly(s: Sys, step: Step, stack: string, n: string)
    requires Inv(s) && n in Owed(s.db.rows, stack) && step.StartStep?
    ensures n in Owed(Next(s, step).db.rows, stack) <==> !Discharges(s, step, stack, n)
  {
    var req := step.req;
    StartKeepsLifecycle(s.db, req.stack, req.desired, req.sourceChanged, req.manualRetry, step.now);
    StartReleasesExactly(s.db, req, step.now, stack, n);
    StartStepRows(s, req, step.now, step.commit);
  }

  lemma RecordStepKeepsOwed(s: Sys, step: Step, stack: string, n: string)
    requires Inv(s) && n in Owed(s.db.rows, stack) && step.RecordStep?
    ensures n in Owed(Next(s, step).db.rows, stack)
  {
    if RecordTx(s.db, step.id, step.name, step.generation).Ok? {
      RecordKeepsOwed(s.db, step.id, step.name, step.generation, stack, n);
    }
  }

  lemma UndoStepRows(s: Sys, k: nat, commit: Commit)
    requires k < |s.mem.receipts|
    ensures var tx := UndoTx(s.db, s.mem.receipts[k]);
      Next(s, UndoStep(k, commit)).db == if s.mem.up && tx.Ok? && commit != RolledBack then tx.value.0 else s.db
  {
  }

  lemma UndoStepReleasesExactly(s: Sys, step: Step, stack: string, n: string)
    requires Inv(s) && n in Owed(s.db.rows, stack) && step.UndoStep?
    ensures n in Owed(Next(s, step).db.rows, stack) <==> !Discharges(s, step, stack, n)
  {
    if step.receipt < |s.mem.receipts| {
      UndoStepRows(s, step.receipt, step.commit);
      if UndoTx(s.db, s.mem.receipts[step.receipt]).Ok? {
        UndoReleasesExactly(s.db, s.mem.receipts[step.receipt], stack, n);
      }
    }
  }

  lemma RestartStepKeepsOwed(s: Sys, step: Step, stack: string, n: string)
    requires Inv(s) && n in Owed(s.db.rows, stack) && step.RestartStep?
    ensures n in Owed(Next(s, step).db.rows, stack)
  {
    RecoveryLeavesNothingRunning(s.db, step.now);
    RestartLeaves(s, step.now, step.commit);
    RecoveryKeepsOwed(s.db, step.now, stack, n);
  }

  /** A step settles an owed service exactly when it discharges it. */
  lemma StepReleasesExactly(s: Sys, step: Step, stack: string, n: string)
    requires Inv(s) && n in Owed(s.db.rows, stack)
    ensures n in Owed(Next(s, step).db.rows, stack) <==> !Discharges(s, step, stack, n)
  {
    match step
    case RecoverStep(_, _, _, _) => CompletionStepReleasesExactly(s, step, stack, n);
    case FinishStep(_, _, _, _) => CompletionStepReleasesExactly(s, step, stack, n);
    case StartStep(_, _, _) => StartStepReleasesExactly(s, step, stack, n);
    case RecordStep(_, _, _, _) => RecordStepKeepsOwed(s, step, stack, n);
    case UndoStep(_, _) => UndoStepReleasesExactly(s, step, stack, n);
    case CrashStep =>
    case RestartStep(_, _) => RestartStepKeepsOwed(s, step, stack, n);
  }

  // ---------------------------------------------------------------- whole runs

  /** Service n is owed after the first i steps. */
  predicate OwedAt(s: Sys, steps: seq<Step>, i: nat, stack: string, n: string)
    requires i <= |steps|
  {
    n in Owed(Run(s, steps[..i]).db.rows, stack)
  }

  /** Step i discharges service n. */
  predicate DischargedAt(s: Sys, steps: seq<Step>, i: nat, stack: string, n: string)
    requires i < |steps|
  {
    Discharges(Run(s, steps[..i]), steps[i], stack, n)
  }

  ghost predicate AlwaysOwed(s: Sys, steps: seq<Step>, stack: string, n: string) {
    forall i :: 0 <= i <= |steps| ==> OwedAt(s, steps, i, stack, n)
  }

  ghost predicate NeverDischarged(s: Sys, steps: seq<Step>, stack: string, n: string) {
    forall i :: 0 <= i < |steps| ==> !DischargedAt(s, steps, i, stack, n)
  }

  lemma OwedAtNext(s: Sys, steps: seq<Step>, i: nat, stack: string, n: string)
    requires Inv(s) && LegalRun(steps) && i < |steps| && OwedAt(s, steps, i, stack, n)
    ensures OwedAt(s, steps, i + 1, stack, n) <==> !DischargedAt(s, steps, i, stack, n)
  {
    RunKeepsInv(s, steps[..i]);
    RunPrefix(s, steps, i);
    StepReleasesExactly(Run(s, steps[..i]), steps[i], stack, n);
  }

  /** What holds until it is stopped holds throughout exactly if it is never stopped. */
  lemma {:induction false} HoldsUntilStopped(holds: seq<bool>, stopped: seq<bool>, m: nat)
    requires m < |holds| && m <= |stopped| && holds[0]
    requires forall i, j :: 0 <= i < m && j == i + 1 && holds[i] ==> (holds[j] <==> !stopped[i])
    ensures (forall i :: 0 <= i <= m ==> holds[i]) <==> (forall i :: 0 <= i < m ==> !stopped[i])
  {
    if m > 0 {
      HoldsUntilStopped(holds, stopped, m - 1);
      assert holds[m - 1] ==> (holds[m] <==> !stopped[m - 1]);
    }
  }

  /** Obligations are never lost: along any run, through retries, new desired states, refused and rolled-back
      transactions, crashes and recovery, an owed service stays owed if and only if no step discharges it. */
  lemma ObligationsAreNeverLost(s: Sys, steps: seq<Step>, stack: string, n: string)
    requires Inv(s) && LegalRun(steps) && n in Owed(s.db.rows, stack)
    ensures AlwaysOwed(s, steps, stack, n) <==> NeverDischarged(s, steps, stack, n)
  {
    var owed := seq(|steps| + 1, i requires 0 <= i <= |steps| => OwedAt(s, steps, i, stack, n));
    var discharged := seq(|steps|, i requires 0 <= i < |steps| => DischargedAt(s, steps, i, stack, n));
    assert steps[..0] == [] && OwedAt(s, steps, 0, stack, n);
    forall i, j | 0 <= i < |steps| && j == i + 1 && owed[i] ensures owed[j] <==> !discharged[i] {
      OwedAtNext(s, steps, i, stack, n);
    }
    HoldsUntilStopped(owed, discharged, |steps|);
    assert forall i :: 0 <= i <= |steps| ==> owed[i] == OwedAt(s, steps, i, stack, n);
    assert forall i :: 0 <= i < |steps| ==> discharged[i] == DischargedAt(s, steps, i, stack, n);
  }

  /** An owed service that is no longer owed left at a step that discharged it. */
  lemma {:induction false} SettledAtDischarge(s: Sys, steps: seq<Step>, stack: string, n: string)
    requires Inv(s) && LegalRun(steps) && n in Owed(s.db.rows, stack) && n !in Owed(Run(s, steps).db.rows, stack)
    ensures exists i :: 0 <= i < |steps| && DischargedAt(s, steps, i, stack, n)
  {
    ObligationsAreNeverLost(s, steps, stack, n);
    assert steps[..|steps|] == steps && !OwedAt(s, steps, |steps|, stack, n);
  }
}
