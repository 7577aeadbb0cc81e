/** Whole runs of the controller: executions of many stacks interleaved step by step, with failing commits,
    crashes and recovery. */
module DeploymentRuns {
  import opened Wrappers
  import opened DeploymentModel
  import opened DeploymentStore
  import opened DeploymentService
  import opened DeploymentLifecycle
  import opened DeploymentController

  /** How far the one execution of a stack has come. */
  datatype Stage = Ready | Started(id: AttemptId)

  /** The process memory: unconfirmed completions, executions under way, undo callbacks handed out; and, as
      history, the attempts whose start was committed but reported failed. */
  datatype Memory = Memory(
    up: bool, pending: PendingMap, inflight: map<string, Stage>, receipts: seq<Receipt>, strays: set<AttemptId>)

  datatype Sys = Sys(db: Db, mem: Memory)

  const INITIAL := Sys(EMPTY, Memory(false, map[], map[], [], {}))

  datatype Step =
    | RecoverStep(stack: string, now: int, commit: Commit, inspectFails: bool)
    | StartStep(req: Request, now: int, commit: Commit)
    | RecordStep(id: AttemptId, name: string, generation: Generation, commit: Commit)
    | UndoStep(receipt: nat, commit: Commit)
    | FinishStep(stack: string, completion: Completion, now: int, commit: Commit)
    | CrashStep
    | RestartStep(now: int, commit: Commit)

  function TxOf(db: Db, req: Request, now: int): Tx<Option<AttemptId>> {
    StartTx(db, req.stack, req.desired, req.sourceChanged, req.manualRetry, now)
  }

  function AfterRecover(mem: Memory, stack: string, settled: Result<(), Error>): Memory {
    if settled.Ok? then mem.(pending := mem.pending - {stack}, inflight := mem.inflight[stack := Ready]) else mem
  }

  /** A start that reports failure gives the execution up, wherever its commit ended. */
  function AfterStart(mem: Memory, stack: string, started: Option<AttemptId>, reported: bool, landed: bool): Memory {
    if started.Some? && reported && landed then mem.(inflight := mem.inflight[stack := Started(started.value)])
    else
      mem.(inflight := mem.inflight - {stack},
           strays := if started.Some? && landed then mem.strays + {started.value} else mem.strays)
  }

  function AfterFinish(mem: Memory, stack: string, id: AttemptId, c: Completion, r: Result<(), Error>): Memory {
    mem.(pending := Conclude(mem.pending, stack, id, c, r), inflight := mem.inflight - {stack})
  }

  function NextRecover(s: Sys, stack: string, now: int, commit: Commit, inspectFails: bool): Sys {
    var (db, pending, settled) := Recover(s.db, s.mem.pending, stack, now, commit, inspectFails);
    Sys(db, AfterRecover(s.mem, stack, settled))
  }

  function NextStart(s: Sys, req: Request, now: int, commit: Commit): Sys {
    var tx := TxOf(s.db, req, now);
    var (db, r) := Persist(s.db, tx, commit);
    Sys(db, AfterStart(s.mem, req.stack, if tx.Ok? then tx.value.1 else None, r.Ok?, commit != RolledBack))
  }

  function NextFinish(s: Sys, stack: string, id: AttemptId, c: Completion, now: int, commit: Commit): Sys {
    var (db, pending, r) := Finish(s.db, s.mem.pending, stack, id, c, now, commit);
    Sys(db, AfterFinish(s.mem, stack, id, c, r))
  }

  function NextRecord(s: Sys, id: AttemptId, name: string, g: Generation, commit: Commit): Sys {
    var (db, r) := Persist(s.db, RecordTx(s.db, id, name, g), commit);
    Sys(db, if r.Ok? then s.mem.(receipts := s.mem.receipts + [r.value]) else s.mem)
  }

  predicate CanRecover(mem: Memory, stack: string) {
    mem.up && stack !in mem.inflight
  }

  predicate CanStart(mem: Memory, stack: string) {
    mem.up && stack in mem.inflight && mem.inflight[stack] == Ready
  }

  predicate CanFinish(mem: Memory, stack: string) {
    mem.up && stack in mem.inflight && mem.inflight[stack].Started?
  }

  /** One atomic step. Executions of one stack are serialized; a step that is not possible changes nothing. */
  function Next(s: Sys, step: Step): Sys {
    match step
    case RecoverStep(stack, now, commit, inspectFails) =>
      if CanRecover(s.mem, stack) then NextRecover(s, stack, now, commit, inspectFails) else s
    case StartStep(req, now, commit) =>
      if CanStart(s.mem, req.stack) then NextStart(s, req, now, commit) else s
    case RecordStep(id, name, g, commit) =>
      if s.mem.up then NextRecord(s, id, name, g, commit) else s
    case UndoStep(k, commit) =>
      if s.mem.up && k < |s.mem.receipts| then s.(db := Persist(s.db, UndoTx(s.db, s.mem.receipts[k]), commit).0) else s
    case FinishStep(stack, c, now, commit) =>
      if CanFinish(s.mem, stack) && State(c).Ok?
      then NextFinish(s, stack, s.mem.inflight[stack].id, c, now, commit)
      else s
    case CrashStep => s.(mem := Memory(false, map[], map[], [], s.mem.strays))
    case RestartStep(now, commit) =>
      if s.mem.up then s
      else
        var (db, r) := Persist(s.db, InterruptTx(s.db, now), commit);
        Sys(db, s.mem.(up := r.Ok?))
  }

  /** The deployer records only generations that name their service. */
  predicate Legal(step: Step) {
    step.RecordStep? ==> step.generation.serviceId != ""
  }

  function Run(s: Sys, steps: seq<Step>): Sys {
    if steps == [] then s else Next(Run(s, steps[..|steps| - 1]), steps[|steps| - 1])
  }

  lemma {:induction false} RunAppended(s: Sys, steps: seq<Step>, step: Step)
    ensures Run(s, steps + [step]) == Next(Run(s, steps), step)
  {
    assert (steps + [step])[..|steps|] == steps;
  }

  lemma {:induction false} RunPrefix(s: Sys, steps: seq<Step>, i: nat)
    requires i < |steps|
    ensures Run(s, steps[..i + 1]) == Next(Run(s, steps[..i]), steps[i])
  {
    assert steps[..i + 1] == steps[..i] + [steps[i]];
    RunAppended(s, steps[..i], steps[i]);
  }

  // ---------------------------------------------------------------- the invariant

  /** A waiting completion belongs to an attempt of its stack that is still running or has ended exactly so. */
  predicate PendingEntryOk(rows: seq<Deployment>, stack: string, p: Pending) {
    && Exists(rows, p.id) && rows[p.id.deployment].stack == stack
    && State(p.completion).Ok?
    && (RunningAt(rows, p.id) || EndedAs(AttemptAt(rows, p.id).progress, p.completion))
  }

  predicate EndedAs(progress: Progress, c: Completion) {
    State(c).Ok? && progress == State(c).value.progress.(finishedAt := progress.finishedAt)
  }

  ghost predicate PendingOk(rows: seq<Deployment>, mem: Memory) {
    forall k :: k in mem.pending ==> PendingEntryOk(rows, k, mem.pending[k])
  }

  ghost predicate InflightOk(rows: seq<Deployment>, mem: Memory) {
    forall k :: k in mem.inflight ==>
      && k !in mem.pending
      && (mem.inflight[k].Started? ==>
           RunningAt(rows, mem.inflight[k].id) && rows[mem.inflight[k].id.deployment].stack == k)
  }

  predicate HeldBy(mem: Memory, stack: string, id: AttemptId) {
    || (stack in mem.inflight && mem.inflight[stack] == Started(id))
    || (stack in mem.pending && mem.pending[stack].id == id)
  }

  /** Every running attempt is under way, waits in pending, or is a stray; strays are neither. */
  ghost predicate Accounted(rows: seq<Deployment>, mem: Memory) {
    && (mem.up ==> forall id :: RunningAt(rows, id) ==> id in mem.strays || HeldBy(mem, rows[id.deployment].stack, id))
    && (forall id :: id in mem.strays ==> Exists(rows, id) && !HeldBy(mem, rows[id.deployment].stack, id))
  }

  ghost predicate ReceiptsOk(rows: seq<Deployment>, mem: Memory) {
    forall k :: 0 <= k < |mem.receipts| ==> ReceiptSound(rows, mem.receipts[k])
  }

  predicate DownIsEmpty(mem: Memory) {
    !mem.up ==> mem.pending == map[] && mem.inflight == map[] && mem.receipts == []
  }

  ghost predicate MemoryOk(rows: seq<Deployment>, mem: Memory) {
    DownIsEmpty(mem) && PendingOk(rows, mem) && InflightOk(rows, mem) && Accounted(rows, mem) && ReceiptsOk(rows, mem)
  }

  ghost predicate Inv(s: Sys) {
    Lifecycle(s.db) && MemoryOk(s.db.rows, s.mem)
  }

  // ---------------------------------------------------------------- frames

  ghost predicate Evolves(before: seq<Deployment>, after: seq<Deployment>) {
    RowsOk(before) && RowsOk(after) && Extends(before, after)
  }

  lemma ReceiptsSurvive(before: seq<Deployment>, after: seq<Deployment>, mem: Memory, mem': Memory)
    requires Evolves(before, after) && ReceiptsOk(before, mem) && mem'.receipts == mem.receipts
    ensures ReceiptsOk(after, mem')
  {
    forall k | 0 <= k < |mem.receipts| ensures ReceiptSound(after, mem.receipts[k]) {
      var id := mem.receipts[k].id;
      assert ReceiptSound(before, mem.receipts[k]) && ExtendsRow(before[id.deployment], after[id.deployment]);
      RunningAttemptIsNewest(after, id);
      RunningAttemptIsNewest(before, id);
    }
  }

  lemma PendingEntrySurvives(before: seq<Deployment>, after: seq<Deployment>, stack: string, p: Pending)
    requires PendingEntryOk(before, stack, p) && Extends(before, after)
    requires RunningAt(before, p.id) ==> RunningAt(after, p.id)
    ensures PendingEntryOk(after, stack, p)
  {
    assert ExtendsRow(before[p.id.deployment], after[p.id.deployment]);
  }

  /** Attempt id may have ended and every other attempt is as it was. */
  ghost predicate EndsAtMost(before: seq<Deployment>, after: seq<Deployment>, id: AttemptId) {
    && (forall y :: Exists(after, y) <==> Exists(before, y))
    && (forall y :: RunningAt(after, y) ==> RunningAt(before, y))
    && (forall y :: y != id && RunningAt(before, y) ==> RunningAt(after, y))
  }

  // ---------------------------------------------------------------- completions

  lemma CompletedEndsOnly(db: Db, id: AttemptId, st: CompletionState, now: int)
    requires RowsOk(db.rows) && StateOk(st) && CompleteTx(db, id, st, now).Ok?
    ensures var after := CompleteTx(db, id, st, now).value.0;
      && EndsAtMost(db.rows, after.rows, id)
      && Exists(after.rows, id)
      && AttemptAt(after.rows, id).progress == st.progress.(finishedAt := Some(now))
  {
    CompleteEffect(db, id, st, now);
    EndedRowEndsOnly(db.rows, id, st, now);
  }

  lemma EndedRowEndsOnly(rows: seq<Deployment>, id: AttemptId, st: CompletionState, now: int)
    requires RowsOk(rows) && RunningAt(rows, id) && StateOk(st)
    ensures var after := rows[id.deployment := Ended(rows[id.deployment], st, now)];
      && EndsAtMost(rows, after, id)
      && Exists(after, id) && AttemptAt(after, id).progress == st.progress.(finishedAt := Some(now))
  {
    RunningAttemptIsNewest(rows, id);
  }

  lemma CompleteIffRunning(db: Db, id: AttemptId, st: CompletionState, now: int)
    requires RowsOk(db.rows) && Exists(db.rows, id)
    ensures CompleteTx(db, id, st, now).Ok? <==> RunningAt(db.rows, id)
    ensures CompleteTx(db, id, st, now).Err? ==> CompleteTx(db, id, st, now).error == NotRunning
  {
    RunningAttemptIsNewest(db.rows, id);
  }

  /** A completion attempted on an existing attempt: on an ended one it is refused; on a running one it lands,
      ending the attempt as chosen, or it does not. */
  ghost predicate Completes(
      before: seq<Deployment>, after: seq<Deployment>, r: Result<(), Error>, id: AttemptId, c: Completion)
  {
    && Exists(before, id)
    && Evolves(before, after)
    && EndsAtMost(before, after, id)
    && (r.Ok? ==> RunningAt(before, id) && !RunningAt(after, id))
    && (RunningAt(before, id) ==> r.Ok? || r.error == StorageFailure)
    && (!RunningAt(before, id) ==> r == Err(NotRunning))
    && (RunningAt(before, id) && !RunningAt(after, id) ==>
         Exists(after, id) && EndedAs(AttemptAt(after, id).progress, c))
  }

  lemma CompletionEffect(db: Db, id: AttemptId, c: Completion, now: int, commit: Commit)
    requires Lifecycle(db) && State(c).Ok? && Exists(db.rows, id)
    ensures var (after, r) := CompleteTransaction(db, id, c, now, commit);
      && Lifecycle(after) && Extends(db.rows, after.rows)
      && Completes(db.rows, after.rows, r, id, c)
      && (RunningAt(db.rows, id) && commit == Committed ==> r.Ok?)
  {
    var st := State(c).value;
    CompleteIffRunning(db, id, st, now);
    if RunningAt(db.rows, id) {
      CompletedEndsOnly(db, id, st, now);
      CompleteKeepsLifecycle(db, id, st, now);
    }
  }

  /** The executing or waiting attempt id of a stack may have ended; the stack's own entries were rearranged. */
  ghost predicate Rearranged(mem: Memory, mem': Memory, stack: string, id: AttemptId, rows: seq<Deployment>) {
    && HeldBy(mem, stack, id) && mem.up && mem'.up
    && mem'.strays == mem.strays && mem'.receipts == mem.receipts
    && (forall k :: k != stack ==> (k in mem'.pending <==> k in mem.pending))
    && (forall k :: k != stack && k in mem.pending ==> mem'.pending[k] == mem.pending[k])
    && (forall k :: k != stack ==> (k in mem'.inflight <==> k in mem.inflight))
    && (forall k :: k != stack && k in mem.inflight ==> mem'.inflight[k] == mem.inflight[k])
    && (stack in mem'.pending ==>
         mem'.pending[stack].id == id && PendingEntryOk(rows, stack, mem'.pending[stack]) && stack !in mem'.inflight)
    && (stack in mem'.inflight ==> mem'.inflight[stack] == Ready)
    && (RunningAt(rows, id) ==> stack in mem'.pending)
  }

  lemma RearrangedPending(before: seq<Deployment>, after: seq<Deployment>, mem: Memory, mem': Memory,
                          stack: string, id: AttemptId)
    requires PendingOk(before, mem) && Evolves(before, after) && EndsAtMost(before, after, id)
    requires Exists(before, id) && before[id.deployment].stack == stack
    requires Rearranged(mem, mem', stack, id, after)
    ensures PendingOk(after, mem')
  {
    forall k | k in mem'.pending ensures PendingEntryOk(after, k, mem'.pending[k]) {
      if k != stack {
        assert PendingEntryOk(before, k, mem.pending[k]);
        PendingEntrySurvives(before, after, k, mem'.pending[k]);
      }
    }
  }

  lemma RearrangedInflight(before: seq<Deployment>, after: seq<Deployment>, mem: Memory, mem': Memory,
                           stack: string, id: AttemptId)
    requires InflightOk(before, mem) && Evolves(before, after) && EndsAtMost(before, after, id)
    requires Exists(before, id) && before[id.deployment].stack == stack
    requires Rearranged(mem, mem', stack, id, after)
    ensures InflightOk(after, mem')
  {
    forall k | k in mem'.inflight && k != stack && mem'.inflight[k].Started?
      ensures RunningAt(after, mem'.inflight[k].id) && after[mem'.inflight[k].id.deployment].stack == k
    {
      assert k in mem.inflight;
      assert ExtendsRow(before[mem.inflight[k].id.deployment], after[mem.inflight[k].id.deployment]);
    }
  }

  lemma RearrangedRunning(before: seq<Deployment>, after: seq<Deployment>, mem: Memory, mem': Memory,
                          stack: string, id: AttemptId, y: AttemptId)
    requires InflightOk(before, mem) && Accounted(before, mem)
    requires Evolves(before, after) && EndsAtMost(before, after, id)
    requires Exists(before, id) && before[id.deployment].stack == stack
    requires Rearranged(mem, mem', stack, id, after)
    requires RunningAt(after, y)
    ensures y in mem'.strays || HeldBy(mem', after[y.deployment].stack, y)
  {
    assert ExtendsRow(before[y.deployment], after[y.deployment]);
  }

  lemma RearrangedStray(before: seq<Deployment>, after: seq<Deployment>, mem: Memory, mem': Memory,
                        stack: string, id: AttemptId, y: AttemptId)
    requires InflightOk(before, mem) && Accounted(before, mem)
    requires Evolves(before, after) && EndsAtMost(before, after, id)
    requires Exists(before, id) && before[id.deployment].stack == stack
    requires Rearranged(mem, mem', stack, id, after)
    requires y in mem'.strays
    ensures Exists(after, y) && !HeldBy(mem', after[y.deployment].stack, y)
  {
    assert ExtendsRow(before[y.deployment], after[y.deployment]);
  }

  lemma RearrangedAccounts(before: seq<Deployment>, after: seq<Deployment>, mem: Memory, mem': Memory,
                           stack: string, id: AttemptId)
    requires InflightOk(before, mem) && Accounted(before, mem)
    requires Evolves(before, after) && EndsAtMost(before, after, id)
    requires Exists(before, id) && before[id.deployment].stack == stack
    requires Rearranged(mem, mem', stack, id, after)
    ensures Accounted(after, mem')
  {
    forall y | RunningAt(after, y) ensures y in mem'.strays || HeldBy(mem', after[y.deployment].stack, y) {
      RearrangedRunning(before, after, mem, mem', stack, id, y);
    }
    forall y | y in mem'.strays ensures Exists(after, y) && !HeldBy(mem', after[y.deployment].stack, y) {
      RearrangedStray(before, after, mem, mem', stack, id, y);
    }
  }

  lemma RearrangedKeepsMemory(before: seq<Deployment>, after: seq<Deployment>, mem: Memory, mem': Memory,
                              stack: string, id: AttemptId)
    requires MemoryOk(before, mem) && Evolves(before, after) && EndsAtMost(before, after, id)
    requires Exists(before, id) && before[id.deployment].stack == stack
    requires Rearranged(mem, mem', stack, id, after)
    ensures MemoryOk(after, mem')
  {
    RearrangedPending(before, after, mem, mem', stack, id);
    RearrangedInflight(before, after, mem, mem', stack, id);
    RearrangedAccounts(before, after, mem, mem', stack, id);
    ReceiptsSurvive(before, after, mem, mem');
  }

  lemma FinishedRearranged(before: seq<Deployment>, after: seq<Deployment>, mem: Memory, stack: string,
                           c: Completion, r: Result<(), Error>)
    requires CanFinish(mem, stack) && State(c).Ok?
    requires RunningAt(before, mem.inflight[stack].id) && before[mem.inflight[stack].id.deployment].stack == stack
    requires Completes(before, after, r, mem.inflight[stack].id, c)
    ensures Rearranged(mem, AfterFinish(mem, stack, mem.inflight[stack].id, c, r), stack, mem.inflight[stack].id, after)
  {
    var id := mem.inflight[stack].id;
    assert ExtendsRow(before[id.deployment], after[id.deployment]);
  }

  lemma FinishedMemory(before: seq<Deployment>, after: seq<Deployment>, mem: Memory, stack: string,
                       c: Completion, r: Result<(), Error>)
    requires MemoryOk(before, mem) && CanFinish(mem, stack) && State(c).Ok?
    requires Completes(before, after, r, mem.inflight[stack].id, c)
    ensures MemoryOk(after, AfterFinish(mem, stack, mem.inflight[stack].id, c, r))
  {
    var id := mem.inflight[stack].id;
    FinishedRearranged(before, after, mem, stack, c, r);
    RearrangedKeepsMemory(before, after, mem, AfterFinish(mem, stack, id, c, r), stack, id);
  }

  lemma FinishKeepsInv(s: Sys, stack: string, c: Completion, now: int, commit: Commit)
    requires Inv(s) && CanFinish(s.mem, stack) && State(c).Ok?
    ensures Inv(NextFinish(s, stack, s.mem.inflight[stack].id, c, now, commit))
    ensures Extends(s.db.rows, NextFinish(s, stack, s.mem.inflight[stack].id, c, now, commit).db.rows)
  {
    var id := s.mem.inflight[stack].id;
    CompletionEffect(s.db, id, c, now, commit);
    var (after, r) := CompleteTransaction(s.db, id, c, now, commit);
    FinishedMemory(s.db.rows, after.rows, s.mem, stack, c, r);
  }

  /** A waiting entry is dropped only once its attempt has ended exactly as the entry says; the only other
      outcome is a storage failure that leaves the entry waiting. */
  lemma SettleEffect(before: seq<Deployment>, after: seq<Deployment>, stack: string, p: Pending,
                     r: Result<(), Error>, inspectFails: bool)
    requires PendingEntryOk(before, stack, p) && Completes(before, after, r, p.id, p.completion)
    ensures PendingEntryOk(after, stack, p)
    ensures var settled := Settle(after, stack, p, r, inspectFails);
      && (settled.Ok? ==> !RunningAt(after, p.id) && EndedAs(AttemptAt(after, p.id).progress, p.completion))
      && (settled.Err? ==> settled.error == StorageFailure)
      && (!inspectFails && (r.Err? ==> r.error == NotRunning) ==> settled.Ok?)
  {
    assert ExtendsRow(before[p.id.deployment], after[p.id.deployment]);
  }

  lemma SettledRearranged(before: seq<Deployment>, after: seq<Deployment>, mem: Memory, stack: string,
                          r: Result<(), Error>, inspectFails: bool)
    requires CanRecover(mem, stack) && stack in mem.pending && PendingEntryOk(before, stack, mem.pending[stack])
    requires Completes(before, after, r, mem.pending[stack].id, mem.pending[stack].completion)
    ensures Rearranged(mem, AfterRecover(mem, stack, Settle(after, stack, mem.pending[stack], r, inspectFails)),
                       stack, mem.pending[stack].id, after)
  {
    SettleEffect(before, after, stack, mem.pending[stack], r, inspectFails);
  }

  lemma SettledMemory(before: seq<Deployment>, after: seq<Deployment>, mem: Memory, stack: string,
                      r: Result<(), Error>, inspectFails: bool)
    requires MemoryOk(before, mem) && CanRecover(mem, stack) && stack in mem.pending
    requires PendingEntryOk(before, stack, mem.pending[stack])
    requires Completes(before, after, r, mem.pending[stack].id, mem.pending[stack].completion)
    ensures MemoryOk(after, AfterRecover(mem, stack, Settle(after, stack, mem.pending[stack], r, inspectFails)))
  {
    SettledRearranged(before, after, mem, stack, r, inspectFails);
    var settled := Settle(after, stack, mem.pending[stack], r, inspectFails);
    RearrangedKeepsMemory(before, after, mem, AfterRecover(mem, stack, settled), stack, mem.pending[stack].id);
  }

  lemma NothingPendingMemory(rows: seq<Deployment>, mem: Memory, stack: string)
    requires MemoryOk(rows, mem) && CanRecover(mem, stack) && stack !in mem.pending
    ensures MemoryOk(rows, AfterRecover(mem, stack, Ok(())))
  {
    var mem' := AfterRecover(mem, stack, Ok(()));
    assert mem'.pending == mem.pending;
    assert forall k, id :: HeldBy(mem', k, id) <==> HeldBy(mem, k, id);
  }

  lemma RecoverKeepsInv(s: Sys, stack: string, now: int, commit: Commit, inspectFails: bool)
    requires Inv(s) && CanRecover(s.mem, stack)
    ensures Inv(NextRecover(s, stack, now, commit, inspectFails))
    ensures Extends(s.db.rows, NextRecover(s, stack, now, commit, inspectFails).db.rows)
  {
    if stack in s.mem.pending {
      var p := s.mem.pending[stack];
      assert PendingEntryOk(s.db.rows, stack, p);
      CompletionEffect(s.db, p.id, p.completion, now, commit);
      var (after, r) := CompleteTransaction(s.db, p.id, p.completion, now, commit);
      SettledMemory(s.db.rows, after.rows, s.mem, stack, r, inspectFails);
    } else {
      NothingPendingMemory(s.db.rows, s.mem, stack);
    }
  }

  // ---------------------------------------------------------------- starts

  lemma UntouchedStartMemory(rows: seq<Deployment>, mem: Memory, stack: string)
    requires MemoryOk(rows, mem) && CanStart(mem, stack)
    ensures MemoryOk(rows, mem.(inflight := mem.inflight - {stack}))
  {
    var mem' := mem.(inflight := mem.inflight - {stack});
    assert forall k, id :: HeldBy(mem', k, id) <==> HeldBy(mem, k, id);
  }

  lemma StartedEntries(before: seq<Deployment>, after: seq<Deployment>, mem: Memory, stack: string,
                       x: AttemptId, now: int, reported: bool)
    requires PendingOk(before, mem) && InflightOk(before, mem) && CanStart(mem, stack)
    requires Evolves(before, after) && Starts(before, after, stack, x, now)
    ensures var mem' := AfterStart(mem, stack, Some(x), reported, true);
      PendingOk(after, mem') && InflightOk(after, mem')
  {
    var mem' := AfterStart(mem, stack, Some(x), reported, true);
    forall k | k in mem'.pending ensures PendingEntryOk(after, k, mem'.pending[k]) {
      assert PendingEntryOk(before, k, mem.pending[k]);
      assert k != stack;
      PendingEntrySurvives(before, after, k, mem.pending[k]);
    }
    forall k | k in mem'.inflight && k != stack && mem'.inflight[k].Started?
      ensures RunningAt(after, mem'.inflight[k].id) && after[mem'.inflight[k].id.deployment].stack == k
    {
      assert k in mem.inflight;
      assert ExtendsRow(before[mem.inflight[k].id.deployment], after[mem.inflight[k].id.deployment]);
    }
  }

  lemma StartedAccounts(before: seq<Deployment>, after: seq<Deployment>, mem: Memory, stack: string,
                        x: AttemptId, now: int, reported: bool)
    requires PendingOk(before, mem) && InflightOk(before, mem) && Accounted(before, mem) && CanStart(mem, stack)
    requires Evolves(before, after) && Starts(before, after, stack, x, now)
    ensures Accounted(after, AfterStart(mem, stack, Some(x), reported, true))
  {
    var mem' := AfterStart(mem, stack, Some(x), reported, true);
    forall y | Exists(before, y)
      ensures y != x
      ensures RunningAt(after, y) ==> y in mem'.strays || HeldBy(mem', after[y.deployment].stack, y)
      ensures y in mem'.strays ==> Exists(after, y) && !HeldBy(mem', after[y.deployment].stack, y)
    {
      assert ExtendsRow(before[y.deployment], after[y.deployment]);
    }
  }

  lemma StartedMemory(before: seq<Deployment>, after: seq<Deployment>, mem: Memory, stack: string,
                      x: AttemptId, now: int, reported: bool)
    requires MemoryOk(before, mem) && CanStart(mem, stack)
    requires Evolves(before, after) && Starts(before, after, stack, x, now)
    ensures MemoryOk(after, AfterStart(mem, stack, Some(x), reported, true))
  {
    StartedEntries(before, after, mem, stack, x, now, reported);
    StartedAccounts(before, after, mem, stack, x, now, reported);
    ReceiptsSurvive(before, after, mem, AfterStart(mem, stack, Some(x), reported, true));
  }

  /** A start never fails on valid tables; what it leaves depends on where its commit ends. */
  lemma StartLeaves(s: Sys, req: Request, now: int, commit: Commit)
    requires Lifecycle(s.db)
    ensures TxOf(s.db, req, now).Ok?
    ensures var (after, id) := TxOf(s.db, req, now).value; var next := NextStart(s, req, now, commit);
      && next.db == (if commit == RolledBack then s.db else after)
      && next.mem == AfterStart(s.mem, req.stack, id, commit == Committed, commit != RolledBack)
  {
    StartKeepsLifecycle(s.db, req.stack, req.desired, req.sourceChanged, req.manualRetry, now);
  }

  lemma StartKeepsInv(s: Sys, req: Request, now: int, commit: Commit)
    requires Inv(s) && CanStart(s.mem, req.stack)
    ensures Inv(NextStart(s, req, now, commit))
    ensures Extends(s.db.rows, NextStart(s, req, now, commit).db.rows)
  {
    StartLeaves(s, req, now, commit);
    StartKeepsLifecycle(s.db, req.stack, req.desired, req.sourceChanged, req.manualRetry, now);
    var (after, id) := TxOf(s.db, req, now).value;
    if id.Some? && commit != RolledBack {
      StartedMemory(s.db.rows, after.rows, s.mem, req.stack, id.value, now, commit == Committed);
    } else {
      assert NextStart(s, req, now, commit).db == s.db;
      UntouchedStartMemory(s.db.rows, s.mem, req.stack);
    }
  }

  // ---------------------------------------------------------------- update generations, crash and recovery

  /** Only obligations changed: every attempt is as it was. */
  ghost predicate SameAttempts(before: seq<Deployment>, after: seq<Deployment>) {
    && |after| == |before|
    && (forall i :: 0 <= i < |before| ==> after[i].attempts == before[i].attempts && after[i].stack == before[i].stack)
  }

  lemma SameAttemptsMemory(before: seq<Deployment>, after: seq<Deployment>, mem: Memory)
    requires MemoryOk(before, mem) && Evolves(before, after) && SameAttempts(before, after)
    ensures MemoryOk(after, mem)
  {
    assert forall y :: Exists(after, y) <==> Exists(before, y);
    assert forall y :: Exists(after, y) ==> AttemptAt(after, y) == AttemptAt(before, y);
    ReceiptsSurvive(before, after, mem, mem);
    forall k | k in mem.pending ensures PendingEntryOk(after, k, mem.pending[k]) {
      assert PendingEntryOk(before, k, mem.pending[k]);
    }
  }

  lemma RecordedMemory(rows: seq<Deployment>, mem: Memory, receipt: Receipt)
    requires MemoryOk(rows, mem) && mem.up && ReceiptSound(rows, receipt)
    ensures MemoryOk(rows, mem.(receipts := mem.receipts + [receipt]))
  {
    assert forall k, id :: HeldBy(mem.(receipts := mem.receipts + [receipt]), k, id) <==> HeldBy(mem, k, id);
  }

  lemma RecordKeepsInv(s: Sys, id: AttemptId, name: string, g: Generation, commit: Commit)
    requires Inv(s) && s.mem.up && g.serviceId != ""
    ensures Inv(NextRecord(s, id, name, g, commit))
    ensures Extends(s.db.rows, NextRecord(s, id, name, g, commit).db.rows)
  {
    if RecordTx(s.db, id, name, g).Ok? {
      RecordKeepsLifecycle(s.db, id, name, g);
      var (after, receipt) := RecordTx(s.db, id, name, g).value;
      SameAttemptsMemory(s.db.rows, after.rows, s.mem);
      RecordedMemory(after.rows, s.mem, receipt);
    }
  }

  lemma UndoKeepsInv(s: Sys, k: nat, commit: Commit)
    requires Inv(s) && s.mem.up && k < |s.mem.receipts|
    ensures var after := Persist(s.db, UndoTx(s.db, s.mem.receipts[k]), commit).0;
      Inv(s.(db := after)) && Extends(s.db.rows, after.rows)
  {
    assert ReceiptSound(s.db.rows, s.mem.receipts[k]);
    if UndoTx(s.db, s.mem.receipts[k]).Ok? {
      UndoKeepsLifecycle(s.db, s.mem.receipts[k]);
      SameAttemptsMemory(s.db.rows, UndoTx(s.db, s.mem.receipts[k]).value.0.rows, s.mem);
    }
  }

  /** With nothing in memory but the history, a restart needs every attempt ended before it lets executions begin. */
  lemma RestartedMemory(before: seq<Deployment>, after: seq<Deployment>, mem: Memory, up: bool)
    requires MemoryOk(before, mem) && !mem.up && Extends(before, after)
    requires up ==> forall id :: !RunningAt(after, id)
    ensures MemoryOk(after, mem.(up := up))
  {
    forall y | y in mem.strays ensures Exists(after, y) {
      assert ExtendsRow(before[y.deployment], after[y.deployment]);
    }
  }

  /** What a restart leaves depends on where its commit ends. */
  lemma RestartLeaves(s: Sys, now: int, commit: Commit)
    requires InterruptTx(s.db, now).Ok?
    ensures var next := Next(s, RestartStep(now, commit));
      if s.mem.up then next == s
      else next == Sys(if commit == RolledBack then s.db else InterruptTx(s.db, now).value.0,
                       s.mem.(up := commit == Committed))
  {
  }

  lemma RestartKeepsInv(s: Sys, now: int, commit: Commit)
    requires Inv(s) && !s.mem.up
    ensures Inv(Next(s, RestartStep(now, commit)))
    ensures Extends(s.db.rows, Next(s, RestartStep(now, commit)).db.rows)
  {
    RecoveryLeavesNothingRunning(s.db, now);
    RestartLeaves(s, now, commit);
    if commit != RolledBack {
      RestartedMemory(s.db.rows, InterruptTx(s.db, now).value.0.rows, s.mem, commit == Committed);
    }
  }

  lemma NextKeepsInv(s: Sys, step: Step)
    requires Inv(s) && Legal(step)
    ensures Inv(Next(s, step))
    ensures Extends(s.db.rows, Next(s, step).db.rows)
  {
    match step
    case RecoverStep(stack, now, commit, inspectFails) =>
      if CanRecover(s.mem, stack) { RecoverKeepsInv(s, stack, now, commit, inspectFails); }
    case StartStep(req, now, commit) =>
      if CanStart(s.mem, req.stack) { StartKeepsInv(s, req, now, commit); }
    case RecordStep(id, name, g, commit) =>
      if s.mem.up { RecordKeepsInv(s, id, name, g, commit); }
    case UndoStep(k, commit) =>
      if s.mem.up && k < |s.mem.receipts| { UndoKeepsInv(s, k, commit); }
    case FinishStep(stack, c, now, commit) =>
      if CanFinish(s.mem, stack) && State(c).Ok? { FinishKeepsInv(s, stack, c, now, commit); }
    case CrashStep =>
    case RestartStep(now, commit) =>
      if !s.mem.up { RestartKeepsInv(s, now, commit); }
  }

  ghost predicate LegalRun(steps: seq<Step>) {
    forall i :: 0 <= i < |steps| ==> Legal(steps[i])
  }

  /** Every run keeps the lifecycle and memory invariants, and no run changes an ended attempt. */
  lemma {:induction false} RunKeepsInv(s: Sys, steps: seq<Step>)
    requires Inv(s) && LegalRun(steps)
    ensures Inv(Run(s, steps)) && Extends(s.db.rows, Run(s, steps).db.rows)
  {
    if steps != [] {
      var before := Run(s, steps[..|steps| - 1]);
      RunKeepsInv(s, steps[..|steps| - 1]);
      NextKeepsInv(before, steps[|steps| - 1]);
      ExtendsIsTransitive(s.db.rows, before.db.rows, Run(s, steps).db.rows);
    }
  }
}
