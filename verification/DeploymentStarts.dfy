/** When a start makes an attempt, what it stores and publishes, and what the caller is told when it makes none. */
module DeploymentStarts {
  import opened Wrappers
  import opened DeploymentModel
  import opened DeploymentStore
  import opened DeploymentService
  import opened DeploymentLifecycle
  import opened DeploymentController
  import opened DeploymentRuns
  import opened DeploymentExecution
  import Retry
  import Text

  // ---------------------------------------------------------------- when an attempt starts

  /** The failure may pass by itself, and the backoff since the newest attempt ended is over. */
  predicate BackedOff(d: Deployment, now: int) {
    && d.progress.retryable && d.progress.finishedAt.Some?
    && d.progress.finishedAt.value + Retry.Delay(|d.attempts|) <= now
  }

  /** The first deployment of a changed source, a changed desired state, or a retry that is asked for or due. */
  predicate Due(rows: seq<Deployment>, req: Request, now: int) {
    var i := LatestRow(rows, req.stack);
    if i < 0 then req.sourceChanged
    else
      || rows[i].desired.digest != req.desired.digest
      || (&& (rows[i].progress.status == Failed || rows[i].progress.status == Interrupted)
          && (req.manualRetry || BackedOff(rows[i], now)))
  }

  lemma ExistingStartsIff(db: Db, i: nat, manual: bool, now: int)
    requires i < |db.rows| && RowOk(db.rows[i])
    ensures StartExisting(db, i, manual, now).Ok?
    ensures StartExisting(db, i, manual, now).value.1.Some? <==>
      && (db.rows[i].progress.status == Failed || db.rows[i].progress.status == Interrupted)
      && (manual || BackedOff(db.rows[i], now))
  {
    RetryEffect(db, i, now);
  }

  lemma FirstStartsIff(db: Db, req: Request, now: int)
    requires Lifecycle(db) && LatestRow(db.rows, req.stack) < 0
    ensures TxOf(db, req, now).Ok? && (TxOf(db, req, now).value.1.Some? <==> req.sourceChanged)
  {
    FirstStarts(db, req.stack, req.desired, now);
  }

  /** On valid tables a start makes an attempt exactly when one is due. */
  lemma StartsIff(db: Db, req: Request, now: int)
    requires Lifecycle(db)
    ensures TxOf(db, req, now).Ok?
    ensures TxOf(db, req, now).value.1.Some? <==> Due(db.rows, req, now)
  {
    var i := LatestRow(db.rows, req.stack);
    if i < 0 {
      FirstStartsIff(db, req, now);
    } else if db.rows[i].desired.digest != req.desired.digest {
      ReplacementEffect(db, i, req.stack, req.desired, now);
    } else {
      ExistingStartsIff(db, i, req.manualRetry, now);
    }
  }

  /** The concrete retries: a failed attempt that may pass is retried an hour later without being asked, and any failed
      attempt is retried at once when asked. */
  lemma FailedAttemptIsRetried(db: Db, req: Request, now: int)
    requires Lifecycle(db) && LatestRow(db.rows, req.stack) >= 0
    requires var d := db.rows[LatestRow(db.rows, req.stack)];
      && d.desired.digest == req.desired.digest && d.progress.status == Failed
      && (req.manualRetry || (d.progress.retryable && d.progress.finishedAt.value + Retry.HOUR as int <= now))
    ensures TxOf(db, req, now).Ok?
    ensures var i := LatestRow(db.rows, req.stack);
      TxOf(db, req, now).value.1 == Some(AttemptId(i, |db.rows[i].attempts|))
  {
    var i := LatestRow(db.rows, req.stack);
    assert RowOk(db.rows[i]);
    StartsIff(db, req, now);
    AttemptStored(db, req, now);
  }

  // ---------------------------------------------------------------- what a start stores

  /** The attempt is the running newest one of a row that wants the given digest. */
  predicate Stored(rows: seq<Deployment>, id: AttemptId, digest: string, now: int) {
    && Exists(rows, id) && id.index == |rows[id.deployment].attempts| - 1
    && AttemptAt(rows, id) == Attempt(id.index + 1, now, RUNNING)
    && rows[id.deployment].progress == RUNNING && rows[id.deployment].desired.digest == digest
  }

  lemma FirstStored(db: Db, req: Request, now: int)
    requires Lifecycle(db) && LatestRow(db.rows, req.stack) < 0 && req.sourceChanged
    ensures TxOf(db, req, now).Ok?
    ensures var (after, started) := TxOf(db, req, now).value; var n := |db.rows|;
      && started == Some(AttemptId(n, 0)) && |after.rows| == n + 1
      && Stored(after.rows, AttemptId(n, 0), req.desired.digest, now)
      && after.rows[n].stack == req.stack && after.rows[n].desired == req.desired
      && after.rows[n].verification == Verification(false, [], map[])
  {
    FirstStarts(db, req.stack, req.desired, now);
  }

  lemma RetryStored(db: Db, i: nat, manual: bool, now: int)
    requires i < |db.rows| && RowOk(db.rows[i])
    ensures StartExisting(db, i, manual, now).Ok?
    ensures var (after, started) := StartExisting(db, i, manual, now).value; var k := |db.rows[i].attempts|;
      started.Some? ==>
        && started == Some(AttemptId(i, k)) && |after.rows| == |db.rows|
        && Stored(after.rows, AttemptId(i, k), db.rows[i].desired.digest, now)
        && after.rows[i].stack == db.rows[i].stack && after.rows[i].desired == db.rows[i].desired
  {
    RetryEffect(db, i, now);
  }

  lemma ReplacementStored(db: Db, i: nat, req: Request, now: int)
    requires Lifecycle(db) && i == LatestRow(db.rows, req.stack)
    ensures StartChanged(db, i, req.stack, req.desired, now).Ok?
    ensures var (after, started) := StartChanged(db, i, req.stack, req.desired, now).value; var n := |db.rows|;
      && started == Some(AttemptId(n, 0)) && |after.rows| == n + 1
      && Stored(after.rows, AttemptId(n, 0), req.desired.digest, now)
      && after.rows[n].stack == req.stack && after.rows[n].desired == req.desired && after.rows[n].verification.known
  {
    ReplacementEffect(db, i, req.stack, req.desired, now);
  }

  /** A changed desired state takes over, of what its predecessor owes once it has ended, the services it still has, in
      its own order, with the generations recorded for them and no others. */
  lemma ReplacementInherits(db: Db, i: nat, req: Request, now: int)
    requires Lifecycle(db) && i == LatestRow(db.rows, req.stack)
    ensures StartChanged(db, i, req.stack, req.desired, now).Ok?
    ensures var rows := StartChanged(db, i, req.stack, req.desired, now).value.0.rows;
      |rows| == |db.rows| + 1 &&
      var (owed, taken) := (rows[i].verification, rows[|db.rows|].verification);
      && taken.known && taken.unresolved == Keep(req.desired.services, owed.unresolved)
      && (forall n :: n in taken.generations <==> n in owed.generations && n in taken.unresolved)
      && (forall n :: n in taken.generations ==> taken.generations[n] == owed.generations[n])
  {
    ReplacementEffect(db, i, req.stack, req.desired, now);
    SupersedeEffect(db, i, now);
    assert RowOk(SupersedePrevious(db, i, now).value.0.rows[i]);
  }

  /** The new attempt is the running newest one of a row of the stack with the requested desired state: of the failed
      row itself, or of a new row when there was none or its digest has changed. */
  lemma AttemptStored(db: Db, req: Request, now: int)
    requires Lifecycle(db)
    ensures TxOf(db, req, now).Ok? && (TxOf(db, req, now).value.1.Some? ==>
      var (after, started) := TxOf(db, req, now).value; var id := started.value;
      var i := LatestRow(db.rows, req.stack);
      && Stored(after.rows, id, req.desired.digest, now) && after.rows[id.deployment].stack == req.stack
      && (if i >= 0 && db.rows[i].desired.digest == req.desired.digest
          then id == AttemptId(i, |db.rows[i].attempts|) && |after.rows| == |db.rows|
          else id == AttemptId(|db.rows|, 0) && |after.rows| == |db.rows| + 1
               && after.rows[id.deployment].desired == req.desired
               && (after.rows[id.deployment].verification.known <==> i >= 0)))
  {
    StartsIff(db, req, now);
    var i := LatestRow(db.rows, req.stack);
    if i < 0 {
      if req.sourceChanged { FirstStored(db, req, now); }
    } else if db.rows[i].desired.digest != req.desired.digest {
      ReplacementStored(db, i, req, now);
    } else {
      RetryStored(db, i, req.manualRetry, now);
    }
  }

  // ---------------------------------------------------------------- what a start publishes

  predicate Publishes(before: seq<Event>, after: seq<Event>, stack: string, ended: seq<Event>, removed: seq<string>) {
    && |after| == |before| + |ended| + |removed|
    && after[..|before|] == before && after[|before|..|before| + |ended|] == ended
    && forall k :: 0 <= k < |removed| ==>
         after[|before| + |ended| + k] == ServiceRemovedFromDesired(stack, removed[k])
  }

  function Interruption(db: Db, i: nat): seq<Event>
    requires i < |db.rows|
  {
    if db.rows[i].progress.status == Running && db.rows[i].attempts != []
    then [DeployInterrupted(AttemptId(i, |db.rows[i].attempts| - 1), CodeProcessInterrupted, None)] else []
  }

  lemma SupersedePublishes(db: Db, i: nat, now: int)
    requires i < |db.rows| && RowsOk(db.rows)
    ensures SupersedePrevious(db, i, now).Ok?
    ensures SupersedePrevious(db, i, now).value.0.outbox == db.outbox + Interruption(db, i)
  {
    assert RowOk(db.rows[i]);
    NewestIsLast(db.rows[i]);
    var id := AttemptId(i, |db.rows[i].attempts| - 1);
    if db.rows[i].progress.status == Running { CompleteEffect(db, id, INTERRUPTION, now); }
  }

  lemma ReplacementPublishes(db: Db, i: nat, req: Request, now: int)
    requires Lifecycle(db) && i == LatestRow(db.rows, req.stack)
    ensures StartChanged(db, i, req.stack, req.desired, now).Ok?
    ensures StartChanged(db, i, req.stack, req.desired, now).value.0.outbox ==
      db.outbox + Interruption(db, i) + RemovalEvents(req.stack, Removals(db.rows[i].desired, req.desired))
  {
    SupersedePublishes(db, i, now);
    ReplacementEffect(db, i, req.stack, req.desired, now);
  }

  lemma ExistingPublishesNothing(db: Db, i: nat, manual: bool, now: int)
    requires i < |db.rows| && RowOk(db.rows[i])
    ensures StartExisting(db, i, manual, now).Ok? && StartExisting(db, i, manual, now).value.0.outbox == db.outbox
  {
    RetryEffect(db, i, now);
  }

  lemma AppendedPublishes(before: seq<Event>, stack: string, ended: seq<Event>, removed: seq<string>)
    ensures Publishes(before, before + ended + RemovalEvents(stack, removed), stack, ended, removed)
  {
  }

  lemma UnchangedPublishesNothing(db: Db, i: int, req: Request, now: int)
    requires Lifecycle(db) && i == LatestRow(db.rows, req.stack)
    requires i < 0 || db.rows[i].desired.digest == req.desired.digest
    ensures TxOf(db, req, now).Ok?
    ensures Publishes(db.outbox, TxOf(db, req, now).value.0.outbox, req.stack, [], [])
  {
    if i < 0 {
      FirstStartsIff(db, req, now);
    } else {
      ExistingPublishesNothing(db, i, req.manualRetry, now);
    }
    assert TxOf(db, req, now).value.0.outbox == db.outbox;
  }

  lemma ChangePublishes(db: Db, i: nat, req: Request, now: int) returns (ended: seq<Event>, removed: seq<string>)
    requires Lifecycle(db) && LatestRow(db.rows, req.stack) == i && db.rows[i].desired.digest != req.desired.digest
    ensures TxOf(db, req, now).Ok?
    ensures ended == (if db.rows[i].progress.status == Running
                      then [DeployInterrupted(AttemptId(i, |db.rows[i].attempts| - 1), CodeProcessInterrupted, None)]
                      else [])
    ensures Text.Sorted(removed) && removed == Removals(db.rows[i].desired, req.desired)
    ensures Publishes(db.outbox, TxOf(db, req, now).value.0.outbox, req.stack, ended, removed)
  {
    assert RowOk(db.rows[i]);
    ReplacementPublishes(db, i, req, now);
    ended, removed := Interruption(db, i), Removals(db.rows[i].desired, req.desired);
    AppendedPublishes(db.outbox, req.stack, ended, removed);
  }

  /** A changed desired state publishes, after the interruption of a running predecessor, one removal in sorted order
      for every service it no longer has; every other start publishes nothing. */
  lemma StartPublishes(db: Db, req: Request, now: int) returns (ended: seq<Event>, removed: seq<string>)
    requires Lifecycle(db)
    ensures TxOf(db, req, now).Ok?
    ensures var i := LatestRow(db.rows, req.stack);
      if i >= 0 && db.rows[i].desired.digest != req.desired.digest then
        && ended == (if db.rows[i].progress.status == Running
                     then [DeployInterrupted(AttemptId(i, |db.rows[i].attempts| - 1), CodeProcessInterrupted, None)]
                     else [])
        && Text.Sorted(removed)
        && forall n :: multiset(removed)[n] ==
             if n in req.desired.services then 0 else multiset(db.rows[i].desired.services)[n]
      else ended == [] && removed == []
    ensures Publishes(db.outbox, TxOf(db, req, now).value.0.outbox, req.stack, ended, removed)
  {
    var i := LatestRow(db.rows, req.stack);
    if i >= 0 && db.rows[i].desired.digest != req.desired.digest {
      ended, removed := ChangePublishes(db, i, req, now);
      RemovalsCount(db.rows[i].desired, req.desired);
    } else {
      ended, removed := [], [];
      UnchangedPublishesNothing(db, i, req, now);
    }
  }

  // ---------------------------------------------------------------- executions

  /** On any tables: a waiting completion is dropped exactly when repeating it succeeds, or is refused for an attempt of
      the stack that provably no longer runs; otherwise it keeps waiting, and what the inspection found is reported. */
  lemma SettlesIff(db: Db, pending: PendingMap, stack: string, now: int, commit: Commit, inspectFails: bool)
    requires stack in pending
    ensures var p := pending[stack];
      var (after, waiting, r) := Recover(db, pending, stack, now, commit, inspectFails);
      var (persisted, done) := CompleteTransaction(db, p.id, p.completion, now, commit);
      var ended := Exists(after.rows, p.id) && after.rows[p.id.deployment].stack == stack
                   && AttemptAt(after.rows, p.id).progress.status != Running;
      && after == persisted
      && (r.Ok? <==> done.Ok? || (done.error == NotRunning && !inspectFails && ended))
      && waiting == (if r.Ok? then pending - {stack} else pending)
      && (done.Err? && done.error != NotRunning ==> r == done)
      && (r.Err? && done == Err(NotRunning) && !inspectFails ==>
            && (r.error == NotFound <==> !Exists(after.rows, p.id))
            && (r.error == StackMismatch <==>
                  Exists(after.rows, p.id) && after.rows[p.id.deployment].stack != stack)
            && r.error in {NotFound, StackMismatch, StillRunning})
  {
  }

  /** A completion that waits is settled once the tables can be written and inspected. */
  lemma RecoverSettles(s: Sys, stack: string, now: int)
    requires Inv(s)
    ensures Recover(s.db, s.mem.pending, stack, now, Committed, false).2.Ok?
    ensures stack !in Recover(s.db, s.mem.pending, stack, now, Committed, false).1
  {
    if stack in s.mem.pending {
      var p := s.mem.pending[stack];
      assert PendingEntryOk(s.db.rows, stack, p);
      CompletionEffect(s.db, p.id, p.completion, now, Committed);
      var (after, r) := CompleteTransaction(s.db, p.id, p.completion, now, Committed);
      SettleEffect(s.db.rows, after.rows, stack, p, r, false);
    }
  }

  /** What Execute tells when it started nothing: the outcome of the stack's newest deployment, and, after a failure or
      an interruption, which services nobody else may retry meanwhile: those the deployment owes of the desired state,
      or all of them when it ended in apply. */
  ghost predicate ToldUnchanged(rows: seq<Deployment>, req: Request, result: ExecuteResult) {
    var i := LatestRow(rows, req.stack);
    && result.attempt == None && !result.failed
    && (i < 0 ==>
          result.status == None && result.errorCode == NoError && !result.retryDeferred && result.unresolved == [])
    && (i >= 0 ==>
          && result.status == Some(rows[i].progress.status) && result.errorCode == rows[i].progress.errorCode
          && (result.retryDeferred <==> rows[i].progress.status == Failed || rows[i].progress.status == Interrupted)
          && forall n :: n in result.unresolved <==>
               && result.retryDeferred && n in req.desired.services
               && (rows[i].progress.phase == PhaseApply || n in rows[i].verification.unresolved))
  }

  lemma UnchangedIsTold(db: Db, req: Request)
    requires Lifecycle(db)
    ensures ToldUnchanged(db.rows, req, Unchanged(db, req))
  {
    var i := LatestRow(db.rows, req.stack);
    if i >= 0 { assert RowOk(db.rows[i]); }
  }

  /** While the tables can be written, an execution starts an attempt exactly when one is due on the tables that the
      recovery of a waiting completion left, and otherwise tells how the newest deployment stands. */
  lemma ExecuteStartsIff(s: Sys, req: Request, env: Environment)
    requires Inv(s) && CanRecover(s.mem, req.stack)
    requires env.recoverCommit == Committed && !env.inspectFails && env.startCommit == Committed
    ensures var (db, pending, result) := ExecuteSteps(s.db, s.mem.pending, req, env);
      var recovered := Recover(s.db, s.mem.pending, req.stack, env.recoverNow, Committed, false).0;
      && (result.attempt.Some? <==> Due(recovered.rows, req, env.startNow))
      && (result.attempt.None? ==> db == recovered && ToldUnchanged(db.rows, req, result))
  {
    var recover := RecoverStep(req.stack, env.recoverNow, env.recoverCommit, env.inspectFails);
    var recovered := Next(s, recover);
    NextKeepsInv(s, recover);
    RecoverMatches(s, req, env);
    RecoverSettles(s, req.stack, env.recoverNow);
    StartsIff(recovered.db, req, env.startNow);
    StartKeepsLifecycle(recovered.db, req.stack, req.desired, req.sourceChanged, req.manualRetry, env.startNow);
    UnchangedIsTold(recovered.db, req);
  }

  /** On any tables: nothing starts before a waiting completion is settled, and a start that is not confirmed is told as
      a failure without an attempt. */
  lemma FailureStartsNothing(db: Db, pending: PendingMap, req: Request, env: Environment)
    ensures var (after, held, result) := ExecuteSteps(db, pending, req, env);
      var (recovered, waiting, ready) :=
        Recover(db, pending, req.stack, env.recoverNow, env.recoverCommit, env.inspectFails);
      && (ready.Err? ==> result == NOTHING.(failed := true) && (after, held) == (recovered, waiting))
      && (ready.Ok? && env.startCommit != Committed ==> result == NOTHING.(failed := true) && held == waiting)
  {
  }
}
