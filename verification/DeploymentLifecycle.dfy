/** What every transaction of the lifecycle service keeps. */
module DeploymentLifecycle {
  import opened Wrappers
  import opened DeploymentModel
  import opened DeploymentStore
  import opened DeploymentService

  // ---------------------------------------------------------------- the invariant

  predicate Final(p: Progress) {
    Coherent(p) && p.finishedAt.Some?
  }

  predicate Retried(p: Progress) {
    Final(p) && (p.status == Failed || p.status == Interrupted)
  }

  /** Generation boundaries name their service and belong to unresolved services once obligations are known. */
  predicate ObligationsOk(v: Verification, status: Status) {
    && v == Persisted(v)
    && (forall n :: n in v.generations ==> v.generations[n].serviceId != "")
    && (v.known ==> forall n :: n in v.generations ==> n in v.unresolved)
    && (status != Running ==> v.known)
    && (status == Succeeded ==> v.unresolved == [])
  }

  /** Attempts are numbered 1..n, only the newest may be running, and the deployment mirrors the newest. */
  predicate RowOk(d: Deployment) {
    && d.attempts != []
    && (forall k :: 0 <= k < |d.attempts| ==> d.attempts[k].number == k + 1)
    && (forall k :: 0 <= k < |d.attempts| - 1 ==> Retried(d.attempts[k].progress))
    && d.progress == d.attempts[|d.attempts| - 1].progress
    && (d.progress == RUNNING || Final(d.progress))
    && ObligationsOk(d.verification, d.progress.status)
  }

  predicate RowsOk(rows: seq<Deployment>) {
    forall i :: 0 <= i < |rows| ==> RowOk(rows[i])
  }

  /** A running deployment is the newest of its stack, so a stack has at most one. */
  predicate RunningIsNewest(rows: seq<Deployment>) {
    forall i, j :: 0 <= i < j < |rows| && rows[i].progress.status == Running ==> rows[i].stack != rows[j].stack
  }

  /** A stack's baseline is its newest succeeded deployment. */
  predicate BaselinesOk(db: Db) {
    && (forall s :: s in db.baselines ==>
         && db.baselines[s] < |db.rows|
         && db.rows[db.baselines[s]].stack == s
         && db.rows[db.baselines[s]].progress.status == Succeeded)
    && (forall i :: 0 <= i < |db.rows| && db.rows[i].progress.status == Succeeded ==>
         db.rows[i].stack in db.baselines && i <= db.baselines[db.rows[i].stack])
  }

  predicate Concerns(e: Event, id: AttemptId) {
    !e.ServiceRemovedFromDesired? && e.id == id
  }

  /** The completion events published for one attempt, in order. */
  function EventsOf(outbox: seq<Event>, id: AttemptId): seq<Event> {
    if outbox == [] then []
    else
      var last := outbox[|outbox| - 1];
      EventsOf(outbox[..|outbox| - 1], id) + if Concerns(last, id) then [last] else []
  }

  function ExpectedEvents(rows: seq<Deployment>, id: AttemptId): seq<Event> {
    if Exists(rows, id) && AttemptAt(rows, id).progress.status != Running
    then [CompletionEvent(id, AttemptAt(rows, id).progress)]
    else []
  }

  /** Exactly one event per ended attempt, telling its persisted outcome; none for any other attempt. */
  ghost predicate OutboxOk(db: Db) {
    forall id :: EventsOf(db.outbox, id) == ExpectedEvents(db.rows, id)
  }

  ghost predicate Lifecycle(db: Db) {
    RowsOk(db.rows) && RunningIsNewest(db.rows) && BaselinesOk(db) && OutboxOk(db)
  }

  lemma EmptyIsOk()
    ensures Lifecycle(EMPTY)
  {
  }

  /** Rows and attempts are never removed or renumbered, an ended attempt never changes, and whether obligations
      are known is settled when an attempt starts. */
  ghost predicate Extends(before: seq<Deployment>, after: seq<Deployment>) {
    && |before| <= |after|
    && (forall i :: 0 <= i < |before| ==> ExtendsRow(before[i], after[i]))
  }

  predicate ExtendsRow(d: Deployment, e: Deployment) {
    && e.stack == d.stack && e.desired == d.desired
    && |d.attempts| <= |e.attempts|
    && (forall k :: 0 <= k < |d.attempts| ==>
         && e.attempts[k].number == d.attempts[k].number
         && e.attempts[k].startedAt == d.attempts[k].startedAt
         && (d.attempts[k].progress.status != Running ==> e.attempts[k] == d.attempts[k]))
    && (StillRunning(d, e) ==> e.verification.known == d.verification.known)
  }

  /** The newest attempt of d is the newest of e and runs. */
  predicate StillRunning(d: Deployment, e: Deployment) {
    && |e.attempts| == |d.attempts| && e.attempts != []
    && e.attempts[|e.attempts| - 1].progress.status == Running
  }

  lemma ExtendsIsTransitive(a: seq<Deployment>, b: seq<Deployment>, c: seq<Deployment>)
    requires Extends(a, b) && Extends(b, c)
    ensures Extends(a, c)
  {
    forall i | 0 <= i < |a| ensures ExtendsRow(a[i], c[i]) {
      assert ExtendsRow(a[i], b[i]) && ExtendsRow(b[i], c[i]);
    }
  }

  // ---------------------------------------------------------------- one row changes

  lemma NewestIsLast(d: Deployment)
    requires RowOk(d)
    ensures NewestAttempt(d.attempts) == |d.attempts| - 1
  {
    assert d.attempts[|d.attempts| - 1].number <= d.attempts[NewestAttempt(d.attempts)].number;
  }

  /** In a valid table an attempt is running exactly when it is the newest of a running deployment. */
  lemma RunningAttemptIsNewest(rows: seq<Deployment>, id: AttemptId)
    requires RowsOk(rows) && Exists(rows, id)
    ensures AttemptAt(rows, id).progress.status == Running <==>
      rows[id.deployment].progress.status == Running && id.index == |rows[id.deployment].attempts| - 1
    ensures NewestAttempt(rows[id.deployment].attempts) == |rows[id.deployment].attempts| - 1
  {
    assert RowOk(rows[id.deployment]);
    NewestIsLast(rows[id.deployment]);
  }

  /** What the table accepts as the columns of a completion. */
  predicate StateOk(st: CompletionState) {
    Coherent(st.progress)
  }

  /** The row after its newest attempt has ended. */
  function Ended(d: Deployment, st: CompletionState, now: int): Deployment {
    var p := st.progress.(finishedAt := Some(now));
    if d.attempts == [] then d else
    var k := |d.attempts| - 1;
    d.(verification := ObligationsAfter(d.verification, d.desired, st), progress := p,
       attempts := d.attempts[k := d.attempts[k].(progress := p)])
  }

  /** The row after an interruption by process loss, when it was running. */
  function InterruptedRow(d: Deployment, now: int): Deployment {
    if d.progress.status == Running then Ended(d, INTERRUPTION, now) else d
  }

  lemma EndedRowOk(d: Deployment, st: CompletionState, now: int)
    requires RowOk(d) && d.progress.status == Running && StateOk(st)
    ensures RowOk(Ended(d, st, now)) && ExtendsRow(d, Ended(d, st, now))
  {
    var v := ObligationsAfter(d.verification, d.desired, st);
    assert ObligationsOk(v, st.progress.status);
  }

  lemma CompleteEffect(db: Db, id: AttemptId, st: CompletionState, now: int)
    requires RowsOk(db.rows) && CompleteTx(db, id, st, now).Ok?
    ensures var d := db.rows[id.deployment];
      var after := CompleteTx(db, id, st, now).value.0;
      && id.index == |d.attempts| - 1
      && after.rows == db.rows[id.deployment := Ended(d, st, now)]
      && after.outbox == db.outbox + [CompletionEvent(id, st.progress.(finishedAt := Some(now)))]
      && after.baselines == if st.progress.status == Succeeded
                            then db.baselines[d.stack := id.deployment] else db.baselines
  {
    RunningAttemptIsNewest(db.rows, id);
  }

  lemma CompleteKeepsOutbox(db: Db, id: AttemptId, st: CompletionState, now: int)
    requires RowsOk(db.rows) && OutboxOk(db) && StateOk(st) && CompleteTx(db, id, st, now).Ok?
    ensures OutboxOk(CompleteTx(db, id, st, now).value.0)
  {
    CompleteEffect(db, id, st, now);
    var after := CompleteTx(db, id, st, now).value.0;
    var event := CompletionEvent(id, st.progress.(finishedAt := Some(now)));
    forall other ensures ExpectedEvents(after.rows, other) ==
        if other == id then [event] else ExpectedEvents(db.rows, other) {
      EndedExpects(db.rows, id, st, now, other);
    }
    EndingKeepsOutbox(db, after, id, event);
  }

  lemma EndedExpects(rows: seq<Deployment>, id: AttemptId, st: CompletionState, now: int, other: AttemptId)
    requires RunningAt(rows, id) && id.index == |rows[id.deployment].attempts| - 1 && st.progress.status != Running
    ensures ExpectedEvents(rows, id) == []
    ensures ExpectedEvents(rows[id.deployment := Ended(rows[id.deployment], st, now)], other) ==
      if other == id then [CompletionEvent(id, st.progress.(finishedAt := Some(now)))] else ExpectedEvents(rows, other)
  {
  }

  /** One attempt ends and its one event is published. */
  lemma EndingKeepsOutbox(db: Db, after: Db, id: AttemptId, event: Event)
    requires OutboxOk(db) && after.outbox == db.outbox + [event]
    requires ExpectedEvents(db.rows, id) == [] && ExpectedEvents(after.rows, id) == [event]
    requires forall other :: Concerns(event, other) <==> other == id
    requires forall other :: other != id ==> ExpectedEvents(after.rows, other) == ExpectedEvents(db.rows, other)
    ensures OutboxOk(after)
  {
    assert after.outbox[..|db.outbox|] == db.outbox;
    forall other ensures EventsOf(after.outbox, other) == ExpectedEvents(after.rows, other) {
      assert EventsOf(db.outbox, other) == ExpectedEvents(db.rows, other);
    }
  }

  lemma CompleteKeepsBaselines(db: Db, id: AttemptId, st: CompletionState, now: int)
    requires RowsOk(db.rows) && RunningIsNewest(db.rows) && BaselinesOk(db) && StateOk(st)
    requires CompleteTx(db, id, st, now).Ok?
    ensures BaselinesOk(CompleteTx(db, id, st, now).value.0)
  {
    CompleteEffect(db, id, st, now);
    assert RowOk(db.rows[id.deployment]);
    EndingKeepsBaselines(db, CompleteTx(db, id, st, now).value.0, id.deployment);
  }

  /** The newest deployment of a stack ends; it becomes the baseline exactly when it succeeded. */
  lemma EndingKeepsBaselines(db: Db, after: Db, i: nat)
    requires BaselinesOk(db) && RunningIsNewest(db.rows) && i < |db.rows| && db.rows[i].progress.status == Running
    requires |after.rows| == |db.rows| && after.rows[i].stack == db.rows[i].stack
    requires forall k :: 0 <= k < |db.rows| && k != i ==> after.rows[k] == db.rows[k]
    requires after.baselines == if after.rows[i].progress.status == Succeeded
                                then db.baselines[db.rows[i].stack := i] else db.baselines
    ensures BaselinesOk(after)
  {
    assert forall s :: s in db.baselines ==> db.baselines[s] != i;
  }

  /** Every accepted completion of a running attempt keeps the lifecycle invariant. */
  lemma CompleteKeepsLifecycle(db: Db, id: AttemptId, st: CompletionState, now: int)
    requires Lifecycle(db) && StateOk(st) && CompleteTx(db, id, st, now).Ok?
    ensures var after := CompleteTx(db, id, st, now).value.0; Lifecycle(after) && Extends(db.rows, after.rows)
  {
    CompleteEffect(db, id, st, now);
    CompleteKeepsOutbox(db, id, st, now);
    CompleteKeepsBaselines(db, id, st, now);
    EndedRowOk(db.rows[id.deployment], st, now);
    ReplacedRowExtends(db.rows, id.deployment, Ended(db.rows[id.deployment], st, now));
  }

  lemma ReplacedRowExtends(rows: seq<Deployment>, i: nat, d: Deployment)
    requires i < |rows| && ExtendsRow(rows[i], d)
    ensures Extends(rows, rows[i := d])
  {
  }

  // ---------------------------------------------------------------- start

  lemma {:induction false} RemovalsConcernNoAttempt(outbox: seq<Event>, stack: string, names: seq<string>,
                                                    id: AttemptId)
    ensures EventsOf(outbox + RemovalEvents(stack, names), id) == EventsOf(outbox, id)
  {
    var events := RemovalEvents(stack, names);
    if names == [] {
      assert outbox + events == outbox;
    } else {
      var n := |names| - 1;
      RemovalsConcernNoAttempt(outbox, stack, names[..n], id);
      assert events[..n] == RemovalEvents(stack, names[..n]);
      assert (outbox + events)[..|outbox + events| - 1] == outbox + events[..n];
    }
  }

  lemma CreateKeepsOutbox(db: Db, stack: string, desired: Desired, v: Verification, now: int)
    requires OutboxOk(db) && CreateDeployment(db, stack, desired, v, now).Ok?
    ensures OutboxOk(CreateDeployment(db, stack, desired, v, now).value.0)
  {
    SameEventsKeepOutbox(db, CreateDeployment(db, stack, desired, v, now).value.0.rows);
  }

  lemma AppendedRowKeeps(db: Db, row: Deployment)
    requires RowsOk(db.rows) && RunningIsNewest(db.rows) && BaselinesOk(db)
    requires !HasRunning(db.rows, row.stack) && RowOk(row) && row.progress.status == Running
    ensures var after := db.(rows := db.rows + [row]);
      && RowsOk(after.rows) && RunningIsNewest(after.rows) && BaselinesOk(after) && Extends(db.rows, after.rows)
  {
    var after := db.(rows := db.rows + [row]);
    assert forall i :: 0 <= i < |db.rows| ==> after.rows[i] == db.rows[i];
  }

  lemma CreateKeepsLifecycle(db: Db, stack: string, desired: Desired, v: Verification, now: int)
    requires Lifecycle(db) && CreateDeployment(db, stack, desired, v, now).Ok? && ObligationsOk(Persisted(v), Running)
    ensures var (after, id) := CreateDeployment(db, stack, desired, v, now).value;
      Lifecycle(after) && Extends(db.rows, after.rows) && id == AttemptId(|db.rows|, 0)
  {
    var (after, id) := CreateDeployment(db, stack, desired, v, now).value;
    AppendedRowKeeps(db, after.rows[|db.rows|]);
    CreateKeepsOutbox(db, stack, desired, v, now);
  }

  /** The row with a fresh retry attempt. */
  function Restarted(d: Deployment, now: int): Deployment {
    d.(progress := RUNNING, attempts := d.attempts + [NewAttempt(|d.attempts| + 1, now)])
  }

  lemma RestartedRowOk(d: Deployment, now: int)
    requires RowOk(d) && d.progress.status != Running && d.progress.status != Succeeded
    ensures RowOk(Restarted(d, now)) && ExtendsRow(d, Restarted(d, now))
  {
    var e := Restarted(d, now);
    forall k | 0 <= k < |e.attempts| - 1 ensures Retried(e.attempts[k].progress) {
      assert e.attempts[k] == d.attempts[k];
    }
  }

  lemma RetryKeepsOutbox(db: Db, i: nat, now: int)
    requires RowsOk(db.rows) && OutboxOk(db) && i < |db.rows|
    ensures OutboxOk(db.(rows := db.rows[i := Restarted(db.rows[i], now)]))
  {
    var rows := db.rows[i := Restarted(db.rows[i], now)];
    forall id ensures EventsOf(db.outbox, id) == ExpectedEvents(rows, id) {
      assert EventsOf(db.outbox, id) == ExpectedEvents(db.rows, id);
    }
  }

  lemma {:induction false} NewestRowMayRun(rows: seq<Deployment>, i: nat, d: Deployment)
    requires RunningIsNewest(rows) && i < |rows| && i == LatestRow(rows, rows[i].stack) && d.stack == rows[i].stack
    ensures RunningIsNewest(rows[i := d])
  {
  }

  lemma UnsuccessfulRowKeepsBaselines(db: Db, i: nat, d: Deployment)
    requires BaselinesOk(db) && i < |db.rows| && d.stack == db.rows[i].stack
    requires d.progress.status != Succeeded && db.rows[i].progress.status != Succeeded
    ensures BaselinesOk(db.(rows := db.rows[i := d]))
  {
  }

  lemma RetryEffect(db: Db, i: nat, now: int)
    requires i < |db.rows| && RowOk(db.rows[i])
    ensures StartAttempt(db, i, now).Ok? <==>
      db.rows[i].progress.status != Running && db.rows[i].progress.status != Succeeded
    ensures var retried := (db.(rows := db.rows[i := Restarted(db.rows[i], now)]), AttemptId(i, |db.rows[i].attempts|));
      StartAttempt(db, i, now).Ok? ==> StartAttempt(db, i, now).value == retried
  {
  }

  /** A retry keeps the invariant and, its row being otherwise unchanged, every obligation. */
  lemma RetryKeepsLifecycle(db: Db, i: nat, now: int)
    requires Lifecycle(db) && i < |db.rows| && i == LatestRow(db.rows, db.rows[i].stack)
    requires db.rows[i].progress.status != Running && db.rows[i].progress.status != Succeeded
    ensures var rows := db.rows[i := Restarted(db.rows[i], now)];
      && StartAttempt(db, i, now) == Ok((db.(rows := rows), AttemptId(i, |db.rows[i].attempts|)))
      && Lifecycle(db.(rows := rows)) && Extends(db.rows, rows)
      && rows[i].verification == db.rows[i].verification && rows[i].desired == db.rows[i].desired
  {
    assert RowOk(db.rows[i]);
    RetryEffect(db, i, now);
    RestartedRowOk(db.rows[i], now);
    RetryKeepsOutbox(db, i, now);
    NewestRowMayRun(db.rows, i, Restarted(db.rows[i], now));
    UnsuccessfulRowKeepsBaselines(db, i, Restarted(db.rows[i], now));
    ReplacedRowExtends(db.rows, i, Restarted(db.rows[i], now));
  }

  lemma {:induction false} NothingRunsAfterInterruption(rows: seq<Deployment>, i: nat, now: int)
    requires RowsOk(rows) && RunningIsNewest(rows) && i < |rows| && i == LatestRow(rows, rows[i].stack)
    ensures !HasRunning(rows[i := InterruptedRow(rows[i], now)], rows[i].stack)
  {
    assert RowOk(rows[i]);
    var after := rows[i := InterruptedRow(rows[i], now)];
    forall j | 0 <= j < |after| && after[j].stack == rows[i].stack ensures after[j].progress.status != Running {
      if j != i { assert j < i && after[j] == rows[j]; }
    }
  }

  lemma SupersedeEffect(db: Db, i: nat, now: int)
    requires Lifecycle(db) && i < |db.rows| && i == LatestRow(db.rows, db.rows[i].stack)
    ensures SupersedePrevious(db, i, now).Ok?
    ensures var work := SupersedePrevious(db, i, now).value.0;
      && Lifecycle(work) && Extends(db.rows, work.rows)
      && work.rows == db.rows[i := InterruptedRow(db.rows[i], now)]
  {
    if db.rows[i].progress.status == Running {
      assert RowOk(db.rows[i]);
      NewestIsLast(db.rows[i]);
      InterruptOneEffect(db, AttemptId(i, |db.rows[i].attempts| - 1), now);
    }
  }

  /** A changed desired state: the transaction never fails, keeps the invariant, and the new row inherits
      exactly the still desired part of what the replaced deployment owed. */
  lemma {:induction false} ReplacementEffect(db: Db, i: nat, stack: string, desired: Desired, now: int)
    requires Lifecycle(db) && i == LatestRow(db.rows, stack)
    ensures StartChanged(db, i, stack, desired, now).Ok?
    ensures var (after, id) := StartChanged(db, i, stack, desired, now).value;
      && Lifecycle(after) && Extends(db.rows, after.rows)
      && id == Some(AttemptId(|db.rows|, 0)) && |after.rows| == |db.rows| + 1
      && after.rows[|db.rows|].stack == stack && after.rows[|db.rows|].desired == desired
      && after.rows[|db.rows|].verification.known
      && after.rows[|db.rows|].attempts == [NewAttempt(1, now)]
      && after.rows[|db.rows|].progress == RUNNING
      && (forall n :: n in after.rows[|db.rows|].verification.unresolved <==>
           n in desired.services && n in after.rows[i].verification.unresolved)
      && after.rows[..|db.rows|] == db.rows[i := InterruptedRow(db.rows[i], now)]
  {
    SupersedeEffect(db, i, now);
    NothingRunsAfterInterruption(db.rows, i, now);
    var work := SupersedePrevious(db, i, now).value.0;
    var latest := work.rows[i];
    assert RowOk(latest);
    var names := Inherited(latest, desired);
    var v := Verification(true, names, Restrict(latest.verification.generations, names));
    CreateKeepsLifecycle(work, stack, desired, v, now);
    var created := CreateDeployment(work, stack, desired, v, now).value.0;
    ExtendsIsTransitive(db.rows, work.rows, created.rows);
    RemovalsKeepLifecycle(created, stack, Removals(db.rows[i].desired, desired));
  }

  lemma RemovalsKeepLifecycle(db: Db, stack: string, names: seq<string>)
    requires Lifecycle(db)
    ensures Lifecycle(db.(outbox := db.outbox + RemovalEvents(stack, names)))
  {
    forall id ensures EventsOf(db.outbox + RemovalEvents(stack, names), id) == ExpectedEvents(db.rows, id) {
      RemovalsConcernNoAttempt(db.outbox, stack, names, id);
    }
  }

  predicate RunningAt(rows: seq<Deployment>, id: AttemptId) {
    Exists(rows, id) && AttemptAt(rows, id).progress.status == Running
  }

  /** A running attempt belongs to the newest row of its stack. */
  lemma {:induction false} RunningRowIsLatest(rows: seq<Deployment>, id: AttemptId)
    requires RowsOk(rows) && RunningIsNewest(rows) && RunningAt(rows, id)
    ensures LatestRow(rows, rows[id.deployment].stack) == id.deployment
  {
    RunningAttemptIsNewest(rows, id);
  }

  /** What a start leaves behind: nothing, or one fresh running attempt of the stack and no other. */
  ghost predicate Starts(before: seq<Deployment>, after: seq<Deployment>, stack: string, x: AttemptId, now: int) {
    && RunningAt(after, x) && !Exists(before, x)
    && AttemptAt(after, x).startedAt == now
    && after[x.deployment].stack == stack
    && (forall y :: y != x && RunningAt(after, y) ==> RunningAt(before, y) && before[y.deployment].stack != stack)
    && (forall y :: RunningAt(before, y) && before[y.deployment].stack != stack ==> RunningAt(after, y))
  }

  lemma {:induction false} RetryStarts(rows: seq<Deployment>, i: nat, now: int)
    requires RowsOk(rows) && RunningIsNewest(rows) && i < |rows| && i == LatestRow(rows, rows[i].stack)
    requires rows[i].progress.status != Running
    ensures Starts(rows, rows[i := Restarted(rows[i], now)], rows[i].stack, AttemptId(i, |rows[i].attempts|), now)
  {
    var after := rows[i := Restarted(rows[i], now)];
    var x := AttemptId(i, |rows[i].attempts|);
    forall y | y != x && RunningAt(after, y) ensures RunningAt(rows, y) && rows[y.deployment].stack != rows[i].stack {
      if y.deployment == i {
        assert AttemptAt(after, y) == AttemptAt(rows, y);
      }
      RunningAttemptIsNewest(rows, y);
    }
  }

  lemma {:induction false} AppendedStarts(before: seq<Deployment>, after: seq<Deployment>, i: nat,
                                          stack: string, now: int)
    requires RowsOk(before) && RunningIsNewest(before) && i == LatestRow(before, stack)
    requires |after| == |before| + 1 && after[..|before|] == before[i := InterruptedRow(before[i], now)]
    requires after[|before|].stack == stack && after[|before|].attempts == [NewAttempt(1, now)]
    ensures Starts(before, after, stack, AttemptId(|before|, 0), now)
  {
    forall k | 0 <= k < |before| ensures after[k] == if k == i then InterruptedRow(before[i], now) else before[k] {
      assert after[k] == after[..|before|][k];
    }
    var x := AttemptId(|before|, 0);
    forall y | y != x && RunningAt(after, y) ensures RunningAt(before, y) && before[y.deployment].stack != stack {
      if y.deployment == i { assert RowOk(before[i]); }
      RunningAttemptIsNewest(before, y);
    }
    forall y | RunningAt(before, y) && before[y.deployment].stack != stack ensures RunningAt(after, y) {
      assert after[y.deployment] == before[y.deployment];
    }
  }

  lemma {:induction false} ReplacementStarts(db: Db, i: nat, stack: string, desired: Desired, now: int)
    requires Lifecycle(db) && i == LatestRow(db.rows, stack)
    ensures StartChanged(db, i, stack, desired, now).Ok?
    ensures var after := StartChanged(db, i, stack, desired, now).value.0;
      Starts(db.rows, after.rows, stack, AttemptId(|db.rows|, 0), now)
  {
    ReplacementEffect(db, i, stack, desired, now);
    AppendedStarts(db.rows, StartChanged(db, i, stack, desired, now).value.0.rows, i, stack, now);
  }

  lemma {:induction false} FirstStarts(db: Db, stack: string, desired: Desired, now: int)
    requires Lifecycle(db) && LatestRow(db.rows, stack) < 0
    ensures CreateDeployment(db, stack, desired, UNKNOWN_ROLLOUT, now).Ok?
    ensures var (after, id) := CreateDeployment(db, stack, desired, UNKNOWN_ROLLOUT, now).value;
      && Lifecycle(after) && Extends(db.rows, after.rows)
      && Starts(db.rows, after.rows, stack, id, now)
  {
    CreateKeepsLifecycle(db, stack, desired, UNKNOWN_ROLLOUT, now);
    var (after, id) := CreateDeployment(db, stack, desired, UNKNOWN_ROLLOUT, now).value;
    forall y | y != id && RunningAt(after.rows, y)
      ensures RunningAt(db.rows, y) && db.rows[y.deployment].stack != stack
    {
      assert y.deployment < |db.rows| && after.rows[y.deployment] == db.rows[y.deployment];
    }
  }

  lemma ExistingKeepsLifecycle(db: Db, i: nat, manual: bool, now: int)
    requires Lifecycle(db) && i < |db.rows| && i == LatestRow(db.rows, db.rows[i].stack)
    ensures StartExisting(db, i, manual, now).Ok?
    ensures var (after, id) := StartExisting(db, i, manual, now).value;
      && Lifecycle(after) && Extends(db.rows, after.rows)
      && (id == None ==> after == db)
      && (id.Some? ==> Starts(db.rows, after.rows, db.rows[i].stack, id.value, now))
  {
    if db.rows[i].progress.status == Failed || db.rows[i].progress.status == Interrupted {
      RetryKeepsLifecycle(db, i, now);
      RetryStarts(db.rows, i, now);
    }
  }

  /** A start never fails on valid tables. It either changes nothing or starts exactly one attempt, ending the
      stack's earlier one, and then the stack has no other running attempt. */
  lemma StartKeepsLifecycle(db: Db, stack: string, desired: Desired, sourceChanged: bool, manual: bool, now: int)
    requires Lifecycle(db)
    ensures StartTx(db, stack, desired, sourceChanged, manual, now).Ok?
    ensures var (after, id) := StartTx(db, stack, desired, sourceChanged, manual, now).value;
      && Lifecycle(after) && Extends(db.rows, after.rows)
      && (id == None ==> after == db)
      && (id.Some? ==> Starts(db.rows, after.rows, stack, id.value, now))
  {
    var i := LatestRow(db.rows, stack);
    if i < 0 {
      FirstStarts(db, stack, desired, now);
    } else if db.rows[i].desired.digest != desired.digest {
      ReplacementEffect(db, i, stack, desired, now);
      ReplacementStarts(db, i, stack, desired, now);
    } else {
      ExistingKeepsLifecycle(db, i, manual, now);
    }
  }

  // ---------------------------------------------------------------- update generations

  function WithVerification(rows: seq<Deployment>, i: nat, v: Verification): seq<Deployment>
    requires i < |rows|
  {
    rows[i := rows[i].(verification := v)]
  }

  lemma VerificationKeepsLifecycle(db: Db, i: nat, v: Verification)
    requires Lifecycle(db) && i < |db.rows| && ObligationsOk(v, db.rows[i].progress.status)
    requires v.known == db.rows[i].verification.known
    ensures var rows := WithVerification(db.rows, i, v);
      Lifecycle(db.(rows := rows)) && Extends(db.rows, rows)
  {
    var rows := WithVerification(db.rows, i, v);
    VerificationKeepsRows(db, i, v);
    forall id ensures ExpectedEvents(rows, id) == ExpectedEvents(db.rows, id) {
      VerificationKeepsEvents(db.rows, i, v, id);
    }
    SameEventsKeepOutbox(db, rows);
  }

  lemma VerifiedRowOk(d: Deployment, v: Verification)
    requires RowOk(d) && ObligationsOk(v, d.progress.status) && v.known == d.verification.known
    ensures RowOk(d.(verification := v)) && ExtendsRow(d, d.(verification := v))
  {
  }

  lemma VerificationKeepsRows(db: Db, i: nat, v: Verification)
    requires RowsOk(db.rows) && RunningIsNewest(db.rows) && BaselinesOk(db) && i < |db.rows|
    requires ObligationsOk(v, db.rows[i].progress.status) && v.known == db.rows[i].verification.known
    ensures var rows := WithVerification(db.rows, i, v);
      && RowsOk(rows) && RunningIsNewest(rows) && BaselinesOk(db.(rows := rows)) && Extends(db.rows, rows)
  {
    VerifiedRowOk(db.rows[i], v);
    ReplacedRowExtends(db.rows, i, db.rows[i].(verification := v));
  }

  lemma VerificationKeepsEvents(rows: seq<Deployment>, i: nat, v: Verification, id: AttemptId)
    requires i < |rows| && v.known == rows[i].verification.known
    ensures ExpectedEvents(WithVerification(rows, i, v), id) == ExpectedEvents(rows, id)
  {
  }

  lemma SameEventsKeepOutbox(db: Db, rows: seq<Deployment>)
    requires OutboxOk(db) && forall id :: ExpectedEvents(rows, id) == ExpectedEvents(db.rows, id)
    ensures OutboxOk(db.(rows := rows))
  {
    forall id ensures EventsOf(db.outbox, id) == ExpectedEvents(rows, id) {
      assert EventsOf(db.outbox, id) == ExpectedEvents(db.rows, id);
    }
  }

  lemma RecordKeepsLifecycle(db: Db, id: AttemptId, name: string, g: Generation)
    requires Lifecycle(db) && RecordTx(db, id, name, g).Ok? && g.serviceId != ""
    ensures var (after, receipt) := RecordTx(db, id, name, g).value;
      && Lifecycle(after) && Extends(db.rows, after.rows)
      && after == db.(rows := WithVerification(
           db.rows, id.deployment, Recorded(db.rows[id.deployment].verification, name, g)))
      && ReceiptSound(after.rows, receipt)
  {
    var v := db.rows[id.deployment].verification;
    assert RowOk(db.rows[id.deployment]);
    var w := Recorded(v, name, g);
    assert ObligationsOk(w, Running);
    VerificationKeepsLifecycle(db, id.deployment, w);
  }

  /** A receipt restores an earlier generation only of a service that was already unresolved. */
  predicate ReceiptSound(rows: seq<Deployment>, r: Receipt) {
    && Exists(rows, r.id)
    && r.generation.serviceId != ""
    && (RunningAt(rows, r.id) && rows[r.id.deployment].verification.known && r.previous.serviceId != "" ==>
          r.unresolved)
  }

  lemma UndoKeepsLifecycle(db: Db, r: Receipt)
    requires Lifecycle(db) && ReceiptSound(db.rows, r) && UndoTx(db, r).Ok?
    ensures var after := UndoTx(db, r).value.0;
      && Lifecycle(after) && Extends(db.rows, after.rows)
      && after == db.(rows := WithVerification(
           db.rows, r.id.deployment, Undone(db.rows[r.id.deployment].verification, r)))
  {
    var v := db.rows[r.id.deployment].verification;
    assert RowOk(db.rows[r.id.deployment]);
    var w := Undone(v, r);
    assert ObligationsOk(w, Running);
    VerificationKeepsLifecycle(db, r.id.deployment, w);
  }

  // ---------------------------------------------------------------- recovery

  predicate Named(ids: seq<AttemptId>, i: nat) {
    exists k :: 0 <= k < |ids| && ids[k].deployment == i
  }

  lemma NamedAppended(ids: seq<AttemptId>, last: AttemptId, i: nat)
    ensures Named(ids + [last], i) <==> Named(ids, i) || last.deployment == i
  {
    if Named(ids, i) { var k :| 0 <= k < |ids| && ids[k].deployment == i; assert (ids + [last])[k].deployment == i; }
    assert (ids + [last])[|ids|] == last;
  }

  lemma InterruptOneEffect(db: Db, id: AttemptId, now: int)
    requires Lifecycle(db) && RunningAt(db.rows, id)
    ensures InterruptOne(db, id, now).Ok?
    ensures var after := InterruptOne(db, id, now).value.0;
      && Lifecycle(after) && Extends(db.rows, after.rows)
      && after.rows == db.rows[id.deployment := InterruptedRow(db.rows[id.deployment], now)]
  {
    RunningAttemptIsNewest(db.rows, id);
    CompleteEffect(db, id, INTERRUPTION, now);
    CompleteKeepsLifecycle(db, id, INTERRUPTION, now);
  }

  ghost predicate DistinctRunning(rows: seq<Deployment>, ids: seq<AttemptId>) {
    && (forall k :: 0 <= k < |ids| ==> RunningAt(rows, ids[k]))
    && (forall a, b :: 0 <= a < b < |ids| ==> ids[a] != ids[b])
  }

  lemma DistinctRunningRows(rows: seq<Deployment>, ids: seq<AttemptId>)
    requires RowsOk(rows) && ids != [] && DistinctRunning(rows, ids)
    ensures var (shorter, last) := (ids[..|ids| - 1], ids[|ids| - 1]);
      DistinctRunning(rows, shorter) && RunningAt(rows, last) && !Named(shorter, last.deployment)
  {
    var n := |ids| - 1;
    RunningAttemptIsNewest(rows, ids[n]);
    forall k | 0 <= k < n ensures ids[k].deployment != ids[n].deployment {
      RunningAttemptIsNewest(rows, ids[k]);
    }
  }

  ghost predicate Interrupts(before: seq<Deployment>, after: seq<Deployment>, ids: seq<AttemptId>, now: int) {
    && |after| == |before|
    && (forall i :: 0 <= i < |before| ==>
          after[i] == if Named(ids, i) then InterruptedRow(before[i], now) else before[i])
  }

  lemma UnnamedUnchanged(before: seq<Deployment>, after: seq<Deployment>, ids: seq<AttemptId>, i: nat, now: int)
    requires Interrupts(before, after, ids, now) && i < |before| && !Named(ids, i)
    ensures after[i] == before[i]
  {
  }

  lemma InterruptsAppended(
      before: seq<Deployment>, work: seq<Deployment>, ids: seq<AttemptId>, last: AttemptId, now: int)
    requires Interrupts(before, work, ids, now) && last.deployment < |before| && !Named(ids, last.deployment)
    ensures Interrupts(before, work[last.deployment := InterruptedRow(before[last.deployment], now)], ids + [last], now)
  {
    forall i | 0 <= i < |before| ensures Named(ids + [last], i) <==> Named(ids, i) || last.deployment == i {
      NamedAppended(ids, last, i);
    }
  }

  lemma InterruptOneMore(db: Db, work: Db, ids: seq<AttemptId>, last: AttemptId, now: int)
    requires Lifecycle(work) && Extends(db.rows, work.rows) && Interrupts(db.rows, work.rows, ids, now)
    requires RunningAt(db.rows, last) && !Named(ids, last.deployment)
    ensures InterruptOne(work, last, now).Ok?
    ensures var after := InterruptOne(work, last, now).value.0;
      Lifecycle(after) && Extends(db.rows, after.rows) && Interrupts(db.rows, after.rows, ids + [last], now)
  {
    UnnamedUnchanged(db.rows, work.rows, ids, last.deployment, now);
    InterruptOneEffect(work, last, now);
    ExtendsIsTransitive(db.rows, work.rows, InterruptOne(work, last, now).value.0.rows);
    InterruptsAppended(db.rows, work.rows, ids, last, now);
  }

  lemma {:induction false} InterruptAllUnfolds(db: Db, ids: seq<AttemptId>, last: AttemptId, now: int)
    requires InterruptAll(db, ids, now).Ok?
    ensures InterruptAll(db, ids + [last], now) == InterruptOne(InterruptAll(db, ids, now).value.0, last, now)
  {
    assert (ids + [last])[..|ids|] == ids;
  }

  /** Recovery of a list of distinct running attempts ends exactly those, and nothing else changes. */
  lemma {:induction false} InterruptAllEffect(db: Db, ids: seq<AttemptId>, now: int)
    requires Lifecycle(db) && DistinctRunning(db.rows, ids)
    ensures InterruptAll(db, ids, now).Ok?
    ensures var after := InterruptAll(db, ids, now).value.0;
      Lifecycle(after) && Extends(db.rows, after.rows) && Interrupts(db.rows, after.rows, ids, now)
  {
    if ids != [] {
      var shorter, last := ids[..|ids| - 1], ids[|ids| - 1];
      DistinctRunningRows(db.rows, ids);
      InterruptAllEffect(db, shorter, now);
      InterruptOneMore(db, InterruptAll(db, shorter, now).value.0, shorter, last, now);
      InterruptAllUnfolds(db, shorter, last, now);
      assert shorter + [last] == ids;
    }
  }

  lemma {:induction false} RunningRowsAreNamed(rows: seq<Deployment>, i: nat)
    requires RowsOk(rows) && i < |rows|
    ensures Named(RunningAttempts(rows), i) <==> rows[i].progress.status == Running
  {
    var ids := RunningAttempts(rows);
    var newest := AttemptId(i, |rows[i].attempts| - 1);
    if rows[i].progress.status == Running {
      assert RowOk(rows[i]) && RunningAt(rows, newest) && newest in ids;
    }
    if Named(ids, i) {
      var k :| 0 <= k < |ids| && ids[k].deployment == i;
      assert ids[k] in ids;
      RunningAttemptIsNewest(rows, ids[k]);
    }
  }

  /** Recovery never fails on valid tables; afterwards nothing is running, and every interrupted deployment
      has ended while all others are untouched. */
  lemma RecoveryLeavesNothingRunning(db: Db, now: int)
    requires Lifecycle(db)
    ensures InterruptTx(db, now).Ok?
    ensures var after := InterruptTx(db, now).value.0;
      && Lifecycle(after) && Extends(db.rows, after.rows) && |after.rows| == |db.rows|
      && (forall id :: !RunningAt(after.rows, id))
      && (forall i :: 0 <= i < |db.rows| ==> after.rows[i] == InterruptedRow(db.rows[i], now))
  {
    var ids := RunningAttempts(db.rows);
    assert forall k :: 0 <= k < |ids| ==> ids[k] in ids;
    InterruptAllEffect(db, ids, now);
    var after := InterruptTx(db, now).value.0;
    forall i | 0 <= i < |db.rows|
      ensures after.rows[i] == InterruptedRow(db.rows[i], now) && after.rows[i].progress.status != Running
    {
      RunningRowsAreNamed(db.rows, i);
      assert RowOk(db.rows[i]);
    }
    forall id ensures !RunningAt(after.rows, id) {
      if Exists(after.rows, id) { RunningAttemptIsNewest(after.rows, id); }
    }
  }

  lemma RecordedRowInterrupted(d: Deployment, name: string, g: Generation, now: int)
    requires RowOk(d) && d.progress.status == Running
    ensures var v := InterruptedRow(d.(verification := Recorded(d.verification, name, g)), now).verification;
      var kept := d.verification.known || name in d.desired.services;
      && (name in v.unresolved <==> kept)
      && (name in v.generations <==> kept)
      && (kept ==> v.generations[name] == g)
  {
  }

  /** A recorded write boundary survives a crash: the service is unresolved after recovery with its generation,
      if and only if obligations were known at the record or the service is desired. */
  lemma RecordSurvivesCrash(db: Db, id: AttemptId, name: string, g: Generation, now: int)
    requires Lifecycle(db) && RecordTx(db, id, name, g).Ok? && g.serviceId != ""
    ensures InterruptTx(RecordTx(db, id, name, g).value.0, now).Ok?
    ensures var rows := InterruptTx(RecordTx(db, id, name, g).value.0, now).value.0.rows;
      id.deployment < |rows| &&
      var v := rows[id.deployment].verification;
      var kept := db.rows[id.deployment].verification.known || name in db.rows[id.deployment].desired.services;
      && (name in v.unresolved <==> kept)
      && (name in v.generations <==> kept)
      && (kept ==> v.generations[name] == g)
  {
    RecordKeepsLifecycle(db, id, name, g);
    RecoveryLeavesNothingRunning(RecordTx(db, id, name, g).value.0, now);
    RecordedRowInterrupted(db.rows[id.deployment], name, g, now);
  }

  /** After a record the generation keys lie inside the stored unresolved list, if and only if obligations were
      known: an unknown obligation set is stored without its list. */
  lemma RecordedGenerationIsUnresolvedIffKnown(db: Db, id: AttemptId, name: string, g: Generation)
    requires Lifecycle(db) && RecordTx(db, id, name, g).Ok?
    ensures var v := RecordTx(db, id, name, g).value.0.rows[id.deployment].verification;
      (forall n :: n in v.generations ==> n in v.unresolved) <==> db.rows[id.deployment].verification.known
  {
    var v := RecordTx(db, id, name, g).value.0.rows[id.deployment].verification;
    assert RowOk(db.rows[id.deployment]);
    assert name in v.generations;
  }
}
