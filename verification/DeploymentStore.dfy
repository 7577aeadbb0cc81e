/** The deployment tables and the effect of each store statement on them. */
module DeploymentStore {
  import opened Wrappers
  import opened DeploymentModel

  datatype Event =
    | DeploySuccess(id: AttemptId)
    | DeployFailed(id: AttemptId, code: ErrorCode, stage: Option<Phase>)
    | DeployInterrupted(id: AttemptId, code: ErrorCode, stage: Option<Phase>)
    | ServiceRemovedFromDesired(stack: string, service: string)

  /** Deployment rows in row order, each stack's successful baseline, and the event outbox. */
  datatype Db = Db(rows: seq<Deployment>, baselines: map<string, nat>, outbox: seq<Event>)

  const EMPTY := Db([], map[], [])

  /** Atomicity: a failing transaction changes nothing, and a failing commit either does or does not land. */
  function Persist<T>(db: Db, tx: Result<(Db, T), Error>, commit: Commit): (r: (Db, Result<T, Error>))
    ensures r.0 == db || (tx.Ok? && r.0 == tx.value.0 && commit != RolledBack)
    ensures r.1.Ok? ==> tx.Ok? && r.0 == tx.value.0
    ensures r.1 == Err(StorageFailure) || tx.Err? || r.1.Ok?
  {
    match tx
    case Err(e) => (db, Err(e))
    case Ok((next, value)) =>
      match commit
      case Committed => (next, Ok(value))
      case RolledBack => (db, Err(StorageFailure))
      case CommittedUnreported => (next, Err(StorageFailure))
  }

  predicate Exists(rows: seq<Deployment>, id: AttemptId) {
    id.deployment < |rows| && id.index < |rows[id.deployment].attempts|
  }

  function AttemptAt(rows: seq<Deployment>, id: AttemptId): Attempt
    requires Exists(rows, id)
  {
    rows[id.deployment].attempts[id.index]
  }

  /** The stack's newest row, or -1. */
  function LatestRow(rows: seq<Deployment>, stack: string): (i: int)
    ensures -1 <= i < |rows|
    ensures i >= 0 ==> rows[i].stack == stack
    ensures forall j :: i < j < |rows| ==> rows[j].stack != stack
  {
    if rows == [] then -1
    else if rows[|rows| - 1].stack == stack then |rows| - 1
    else LatestRow(rows[..|rows| - 1], stack)
  }

  /** The attempt with the greatest number. */
  function NewestAttempt(attempts: seq<Attempt>): (k: nat)
    requires attempts != []
    ensures k < |attempts|
    ensures forall j :: 0 <= j < |attempts| ==> attempts[j].number <= attempts[k].number
  {
    if |attempts| == 1 then 0
    else
      var k := NewestAttempt(attempts[..|attempts| - 1]);
      assert forall j :: 0 <= j < |attempts| - 1 ==> attempts[..|attempts| - 1][j] == attempts[j];
      if attempts[|attempts| - 1].number >= attempts[k].number then |attempts| - 1 else k
  }

  /** Obligations that are not known are stored without their service list. */
  function Persisted(v: Verification): Verification {
    if v.known then v else v.(unresolved := [])
  }

  function NewAttempt(number: nat, now: int): Attempt {
    Attempt(number, now, RUNNING)
  }

  predicate HasRunning(rows: seq<Deployment>, stack: string) {
    exists i :: 0 <= i < |rows| && rows[i].stack == stack && rows[i].progress.status == Running
  }

  /** A new row with its first attempt; the schema admits one running row per stack. */
  function CreateDeployment(db: Db, stack: string, desired: Desired, v: Verification, now: int)
    : Result<(Db, AttemptId), Error>
  {
    if HasRunning(db.rows, stack) then Err(StorageFailure)
    else
      var row := Deployment(stack, desired, Persisted(v), RUNNING, [NewAttempt(1, now)]);
      Ok((db.(rows := db.rows + [row]), AttemptId(|db.rows|, 0)))
  }

  /** A retry attempt; the deployment's own columns return to running. */
  function StartAttempt(db: Db, i: nat, now: int): Result<(Db, AttemptId), Error>
    requires i < |db.rows|
  {
    var d := db.rows[i];
    if d.progress.status != Failed && d.progress.status != Interrupted then Err(NotRunning)
    else
      var next := d.(verification := Persisted(d.verification), progress := RUNNING,
                     attempts := d.attempts + [NewAttempt(|d.attempts| + 1, now)]);
      Ok((db.(rows := db.rows[i := next]), AttemptId(i, |d.attempts|)))
  }

  /** The terminal columns of an attempt, copied onto its deployment unless a newer attempt exists. */
  function FinishAttempt(db: Db, id: AttemptId, v: Verification, p: Progress): Result<Db, Error>
    requires Exists(db.rows, id)
  {
    var d := db.rows[id.deployment];
    if d.attempts[id.index].progress.status != Running then Err(NotRunning)
    else if d.progress.status != Running || NewestAttempt(d.attempts) != id.index then Err(NotRunning)
    else
      var next := d.(verification := Persisted(v), progress := p,
                     attempts := d.attempts[id.index := d.attempts[id.index].(progress := p)]);
      Ok(db.(rows := db.rows[id.deployment := next]))
  }

  function SaveVerification(db: Db, i: nat, v: Verification): Result<Db, Error>
    requires i < |db.rows|
  {
    if db.rows[i].progress.status != Running then Err(NotRunning)
    else Ok(db.(rows := db.rows[i := db.rows[i].(verification := Persisted(v))]))
  }

  function SaveBaseline(db: Db, i: nat): Db
    requires i < |db.rows|
  {
    if db.rows[i].progress.status == Succeeded
    then db.(baselines := db.baselines[db.rows[i].stack := i])
    else db
  }

  /** Copies an already terminal deployment onto an attempt that is still marked running. */
  function SynchronizeRunningAttempt(db: Db, id: AttemptId): (Db, bool)
    requires Exists(db.rows, id)
  {
    var d := db.rows[id.deployment];
    if d.attempts[id.index].progress.status == Running && d.progress.status != Running then
      var next := d.(attempts := d.attempts[id.index := d.attempts[id.index].(progress := d.progress)]);
      (db.(rows := db.rows[id.deployment := next]), true)
    else (db, false)
  }
}
