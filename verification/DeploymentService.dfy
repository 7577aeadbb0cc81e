/** The lifecycle service: each transaction as a function of the tables, and the methods that run it. */
module DeploymentService {
  import opened Wrappers
  import opened DeploymentModel
  import opened DeploymentStore
  import Retry
  import Text

  type Tx<T> = Result<(Db, T), Error>

  // ---------------------------------------------------------------- obligations

  /** The elements of names that also occur in allowed, in their order in names. */
  function Keep(names: seq<string>, allowed: seq<string>): (r: seq<string>)
    ensures forall n :: n in r <==> n in names && n in allowed
  {
    if names == [] then []
    else
      var last := names[|names| - 1];
      Keep(names[..|names| - 1], allowed) + if last in allowed then [last] else []
  }

  /** Keeping goes name by name, in the order of the list. */
  lemma {:induction false} KeepSplits(a: seq<string>, b: seq<string>, allowed: seq<string>)
    ensures Keep(a + b, allowed) == Keep(a, allowed) + Keep(b, allowed)
  {
    if b == [] {
      assert a + b == a && Keep(a, allowed) + [] == Keep(a, allowed);
    } else {
      var n := |b| - 1;
      assert (a + b)[..|a + b| - 1] == a + b[..n];
      KeepSplits(a, b[..n], allowed);
    }
  }

  lemma {:induction false} KeepOne(name: string, allowed: seq<string>)
    ensures Keep([name], allowed) == if name in allowed then [name] else []
  {
    assert [name][..0] == [];
  }

  function Restrict(generations: map<string, Generation>, names: seq<string>): map<string, Generation> {
    map n | n in generations && n in names :: generations[n]
  }

  /** Obligations a new desired state inherits: all of its services when they were never established. */
  function Inherited(previous: Deployment, desired: Desired): seq<string> {
    if !previous.verification.known && (previous.progress.status == Failed || previous.progress.status == Interrupted)
    then desired.services
    else Keep(desired.services, previous.verification.unresolved)
  }

  /** A failed or interrupted predecessor whose obligations nobody established leaves every service owed; otherwise
      those services stay owed that were. */
  lemma InheritedIff(previous: Deployment, desired: Desired)
    ensures forall n :: n in Inherited(previous, desired) <==>
      && n in desired.services
      && (|| n in previous.verification.unresolved
          || (!previous.verification.known && previous.progress.status in {Failed, Interrupted}))
  {
  }

  method UnresolvedServices(previous: Deployment, desired: Desired) returns (names: seq<string>)
    ensures names == Inherited(previous, desired)
  {
    var failed := previous.progress.status == Failed || previous.progress.status == Interrupted;
    if !previous.verification.known && failed {
      return desired.services;
    }
    names := [];
    for i := 0 to |desired.services|
      invariant names == Keep(desired.services[..i], previous.verification.unresolved)
    {
      assert desired.services[..i + 1][..i] == desired.services[..i];
      if desired.services[i] in previous.verification.unresolved {
        names := names + [desired.services[i]];
      }
    }
    assert desired.services[..|desired.services|] == desired.services;
  }

  method UnresolvedGenerations(v: Verification, names: seq<string>) returns (kept: map<string, Generation>)
    ensures kept == Restrict(v.generations, names)
  {
    kept := map[];
    for i := 0 to |names|
      invariant kept == Restrict(v.generations, names[..i])
    {
      if names[i] in v.generations {
        kept := kept[names[i] := v.generations[names[i]]];
      }
    }
    assert names[..|names|] == names;
  }

  /** What is still owed once an attempt of this deployment has ended. */
  function ObligationsAfter(v: Verification, desired: Desired, st: CompletionState): (r: Verification)
    ensures r.known
    ensures forall n :: n in r.unresolved <==>
      && st.progress.status != Succeeded
      && (|| n in (if st.rollout.known then st.rollout.unresolved else desired.services)
          || (st.progress.phase == PhaseApply && n in v.unresolved))
    ensures r.generations == Restrict(v.generations, r.unresolved)
    ensures Text.StrictlySorted(r.unresolved)
  {
    if st.progress.status == Succeeded then Verification(true, [], map[])
    else
      var reported := if st.rollout.known then st.rollout.unresolved else desired.services;
      var inherited := if st.progress.phase == PhaseApply then v.unresolved else [];
      var names := Text.SortCompact(reported + inherited);
      Verification(true, names, Restrict(v.generations, names))
  }

  // ---------------------------------------------------------------- completion

  function CompletionEvent(id: AttemptId, p: Progress): Event {
    match p.status
    case Succeeded => DeploySuccess(id)
    case Failed => DeployFailed(id, p.errorCode, EventStage(p))
    case _ => DeployInterrupted(id, p.errorCode, EventStage(p))
  }

  function CompleteTx(db: Db, id: AttemptId, st: CompletionState, now: int): (r: Tx<()>)
    ensures r.Ok? <==>
      && Exists(db.rows, id) && AttemptAt(db.rows, id).progress.status == Running
      && db.rows[id.deployment].progress.status == Running && NewestAttempt(db.rows[id.deployment].attempts) == id.index
    ensures r.Ok? ==> |r.value.0.rows| == |db.rows|
  {
    if !Exists(db.rows, id) then Err(NotFound)
    else
      var d := db.rows[id.deployment];
      if || AttemptAt(db.rows, id).progress.status != Running
         || d.progress.status != Running
         || NewestAttempt(d.attempts) != id.index
      then Err(NotRunning)
      else
        var p := st.progress.(finishedAt := Some(now));
        match FinishAttempt(db, id, ObligationsAfter(d.verification, d.desired, st), p)
        case Err(e) => Err(e)
        case Ok(finished) =>
          var saved := if p.status == Succeeded then SaveBaseline(finished, id.deployment) else finished;
          Ok((saved.(outbox := saved.outbox + [CompletionEvent(id, p)]), ()))
  }

  function CompleteTransaction(db: Db, id: AttemptId, c: Completion, now: int, commit: Commit)
    : (Db, Result<(), Error>)
  {
    match State(c)
    case Err(e) => (db, Err(e))
    case Ok(st) => Persist(db, CompleteTx(db, id, st, now), commit)
  }

  // ---------------------------------------------------------------- start

  function RetryAllowed(d: Deployment, now: int): bool {
    d.progress.retryable && d.progress.finishedAt.Some? &&
    now >= d.progress.finishedAt.value + Retry.Delay(|d.attempts|)
  }

  function StartExisting(db: Db, i: nat, manualRetry: bool, now: int): Tx<Option<AttemptId>>
    requires i < |db.rows|
  {
    match db.rows[i].progress.status
    case Succeeded | Running => Ok((db, None))
    case Failed | Interrupted =>
      if !manualRetry && !RetryAllowed(db.rows[i], now) then Ok((db, None))
      else
        match StartAttempt(db, i, now)
        case Err(e) => Err(e)
        case Ok((next, id)) => Ok((next, Some(id)))
  }

  /** Interrupts the running attempt of a deployment that a new desired state replaces. */
  function SupersedePrevious(db: Db, i: nat, now: int): (r: Tx<()>)
    requires i < |db.rows|
    ensures r.Ok? ==> |r.value.0.rows| == |db.rows|
  {
    if db.rows[i].progress.status != Running then Ok((db, ()))
    else if db.rows[i].attempts == [] then Err(NotFound)
    else CompleteTx(db, AttemptId(i, NewestAttempt(db.rows[i].attempts)), INTERRUPTION, now)
  }

  /** The services of the previous desired state that the current one no longer has, sorted. */
  function Removals(previous: Desired, current: Desired): (r: seq<string>)
    ensures Text.Sorted(r)
  {
    Text.Sort(Dropped(previous.services, current.services))
  }

  function Dropped(names: seq<string>, current: seq<string>): seq<string> {
    if names == [] then []
    else
      var last := names[|names| - 1];
      Dropped(names[..|names| - 1], current) + if last in current then [] else [last]
  }

  lemma {:induction false} DroppedCounts(names: seq<string>, current: seq<string>, n: string)
    ensures multiset(Dropped(names, current))[n] == if n in current then 0 else multiset(names)[n]
  {
    if names != [] {
      DroppedCounts(names[..|names| - 1], current, n);
      assert names == names[..|names| - 1] + [names[|names| - 1]];
    }
  }

  /** Every service left out of the current desired state, as often as the previous one has it, and no other. */
  lemma RemovalsCount(previous: Desired, current: Desired)
    ensures forall n :: multiset(Removals(previous, current))[n] ==
                        if n in current.services then 0 else multiset(previous.services)[n]
    ensures forall n :: n in Removals(previous, current) <==> n in previous.services && n !in current.services
  {
    var r := Removals(previous, current);
    forall n ensures multiset(r)[n] == (if n in current.services then 0 else multiset(previous.services)[n])
                     && (n in r <==> n in previous.services && n !in current.services) {
      DroppedCounts(previous.services, current.services, n);
      assert n in r <==> multiset(r)[n] > 0;
      assert n in previous.services <==> multiset(previous.services)[n] > 0;
    }
  }

  lemma {:induction false} DroppedGrows(names: seq<string>, i: nat, current: seq<string>)
    requires i < |names|
    ensures Dropped(names[..i + 1], current) ==
      Dropped(names[..i], current) + if names[i] in current then [] else [names[i]]
  {
    assert names[..i + 1][..i] == names[..i];
  }

  method DesiredServiceRemovals(previous: Desired, current: Desired) returns (removed: seq<string>)
    ensures removed == Removals(previous, current)
  {
    removed := [];
    for i := 0 to |previous.services|
      invariant removed == Dropped(previous.services[..i], current.services)
    {
      DroppedGrows(previous.services, i, current.services);
      if previous.services[i] !in current.services {
        removed := removed + [previous.services[i]];
      }
    }
    assert previous.services[..|previous.services|] == previous.services;
    removed := Text.Sort(removed);
  }

  function RemovalEvents(stack: string, names: seq<string>): seq<Event> {
    seq(|names|, i requires 0 <= i < |names| => ServiceRemovedFromDesired(stack, names[i]))
  }

  function StartChanged(db: Db, i: nat, stack: string, desired: Desired, now: int): Tx<Option<AttemptId>>
    requires i < |db.rows|
  {
    match SupersedePrevious(db, i, now)
    case Err(e) => Err(e)
    case Ok((work, _)) =>
      var latest := work.rows[i];
      var names := Inherited(latest, desired);
      match CreateDeployment(work, stack, desired,
                             Verification(true, names, Restrict(latest.verification.generations, names)), now)
      case Err(e) => Err(e)
      case Ok((created, id)) =>
        var events := RemovalEvents(stack, Removals(db.rows[i].desired, desired));
        Ok((created.(outbox := created.outbox + events), Some(id)))
  }

  function StartTx(db: Db, stack: string, desired: Desired, sourceChanged: bool, manualRetry: bool, now: int)
    : Tx<Option<AttemptId>>
  {
    var i := LatestRow(db.rows, stack);
    if i < 0 then
      if !sourceChanged then Ok((db, None))
      else
        match CreateDeployment(db, stack, desired, UNKNOWN_ROLLOUT, now)
        case Err(e) => Err(e)
        case Ok((created, id)) => Ok((created, Some(id)))
    else if db.rows[i].desired.digest == desired.digest then StartExisting(db, i, manualRetry, now)
    else StartChanged(db, i, stack, desired, now)
  }

  // ---------------------------------------------------------------- update generations

  /** What the undo of one record has to know. */
  datatype Receipt = Receipt(
    id: AttemptId, name: string, generation: Generation, previous: Generation, unresolved: bool)

  function GenerationOf(v: Verification, name: string): Generation {
    if name in v.generations then v.generations[name] else NO_GENERATION
  }

  function AddName(names: seq<string>, name: string): seq<string> {
    if name in names then names else names + [name]
  }

  function Recorded(v: Verification, name: string, g: Generation): Verification {
    Persisted(Verification(v.known, AddName(v.unresolved, name), v.generations[name := g]))
  }

  function Without(names: seq<string>, name: string): (r: seq<string>)
    ensures forall n :: n in r <==> n in names && n != name
    ensures name !in names ==> r == names
  {
    if names == [] then []
    else
      var last := names[|names| - 1];
      assert names == names[..|names| - 1] + [last];
      Without(names[..|names| - 1], name) + if last == name then [] else [last]
  }

  function RestoreNames(names: seq<string>, r: Receipt): seq<string> {
    if r.unresolved then names else Without(names, r.name)
  }

  function RestoreGenerations(generations: map<string, Generation>, r: Receipt): map<string, Generation> {
    if r.previous.serviceId != "" then generations[r.name := r.previous] else generations - {r.name}
  }

  function Undone(v: Verification, r: Receipt): Verification {
    Persisted(Verification(v.known, RestoreNames(v.unresolved, r), RestoreGenerations(v.generations, r)))
  }

  /** The deployment whose obligations a running, newest attempt may change. */
  function VerificationDeployment(db: Db, id: AttemptId): (r: Result<nat, Error>)
    ensures r.Ok? ==> r.value == id.deployment < |db.rows|
  {
    if !Exists(db.rows, id) then Err(NotFound)
    else if || AttemptAt(db.rows, id).progress.status != Running
            || NewestAttempt(db.rows[id.deployment].attempts) != id.index
    then Err(NotRunning)
    else Ok(id.deployment)
  }

  function RecordTx(db: Db, id: AttemptId, name: string, g: Generation): Tx<Receipt> {
    match VerificationDeployment(db, id)
    case Err(e) => Err(e)
    case Ok(i) =>
      var v := db.rows[i].verification;
      match SaveVerification(db, i, Recorded(v, name, g))
      case Err(e) => Err(e)
      case Ok(next) => Ok((next, Receipt(id, name, g, GenerationOf(v, name), name in v.unresolved)))
  }

  /** An undo acts exactly while its attempt is the running newest one and its generation is still current. */
  function UndoTx(db: Db, r: Receipt): (tx: Tx<()>)
    ensures tx.Ok? <==>
      && Exists(db.rows, r.id) && AttemptAt(db.rows, r.id).progress.status == Running
      && db.rows[r.id.deployment].progress.status == Running
      && NewestAttempt(db.rows[r.id.deployment].attempts) == r.id.index
      && GenerationOf(db.rows[r.id.deployment].verification, r.name) == r.generation
  {
    match VerificationDeployment(db, r.id)
    case Err(e) => Err(e)
    case Ok(i) =>
      if GenerationOf(db.rows[i].verification, r.name) != r.generation then Err(NotRunning)
      else
        match SaveVerification(db, i, Undone(db.rows[i].verification, r))
        case Err(e) => Err(e)
        case Ok(next) => Ok((next, ()))
  }

  // ---------------------------------------------------------------- recovery

  function RunningIn(attempts: seq<Attempt>, deployment: nat): (ids: seq<AttemptId>)
    ensures forall id :: id in ids <==>
      id.deployment == deployment && id.index < |attempts| && attempts[id.index].progress.status == Running
    ensures forall a, b :: 0 <= a < b < |ids| ==> ids[a] != ids[b]
  {
    if attempts == [] then []
    else
      var k := |attempts| - 1;
      assert forall j :: 0 <= j < k ==> attempts[..k][j] == attempts[j];
      RunningIn(attempts[..k], deployment)
        + if attempts[k].progress.status == Running then [AttemptId(deployment, k)] else []
  }

  /** Every attempt the tables still mark running. */
  function RunningAttempts(rows: seq<Deployment>): (ids: seq<AttemptId>)
    ensures forall id :: id in ids <==> Exists(rows, id) && AttemptAt(rows, id).progress.status == Running
    ensures forall a, b :: 0 <= a < b < |ids| ==> ids[a] != ids[b]
  {
    if rows == [] then []
    else
      var i := |rows| - 1;
      assert forall j :: 0 <= j < i ==> rows[..i][j] == rows[j];
      var earlier := RunningAttempts(rows[..i]);
      assert forall id :: id in earlier ==> Exists(rows[..i], id);
      assert forall a :: 0 <= a < |earlier| ==> earlier[a] in earlier;
      var own := RunningIn(rows[i].attempts, i);
      assert forall a :: 0 <= a < |own| ==> own[a] in own && own[a].deployment == i;
      earlier + own
  }

  function InterruptOne(db: Db, id: AttemptId, now: int): Tx<()> {
    if !Exists(db.rows, id) then Err(NotFound)
    else
      var (synchronized, done) := SynchronizeRunningAttempt(db, id);
      if done then Ok((synchronized, ())) else CompleteTx(db, id, INTERRUPTION, now)
  }

  function InterruptAll(db: Db, ids: seq<AttemptId>, now: int): Tx<()> {
    if ids == [] then Ok((db, ()))
    else
      match InterruptAll(db, ids[..|ids| - 1], now)
      case Err(e) => Err(e)
      case Ok((work, _)) => InterruptOne(work, ids[|ids| - 1], now)
  }

  function InterruptTx(db: Db, now: int): Tx<()> {
    InterruptAll(db, RunningAttempts(db.rows), now)
  }

  lemma {:induction false} InterruptAllStopsAtError(db: Db, ids: seq<AttemptId>, k: nat, now: int)
    requires k <= |ids| && InterruptAll(db, ids[..k], now).Err?
    ensures InterruptAll(db, ids, now) == InterruptAll(db, ids[..k], now)
  {
    if k == |ids| {
      assert ids[..k] == ids;
    } else {
      assert ids[..|ids| - 1][..k] == ids[..k];
      InterruptAllStopsAtError(db, ids[..|ids| - 1], k, now);
    }
  }

  // ---------------------------------------------------------------- the service

  class Service {
    var db: Db

    constructor ()
      ensures db == EMPTY
    {
      db := EMPTY;
    }

    /** The statements of one completion inside an open transaction. */
    static method CompleteWithin(work: Db, id: AttemptId, st: CompletionState, now: int) returns (r: Tx<()>)
      ensures r == CompleteTx(work, id, st, now)
    {
      if !Exists(work.rows, id) {
        return Err(NotFound);
      }
      var deployment := work.rows[id.deployment];
      var attempt := deployment.attempts[id.index];
      var newest := NewestAttempt(deployment.attempts);
      if attempt.progress.status != Running || deployment.progress.status != Running || newest != id.index {
        return Err(NotRunning);
      }
      attempt := attempt.(progress := st.progress.(finishedAt := Some(now)));
      var owed := deployment.verification;
      if st.progress.status == Succeeded {
        owed := Verification(true, [], map[]);
      } else {
        var stateInherited := owed.unresolved;
        var unresolved := st.rollout.unresolved;
        if !st.rollout.known {
          unresolved := deployment.desired.services;
        }
        owed := owed.(known := true, unresolved := unresolved);
        if st.progress.phase == PhaseApply {
          owed := owed.(unresolved := owed.unresolved + stateInherited);
        } else {
          assert owed.unresolved == unresolved + [];
        }
        owed := owed.(unresolved := Text.SortCompact(owed.unresolved));
        var kept := UnresolvedGenerations(owed, owed.unresolved);
        owed := owed.(generations := kept);
      }
      var finished := FinishAttempt(work, id, owed, attempt.progress);
      assert finished.Ok?;
      var saved := finished.value;
      if st.progress.status == Succeeded {
        saved := SaveBaseline(saved, id.deployment);
      }
      r := Ok((saved.(outbox := saved.outbox + [CompletionEvent(id, attempt.progress)]), ()));
    }

    method Complete(id: AttemptId, c: Completion, now: int, commit: Commit) returns (r: Result<(), Error>)
      modifies this
      ensures (db, r) == CompleteTransaction(old(db), id, c, now, commit)
    {
      var st := State(c);
      if st.Err? {
        return Err(st.error);
      }
      var tx := CompleteWithin(db, id, st.value, now);
      var outcome := Persist(db, tx, commit);
      db := outcome.0;
      r := outcome.1;
    }

    method AutomaticRetryAllowed(latest: Deployment, now: int) returns (allowed: bool)
      ensures allowed == RetryAllowed(latest, now)
    {
      if !latest.progress.retryable || latest.progress.finishedAt == None {
        return false;
      }
      var delay, _ := Retry.RetryDelay(|latest.attempts|);
      allowed := !(now < latest.progress.finishedAt.value + delay as int);
    }

    method StartExistingDeployment(i: nat, manualRetry: bool, now: int) returns (r: Tx<Option<AttemptId>>)
      requires i < |db.rows|
      ensures r == StartExisting(db, i, manualRetry, now)
    {
      var latest := db.rows[i];
      if latest.progress.status == Succeeded || latest.progress.status == Running {
        return Ok((db, None));
      }
      var allowed := AutomaticRetryAllowed(latest, now);
      if !manualRetry && !allowed {
        return Ok((db, None));
      }
      var again := StartAttempt(db, i, now);
      r := match again
        case Ok((started, id)) => Ok((started, Some(id)))
        case Err(error) => Err(error);
    }

    static method Supersede(work: Db, i: nat, now: int) returns (r: Tx<()>)
      requires i < |work.rows|
      ensures r == SupersedePrevious(work, i, now)
    {
      var latest := work.rows[i];
      if latest.progress.status != Running {
        return Ok((work, ()));
      }
      if latest.attempts == [] {
        return Err(NotFound);
      }
      var st := State(PROCESS_INTERRUPTED);
      assert st == Ok(INTERRUPTION);
      r := CompleteWithin(work, AttemptId(i, NewestAttempt(latest.attempts)), st.value, now);
    }

    static method PublishRemovals(work: Db, stack: string, removed: seq<string>) returns (published: Db)
      ensures published == work.(outbox := work.outbox + RemovalEvents(stack, removed))
    {
      published := work;
      for k := 0 to |removed|
        invariant published == work.(outbox := work.outbox + RemovalEvents(stack, removed)[..k])
      {
        published := published.(outbox := published.outbox + [ServiceRemovedFromDesired(stack, removed[k])]);
      }
    }

    method StartReplacement(i: nat, stack: string, desired: Desired, now: int) returns (r: Tx<Option<AttemptId>>)
      requires i < |db.rows|
      ensures r == StartChanged(db, i, stack, desired, now)
    {
      var removed := DesiredServiceRemovals(db.rows[i].desired, desired);
      var superseded := Supersede(db, i, now);
      if superseded.Err? {
        return Err(superseded.error);
      }
      var work := superseded.value.0;
      var latest := work.rows[i];
      var names := UnresolvedServices(latest, desired);
      var kept := UnresolvedGenerations(latest.verification, names);
      var created := CreateDeployment(work, stack, desired, Verification(true, names, kept), now);
      if created.Err? {
        return Err(created.error);
      }
      work := PublishRemovals(created.value.0, stack, removed);
      r := Ok((work, Some(created.value.1)));
    }

    method StartPrepared(
        stack: string, desired: Desired, sourceChanged: bool, manualRetry: bool, now: int)
      returns (r: Tx<Option<AttemptId>>)
      ensures r == StartTx(db, stack, desired, sourceChanged, manualRetry, now)
    {
      var i := LatestRow(db.rows, stack);
      if i < 0 {
        if !sourceChanged {
          return Ok((db, None));
        }
        var first := CreateDeployment(db, stack, desired, UNKNOWN_ROLLOUT, now);
        r := match first
          case Ok((created, id)) => Ok((created, Some(id)))
          case Err(error) => Err(error);
        return;
      }
      if db.rows[i].desired.digest == desired.digest {
        r := StartExistingDeployment(i, manualRetry, now);
      } else {
        r := StartReplacement(i, stack, desired, now);
      }
    }

    method StartIfChanged(
        stack: string, desired: Desired, sourceChanged: bool, manualRetry: bool, now: int, commit: Commit)
      returns (r: Result<Option<AttemptId>, Error>)
      modifies this
      ensures (db, r) == Persist(old(db), StartTx(old(db), stack, desired, sourceChanged, manualRetry, now), commit)
    {
      var tx := StartPrepared(stack, desired, sourceChanged, manualRetry, now);
      var outcome := Persist(db, tx, commit);
      db := outcome.0;
      r := outcome.1;
    }

    method RecordUpdateGeneration(id: AttemptId, name: string, generation: Generation, commit: Commit)
      returns (r: Result<Receipt, Error>)
      modifies this
      ensures (db, r) == Persist(old(db), RecordTx(old(db), id, name, generation), commit)
    {
      var found := VerificationDeployment(db, id);
      if found.Err? {
        return Err(found.error);
      }
      var v := db.rows[found.value].verification;
      var previous := GenerationOf(v, name);
      var unresolved := name in v.unresolved;
      v := v.(generations := v.generations[name := generation]);
      if !unresolved {
        v := v.(unresolved := v.unresolved + [name]);
      }
      var saved := SaveVerification(db, found.value, Persisted(v));
      var tx := match saved
        case Ok(after) => Ok((after, Receipt(id, name, generation, previous, unresolved)))
        case Err(error) => Err(error);
      var outcome := Persist(db, tx, commit);
      db := outcome.0;
      r := outcome.1;
    }

    method UndoUpdateGeneration(receipt: Receipt, commit: Commit) returns (r: Result<(), Error>)
      modifies this
      ensures (db, r) == Persist(old(db), UndoTx(old(db), receipt), commit)
    {
      var found := VerificationDeployment(db, receipt.id);
      if found.Err? {
        return Err(found.error);
      }
      var v := db.rows[found.value].verification;
      if GenerationOf(v, receipt.name) != receipt.generation {
        return Err(NotRunning);
      }
      v := v.(generations := v.generations - {receipt.name});
      if receipt.previous.serviceId != "" {
        v := v.(generations := v.generations[receipt.name := receipt.previous]);
      }
      if !receipt.unresolved {
        v := v.(unresolved := Without(v.unresolved, receipt.name));
      }
      assert Persisted(v) == Undone(db.rows[found.value].verification, receipt);
      var saved := SaveVerification(db, found.value, Persisted(v));
      var tx := match saved
        case Ok(after) => Ok((after, ()))
        case Err(error) => Err(error);
      var outcome := Persist(db, tx, commit);
      db := outcome.0;
      r := outcome.1;
    }

    static method Interrupt(work: Db, id: AttemptId, now: int) returns (r: Tx<()>)
      ensures r == InterruptOne(work, id, now)
    {
      if !Exists(work.rows, id) {
        return Err(NotFound);
      }
      var (next, synchronized) := SynchronizeRunningAttempt(work, id);
      if synchronized {
        return Ok((next, ()));
      }
      var st := State(PROCESS_INTERRUPTED);
      assert st == Ok(INTERRUPTION);
      r := CompleteWithin(work, id, st.value, now);
    }

    static method InterruptAttempts(start: Db, ids: seq<AttemptId>, now: int) returns (r: Tx<()>)
      ensures r == InterruptAll(start, ids, now)
    {
      var work := start;
      for i := 0 to |ids|
        invariant InterruptAll(start, ids[..i], now) == Ok((work, ()))
      {
        assert ids[..i + 1][..i] == ids[..i];
        var one := Interrupt(work, ids[i], now);
        if one.Err? {
          InterruptAllStopsAtError(start, ids, i + 1, now);
          return Err(one.error);
        }
        work := one.value.0;
      }
      assert ids[..|ids|] == ids;
      r := Ok((work, ()));
    }

    method InterruptRunning(now: int, commit: Commit) returns (r: Result<(), Error>)
      modifies this
      ensures (db, r) == Persist(old(db), InterruptTx(old(db), now), commit)
    {
      var running := RunningAttempts(db.rows);
      var tx := InterruptAttempts(db, running, now);
      var outcome := Persist(db, tx, commit);
      db := outcome.0;
      r := outcome.1;
    }
  }
}
