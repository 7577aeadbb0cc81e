/** Records of update generations and their undos, interleaved across services. */
module DeploymentBrackets {
  import opened Wrappers
  import opened DeploymentModel
  import opened DeploymentStore
  import opened DeploymentService

  const ANY_ATTEMPT := AttemptId(0, 0)

  function Drop(live: seq<Receipt>, j: nat): seq<Receipt>
    requires j < |live|
  {
    live[..j] + live[j + 1..]
  }

  function ReceiptFor(v: Verification, name: string, g: Generation): Receipt {
    Receipt(ANY_ATTEMPT, name, g, GenerationOf(v, name), name in v.unresolved)
  }

  /** Obligations as the store returns them, with every recorded generation naming its service. */
  ghost predicate Proper(v: Verification) {
    v == Persisted(v) && forall n :: n in v.generations ==> v.generations[n].serviceId != ""
  }

  predicate NewestOfItsService(live: seq<Receipt>, j: nat)
    requires j < |live|
  {
    forall k :: j < k < |live| ==> live[k].name != live[j].name
  }

  /** The obligations that a list of records alone leads to. */
  function Replay(v: Verification, live: seq<Receipt>): Verification {
    if live == [] then v
    else
      var last := live[|live| - 1];
      Recorded(Replay(v, live[..|live| - 1]), last.name, last.generation)
  }

  /** Each receipt says what held just before its own record. */
  ghost predicate Faithful(v: Verification, live: seq<Receipt>) {
    live == [] ||
    var last := live[|live| - 1];
    && Faithful(v, live[..|live| - 1])
    && last.generation.serviceId != ""
    && last == ReceiptFor(Replay(v, live[..|live| - 1]), last.name, last.generation).(id := last.id)
  }

  lemma {:induction false} ReplayIsProper(v: Verification, live: seq<Receipt>)
    requires Proper(v) && Faithful(v, live)
    ensures Proper(Replay(v, live))
  {
    if live != [] { ReplayIsProper(v, live[..|live| - 1]); }
  }

  lemma {:induction false} WithoutAppended(names: seq<string>, last: string, name: string)
    ensures Without(names + [last], name) == Without(names, name) + if last == name then [] else [last]
  {
    assert (names + [last])[..|names|] == names;
  }

  lemma NamesRestored(names: seq<string>, name: string, r: Receipt)
    requires r.name == name && r.unresolved == (name in names)
    ensures RestoreNames(AddName(names, name), r) == names
  {
    WithoutAppended(names, name, name);
  }

  lemma GenerationsRestored(generations: map<string, Generation>, g: Generation, r: Receipt)
    requires r.previous == if r.name in generations then generations[r.name] else NO_GENERATION
    ensures RestoreGenerations(generations[r.name := g], r) == generations <==>
      (r.name in generations ==> generations[r.name].serviceId != "")
  {
    var back := RestoreGenerations(generations[r.name := g], r);
    if r.name in generations && r.previous.serviceId == "" { assert r.name !in back; }
  }

  lemma NamesCommute(names: seq<string>, name: string, r: Receipt)
    requires r.name != name
    ensures RestoreNames(AddName(names, name), r) == AddName(RestoreNames(names, r), name)
  {
    WithoutAppended(names, name, r.name);
  }

  lemma GenerationsCommute(generations: map<string, Generation>, name: string, g: Generation, r: Receipt)
    requires r.name != name
    ensures RestoreGenerations(generations[name := g], r) == RestoreGenerations(generations, r)[name := g]
  {
  }

  /** An undo that directly follows its record restores the obligations, if and only if no generation of an
      unnamed service was recorded before. */
  lemma UndoRestoresExactly(v: Verification, name: string, g: Generation)
    requires v == Persisted(v)
    ensures Undone(Recorded(v, name, g), ReceiptFor(v, name, g)) == v <==>
      (name in v.generations ==> v.generations[name].serviceId != "")
  {
    var r := ReceiptFor(v, name, g);
    NamesRestored(v.unresolved, name, r);
    GenerationsRestored(v.generations, g, r);
  }

  /** The concrete loss: a generation recorded without a service identifier does not survive a later rejection. */
  lemma UnnamedGenerationIsLost()
    ensures var unnamed := Generation("", 7, 0, 0, "", 0);
      var v := Verification(true, ["api"], map["api" := unnamed]);
      var g := Generation("api-id", 8, 1, 0, "", 0);
      "api" !in Undone(Recorded(v, "api", g), ReceiptFor(v, "api", g)).generations
  {
  }

  lemma UndoCommutesWithOtherRecord(v: Verification, r: Receipt, name: string, g: Generation)
    requires v == Persisted(v) && r.name != name
    ensures Undone(Recorded(v, name, g), r) == Recorded(Undone(v, r), name, g)
  {
    NamesCommute(v.unresolved, name, r);
    GenerationsCommute(v.generations, name, g, r);
  }

  lemma UndoRestoresReceipt(v: Verification, r: Receipt)
    requires Proper(v) && r == ReceiptFor(v, r.name, r.generation).(id := r.id)
    ensures GenerationOf(Recorded(v, r.name, r.generation), r.name) == r.generation
    ensures Undone(Recorded(v, r.name, r.generation), r) == v
  {
    UndoRestoresExactly(v, r.name, r.generation);
  }

  lemma OtherReceiptUnchanged(v: Verification, r: Receipt, name: string, g: Generation)
    requires v == Persisted(v) && r.name != name
    ensures ReceiptFor(Undone(v, r), name, g) == ReceiptFor(v, name, g)
    ensures GenerationOf(Recorded(v, name, g), r.name) == GenerationOf(v, r.name)
  {
  }

  lemma DropSplits(live: seq<Receipt>, j: nat)
    requires j < |live|
    ensures var n := |live| - 1;
      if j == n then Drop(live, j) == live[..n] else Drop(live, j) == Drop(live[..n], j) + [live[n]]
  {
  }

  lemma {:induction false} FaithfulGrows(v: Verification, live: seq<Receipt>, last: Receipt)
    requires Faithful(v, live) && last.generation.serviceId != ""
    requires last == ReceiptFor(Replay(v, live), last.name, last.generation).(id := last.id)
    ensures Faithful(v, live + [last])
    ensures Replay(v, live + [last]) == Recorded(Replay(v, live), last.name, last.generation)
  {
    assert (live + [last])[..|live|] == live;
  }

  /** Undoing the newest record of a service leaves what the remaining records alone lead to. */
  lemma {:induction false} UndoRemovesRecord(v: Verification, live: seq<Receipt>, j: nat)
    requires Proper(v) && Faithful(v, live) && j < |live| && NewestOfItsService(live, j)
    ensures GenerationOf(Replay(v, live), live[j].name) == live[j].generation
    ensures Undone(Replay(v, live), live[j]) == Replay(v, Drop(live, j))
  {
    var n := |live| - 1;
    var before := Replay(v, live[..n]);
    ReplayIsProper(v, live[..n]);
    DropSplits(live, j);
    if j == n {
      UndoRestoresReceipt(before, live[n]);
    } else {
      UndoRemovesRecord(v, live[..n], j);
      assert (Drop(live[..n], j) + [live[n]])[..n - 1] == Drop(live[..n], j);
      UndoCommutesWithOtherRecord(before, live[j], live[n].name, live[n].generation);
      OtherReceiptUnchanged(before, live[j], live[n].name, live[n].generation);
    }
  }

  /** The remaining receipts still say what held before their records. */
  lemma {:induction false} UndoKeepsReceiptsFaithful(v: Verification, live: seq<Receipt>, j: nat)
    requires Proper(v) && Faithful(v, live) && j < |live| && NewestOfItsService(live, j)
    ensures Faithful(v, Drop(live, j))
  {
    var n := |live| - 1;
    DropSplits(live, j);
    if j < n {
      UndoKeepsReceiptsFaithful(v, live[..n], j);
      UndoRemovesRecord(v, live[..n], j);
      ReplayIsProper(v, live[..n]);
      OtherReceiptUnchanged(Replay(v, live[..n]), live[j], live[n].name, live[n].generation);
      FaithfulGrows(v, Drop(live[..n], j), live[n]);
    }
  }

  // ---------------------------------------------------------------- the tables of one attempt

  /** The tables, and the receipts of one attempt's landed records that no landed undo took back, oldest first. */
  datatype Ledger = Ledger(db: Db, live: seq<Receipt>)

  /** Transactions of the attempt, each with the fate of its commit, and whatever happens to other rows meanwhile. */
  datatype Op =
    | RecordOp(name: string, generation: Generation, commit: Commit)
    | UndoOp(position: nat, commit: Commit)
    | CompleteOp(completion: Completion, now: int, commit: Commit)
    | ElsewhereOp(db: Db)

  function Apply(s: Ledger, id: AttemptId, op: Op): Ledger {
    match op
    case RecordOp(name, g, commit) =>
      var tx := RecordTx(s.db, id, name, g);
      Ledger(Persist(s.db, tx, commit).0, if tx.Ok? && commit != RolledBack then s.live + [tx.value.1] else s.live)
    case UndoOp(j, commit) =>
      if j >= |s.live| then s
      else
        var tx := UndoTx(s.db, s.live[j]);
        Ledger(Persist(s.db, tx, commit).0, if tx.Ok? && commit != RolledBack then Drop(s.live, j) else s.live)
    case CompleteOp(c, now, commit) => s.(db := CompleteTransaction(s.db, id, c, now, commit).0)
    case ElsewhereOp(db) => s.(db := db)
  }

  function Run(s: Ledger, id: AttemptId, ops: seq<Op>): Ledger {
    if ops == [] then s else Apply(Run(s, id, ops[..|ops| - 1]), id, ops[|ops| - 1])
  }

  /** The attempt may still change its obligations. */
  predicate Open(db: Db, id: AttemptId) {
    VerificationDeployment(db, id).Ok? && db.rows[id.deployment].progress.status == Running
  }

  /** Undos are last-in-first-out for each service, other services interleave freely; generations name their service;
      other rows change as they like. */
  predicate Disciplined(s: Ledger, id: AttemptId, op: Op) {
    match op
    case RecordOp(_, g, _) => g.serviceId != ""
    case UndoOp(j, _) => j < |s.live| && NewestOfItsService(s.live, j)
    case CompleteOp(_, _, _) => true
    case ElsewhereOp(db) =>
      id.deployment < |s.db.rows| && id.deployment < |db.rows| && db.rows[id.deployment] == s.db.rows[id.deployment]
  }

  ghost predicate DisciplinedRun(s: Ledger, id: AttemptId, ops: seq<Op>) {
    forall i :: 0 <= i < |ops| ==> Disciplined(Run(s, id, ops[..i]), id, ops[i])
  }

  /** While the attempt is open its stored obligations are what the live records alone lead to. */
  ghost predicate Balanced(s: Ledger, id: AttemptId, v: Verification) {
    && Proper(v) && Faithful(v, s.live) && (forall k :: 0 <= k < |s.live| ==> s.live[k].id == id)
    && id.deployment < |s.db.rows|
    && (Open(s.db, id) ==> s.db.rows[id.deployment].verification == Replay(v, s.live))
  }

  lemma RecordBalances(s: Ledger, id: AttemptId, v: Verification, op: Op)
    requires Balanced(s, id, v) && op.RecordOp? && Disciplined(s, id, op)
    ensures Balanced(Apply(s, id, op), id, v)
  {
    var tx := RecordTx(s.db, id, op.name, op.generation);
    if tx.Ok? && op.commit != RolledBack {
      ReplayIsProper(v, s.live);
      FaithfulGrows(v, s.live, tx.value.1);
    }
  }

  /** The undo of a service's newest live record is accepted as long as the attempt is open. */
  lemma UndoIsAccepted(s: Ledger, id: AttemptId, v: Verification, j: nat)
    requires Balanced(s, id, v) && Open(s.db, id) && j < |s.live| && NewestOfItsService(s.live, j)
    ensures UndoTx(s.db, s.live[j]).Ok?
  {
    UndoRemovesRecord(v, s.live, j);
  }

  lemma UndoneRow(db: Db, r: Receipt)
    requires UndoTx(db, r).Ok?
    ensures Open(db, r.id)
    ensures var after := UndoTx(db, r).value.0;
      && Open(after, r.id)
      && after.rows[r.id.deployment].verification == Undone(db.rows[r.id.deployment].verification, r)
  {
  }

  lemma UndoBalances(s: Ledger, id: AttemptId, v: Verification, op: Op)
    requires Balanced(s, id, v) && op.UndoOp? && Disciplined(s, id, op)
    ensures Balanced(Apply(s, id, op), id, v)
  {
    var j := op.position;
    if UndoTx(s.db, s.live[j]).Ok? && op.commit != RolledBack {
      UndoneRow(s.db, s.live[j]);
      UndoRemovesRecord(v, s.live, j);
      UndoKeepsReceiptsFaithful(v, s.live, j);
    }
  }

  /** A completion of the attempt that lands closes it; one that is refused or rolled back changes nothing. */
  lemma CompletionBalances(s: Ledger, id: AttemptId, v: Verification, op: Op)
    requires Balanced(s, id, v) && op.CompleteOp?
    ensures Balanced(Apply(s, id, op), id, v)
    ensures Open(Apply(s, id, op).db, id) ==> Apply(s, id, op) == s
  {
  }

  /** Record and undo bracket: after any disciplined interleaving of records and undos, refused, rolled back or landed
      unreported, the attempt's stored obligations are, until it ends, those that the landed records not undone lead to
      by themselves, and the undo of a service's newest live record is accepted. */
  lemma {:induction false} SurvivingRecordsAlone(db: Db, id: AttemptId, ops: seq<Op>)
    requires Open(db, id) && Proper(db.rows[id.deployment].verification) && DisciplinedRun(Ledger(db, []), id, ops)
    ensures var s := Run(Ledger(db, []), id, ops); var v := db.rows[id.deployment].verification;
      && Balanced(s, id, v)
      && (Open(s.db, id) ==>
            && s.db.rows[id.deployment].verification == Replay(v, s.live)
            && forall j :: 0 <= j < |s.live| && NewestOfItsService(s.live, j) ==> UndoTx(s.db, s.live[j]).Ok?)
  {
    var v, start := db.rows[id.deployment].verification, Ledger(db, []);
    var s := Run(start, id, ops);
    if ops != [] {
      var before := ops[..|ops| - 1];
      assert forall i :: 0 <= i < |before| ==> before[..i] == ops[..i];
      SurvivingRecordsAlone(db, id, before);
      OpBalances(Run(start, id, before), id, v, ops[|ops| - 1]);
    }
    if Open(s.db, id) {
      forall j | 0 <= j < |s.live| && NewestOfItsService(s.live, j) ensures UndoTx(s.db, s.live[j]).Ok? {
        UndoIsAccepted(s, id, v, j);
      }
    }
  }

  lemma OpBalances(s: Ledger, id: AttemptId, v: Verification, op: Op)
    requires Balanced(s, id, v) && Disciplined(s, id, op)
    ensures Balanced(Apply(s, id, op), id, v)
  {
    match op
    case RecordOp(_, _, _) => RecordBalances(s, id, v, op);
    case UndoOp(_, _) => UndoBalances(s, id, v, op);
    case CompleteOp(_, _, _) => CompletionBalances(s, id, v, op);
    case ElsewhereOp(_) =>
  }

  /** Once the attempt has ended, it stays ended, and its records and undos change nothing. */
  lemma EndedAttemptRefuses(s: Ledger, id: AttemptId, op: Op)
    requires !Open(s.db, id) && Disciplined(s, id, op) && (forall k :: 0 <= k < |s.live| ==> s.live[k].id == id)
    ensures !Open(Apply(s, id, op).db, id)
    ensures op.RecordOp? || op.UndoOp? ==> Apply(s, id, op) == s
  {
  }

  /** On the tables, the undo of the record just made gives back the tables themselves. */
  lemma UndoRestoresTables(db: Db, id: AttemptId, name: string, g: Generation)
    requires RecordTx(db, id, name, g).Ok?
    requires Proper(db.rows[id.deployment].verification)
    ensures var (recorded, receipt) := RecordTx(db, id, name, g).value; UndoTx(recorded, receipt) == Ok((db, ()))
  {
    var v := db.rows[id.deployment].verification;
    var (recorded, receipt) := RecordTx(db, id, name, g).value;
    UndoRestoresExactly(v, name, g);
    assert receipt == ReceiptFor(v, name, g).(id := id);
    assert Undone(Recorded(v, name, g), receipt) == v;
    assert recorded.rows[id.deployment := db.rows[id.deployment]] == db.rows;
  }
}
