/** Concurrent handlers of pending operations: every interleaving of their store accesses. */
module PendingRuns {
  import opened Wrappers
  import opened ServiceTargets
  import opened Text
  import opened PendingOperations

  datatype Reply = Unclear | Affirmative | Negative

  /** A user message as the handlers read it. */
  datatype Message = Message(reply: Reply, unrelated: bool)

  datatype Phase =
    | Reading
    | Holding(serial: nat, op: PendingOperation)
    | Routing
    | Claimed(serial: nat, op: PendingOperation)
    | Done

  /** One handler, running between two accesses of the shared store. */
  datatype Handler = Handler(conversation: string, message: Message, phase: Phase)

  /** A successful claim: which stored operation, by which handler, when. */
  datatype Receipt = Receipt(serial: nat, handler: nat, at: int)

  /** A tool run, with the catalogue and the allowed tools of its moment. */
  datatype Execution = Execution(
    serial: nat, handler: nat, request: Request, services: Option<seq<Service>>, allowed: set<OperationType>)

  datatype Issue = Issue(conversation: string, op: PendingOperation)

  /** Every stored operation gets the next serial number; serials follows the store's own map. */
  datatype System = System(
    operations: Operations, serials: map<string, nat>, issued: seq<Issue>, handlers: seq<Handler>,
    receipts: seq<Receipt>, executions: seq<Execution>, ttl: int)

  datatype Step =
    | Arrive(conversation: string, message: Message)
    | Read(handler: nat, now: int)
    | Start(handler: nat, intent: Option<Intent>, lookup: Lookup, now: int)
    | Confirm(handler: nat, now: int)
    | Decline(handler: nat)
    | Collect(handler: nat, named: Option<string>, lookup: Lookup, count: Option<nat>, now: int)
    | Execute(handler: nat, services: Option<seq<Service>>, allowed: set<OperationType>)

  function Init(ttl: int): System {
    System(map[], map[], [], [], [], [], ttl)
  }

  predicate Runs(s: System, i: nat) {
    i < |s.handlers|
  }

  predicate Enabled(s: System, step: Step) {
    match step
    case Arrive(_, _) => true
    case Read(i, _) => Runs(s, i) && s.handlers[i].phase.Reading?
    case Start(i, _, _, _) => Runs(s, i) && s.handlers[i].phase.Routing?
    case Confirm(i, _) =>
      && Runs(s, i) && s.handlers[i].phase.Holding? && s.handlers[i].phase.op.stage == Confirmation
      && s.handlers[i].message.reply == Affirmative
    case Decline(i) =>
      && Runs(s, i) && s.handlers[i].phase.Holding?
      && (s.handlers[i].phase.op.stage == Confirmation ==> s.handlers[i].message.reply != Affirmative)
      && (s.handlers[i].phase.op.stage == Collecting ==> s.handlers[i].message.unrelated)
    case Collect(i, _, _, _, _) =>
      && Runs(s, i) && s.handlers[i].phase.Holding? && s.handlers[i].phase.op.stage == Collecting
      && !s.handlers[i].message.unrelated
    case Execute(i, _, _) => Runs(s, i) && s.handlers[i].phase.Claimed?
  }

  function At(s: System, i: nat, phase: Phase): System
    requires Runs(s, i)
  {
    s.(handlers := s.handlers[i := s.handlers[i].(phase := phase)])
  }

  /** Serials of conversations that no longer have an operation are forgotten with it. */
  function Restrict(serials: map<string, nat>, ops: Operations): map<string, nat> {
    serials - (serials.Keys - ops.Keys)
  }

  function With(s: System, ops: Operations): System {
    s.(operations := ops, serials := Restrict(s.serials, ops))
  }

  function Store(s: System, id: string, op: PendingOperation, now: int): System {
    s.(operations := Set(s.operations, id, op, now, s.ttl), serials := s.serials[id := |s.issued|],
       issued := s.issued + [Issue(id, op.(expiresAt := now + s.ttl))])
  }

  function Do(s: System, step: Step): System
    requires Enabled(s, step) && s.serials.Keys == s.operations.Keys
  {
    match step
    case Arrive(conversation, message) => s.(handlers := s.handlers + [Handler(conversation, message, Reading)])
    case Read(i, now) =>
      var (ops, op) := Get(s.operations, s.handlers[i].conversation, now);
      At(With(s, ops), i, if op.Some? then Holding(s.serials[s.handlers[i].conversation], op.value) else Routing)
    case Start(i, intent, lookup, now) =>
      var op := if intent.Some? then Started(intent.value, lookup) else None;
      At(if op.Some? then Store(s, s.handlers[i].conversation, op.value, now) else s, i, Done)
    case Confirm(i, now) =>
      var id, op := s.handlers[i].conversation, s.handlers[i].phase.op;
      var (ops, claimed) := Claim(s.operations, id, op, now);
      if claimed then
        At(With(s, ops), i, Claimed(s.serials[id], op)).(receipts := s.receipts + [Receipt(s.serials[id], i, now)])
      else At(With(s, ops), i, Done)
    case Decline(i) =>
      var h := s.handlers[i];
      if h.phase.op.stage == Confirmation && h.message.reply == Unclear && !h.message.unrelated then At(s, i, Done)
      else
        At(With(s, s.operations - {h.conversation}), i,
           if h.phase.op.stage == Confirmation && h.message.reply == Negative then Done else Routing)
    case Collect(i, named, lookup, count, now) =>
      At(Store(s, s.handlers[i].conversation, Collected(s.handlers[i].phase.op, named, lookup, count), now), i, Done)
    case Execute(i, services, allowed) =>
      var request := RequestOf(s.handlers[i].phase.op, services, allowed);
      At(s, i, Done).(executions := s.executions +
        if request.Some? then [Execution(s.handlers[i].phase.serial, i, request.value, services, allowed)] else [])
  }

  // ---------------------------------------------------------------- the invariant

  /** The store holds issued operations, each under its own serial number. */
  ghost predicate SerialsOk(operations: Operations, serials: map<string, nat>, issued: seq<Issue>) {
    && serials.Keys == operations.Keys
    && (forall id :: id in serials ==> serials[id] < |issued| && issued[serials[id]] == Issue(id, operations[id]))
    && (forall a, b :: a in serials && b in serials && serials[a] == serials[b] ==> a == b)
  }

  /** Nobody has claimed an operation that is still stored. */
  ghost predicate Unclaimed(serials: map<string, nat>, receipts: seq<Receipt>) {
    forall id, k :: id in serials && 0 <= k < |receipts| ==> receipts[k].serial != serials[id]
  }

  ghost predicate StoreOk(s: System) {
    && SerialsOk(s.operations, s.serials, s.issued) && Unclaimed(s.serials, s.receipts)
    && forall k :: 0 <= k < |s.issued| ==> Askable(s.issued[k].op)
  }

  /** A claim was won once per stored operation, by a handler whose user agreed, in time, at the confirmation stage. */
  ghost predicate ReceiptOk(s: System, k: nat)
    requires k < |s.receipts|
  {
    var r := s.receipts[k];
    && r.serial < |s.issued| && Runs(s, r.handler)
    && s.issued[r.serial].op.stage == Confirmation && r.at < s.issued[r.serial].op.expiresAt
    && s.handlers[r.handler].message.reply == Affirmative
    && s.handlers[r.handler].conversation == s.issued[r.serial].conversation
    && (s.handlers[r.handler].phase.Done? ||
        s.handlers[r.handler].phase == Claimed(r.serial, s.issued[r.serial].op))
  }

  ghost predicate ReceiptsOk(s: System) {
    && (forall k :: 0 <= k < |s.receipts| ==> ReceiptOk(s, k))
    && (forall j, k :: 0 <= j < k < |s.receipts| ==>
          s.receipts[j].serial != s.receipts[k].serial && s.receipts[j].handler != s.receipts[k].handler)
  }

  /** The handler holds a claim that some receipt documents. */
  ghost predicate ClaimOk(s: System, i: nat)
    requires Runs(s, i)
  {
    s.handlers[i].phase.Claimed? ==>
      exists k ::
        0 <= k < |s.receipts| && s.receipts[k].handler == i && s.receipts[k].serial == s.handlers[i].phase.serial
  }

  /** An execution follows from one receipt, runs the operation that receipt names, and its handler is done. */
  ghost predicate ExecutionOk(s: System, e: Execution) {
    && e.serial < |s.issued| && Runs(s, e.handler) && s.handlers[e.handler].phase.Done?
    && (exists k :: 0 <= k < |s.receipts| && s.receipts[k].handler == e.handler && s.receipts[k].serial == e.serial)
    && RequestOf(s.issued[e.serial].op, e.services, e.allowed) == Some(e.request)
  }

  ghost predicate ExecutionsOk(s: System) {
    && (forall k :: 0 <= k < |s.executions| ==> ExecutionOk(s, s.executions[k]))
    && (forall j, k :: 0 <= j < k < |s.executions| ==> s.executions[j].serial != s.executions[k].serial)
  }

  /** What a handler read was stored for its conversation, and what is stored there now is no older. */
  ghost predicate HoldingOk(s: System, i: nat)
    requires Runs(s, i)
  {
    s.handlers[i].phase.Holding? ==>
      var h := s.handlers[i];
      && h.phase.serial < |s.issued| && s.issued[h.phase.serial] == Issue(h.conversation, h.phase.op)
      && (h.conversation in s.serials ==> h.phase.serial <= s.serials[h.conversation])
  }

  ghost predicate Inv(s: System) {
    && StoreOk(s) && ReceiptsOk(s) && ExecutionsOk(s)
    && (forall i :: 0 <= i < |s.handlers| ==> ClaimOk(s, i))
    && (forall i :: 0 <= i < |s.handlers| ==> HoldingOk(s, i))
  }

  // ---------------------------------------------------------------- the steps

  /** Dropping stored operations, and moving a handler that holds no claim to a phase without one. */
  lemma DropKeeps(s: System, ops: Operations, i: nat, phase: Phase)
    requires Inv(s) && Runs(s, i)
    requires ops.Keys <= s.operations.Keys && forall id :: id in ops ==> ops[id] == s.operations[id]
    requires !s.handlers[i].phase.Claimed? && !s.handlers[i].phase.Done? && !phase.Claimed?
    requires phase.Holding? ==> HoldingOk(At(With(s, ops), i, phase), i)
    ensures Inv(At(With(s, ops), i, phase))
  {
    var after := At(With(s, ops), i, phase);
    HandlerMoves(s, after, i);
    forall k | 0 <= k < |after.handlers| ensures HoldingOk(after, k) { assert HoldingOk(s, k); }
  }

  /** Receipts, executions and claims of all handlers survive when one handler without a claim moves on. */
  lemma HandlerMoves(s: System, after: System, i: nat)
    requires ReceiptsOk(s) && ExecutionsOk(s) && (forall k :: 0 <= k < |s.handlers| ==> ClaimOk(s, k)) && Runs(s, i)
    requires !s.handlers[i].phase.Claimed? && !s.handlers[i].phase.Done?
    requires |after.handlers| == |s.handlers| && !after.handlers[i].phase.Claimed?
    requires forall k :: 0 <= k < |s.handlers| && k != i ==> after.handlers[k] == s.handlers[k]
    requires s.issued <= after.issued && after.receipts == s.receipts && after.executions == s.executions
    ensures ReceiptsOk(after) && ExecutionsOk(after) && forall k :: 0 <= k < |after.handlers| ==> ClaimOk(after, k)
  {
    forall k | 0 <= k < |after.receipts| ensures ReceiptOk(after, k) { assert ReceiptOk(s, k); }
    forall k | 0 <= k < |after.executions| ensures ExecutionOk(after, after.executions[k]) {
      assert ExecutionOk(s, s.executions[k]);
    }
    forall k | 0 <= k < |after.handlers| ensures ClaimOk(after, k) { assert ClaimOk(s, k); }
  }

  lemma ArriveKeeps(s: System, conversation: string, message: Message)
    requires Inv(s)
    ensures Inv(Do(s, Arrive(conversation, message)))
  {
    var after := Do(s, Arrive(conversation, message));
    forall k | 0 <= k < |after.receipts| ensures ReceiptOk(after, k) { assert ReceiptOk(s, k); }
    forall k | 0 <= k < |after.executions| ensures ExecutionOk(after, after.executions[k]) {
      assert ExecutionOk(s, s.executions[k]);
    }
    forall k | 0 <= k < |after.handlers| ensures ClaimOk(after, k) && HoldingOk(after, k) {
      if k < |s.handlers| { assert ClaimOk(s, k) && HoldingOk(s, k); }
    }
  }

  lemma IssueKeeps(operations: Operations, serials: map<string, nat>, issued: seq<Issue>, id: string,
                   stored: PendingOperation)
    requires SerialsOk(operations, serials, issued)
    ensures SerialsOk(operations[id := stored], serials[id := |issued|], issued + [Issue(id, stored)])
  {
  }

  lemma FreshSerialIsUnclaimed(serials: map<string, nat>, receipts: seq<Receipt>, id: string, next: nat)
    requires Unclaimed(serials, receipts) && forall k :: 0 <= k < |receipts| ==> receipts[k].serial < next
    ensures Unclaimed(serials[id := next], receipts)
  {
  }

  lemma StoreKeepsStore(s: System, id: string, op: PendingOperation, now: int)
    requires StoreOk(s) && ReceiptsOk(s) && Askable(op)
    ensures StoreOk(Store(s, id, op, now))
  {
    var after := Store(s, id, op, now);
    forall k | 0 <= k < |s.receipts| ensures s.receipts[k].serial < |s.issued| { assert ReceiptOk(s, k); }
    IssueKeeps(s.operations, s.serials, s.issued, id, op.(expiresAt := now + s.ttl));
    FreshSerialIsUnclaimed(s.serials, s.receipts, id, |s.issued|);
  }

  lemma StoreKeeps(s: System, id: string, op: PendingOperation, now: int, i: nat)
    requires Inv(s) && Runs(s, i) && !s.handlers[i].phase.Claimed? && !s.handlers[i].phase.Done? && Askable(op)
    ensures Inv(At(Store(s, id, op, now), i, Done))
  {
    var after := At(Store(s, id, op, now), i, Done);
    StoreKeepsStore(s, id, op, now);
    HandlerMoves(s, after, i);
    forall k | 0 <= k < |after.handlers| ensures HoldingOk(after, k) { assert HoldingOk(s, k); }
  }

  /** Taking an operation out of the store leaves the others unclaimed. */
  lemma ClaimKeepsStore(s: System, i: nat, now: int)
    requires Inv(s) && Enabled(s, Confirm(i, now))
    requires Claim(s.operations, s.handlers[i].conversation, s.handlers[i].phase.op, now).1
    ensures StoreOk(Do(s, Confirm(i, now)))
  {
  }

  lemma ClaimKeepsReceipts(s: System, i: nat, now: int)
    requires Inv(s) && Enabled(s, Confirm(i, now))
    requires Claim(s.operations, s.handlers[i].conversation, s.handlers[i].phase.op, now).1
    ensures ReceiptsOk(Do(s, Confirm(i, now)))
  {
    var after := Do(s, Confirm(i, now));
    forall k | 0 <= k < |s.receipts| ensures ReceiptOk(after, k) && after.receipts[k].handler != i {
      assert ReceiptOk(s, k);
    }
    assert ReceiptOk(after, |s.receipts|);
  }

  lemma ClaimKeeps(s: System, i: nat, now: int)
    requires Inv(s) && Enabled(s, Confirm(i, now))
    requires Claim(s.operations, s.handlers[i].conversation, s.handlers[i].phase.op, now).1
    ensures Inv(Do(s, Confirm(i, now)))
  {
    ClaimKeepsStore(s, i, now);
    ClaimKeepsReceipts(s, i, now);
    var after := Do(s, Confirm(i, now));
    ReceiptsGrow(s, after, i);
    forall k | 0 <= k < |after.handlers| ensures HoldingOk(after, k) { assert HoldingOk(s, k); }
  }

  /** Executions and claims keep their receipts when handler i gains a claim with a new one. */
  lemma ReceiptsGrow(s: System, after: System, i: nat)
    requires ExecutionsOk(s) && (forall k :: 0 <= k < |s.handlers| ==> ClaimOk(s, k)) && Runs(s, i)
    requires !s.handlers[i].phase.Done? && |after.handlers| == |s.handlers| && after.handlers[i].phase.Claimed?
    requires forall k :: 0 <= k < |s.handlers| && k != i ==> after.handlers[k] == s.handlers[k]
    requires after.issued == s.issued && after.executions == s.executions && |after.receipts| == |s.receipts| + 1
    requires forall k :: 0 <= k < |s.receipts| ==> after.receipts[k] == s.receipts[k]
    requires after.receipts[|s.receipts|].handler == i
    requires after.receipts[|s.receipts|].serial == after.handlers[i].phase.serial
    ensures ExecutionsOk(after) && forall k :: 0 <= k < |after.handlers| ==> ClaimOk(after, k)
  {
    forall k | 0 <= k < |after.executions| ensures ExecutionOk(after, after.executions[k]) {
      var e := s.executions[k];
      assert ExecutionOk(s, e);
      var m :| 0 <= m < |s.receipts| && s.receipts[m].handler == e.handler && s.receipts[m].serial == e.serial;
      assert after.receipts[m] == s.receipts[m];
    }
    forall k | 0 <= k < |after.handlers| ensures ClaimOk(after, k) {
      assert ClaimOk(s, k);
      if k != i && s.handlers[k].phase.Claimed? {
        var serial := s.handlers[k].phase.serial;
        var m :| 0 <= m < |s.receipts| && s.receipts[m].handler == k && s.receipts[m].serial == serial;
        assert after.receipts[m] == s.receipts[m];
      }
    }
  }

  /** A claim is spent by at most one execution. */
  lemma ExecuteKeepsExecutions(s: System, i: nat, services: Option<seq<Service>>, allowed: set<OperationType>)
    requires Inv(s) && Enabled(s, Execute(i, services, allowed))
    ensures ExecutionsOk(Do(s, Execute(i, services, allowed)))
  {
    var after := Do(s, Execute(i, services, allowed));
    assert ClaimOk(s, i);
    var serial := s.handlers[i].phase.serial;
    var m :| 0 <= m < |s.receipts| && s.receipts[m].handler == i && s.receipts[m].serial == serial;
    assert ReceiptOk(s, m);
    forall k | 0 <= k < |s.executions| ensures ExecutionOk(after, s.executions[k]) && s.executions[k].serial != serial {
      assert ExecutionOk(s, s.executions[k]);
    }
    if RequestOf(s.handlers[i].phase.op, services, allowed).Some? {
      assert ExecutionOk(after, after.executions[|s.executions|]);
    }
  }

  lemma ExecuteKeeps(s: System, i: nat, services: Option<seq<Service>>, allowed: set<OperationType>)
    requires Inv(s) && Enabled(s, Execute(i, services, allowed))
    ensures Inv(Do(s, Execute(i, services, allowed)))
  {
    var after := Do(s, Execute(i, services, allowed));
    ExecuteKeepsExecutions(s, i, services, allowed);
    forall k | 0 <= k < |after.receipts| ensures ReceiptOk(after, k) { assert ReceiptOk(s, k); }
    forall k | 0 <= k < |after.handlers| ensures ClaimOk(after, k) && HoldingOk(after, k) {
      assert ClaimOk(s, k) && HoldingOk(s, k);
    }
  }

  lemma IdleKeeps(s: System, i: nat)
    requires Inv(s) && Runs(s, i) && !s.handlers[i].phase.Claimed? && !s.handlers[i].phase.Done?
    ensures Inv(At(s, i, Done))
  {
    var after := At(s, i, Done);
    HandlerMoves(s, after, i);
    forall k | 0 <= k < |after.handlers| ensures HoldingOk(after, k) { assert HoldingOk(s, k); }
  }

  lemma StepKeeps(s: System, step: Step)
    requires Inv(s) && Enabled(s, step)
    ensures Inv(Do(s, step))
  {
    match step
    case Arrive(conversation, message) => ArriveKeeps(s, conversation, message);
    case Read(i, now) =>
      var (ops, op) := Get(s.operations, s.handlers[i].conversation, now);
      DropKeeps(s, ops, i, if op.Some? then Holding(s.serials[s.handlers[i].conversation], op.value) else Routing);
    case Start(i, intent, lookup, now) =>
      var op := if intent.Some? then Started(intent.value, lookup) else None;
      if op.Some? { StoreKeeps(s, s.handlers[i].conversation, op.value, now, i); }
      else { IdleKeeps(s, i); }
    case Confirm(i, now) =>
      var (ops, claimed) := Claim(s.operations, s.handlers[i].conversation, s.handlers[i].phase.op, now);
      if claimed { ClaimKeeps(s, i, now); } else { DropKeeps(s, ops, i, Done); }
    case Decline(i) =>
      var h := s.handlers[i];
      if h.phase.op.stage == Confirmation && h.message.reply == Unclear && !h.message.unrelated {
        IdleKeeps(s, i);
      } else {
        var phase := if h.phase.op.stage == Confirmation && h.message.reply == Negative then Done else Routing;
        DropKeeps(s, s.operations - {h.conversation}, i, phase);
      }
    case Collect(i, named, lookup, count, now) =>
      StoreKeeps(s, s.handlers[i].conversation, Collected(s.handlers[i].phase.op, named, lookup, count), now, i);
    case Execute(i, services, allowed) => ExecuteKeeps(s, i, services, allowed);
  }

  // ---------------------------------------------------------------- every run

  ghost predicate Next(s: System, after: System, step: Step) {
    Enabled(s, step) && s.serials.Keys == s.operations.Keys && after == Do(s, step)
  }

  ghost predicate Run(states: seq<System>, steps: seq<Step>, ttl: int) {
    && |states| == |steps| + 1 && states[0] == Init(ttl)
    && forall i :: 0 <= i < |steps| ==> Next(states[i], states[i + 1], steps[i])
  }

  lemma {:induction false} RunKeepsInv(states: seq<System>, steps: seq<Step>, ttl: int, n: nat)
    requires Run(states, steps, ttl) && n < |states|
    ensures Inv(states[n])
  {
    if n > 0 {
      RunKeepsInv(states, steps, ttl, n - 1);
      assert Next(states[n - 1], states[n], steps[n - 1]);
      StepKeeps(states[n - 1], steps[n - 1]);
    }
  }

  /** Each stored operation leads to at most one tool execution. */
  lemma AtMostOneExecutionPerOperation(states: seq<System>, steps: seq<Step>, ttl: int, n: nat, j: nat, k: nat)
    requires Run(states, steps, ttl) && n < |states|
    requires j < |states[n].executions| && k < |states[n].executions|
    requires states[n].executions[j].serial == states[n].executions[k].serial
    ensures j == k
  {
    RunKeepsInv(states, steps, ttl, n);
  }

  /** A tool runs only for a stored operation at its confirmation stage, after a handler of the same conversation
      whose user agreed claimed it before it expired; it runs that very operation, with an allowed tool, on a service
      in the catalogue. */
  lemma ExecutionWasConfirmed(states: seq<System>, steps: seq<Step>, ttl: int, n: nat, k: nat)
    requires Run(states, steps, ttl) && n < |states| && k < |states[n].executions|
    ensures var s := states[n]; var e := s.executions[k];
      && e.serial < |s.issued| && e.handler < |s.handlers|
      && var op := s.issued[e.serial].op;
      && op.stage == Confirmation && s.handlers[e.handler].message.reply == Affirmative
      && s.handlers[e.handler].conversation == s.issued[e.serial].conversation
      && e.request.kind == op.kind && op.kind in e.allowed
      && (op.kind == ServiceReplicasSet ==> e.request.replicas.Some? && e.request.replicas == op.replicas)
      && (op.kind != DeploySync ==>
            && e.services.Some? && Service(e.request.stack, e.request.service) in e.services.value
            && EqualFold(e.request.stack, op.stack) && EqualFold(e.request.service, op.service))
      && exists r :: r in s.receipts && r.serial == e.serial && r.handler == e.handler && r.at < op.expiresAt
  {
    RunKeepsInv(states, steps, ttl, n);
    var s := states[n];
    var e := s.executions[k];
    assert ExecutionOk(s, e);
    var m :| 0 <= m < |s.receipts| && s.receipts[m].handler == e.handler && s.receipts[m].serial == e.serial;
    assert ReceiptOk(s, m) && s.receipts[m] in s.receipts;
    RequestFollowsOperation(s.issued[e.serial].op, e.services, e.allowed);
  }

  // ---------------------------------------------------------------- read, then claimed

  /** The handler's confirmation wins its claim. */
  ghost predicate Wins(states: seq<System>, steps: seq<Step>, ttl: int, n: nat, i: nat) {
    && Run(states, steps, ttl) && n < |steps| && steps[n].Confirm? && steps[n].handler == i
    && Runs(states[n + 1], i) && states[n + 1].handlers[i].phase.Claimed?
  }

  /** A won claim is for an operation equal to the one the handler read, stored for its conversation no earlier, and
      takes it out of the store. */
  lemma ClaimTakesAnEqualOperation(states: seq<System>, steps: seq<Step>, ttl: int, n: nat, i: nat)
    requires Wins(states, steps, ttl, n, i)
    ensures Runs(states[n], i) && states[n].handlers[i].phase.Holding?
    ensures var s := states[n]; var h := s.handlers[i]; var claimed := states[n + 1].handlers[i].phase.serial;
      && h.phase.serial <= claimed < |s.issued|
      && s.issued[claimed] == s.issued[h.phase.serial] == Issue(h.conversation, h.phase.op)
      && h.conversation in s.serials && claimed == s.serials[h.conversation]
      && h.conversation !in states[n + 1].operations
  {
    RunKeepsInv(states, steps, ttl, n);
    assert Next(states[n], states[n + 1], steps[n]);
    assert HoldingOk(states[n], i);
  }

  predicate DistinctTimes(issued: seq<Issue>) {
    forall a, b :: 0 <= a < b < |issued| && issued[a].conversation == issued[b].conversation ==>
      issued[a].op.expiresAt != issued[b].op.expiresAt
  }

  /** When operations of a conversation are stored at different instants, the claimed operation is the one read. */
  lemma ClaimTakesWhatWasRead(states: seq<System>, steps: seq<Step>, ttl: int, n: nat, i: nat)
    requires Wins(states, steps, ttl, n, i)
    requires DistinctTimes(states[n].issued)
    ensures Runs(states[n], i) && states[n].handlers[i].phase.Holding?
    ensures states[n + 1].handlers[i].phase.serial == states[n].handlers[i].phase.serial
  {
    ClaimTakesAnEqualOperation(states, steps, ttl, n, i);
  }

  /** The step stores an operation for the conversation. */
  predicate Stores(s: System, step: Step, id: string) {
    match step
    case Start(i, intent, lookup, _) =>
      Enabled(s, step) && s.handlers[i].conversation == id && intent.Some? && Started(intent.value, lookup).Some?
    case Collect(i, _, _, _, _) => Enabled(s, step) && s.handlers[i].conversation == id
    case _ => false
  }

  lemma SerialMoves(s: System, step: Step, id: string)
    requires Enabled(s, step) && s.serials.Keys == s.operations.Keys
    ensures var after := Do(s, step);
      && |s.issued| <= |after.issued|
      && (id in after.serials ==>
            if Stores(s, step, id) then after.serials[id] == |s.issued|
            else id in s.serials && after.serials[id] == s.serials[id])
  {
  }

  ghost predicate NothingStored(states: seq<System>, steps: seq<Step>, m: nat, n: nat, id: string)
    requires n <= |steps| < |states|
  {
    forall k :: m <= k < n ==> !Stores(states[k], steps[k], id)
  }

  /** From a state that holds serial r for a conversation on, the stored serial stays r exactly while nothing is
      stored for the conversation. */
  lemma {:induction false} SerialStaysUntilStored(states: seq<System>, steps: seq<Step>, ttl: int, m: nat, n: nat,
                                                  id: string, r: nat)
    requires Run(states, steps, ttl) && m <= n < |states|
    requires r < |states[m].issued| && (id in states[m].serials ==> states[m].serials[id] == r)
    ensures r < |states[n].issued|
    ensures id in states[n].serials ==>
      (states[n].serials[id] == r <==> NothingStored(states, steps, m, n, id)) && r <= states[n].serials[id]
    decreases n
  {
    if m < n {
      SerialStaysUntilStored(states, steps, ttl, m, n - 1, id, r);
      assert Next(states[n - 1], states[n], steps[n - 1]);
      SerialMoves(states[n - 1], steps[n - 1], id);
    }
  }

  /** A handler that has read never comes back to reading, nor to holding anything but what it read. */
  lemma StepHoldsOrLeaves(s: System, step: Step, i: nat)
    requires Enabled(s, step) && s.serials.Keys == s.operations.Keys && Runs(s, i) && !s.handlers[i].phase.Reading?
    ensures var after := Do(s, step);
      && Runs(after, i) && after.handlers[i].conversation == s.handlers[i].conversation
      && !after.handlers[i].phase.Reading?
      && (after.handlers[i].phase.Holding? ==> after.handlers[i].phase == s.handlers[i].phase)
  {
  }

  lemma {:induction false} HandlerHoldsOrLeft(states: seq<System>, steps: seq<Step>, ttl: int, m: nat, n: nat, i: nat)
    requires Run(states, steps, ttl) && m <= n < |states| && Runs(states[m], i) && !states[m].handlers[i].phase.Reading?
    ensures Runs(states[n], i) && states[n].handlers[i].conversation == states[m].handlers[i].conversation
    ensures !states[n].handlers[i].phase.Reading?
    ensures states[n].handlers[i].phase.Holding? ==> states[n].handlers[i].phase == states[m].handlers[i].phase
    decreases n
  {
    if m < n {
      HandlerHoldsOrLeft(states, steps, ttl, m, n - 1, i);
      assert Next(states[n - 1], states[n], steps[n - 1]);
      StepHoldsOrLeaves(states[n - 1], steps[n - 1], i);
    }
  }

  /** A won claim takes the very operation that the handler read if and only if nothing was stored for the
      conversation between the read and the claim. */
  lemma ClaimTakesWhatWasReadIff(states: seq<System>, steps: seq<Step>, ttl: int, m: nat, n: nat, i: nat)
    requires Wins(states, steps, ttl, n, i) && m < n && steps[m].Read? && steps[m].handler == i
    ensures Runs(states[m + 1], i) && states[m + 1].handlers[i].phase.Holding?
    ensures var read := states[m + 1].handlers[i]; var claimed := states[n + 1].handlers[i].phase.serial;
      claimed == read.phase.serial <==> NothingStored(states, steps, m + 1, n, read.conversation)
  {
    RunKeepsInv(states, steps, ttl, m);
    assert Next(states[m], states[m + 1], steps[m]);
    ClaimTakesAnEqualOperation(states, steps, ttl, n, i);
    HandlerHoldsOrLeft(states, steps, ttl, m + 1, n, i);
    var read := states[m + 1].handlers[i];
    SerialStaysUntilStored(states, steps, ttl, m + 1, n, read.conversation, read.phase.serial);
  }

  const SYNC := Intent(DeploySync, "", None)
  const AGREES := Message(Affirmative, false)
  const REFUSES := Message(Negative, false)

  /** One operation is read, cancelled and stored again within one instant, all before the reader's claim. */
  const REPLACED: seq<Step> := [
    Arrive("c", AGREES), Read(0, 0), Start(0, Some(SYNC), Unreadable, 0),
    Arrive("c", AGREES), Read(1, 0),
    Arrive("c", REFUSES), Read(2, 0), Decline(2),
    Arrive("c", AGREES), Read(3, 0), Start(3, Some(SYNC), Unreadable, 0),
    Confirm(1, 0)]

  /** The operation every handler of the run deals with, as the store stamps it. */
  const SYNC_OPERATION := PendingOperation(DeploySync, Confirmation, "", "", "", None, 60)

  const FIRST_STORED := System(
    map["c" := SYNC_OPERATION], map["c" := 0], [Issue("c", SYNC_OPERATION)], [Handler("c", AGREES, Done)], [], [], 60)

  const READ_TWICE := FIRST_STORED.(handlers := FIRST_STORED.handlers + [
    Handler("c", AGREES, Holding(0, SYNC_OPERATION)), Handler("c", REFUSES, Holding(0, SYNC_OPERATION))])

  const CANCELLED := READ_TWICE.(operations := map[], serials := map[],
    handlers := FIRST_STORED.handlers + [Handler("c", AGREES, Holding(0, SYNC_OPERATION)), Handler("c", REFUSES, Done)])

  const STORED_AGAIN := READ_TWICE.(serials := map["c" := 1],
    issued := [Issue("c", SYNC_OPERATION), Issue("c", SYNC_OPERATION)],
    handlers := CANCELLED.handlers + [Handler("c", AGREES, Done)])

  /** The concrete run in which a handler claims an operation other than the one it read: equal in every field, stored
      later within the same instant. */
  lemma EqualOperationMayBeClaimed() returns (states: seq<System>)
    ensures Wins(states, REPLACED, 60, 11, 1)
    ensures Runs(states[11], 1) && states[11].handlers[1].phase.Holding?
    ensures states[11].handlers[1].phase.serial == 0 && states[12].handlers[1].phase.serial == 1
  {
    var s1, s2 := StoredOnce();
    var s4, s5, s6 := ReadTwice();
    var s9, s10 := StoredAgain();
    var s12 := ClaimedAnother();
    states := [Init(60), s1, s2, FIRST_STORED, s4, s5, s6, READ_TWICE, CANCELLED, s9, s10, STORED_AGAIN, s12];
  }

  lemma StoredOnce() returns (s1: System, s2: System)
    ensures Next(Init(60), s1, REPLACED[0]) && Next(s1, s2, REPLACED[1]) && Next(s2, FIRST_STORED, REPLACED[2])
  {
    s1 := Init(60).(handlers := [Handler("c", AGREES, Reading)]);
    s2 := Init(60).(handlers := [Handler("c", AGREES, Routing)]);
  }

  lemma ReadTwice() returns (s4: System, s5: System, s6: System)
    ensures Next(FIRST_STORED, s4, REPLACED[3]) && Next(s4, s5, REPLACED[4])
    ensures Next(s5, s6, REPLACED[5]) && Next(s6, READ_TWICE, REPLACED[6])
  {
    s4 := FIRST_STORED.(handlers := FIRST_STORED.handlers + [Handler("c", AGREES, Reading)]);
    s5 := FIRST_STORED.(handlers := FIRST_STORED.handlers + [Handler("c", AGREES, Holding(0, SYNC_OPERATION))]);
    s6 := s5.(handlers := s5.handlers + [Handler("c", REFUSES, Reading)]);
  }

  lemma StoredAgain() returns (s9: System, s10: System)
    ensures Next(READ_TWICE, CANCELLED, REPLACED[7]) && Next(CANCELLED, s9, REPLACED[8])
    ensures Next(s9, s10, REPLACED[9]) && Next(s10, STORED_AGAIN, REPLACED[10])
  {
    s9 := CANCELLED.(handlers := CANCELLED.handlers + [Handler("c", AGREES, Reading)]);
    s10 := CANCELLED.(handlers := CANCELLED.handlers + [Handler("c", AGREES, Routing)]);
  }

  lemma ClaimedAnother() returns (s12: System)
    ensures Runs(STORED_AGAIN, 1) && STORED_AGAIN.handlers[1].phase == Holding(0, SYNC_OPERATION)
    ensures Next(STORED_AGAIN, s12, REPLACED[11])
    ensures Runs(s12, 1) && s12.handlers[1].phase == Claimed(1, SYNC_OPERATION)
  {
    s12 := Do(STORED_AGAIN, REPLACED[11]);
  }

  /** Two confirmations of one stored operation never both win, whatever runs between them. */
  lemma OnlyOneClaimWins(states: seq<System>, steps: seq<Step>, ttl: int, n: nat, j: nat, k: nat)
    requires Run(states, steps, ttl) && n < |states|
    requires j < k < |states[n].receipts|
    ensures states[n].receipts[j].serial != states[n].receipts[k].serial
    ensures states[n].receipts[j].handler != states[n].receipts[k].handler
  {
    RunKeepsInv(states, steps, ttl, n);
  }
}
