/** Confirm-then-claim: the store of operations awaiting confirmation and the handlers that race over it. */
module PendingOperations {
  import opened Wrappers
  import opened ServiceTargets
  import opened Text

  datatype OperationType = ServiceRestart | ServiceReplicasSet | DeploySync

  datatype Stage = Collecting | Confirmation

  datatype PendingOperation = PendingOperation(
    kind: OperationType, stage: Stage, target: string, stack: string, service: string, replicas: Option<nat>,
    expiresAt: int)

  datatype Intent = Intent(kind: OperationType, target: string, replicas: Option<nat>)

  const DEFAULT_TTL := 900

  // ---------------------------------------------------------------- the store

  type Operations = map<string, PendingOperation>

  /** Reading an expired operation discards it. */
  function Get(ops: Operations, id: string, now: int): (r: (Operations, Option<PendingOperation>))
    ensures r.1.Some? <==> id in ops && ops[id].expiresAt > now
    ensures r.1.Some? ==> r == (ops, Some(ops[id]))
    ensures r.1.None? ==> r.0 == ops - {id}
  {
    if id !in ops then (ops - {id}, None)
    else if ops[id].expiresAt <= now then (ops - {id}, None)
    else (ops, Some(ops[id]))
  }

  function Set(ops: Operations, id: string, op: PendingOperation, now: int, ttl: int): Operations {
    ops[id := op.(expiresAt := now + ttl)]
  }

  /** A claim succeeds only for the very operation the caller read, before it expires, and takes it out of the store. */
  function Claim(ops: Operations, id: string, expected: PendingOperation, now: int): (r: (Operations, bool))
    ensures r.1 <==> id in ops && ops[id].expiresAt > now && ops[id] == expected
    ensures r.1 ==> r.0 == ops - {id}
    ensures !r.1 ==> r.0 == if id in ops && ops[id].expiresAt > now then ops else ops - {id}
  {
    if id !in ops || ops[id].expiresAt <= now then (ops - {id}, false)
    else if ops[id] != expected then (ops, false)
    else (ops - {id}, true)
  }

  class PendingOperationStore {
    var operations: Operations
    const ttl: int

    constructor (ttl: int)
      ensures operations == map[] && this.ttl == if ttl <= 0 then DEFAULT_TTL else ttl
    {
      operations := map[];
      this.ttl := if ttl <= 0 then DEFAULT_TTL else ttl;
    }

    method GetPending(id: string, now: int) returns (op: Option<PendingOperation>)
      modifies this
      ensures (operations, op) == Get(old(operations), id, now)
    {
      if id !in operations {
        assert operations - {id} == operations;
        return None;
      }
      var current := operations[id];
      if !(current.expiresAt > now) {
        operations := operations - {id};
        return None;
      }
      op := Some(current);
    }

    method SetPending(id: string, op: PendingOperation, now: int)
      modifies this
      ensures operations == Set(old(operations), id, op, now, ttl)
    {
      operations := operations[id := op.(expiresAt := now + ttl)];
    }

    method Delete(id: string)
      modifies this
      ensures operations == old(operations) - {id}
    {
      operations := operations - {id};
    }

    method ClaimPending(id: string, expected: PendingOperation, now: int) returns (claimed: bool)
      modifies this
      ensures (operations, claimed) == Claim(old(operations), id, expected, now)
    {
      if id !in operations || !(operations[id].expiresAt > now) {
        operations := operations - {id};
        return false;
      }
      var current := operations[id];
      if current.kind != expected.kind || current.stage != expected.stage || current.target != expected.target ||
         current.stack != expected.stack || current.service != expected.service ||
         current.expiresAt != expected.expiresAt || !EqualOptional(current.replicas, expected.replicas) {
        return false;
      }
      operations := operations - {id};
      claimed := true;
    }
  }

  predicate EqualOptional(left: Option<nat>, right: Option<nat>) {
    if left == None || right == None then left == None && right == None else left.value == right.value
  }

  // ---------------------------------------------------------------- what handlers store and run

  /** The catalogue may be unreadable; the resolver may or may not find one service. */
  datatype Lookup = Unreadable | Resolved(resolution: Resolution)

  /** The operation a routed request leaves in the store, if it leaves one. */
  function Started(intent: Intent, lookup: Lookup): Option<PendingOperation> {
    var op := PendingOperation(intent.kind, Collecting, Trim(intent.target), "", "", intent.replicas, 0);
    if intent.kind == DeploySync then Some(op.(stage := Confirmation))
    else
      match lookup
      case Unreadable => None
      case Resolved(Found(stack, service)) =>
        var found := op.(stack := stack, service := service);
        if intent.kind == ServiceReplicasSet && intent.replicas == None then Some(found)
        else Some(found.(stage := Confirmation))
      case Resolved(_) => Some(op)
  }

  /** The target a reply names, unless it asks the assistant to find the target itself. */
  function Retargeted(op: PendingOperation, named: Option<string>): PendingOperation {
    if named.Some? && op.target == "" then op.(target := named.value) else op
  }

  /** The operation a reply to a collecting question leaves in the store. */
  function Collected(op: PendingOperation, named: Option<string>, lookup: Lookup,
                     count: Option<nat>): PendingOperation {
    var asked :=
      if op.stack != "" && op.service != "" then op
      else
        var target := Retargeted(op, named);
        match lookup
        case Resolved(Found(stack, service)) => target.(stack := stack, service := service)
        case _ => target;
    if (op.stack == "" || op.service == "") && !(lookup.Resolved? && lookup.resolution.Found?) then asked
    else if op.kind == ServiceReplicasSet && op.replicas == None then
      if count == None then asked else asked.(replicas := count, stage := Confirmation)
    else asked.(stage := Confirmation)
  }

  datatype Request = Request(kind: OperationType, stack: string, service: string, replicas: Option<nat>)

  /** What a claimed operation asks of its tool, checked against the catalogue and the allowed tools of the moment. */
  function RequestOf(op: PendingOperation, services: Option<seq<Service>>,
                     allowed: set<OperationType>): Option<Request> {
    var replicas := if op.kind == ServiceReplicasSet then op.replicas else None;
    if op.kind == DeploySync then
      if op.kind in allowed then Some(Request(op.kind, "", "", replicas)) else None
    else
      match services
      case None => None
      case Some(listed) =>
        match Resolve(listed, op.stack + "/" + op.service)
        case Found(stack, service) =>
          if EqualFold(stack, op.stack) && EqualFold(service, op.service) && op.kind in allowed
          then Some(Request(op.kind, stack, service, replicas)) else None
        case _ => None
  }

  /** A request runs exactly the claimed operation, on a listed service, and only when its tool is allowed. */
  lemma RequestFollowsOperation(op: PendingOperation, services: Option<seq<Service>>, allowed: set<OperationType>)
    requires RequestOf(op, services, allowed).Some?
    ensures var r := RequestOf(op, services, allowed).value;
      && r.kind == op.kind && op.kind in allowed
      && (op.kind == ServiceReplicasSet ==> r.replicas == op.replicas)
      && (op.kind != DeploySync ==>
            && services.Some? && Service(r.stack, r.service) in services.value
            && EqualFold(r.stack, op.stack) && EqualFold(r.service, op.service))
  {
    if op.kind != DeploySync { ResolveFindsListedService(services.value, op.stack + "/" + op.service); }
  }

  /** A replica count is known before any confirmation is asked for. */
  predicate Askable(op: PendingOperation) {
    op.stage == Confirmation && op.kind == ServiceReplicasSet ==> op.replicas.Some?
  }
}
