/** What each handler achieves: what it asks for, what it stores, and that a confirmed operation does run. */
module PendingEffects {
  import opened Wrappers
  import opened ServiceTargets
  import opened Text
  import opened PendingOperations
  import opened PendingRuns

  // ---------------------------------------------------------------- what a request and its replies store

  /** A service is known, and so is the replica count when one is needed. */
  predicate Complete(op: PendingOperation) {
    op.kind == DeploySync ||
    (op.stack != "" && op.service != "" && (op.kind == ServiceReplicasSet ==> op.replicas.Some?))
  }

  /** A request is remembered unless it concerns a service and the catalogue cannot be read. What is remembered is what
      was asked, with the service found; confirmation is asked for at once exactly if nothing is missing. */
  lemma RequestIsRemembered(intent: Intent, lookup: Lookup)
    requires lookup.Resolved? && lookup.resolution.Found? ==>
      lookup.resolution.stack != "" && lookup.resolution.service != ""
    ensures Started(intent, lookup) == None <==> intent.kind != DeploySync && lookup.Unreadable?
    ensures Started(intent, lookup).Some? ==>
      var op := Started(intent, lookup).value;
      var found := intent.kind != DeploySync && lookup.Resolved? && lookup.resolution.Found?;
      && op.kind == intent.kind && op.replicas == intent.replicas && op.target == Trim(intent.target)
      && (found ==> op.stack == lookup.resolution.stack && op.service == lookup.resolution.service)
      && (!found ==> op.stack == "" && op.service == "")
      && (op.stage == Confirmation <==> Complete(op))
  {
  }

  /** A reply while information is missing keeps what is known and fills in what it brings: the service it names, if it
      resolves to one, or else the replica count; confirmation follows exactly when nothing is missing. */
  lemma ReplyFillsIn(op: PendingOperation, named: Option<string>, lookup: Lookup, count: Option<nat>)
    requires op.stage == Collecting && op.kind != DeploySync
    requires lookup.Resolved? && lookup.resolution.Found? ==>
      lookup.resolution.stack != "" && lookup.resolution.service != ""
    ensures var next := Collected(op, named, lookup, count);
      var known := op.stack != "" && op.service != ""; var found := lookup.Resolved? && lookup.resolution.Found?;
      && next.kind == op.kind
      && next.target == (if !known && op.target == "" && named.Some? then named.value else op.target)
      && (known ==> next.stack == op.stack && next.service == op.service)
      && (!known && found ==> next.stack == lookup.resolution.stack && next.service == lookup.resolution.service)
      && (!known && !found ==> next.stack == op.stack && next.service == op.service && next.stage == Collecting)
      && (op.replicas.Some? || op.kind != ServiceReplicasSet || (!known && !found) ==> next.replicas == op.replicas)
      && (op.replicas.None? && op.kind == ServiceReplicasSet && (known || found) ==> next.replicas == count)
      && (known || found ==> (next.stage == Confirmation <==> Complete(next)))
  {
  }

  // ---------------------------------------------------------------- when a claimed operation runs

  /** A claimed operation asks for its tool exactly if the tool is allowed and, unless it synchronizes everything, the
      catalogue can be read and still resolves the operation's service to that service. */
  lemma RequestIff(op: PendingOperation, services: Option<seq<Service>>, allowed: set<OperationType>)
    ensures RequestOf(op, services, allowed).Some? <==>
      && op.kind in allowed
      && (op.kind == DeploySync ||
          (services.Some? && var r := Resolve(services.value, op.stack + "/" + op.service);
                             r.Found? && EqualFold(r.stack, op.stack) && EqualFold(r.service, op.service)))
    ensures op.kind == ServiceReplicasSet && RequestOf(op, services, allowed).Some? ==>
      RequestOf(op, services, allowed).value.replicas == op.replicas
    ensures op.kind != ServiceReplicasSet && RequestOf(op, services, allowed).Some? ==>
      RequestOf(op, services, allowed).value.replicas == None
  {
  }

  predicate Trimmed(s: string) {
    s != "" && !Blank(s[0]) && !Blank(s[|s| - 1])
  }

  lemma TrimmedStays(s: string)
    requires Trimmed(s)
    ensures Trim(s) == s
  {
    var i, j := TrimDropsBlanks(s);
    assert i == 0 && j == |s|;
    assert s[0..|s|] == s;
  }

  /** Names are as the catalogue holds them: trimmed, and stacks without a separator. */
  predicate Named(s: Service) {
    Trimmed(s.stack) && Trimmed(s.name) && '/' !in s.stack
  }

  lemma LowerKeepsSeparator(c: char)
    ensures LowerChar(c) == '/' <==> c == '/'
  {
  }

  lemma LowerAppends(a: string, b: string)
    ensures Lower(a + b) == Lower(a) + Lower(b)
  {
  }

  /** Two full targets that fold to the same text name stacks and services that do. */
  lemma {:induction false} SameTargetSameParts(a: Service, b: Service)
    requires Named(a) && Named(b) && EqualFold(TargetOf(a), TargetOf(b))
    ensures EqualFold(a.stack, b.stack) && EqualFold(a.name, b.name)
  {
    TrimmedStays(a.stack);
    TrimmedStays(a.name);
    TrimmedStays(b.stack);
    TrimmedStays(b.name);
    var x, y := a.stack + "/" + a.name, b.stack + "/" + b.name;
    if |a.stack| < |b.stack| {
      SeparatorFolds(x, y, |a.stack|);
    } else if |b.stack| < |a.stack| {
      SeparatorFolds(y, x, |b.stack|);
    }
    LowerAppends(a.stack, "/" + a.name);
    LowerAppends("/", a.name);
    LowerAppends(b.stack, "/" + b.name);
    LowerAppends("/", b.name);
    assert x == a.stack + ("/" + a.name) && y == b.stack + ("/" + b.name);
    assert Lower(x)[..|a.stack|] == Lower(a.stack) && Lower(y)[..|b.stack|] == Lower(b.stack);
    assert Lower(x)[|a.stack| + 1..] == Lower(a.name) && Lower(y)[|b.stack| + 1..] == Lower(b.name);
  }

  lemma SeparatorFolds(x: string, y: string, k: nat)
    requires EqualFold(x, y) && k < |x| && x[k] == '/'
    ensures k < |y| && y[k] == '/'
  {
    assert |Lower(x)| == |Lower(y)| && Lower(x)[k] == Lower(y)[k];
    LowerKeepsSeparator(x[k]);
    LowerKeepsSeparator(y[k]);
  }

  /** A listed service can always be operated on: as long as the catalogue holds proper names and still lists the
      service, a claimed operation on it runs when its tool is allowed. */
  lemma ListedServiceIsRequested(op: PendingOperation, services: seq<Service>, allowed: set<OperationType>)
    requires op.kind in allowed && Service(op.stack, op.service) in services
    requires forall s :: s in services ==> Named(s)
    ensures RequestOf(op, Some(services), allowed).Some?
  {
    var asked := Service(op.stack, op.service);
    var target := op.stack + "/" + op.service;
    TrimmedStays(op.stack);
    TrimmedStays(op.service);
    TrimmedStays(target);
    assert Matches(asked, target, ByTarget) && TargetOf(asked) == target;
    assert asked in Matching(services, target, ByTarget);
    var first := Matching(services, target, ByTarget)[0];
    assert first in Matching(services, target, ByTarget);
    assert Matches(first, target, ByTarget);
    SameTargetSameParts(first, asked);
    assert Resolve(services, target) == Found(first.stack, first.name);
  }

  /** Without such names it runs exactly if the earliest service that answers to its full target is that service, up to
      case. */
  lemma {:induction false} ListedServiceIsRequestedIff(op: PendingOperation, services: seq<Service>,
                                                       allowed: set<OperationType>, i: nat)
    requires op.kind in allowed && op.kind != DeploySync && Trimmed(op.stack) && Trimmed(op.service)
    requires i < |services|
    requires Lower(Trim(services[i].stack) + "/" + Trim(services[i].name)) == Lower(op.stack + "/" + op.service)
    requires forall j :: 0 <= j < i ==>
      Lower(Trim(services[j].stack) + "/" + Trim(services[j].name)) != Lower(op.stack + "/" + op.service)
    ensures RequestOf(op, Some(services), allowed).Some? <==>
      EqualFold(services[i].stack, op.stack) && EqualFold(services[i].name, op.service)
  {
    TrimmedStays(op.stack + "/" + op.service);
    FullTargetIsFound(services, op.stack + "/" + op.service, i);
  }

  /** The concrete case: beside the service b/c of stack a, the listed service c of stack a/b is refused. */
  lemma NestedServiceIsRefused(op: PendingOperation, allowed: set<OperationType>)
    requires op.kind == ServiceRestart && op.stack == "a/b" && op.service == "c" && op.kind in allowed
    ensures RequestOf(op, Some([Service("a", "b/c"), Service("a/b", "c")]), allowed) == None
  {
    var services := [Service("a", "b/c"), Service("a/b", "c")];
    TrimmedStays("a");
    TrimmedStays("b/c");
    assert "a" + "/" + "b/c" == "a/b" + "/" + "c";
    ListedServiceIsRequestedIff(op, services, allowed, 0);
    assert |Lower("a")| == 1 && |Lower("a/b")| == 3;
  }

  // ---------------------------------------------------------------- what handlers do

  /** A reader finds the stored operation exactly while it has not expired, and an expired one is gone. */
  lemma ReadFinds(s: System, i: nat, now: int)
    requires Inv(s) && Enabled(s, Read(i, now))
    ensures var id := s.handlers[i].conversation; var after := Do(s, Read(i, now));
      if id in s.operations && now < s.operations[id].expiresAt then
        && after.handlers[i].phase == Holding(s.serials[id], s.operations[id])
        && after.operations == s.operations && after.serials == s.serials
      else
        && after.handlers[i].phase == Routing
        && after.operations == s.operations - {id} && id !in after.serials
  {
  }

  /** What a handler stores lives for the store's time and replaces only the operation of its own conversation. */
  lemma StoredForItsTime(s: System, i: nat, intent: Intent, lookup: Lookup, now: int)
    requires Inv(s) && Enabled(s, Start(i, Some(intent), lookup, now)) && Started(intent, lookup).Some?
    ensures var id := s.handlers[i].conversation; var after := Do(s, Start(i, Some(intent), lookup, now));
      && after.operations == s.operations[id := Started(intent, lookup).value.(expiresAt := now + s.ttl)]
      && after.handlers[i].phase == Done
  {
  }

  lemma ReplyIsStored(s: System, i: nat, named: Option<string>, lookup: Lookup, count: Option<nat>, now: int)
    requires Inv(s) && Enabled(s, Collect(i, named, lookup, count, now))
    ensures var id := s.handlers[i].conversation; var after := Do(s, Collect(i, named, lookup, count, now));
      && after.operations ==
           s.operations[id := Collected(s.handlers[i].phase.op, named, lookup, count).(expiresAt := now + s.ttl)]
      && after.handlers[i].phase == Done
  {
  }

  /** A refusal or an unrelated message withdraws the stored operation; an unclear answer leaves it to be confirmed. */
  lemma RefusalWithdraws(s: System, i: nat)
    requires Inv(s) && Enabled(s, Decline(i))
    ensures var h := s.handlers[i]; var after := Do(s, Decline(i));
      if h.phase.op.stage == Confirmation && h.message.reply == Unclear && !h.message.unrelated
      then after.operations == s.operations && after.serials == s.serials && after.handlers[i].phase == Done
      else h.conversation !in after.operations && h.conversation !in after.serials
           && forall id :: id != h.conversation && id in s.operations ==>
                id in after.operations && after.operations[id] == s.operations[id]
  {
  }

  /** Agreement in time runs the operation: while the store still holds what the handler read, unexpired, its claim
      succeeds, and its tool then runs with what the operation asks, if it is allowed and the service still listed. */
  lemma AgreementRuns(s: System, i: nat, now: int, services: Option<seq<Service>>, allowed: set<OperationType>)
    requires Inv(s) && Enabled(s, Confirm(i, now))
    requires var id := s.handlers[i].conversation;
      id in s.operations && s.operations[id] == s.handlers[i].phase.op && now < s.operations[id].expiresAt
    ensures var id, op := s.handlers[i].conversation, s.handlers[i].phase.op; var claimed := Do(s, Confirm(i, now));
      && claimed.operations == s.operations - {id}
      && claimed.serials.Keys == claimed.operations.Keys && Enabled(claimed, Execute(i, services, allowed))
      && var after := Do(claimed, Execute(i, services, allowed));
      && after.handlers[i].phase == Done
      && match RequestOf(op, services, allowed)
         case None => after.executions == s.executions
         case Some(request) =>
           after.executions == s.executions + [Execution(s.serials[id], i, request, services, allowed)]
  {
    ClaimKeeps(s, i, now);
  }
}
