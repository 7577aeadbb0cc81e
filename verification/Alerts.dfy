/** Alerts: what a delivered event does to the incident rows, the failure streaks and the published transitions. */
module Alerts {
  import opened Wrappers

  datatype Kind = SyncFailed | NodeDisconnected | GitRepositoryUnavailable | ServiceDrift

  datatype ResourceType = Stack | Node | Repository | Service

  /** The correlation key of one problem; its stored text is Render. */
  datatype Fingerprint = Fingerprint(kind: Kind, resource: string)

  datatype Reason = Recovered | ResourceRemoved

  datatype Resolution = Resolution(reason: Reason, message: string, eventId: string)

  /** One incident; its identifier is its position among the rows ever created. */
  datatype Alert = Alert(
    fingerprint: Fingerprint, kind: Kind, resourceType: ResourceType, resourceId: string, open: bool,
    title: string, message: string, stage: string, code: string, deploymentId: string, commit: string,
    occurrences: nat, openedAt: int, updatedAt: int, openEventId: string, latestEventId: string,
    resolvedAt: Option<int>, resolution: Option<Resolution>)

  datatype Publication = Opened(id: nat, alert: Alert) | Resolved(id: nat, alert: Alert)

  datatype Book = Book(alerts: seq<Alert>, streaks: map<Fingerprint, nat>, published: seq<Publication>)

  /** The configured stacks; a provider may or may not tell whether its first reload has completed. */
  datatype Provider = Provider(ready: Option<bool>, stacks: seq<string>)

  datatype Environment = Environment(provider: Provider, now: int, eventId: string)

  datatype Error = NotReady | InvalidAlert | OpenAlertExists | MissingSource | StorageFailed

  /** Diagnostics are the safe renderings of the reported errors. */
  datatype Event =
    | ConfigurationChanged(previousRepository: string)
    | NodeLost(node: string)
    | NodeConnected(node: string)
    | DeployFailed(stack: string, diagnostic: string, code: string, stage: string, deploymentId: string,
                   commit: string, temporary: bool)
    | DeployPreparationFailed(stack: string, diagnostic: string, code: string, stage: string, commit: string,
                              temporary: bool)
    | DeployInterrupted(stack: string, diagnostic: string, code: string, stage: string, deploymentId: string,
                        commit: string, temporary: bool)
    | DeploySucceeded(stack: string)
    | GitPullFailed(repository: string, category: string, description: string)
    | GitPullSucceeded(repository: string)
    | ServiceDrifted(stack: string, service: string, commit: string, reason: string, resolved: bool)
    | ServiceDriftFixed(stack: string, service: string)
    | ServiceRemovedFromDesired(stack: string, service: string)
    | Unrelated

  datatype FailureDetails = FailureDetails(
    message: string, hasDiagnostic: bool, stage: string, code: string, deploymentId: string, commit: string)

  const THRESHOLD: nat := 3
  const NETWORK := "network"
  const EMPTY := Book([], map[], [])

  // ---------------------------------------------------------------- fingerprints

  function TypeOf(kind: Kind): ResourceType {
    match kind
    case SyncFailed => Stack
    case NodeDisconnected => Node
    case GitRepositoryUnavailable => Repository
    case ServiceDrift => Service
  }

  function Prefix(kind: Kind): string {
    match kind
    case SyncFailed => "sync_failed:stack:"
    case NodeDisconnected => "node_disconnected:node:"
    case GitRepositoryUnavailable => "git_repository_unavailable:repository:"
    case ServiceDrift => "service_drift:service:"
  }

  function Render(fp: Fingerprint): string {
    Prefix(fp.kind) + fp.resource
  }

  /** The first two letters of the rendered text tell the kinds apart. */
  lemma PrefixTellsKind(a: Kind, b: Kind)
    requires Prefix(a)[0] == Prefix(b)[0] && Prefix(a)[1] == Prefix(b)[1]
    ensures a == b
  {
  }

  /** The stored text identifies kind and resource. */
  lemma RenderIsInjective(a: Fingerprint, b: Fingerprint)
    requires Render(a) == Render(b)
    ensures a == b
  {
    assert forall fp: Fingerprint :: Render(fp)[0] == Prefix(fp.kind)[0] && Render(fp)[1] == Prefix(fp.kind)[1];
    PrefixTellsKind(a.kind, b.kind);
    assert a.resource == Render(a)[|Prefix(a.kind)|..] && b.resource == Render(b)[|Prefix(b.kind)|..];
  }

  function Syncing(stack: string): Fingerprint {
    Fingerprint(SyncFailed, stack)
  }

  function Repo(repository: string): Fingerprint {
    Fingerprint(GitRepositoryUnavailable, repository)
  }

  function Drift(stack: string, service: string): Fingerprint {
    Fingerprint(ServiceDrift, stack + "/" + service)
  }

  function NodeKey(node: string): Fingerprint {
    Fingerprint(NodeDisconnected, node)
  }

  /** The text before the first separator. */
  function Cut(s: string): (r: Option<string>)
    ensures r.Some? <==> '/' in s
    ensures r.Some? ==> '/' !in r.value && r.value + "/" <= s
  {
    if s == "" then None
    else if s[0] == '/' then Some("")
    else
      match Cut(s[1..])
      case None => None
      case Some(head) => Some([s[0]] + head)
  }

  /** A drift alert is attributed to its stack exactly when the stack name holds no separator. */
  lemma {:induction false} CutFindsStackIff(stack: string, service: string)
    ensures Cut(stack + "/" + service) == Some(stack) <==> '/' !in stack
  {
    var s := stack + "/" + service;
    if stack != "" {
      CutFindsStackIff(stack[1..], service);
      assert s[1..] == stack[1..] + "/" + service;
      assert stack == [s[0]] + stack[1..];
      if s[0] != '/' && Cut(s[1..]).Some? { assert ([s[0]] + Cut(s[1..]).value)[1..] == Cut(s[1..]).value; }
    }
  }

  // ---------------------------------------------------------------- rows

  predicate OpenFor(a: Alert, fp: Fingerprint) {
    a.open && a.fingerprint == fp
  }

  function FindOpen(alerts: seq<Alert>, fp: Fingerprint): (r: Option<nat>)
    ensures r.Some? ==> r.value < |alerts| && OpenFor(alerts[r.value], fp)
    ensures r.None? ==> forall i :: 0 <= i < |alerts| ==> !OpenFor(alerts[i], fp)
  {
    if alerts == [] then None
    else if OpenFor(alerts[|alerts| - 1], fp) then Some(|alerts| - 1)
    else FindOpen(alerts[..|alerts| - 1], fp)
  }

  function Streak(b: Book, fp: Fingerprint): nat {
    if fp in b.streaks then b.streaks[fp] else 0
  }

  function Reset(b: Book, fp: Fingerprint): Book {
    b.(streaks := b.streaks - {fp})
  }

  function Counted(b: Book, fp: Fingerprint): Book {
    b.(streaks := b.streaks[fp := Streak(b, fp) + 1])
  }

  /** A new incident for a fingerprint; the caller fills in what its event reports. */
  function Incident(fp: Fingerprint, title: string, message: string, occurrences: nat, env: Environment): Alert {
    Alert(fp, fp.kind, TypeOf(fp.kind), fp.resource, true, title, message, "", "", "", "", occurrences,
          env.now, env.now, env.eventId, env.eventId, None, None)
  }

  /** What a repeated problem overwrites in the open row depends on its kind. */
  function Amended(row: Alert, incoming: Alert, hasDiagnostic: bool): Alert {
    var seen := row.(occurrences := row.occurrences + 1, updatedAt := incoming.updatedAt,
                     latestEventId := incoming.latestEventId);
    match incoming.kind
    case SyncFailed =>
      seen.(message := if hasDiagnostic || row.message == "" then incoming.message else row.message,
            title := incoming.title, stage := incoming.stage, code := incoming.code,
            deploymentId := incoming.deploymentId, commit := incoming.commit)
    case NodeDisconnected => seen
    case GitRepositoryUnavailable => seen.(message := incoming.message, code := incoming.code)
    case ServiceDrift => seen.(message := incoming.message, commit := incoming.commit)
  }

  function Ended(row: Alert, reason: Reason, message: string, env: Environment): Alert {
    row.(open := false, updatedAt := env.now, resolvedAt := Some(env.now),
         resolution := Some(Resolution(reason, message, env.eventId)))
  }

  function Amend(b: Book, id: nat, row: Alert): Book
    requires id < |b.alerts|
  {
    b.(alerts := b.alerts[id := row])
  }

  function Announce(b: Book, row: Alert): Book {
    b.(alerts := b.alerts + [row], published := b.published + [Opened(|b.alerts|, row)])
  }

  function Close(b: Book, id: nat, reason: Reason, message: string, env: Environment): Book
    requires id < |b.alerts|
  {
    var row := Ended(b.alerts[id], reason, message, env);
    Amend(b, id, row).(published := b.published + [Resolved(id, row)])
  }

  /** One more occurrence: amend the open incident, or open one unless the event is still held back. */
  function Occur(b: Book, incoming: Alert, hasDiagnostic: bool, held: bool): (r: Result<Book, Error>)
    ensures r.Ok? ==> r.value.streaks == b.streaks
  {
    match FindOpen(b.alerts, incoming.fingerprint)
    case Some(id) => Ok(Amend(b, id, Amended(b.alerts[id], incoming, hasDiagnostic)))
    case None =>
      if held then Ok(b)
      else if incoming.resourceId == "" then Err(InvalidAlert)
      else Ok(Announce(b, incoming))
  }

  function Recover(b: Book, fp: Fingerprint, reason: Reason, message: string, env: Environment): (r: Book)
    ensures r.streaks == b.streaks
  {
    match FindOpen(b.alerts, fp)
    case Some(id) => Close(b, id, reason, message, env)
    case None => b
  }

  // ---------------------------------------------------------------- deployment failures

  predicate Useful(diagnostic: string, code: string) {
    diagnostic != "" && diagnostic != code
  }

  function StageName(stage: string): string {
    if stage == "" then "an unknown stage" else stage
  }

  function FailureMessage(diagnostic: string, code: string, stage: string): string {
    if Useful(diagnostic, code) then diagnostic
    else "Synchronization failed during " + StageName(stage) + ". No detailed diagnostic was recorded."
  }

  function UnknownOutcomeMessage(diagnostic: string, code: string, stage: string): string {
    if Useful(diagnostic, code) then diagnostic
    else "Deployment outcome is unknown after interruption during " + StageName(stage) +
         ". No detailed diagnostic was recorded."
  }

  predicate IsFailure(e: Event) {
    e.DeployFailed? || e.DeployPreparationFailed? || e.DeployInterrupted?
  }

  function DetailsOf(e: Event): FailureDetails
    requires IsFailure(e)
  {
    var message :=
      if e.DeployInterrupted? then UnknownOutcomeMessage(e.diagnostic, e.code, e.stage)
      else FailureMessage(e.diagnostic, e.code, e.stage);
    FailureDetails(message, Useful(e.diagnostic, e.code), e.stage, e.code,
                   if e.DeployPreparationFailed? then "" else e.deploymentId, e.commit)
  }

  function TitleOf(e: Event): string {
    if e.DeployInterrupted? then "Synchronization outcome unknown" else "Synchronization failed"
  }

  function FailedAlert(stack: string, title: string, d: FailureDetails, failures: nat, env: Environment): Alert {
    Incident(Syncing(stack), title, d.message, failures, env)
      .(stage := d.stage, code := d.code, deploymentId := d.deploymentId, commit := d.commit)
  }

  /** A stack counts as removed only once a provider that can tell says its configuration is complete. */
  predicate StackRemoved(provider: Provider, stack: string) {
    provider.ready == Some(true) && stack !in provider.stacks
  }

  function Failed(b: Book, stack: string, title: string, d: FailureDetails, temporary: bool, env: Environment)
    : Result<Book, Error>
  {
    if StackRemoved(env.provider, stack) then Ok(Reset(b, Syncing(stack)))
    else
      var counted := Counted(b, Syncing(stack));
      var failures := Streak(counted, Syncing(stack));
      Occur(counted, FailedAlert(stack, title, d, failures, env), d.hasDiagnostic, temporary && failures < THRESHOLD)
  }

  function GitFailed(b: Book, e: Event, env: Environment): Result<Book, Error>
    requires e.GitPullFailed?
  {
    var counted := Counted(b, Repo(e.repository));
    var failures := Streak(counted, Repo(e.repository));
    var incoming := Incident(Repo(e.repository), "Git repository unavailable", e.description, failures, env)
      .(stage := "git_pull", code := e.category);
    Occur(counted, incoming, true, e.category == NETWORK && failures < THRESHOLD)
  }

  // ---------------------------------------------------------------- configuration changes

  /** The stack an alert belongs to, if it belongs to one. */
  function OwningStack(a: Alert): Option<string> {
    if a.resourceType == Stack then Some(a.resourceId)
    else if a.kind == ServiceDrift && a.resourceType == Service then Cut(a.resourceId)
    else None
  }

  /** An open alert of a stack that the configuration no longer names. */
  predicate Absent(a: Alert, stacks: seq<string>) {
    a.open && OwningStack(a).Some? && OwningStack(a).value !in stacks
  }

  function RemovalMessage(a: Alert): string {
    if a.kind == ServiceDrift then "Service removed with stack from desired configuration"
    else "Stack removed from desired configuration"
  }

  function KeptStreaks(streaks: map<Fingerprint, nat>, stacks: seq<string>): map<Fingerprint, nat> {
    map fp | fp in streaks && (fp.kind != SyncFailed || fp.resource in stacks) :: streaks[fp]
  }

  function ResolveAbsent(b: Book, n: nat, env: Environment): (r: Book)
    requires n <= |b.alerts|
    ensures |r.alerts| == |b.alerts|
    ensures r.streaks == b.streaks
  {
    if n == 0 then b
    else
      var done := ResolveAbsent(b, n - 1, env);
      if Absent(done.alerts[n - 1], env.provider.stacks)
      then Close(done, n - 1, ResourceRemoved, RemovalMessage(done.alerts[n - 1]), env)
      else done
  }

  function Reconfigure(b: Book, env: Environment): Result<Book, Error> {
    if env.provider.ready == Some(false) then Err(NotReady)
    else Ok(ResolveAbsent(b.(streaks := KeptStreaks(b.streaks, env.provider.stacks)), |b.alerts|, env))
  }

  // ---------------------------------------------------------------- dispatch

  function HandleEvent(b: Book, e: Event, env: Environment): Result<Book, Error> {
    match e
    case ConfigurationChanged(previous) =>
      if previous != "" then
        Ok(Recover(Reset(b, Repo(previous)), Repo(previous), ResourceRemoved,
                   "Git repository removed from configuration", env))
      else Reconfigure(b, env)
    case NodeLost(node) =>
      Occur(b, Incident(NodeKey(node), "Node disconnected", "Swarm node is not ready", 1, env), false, false)
    case NodeConnected(node) => Ok(Recover(b, NodeKey(node), Recovered, "Swarm node reconnected", env))
    case DeployFailed(_, _, _, _, _, _, _) => Failed(b, e.stack, TitleOf(e), DetailsOf(e), e.temporary, env)
    case DeployPreparationFailed(_, _, _, _, _, _) => Failed(b, e.stack, TitleOf(e), DetailsOf(e), e.temporary, env)
    case DeployInterrupted(_, _, _, _, _, _, _) => Failed(b, e.stack, TitleOf(e), DetailsOf(e), e.temporary, env)
    case DeploySucceeded(stack) =>
      Ok(Recover(Reset(b, Syncing(stack)), Syncing(stack), Recovered, "Synchronization completed successfully", env))
    case GitPullFailed(_, _, _) => GitFailed(b, e, env)
    case GitPullSucceeded(repository) =>
      Ok(Recover(Reset(b, Repo(repository)), Repo(repository), Recovered, "Git repository access recovered", env))
    case ServiceDrifted(stack, service, commit, reason, resolved) =>
      if resolved then Ok(b)
      else
        var incoming := Incident(Drift(stack, service), "Service drift detected", reason, 1, env).(commit := commit);
        Occur(b, incoming, true, false)
    case ServiceDriftFixed(stack, service) =>
      Ok(Recover(b, Drift(stack, service), Recovered, "Service drift resolved", env))
    case ServiceRemovedFromDesired(stack, service) =>
      Ok(Recover(b, Drift(stack, service), ResourceRemoved, "Service removed from desired configuration", env))
    case Unrelated => Ok(b)
  }
}
