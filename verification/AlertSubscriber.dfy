/** The alert subscriber: event handlers over the alert store, run inside one projection transaction per event. */
module AlertSubscriber {
  import opened Wrappers
  import opened Alerts
  import opened Projection

  class AlertStore {
    var alerts: seq<Alert>
    var streaks: map<Fingerprint, nat>

    constructor ()
      ensures alerts == [] && streaks == map[]
    {
      alerts, streaks := [], map[];
    }

    method FindOpenByFingerprint(fp: Fingerprint) returns (id: Option<nat>)
      ensures id == FindOpen(alerts, fp)
    {
      var n := |alerts|;
      assert alerts[..n] == alerts;
      while n > 0
        invariant 0 <= n <= |alerts|
        invariant FindOpen(alerts, fp) == FindOpen(alerts[..n], fp)
      {
        n := n - 1;
        assert alerts[..n + 1][..n] == alerts[..n];
        if OpenFor(alerts[n], fp) {
          return Some(n);
        }
      }
      id := None;
    }

    /** A row needs a resource, and at most one open row may carry a fingerprint. */
    method Create(row: Alert) returns (r: Result<nat, Alerts.Error>)
      modifies this`alerts
      ensures row.resourceId == "" ==> r == Err(InvalidAlert)
      ensures row.resourceId != "" && row.open && FindOpen(old(alerts), row.fingerprint).Some? ==>
        r == Err(OpenAlertExists)
      ensures row.resourceId != "" && FindOpen(old(alerts), row.fingerprint).None? ==> r == Ok(|old(alerts)|)
      ensures alerts == old(alerts) + if r.Ok? then [row] else []
    {
      if row.resourceId == "" {
        return Err(InvalidAlert);
      }
      if row.open {
        var existing := FindOpenByFingerprint(row.fingerprint);
        if existing.Some? {
          return Err(OpenAlertExists);
        }
      }
      r := Ok(|alerts|);
      alerts := alerts + [row];
    }

    method Update(id: nat, row: Alert)
      requires id < |alerts|
      modifies this`alerts
      ensures alerts == old(alerts)[id := row]
    {
      alerts := alerts[id := row];
    }

    method IncrementFailureStreak(fp: Fingerprint) returns (failures: nat)
      modifies this`streaks
      ensures failures == (if fp in old(streaks) then old(streaks)[fp] else 0) + 1
      ensures streaks == old(streaks)[fp := failures]
    {
      failures := if fp in streaks then streaks[fp] + 1 else 1;
      streaks := streaks[fp := failures];
    }

    method ResetFailureStreak(fp: Fingerprint)
      modifies this`streaks
      ensures streaks == old(streaks) - {fp}
    {
      streaks := streaks - {fp};
    }

    method ResetFailureStreaksExcept(stacks: seq<string>)
      modifies this`streaks
      ensures streaks == KeptStreaks(old(streaks), stacks)
    {
      streaks := map fp | fp in streaks && (fp.kind != SyncFailed || fp.resource in stacks) :: streaks[fp];
    }
  }

  class Subscriber {
    const store: AlertStore
    var published: seq<Publication>

    constructor (store: AlertStore)
      ensures this.store == store && published == []
    {
      this.store := store;
      published := [];
    }

    ghost function Contents(): Book
      reads this, store
    {
      Book(store.alerts, store.streaks, published)
    }

    /** The handler's outcome and, when it succeeds, the book it leaves; its caller rolls a failing handler back. */
    ghost predicate Follows(r: Result<(), Alerts.Error>, want: Result<Book, Alerts.Error>)
      reads this, store
    {
      match want
      case Ok(after) => r == Ok(()) && Contents() == after
      case Err(error) => r == Err(error)
    }

    method Open(row: Alert) returns (r: Result<(), Alerts.Error>)
      requires row.open && FindOpen(store.alerts, row.fingerprint).None?
      modifies this, store
      ensures Follows(r, if row.resourceId == "" then Err(InvalidAlert) else Ok(Announce(old(Contents()), row)))
    {
      var created := store.Create(row);
      if created.Err? {
        return Err(created.error);
      }
      published := published + [Opened(created.value, row)];
      r := Ok(());
    }

    method ResolveAlert(id: nat, reason: Reason, message: string, env: Environment)
      requires id < |store.alerts|
      modifies this, store
      ensures Contents() == Close(old(Contents()), id, reason, message, env)
    {
      var row := store.alerts[id];
      row := row.(open := false, updatedAt := env.now, resolvedAt := Some(env.now),
                  resolution := Some(Resolution(reason, message, env.eventId)));
      store.Update(id, row);
      published := published + [Resolved(id, row)];
    }

    method ResolveOpen(fp: Fingerprint, reason: Reason, message: string, env: Environment)
      modifies this, store
      ensures Contents() == Recover(old(Contents()), fp, reason, message, env)
    {
      var found := store.FindOpenByFingerprint(fp);
      if found.Some? {
        ResolveAlert(found.value, reason, message, env);
      }
    }

    method HandleServiceDrift(e: Event, env: Environment) returns (r: Result<(), Alerts.Error>)
      requires e.ServiceDrifted?
      modifies this, store
      ensures Follows(r, HandleEvent(old(Contents()), e, env))
    {
      if e.resolved {
        return Ok(());
      }
      var fingerprint := Drift(e.stack, e.service);
      var found := store.FindOpenByFingerprint(fingerprint);
      if found.Some? {
        var row := store.alerts[found.value];
        row := row.(occurrences := row.occurrences + 1, updatedAt := env.now, latestEventId := env.eventId,
                    message := e.reason, commit := e.commit);
        store.Update(found.value, row);
        return Ok(());
      }
      var row := Incident(fingerprint, "Service drift detected", e.reason, 1, env).(commit := e.commit);
      r := Open(row);
    }

    method HandleGitPullFailed(e: Event, env: Environment) returns (r: Result<(), Alerts.Error>)
      requires e.GitPullFailed?
      modifies this, store
      ensures Follows(r, GitFailed(old(Contents()), e, env))
    {
      var fingerprint := Repo(e.repository);
      var failures := store.IncrementFailureStreak(fingerprint);
      var found := store.FindOpenByFingerprint(fingerprint);
      if found.Some? {
        var row := store.alerts[found.value];
        row := row.(occurrences := row.occurrences + 1, updatedAt := env.now, latestEventId := env.eventId,
                    message := e.description, code := e.category);
        store.Update(found.value, row);
        return Ok(());
      }
      if e.category == NETWORK && failures < THRESHOLD {
        return Ok(());
      }
      var row := Incident(fingerprint, "Git repository unavailable", e.description, failures, env);
      r := Open(row.(stage := "git_pull", code := e.category));
    }

    method RepeatFailure(id: nat, incoming: Alert, hasDiagnostic: bool)
      requires id < |store.alerts| && incoming.kind == SyncFailed
      modifies store
      ensures Contents() == Amend(old(Contents()), id, Amended(old(store.alerts[id]), incoming, hasDiagnostic))
    {
      var row := store.alerts[id];
      if hasDiagnostic || row.message == "" {
        row := row.(message := incoming.message);
      }
      row := row.(occurrences := row.occurrences + 1, updatedAt := incoming.updatedAt,
                  latestEventId := incoming.latestEventId, title := incoming.title, stage := incoming.stage,
                  code := incoming.code, deploymentId := incoming.deploymentId, commit := incoming.commit);
      store.Update(id, row);
    }

    method HandleFailed(stack: string, title: string, d: FailureDetails, temporary: bool, env: Environment)
      returns (r: Result<(), Alerts.Error>)
      modifies this, store
      ensures Follows(r, Failed(old(Contents()), stack, title, d, temporary, env))
    {
      var fingerprint := Syncing(stack);
      if StackRemoved(env.provider, stack) {
        store.ResetFailureStreak(fingerprint);
        return Ok(());
      }
      var failures := store.IncrementFailureStreak(fingerprint);
      var incoming := FailedAlert(stack, title, d, failures, env);
      var found := store.FindOpenByFingerprint(fingerprint);
      if found.Some? {
        RepeatFailure(found.value, incoming, d.hasDiagnostic);
        return Ok(());
      }
      if temporary && failures < THRESHOLD {
        return Ok(());
      }
      r := Open(incoming);
    }

    method HandleNode(e: Event, env: Environment) returns (r: Result<(), Alerts.Error>)
      requires e.NodeLost? || e.NodeConnected?
      modifies this, store
      ensures Follows(r, HandleEvent(old(Contents()), e, env))
    {
      var fingerprint := NodeKey(e.node);
      var found := store.FindOpenByFingerprint(fingerprint);
      if found.None? {
        if e.NodeConnected? {
          return Ok(());
        }
        r := Open(Incident(fingerprint, "Node disconnected", "Swarm node is not ready", 1, env));
        return;
      }
      if e.NodeLost? {
        var row := store.alerts[found.value];
        row := row.(updatedAt := env.now, occurrences := row.occurrences + 1, latestEventId := env.eventId);
        store.Update(found.value, row);
      } else {
        ResolveAlert(found.value, Recovered, "Swarm node reconnected", env);
      }
      r := Ok(());
    }

    method HandleConfigurationChanged(env: Environment) returns (r: Result<(), Alerts.Error>)
      modifies this, store
      ensures Follows(r, Reconfigure(old(Contents()), env))
    {
      if env.provider.ready == Some(false) {
        return Err(NotReady);
      }
      store.ResetFailureStreaksExcept(env.provider.stacks);
      ghost var start := Contents();
      var i := 0;
      while i < |store.alerts|
        invariant i <= |store.alerts| == |start.alerts|
        invariant Contents() == ResolveAbsent(start, i, env)
      {
        if Absent(store.alerts[i], env.provider.stacks) {
          ResolveAlert(i, ResourceRemoved, RemovalMessage(store.alerts[i]), env);
        }
        i := i + 1;
      }
      r := Ok(());
    }

    method Handle(e: Event, env: Environment) returns (r: Result<(), Alerts.Error>)
      modifies this, store
      ensures Follows(r, HandleEvent(old(Contents()), e, env))
    {
      r := Ok(());
      match e {
        case ConfigurationChanged(previous) =>
          if previous != "" {
            store.ResetFailureStreak(Repo(previous));
            ResolveOpen(Repo(previous), ResourceRemoved, "Git repository removed from configuration", env);
          } else {
            r := HandleConfigurationChanged(env);
          }
        case NodeLost(_) => r := HandleNode(e, env);
        case NodeConnected(_) => r := HandleNode(e, env);
        case DeployFailed(_, _, _, _, _, _, _) =>
          r := HandleFailed(e.stack, TitleOf(e), DetailsOf(e), e.temporary, env);
        case DeployPreparationFailed(_, _, _, _, _, _) =>
          r := HandleFailed(e.stack, TitleOf(e), DetailsOf(e), e.temporary, env);
        case DeployInterrupted(_, _, _, _, _, _, _) =>
          r := HandleFailed(e.stack, TitleOf(e), DetailsOf(e), e.temporary, env);
        case DeploySucceeded(stack) =>
          store.ResetFailureStreak(Syncing(stack));
          ResolveOpen(Syncing(stack), Recovered, "Synchronization completed successfully", env);
        case GitPullFailed(_, _, _) => r := HandleGitPullFailed(e, env);
        case GitPullSucceeded(repository) =>
          store.ResetFailureStreak(Repo(repository));
          ResolveOpen(Repo(repository), Recovered, "Git repository access recovered", env);
        case ServiceDrifted(_, _, _, _, _) => r := HandleServiceDrift(e, env);
        case ServiceDriftFixed(stack, service) =>
          ResolveOpen(Drift(stack, service), Recovered, "Service drift resolved", env);
        case ServiceRemovedFromDesired(stack, service) =>
          ResolveOpen(Drift(stack, service), ResourceRemoved, "Service removed from desired configuration", env);
        case Unrelated =>
      }
    }
  }

  // ---------------------------------------------------------------- one transaction per delivered event

  datatype State = State(versions: map<Key, Version>, book: Book)

  /** One attempt to deliver an event: its publication, the configuration seen, and how the transaction ends. */
  datatype Delivery = Delivery(event: Event, id: string, at: Option<int>, provider: Provider, now: int, commit: Commit)

  const START := State(map[], EMPTY)

  /** The resource whose events are ordered against each other. */
  function ResourceOf(e: Event): string {
    match e
    case ConfigurationChanged(previous) => if previous == "" then "configuration" else "repository:" + previous
    case NodeLost(node) => "node:" + node
    case NodeConnected(node) => "node:" + node
    case DeployFailed(stack, _, _, _, _, _, _) => "stack:" + stack
    case DeployPreparationFailed(stack, _, _, _, _, _) => "stack:" + stack
    case DeployInterrupted(stack, _, _, _, _, _, _) => "stack:" + stack
    case DeploySucceeded(stack) => "stack:" + stack
    case GitPullFailed(repository, _, _) => "repository:" + repository
    case GitPullSucceeded(repository) => "repository:" + repository
    case ServiceDrifted(stack, service, _, _, _) => "service:" + stack + "/" + service
    case ServiceDriftFixed(stack, service) => "service:" + stack + "/" + service
    case ServiceRemovedFromDesired(stack, service) => "service:" + stack + "/" + service
    case Unrelated => ""
  }

  function KeyOf(e: Event): Key {
    Key("alerts", ResourceOf(e))
  }

  function EnvironmentOf(d: Delivery): Environment {
    Environment(d.provider, d.now, d.id)
  }

  /** A delivery counts once per version: stale and repeated ones do nothing, failing ones leave no trace. */
  function Consume(s: State, d: Delivery): (State, Result<(), Alerts.Error>) {
    if d.event.Unrelated? then (s, Ok(()))
    else if d.id == "" || d.at == None then (s, Err(MissingSource))
    else
      var (versions, accepted) := Advance(s.versions, KeyOf(d.event), Version(d.at.value, d.id));
      if !accepted then (s, Ok(()))
      else
        match HandleEvent(s.book, d.event, EnvironmentOf(d))
        case Err(error) => (s, Err(error))
        case Ok(book) =>
          match d.commit
          case Committed => (State(versions, book), Ok(()))
          case RolledBack => (s, Err(StorageFailed))
          case CommittedUnreported => (State(versions, book), Err(StorageFailed))
  }

  function Deliver(ds: seq<Delivery>): State {
    if ds == [] then START else Consume(Deliver(ds[..|ds| - 1]), ds[|ds| - 1]).0
  }

  class SQLSubscriber {
    const subscriber: Subscriber
    const projections: ProjectionStore

    constructor (subscriber: Subscriber, projections: ProjectionStore)
      ensures this.subscriber == subscriber && this.projections == projections
    {
      this.subscriber := subscriber;
      this.projections := projections;
    }

    ghost function Contents(): State
      reads this, projections, subscriber, subscriber.store
    {
      State(projections.versions, subscriber.Contents())
    }

    method Handle(d: Delivery) returns (r: Result<(), Alerts.Error>)
      modifies projections, subscriber, subscriber.store
      ensures (Contents(), r) == Consume(old(Contents()), d)
    {
      if d.event.Unrelated? {
        return Ok(());
      }
      if d.id == "" || d.at == None {
        return Err(MissingSource);
      }
      var versions, alerts := projections.versions, subscriber.store.alerts;
      var streaks, published := subscriber.store.streaks, subscriber.published;
      var accepted := projections.AdvanceProjection("alerts", ResourceOf(d.event), d.at, d.id);
      if accepted.Err? || !accepted.value {
        return Ok(());
      }
      r := subscriber.Handle(d.event, EnvironmentOf(d));
      if r.Err? || d.commit == RolledBack {
        projections.versions, subscriber.store.alerts := versions, alerts;
        subscriber.store.streaks, subscriber.published := streaks, published;
      }
      if r.Ok? && d.commit != Committed {
        r := Err(StorageFailed);
      }
    }
  }
}
