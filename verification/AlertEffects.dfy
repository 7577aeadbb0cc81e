/** What each event does to the incident of its resource: what ends it, what repeats it, and what it then says. */
module AlertEffects {
  import opened Wrappers
  import opened Alerts
  import opened AlertSubscriber
  import opened AlertLifecycle
  import opened AlertGuarantees
  import opened Projection
  import Text

  // ---------------------------------------------------------------- incidents end

  /** The event says that the problem is over, or that its resource is gone. */
  predicate Ends(e: Event, fp: Fingerprint) {
    match e
    case NodeConnected(node) => fp == NodeKey(node)
    case ServiceDriftFixed(stack, service) => fp == Drift(stack, service)
    case ServiceRemovedFromDesired(stack, service) => fp == Drift(stack, service)
    case DeploySucceeded(stack) => fp == Syncing(stack)
    case GitPullSucceeded(repository) => fp == Repo(repository)
    case ConfigurationChanged(previous) => previous != "" && fp == Repo(previous)
    case _ => false
  }

  function ReasonOf(e: Event): Reason {
    if e.ServiceRemovedFromDesired? || e.ConfigurationChanged? then ResourceRemoved else Recovered
  }

  function MessageOf(e: Event): string
    requires exists fp :: Ends(e, fp)
  {
    match e
    case NodeConnected(_) => "Swarm node reconnected"
    case ServiceDriftFixed(_, _) => "Service drift resolved"
    case ServiceRemovedFromDesired(_, _) => "Service removed from desired configuration"
    case DeploySucceeded(_) => "Synchronization completed successfully"
    case GitPullSucceeded(_) => "Git repository access recovered"
    case ConfigurationChanged(_) => "Git repository removed from configuration"
  }

  /** The row was closed by the event and is otherwise as it was. */
  predicate ClosedBy(row: Alert, was: Alert, reason: Reason, message: string, env: Environment) {
    && !row.open && row.resolvedAt == Some(env.now) && row.updatedAt == env.now
    && row.resolution == Some(Resolution(reason, message, env.eventId))
    && was == row.(open := was.open, updatedAt := was.updatedAt, resolvedAt := was.resolvedAt,
                   resolution := was.resolution)
  }

  predicate OnlyRowChanges(before: seq<Alert>, after: seq<Alert>, id: nat) {
    |after| == |before| && forall i :: 0 <= i < |before| && i != id ==> after[i] == before[i]
  }

  /** The incident of the resource, if one was open, is closed and its end is published once; nothing else changes. */
  predicate Concludes(b: Book, after: Book, fp: Fingerprint, reason: Reason, message: string, env: Environment) {
    match FindOpen(b.alerts, fp)
    case None => after.alerts == b.alerts && after.published == b.published
    case Some(id) =>
      && OnlyRowChanges(b.alerts, after.alerts, id) && ClosedBy(after.alerts[id], b.alerts[id], reason, message, env)
      && after.published == b.published + [Resolved(id, after.alerts[id])]
  }

  lemma {:induction false} RecoverConcludes(b: Book, fp: Fingerprint, reason: Reason, message: string, env: Environment)
    requires Told(b)
    ensures var after := Recover(b, fp, reason, message, env);
      FindOpen(after.alerts, fp) == None && Concludes(b, after, fp, reason, message, env)
  {
    RecoverKeeps(b, fp, reason, message, env);
  }

  /** A recovery or removal leaves its resource without an open incident. */
  lemma {:induction false} EndingEventConcludes(b: Book, e: Event, env: Environment, fp: Fingerprint)
    requires Sound(b) && Ends(e, fp)
    ensures HandleEvent(b, e, env).Ok?
    ensures var after := HandleEvent(b, e, env).value;
      FindOpen(after.alerts, fp) == None && Concludes(b, after, fp, ReasonOf(e), MessageOf(e), env)
  {
    ToldIgnoresStreaks(b, Reset(b, fp));
    match e
    case NodeConnected(_) => RecoverConcludes(b, fp, Recovered, "Swarm node reconnected", env);
    case ServiceDriftFixed(_, _) => RecoverConcludes(b, fp, Recovered, "Service drift resolved", env);
    case ServiceRemovedFromDesired(_, _) =>
      RecoverConcludes(b, fp, ResourceRemoved, "Service removed from desired configuration", env);
    case DeploySucceeded(_) =>
      RecoverConcludes(Reset(b, fp), fp, Recovered, "Synchronization completed successfully", env);
    case GitPullSucceeded(_) => RecoverConcludes(Reset(b, fp), fp, Recovered, "Git repository access recovered", env);
    case ConfigurationChanged(_) =>
      RecoverConcludes(Reset(b, fp), fp, ResourceRemoved, "Git repository removed from configuration", env);
  }

  // ---------------------------------------------------------------- incidents begin and repeat

  /** The event reports a problem of the resource; a failure of a stack that a complete configuration lacks does not
      count. */
  predicate Occurs(e: Event, provider: Provider, fp: Fingerprint) {
    || (IsFailure(e) && fp == Syncing(e.stack) && (provider.ready != Some(true) || e.stack in provider.stacks))
    || (e.GitPullFailed? && fp == Repo(e.repository))
    || (e.NodeLost? && fp == NodeKey(e.node))
    || (e.ServiceDrifted? && !e.resolved && fp == Drift(e.stack, e.service))
  }

  /** A temporary failure is held back until it has come three times since the resource last recovered. */
  predicate HeldBack(b: Book, e: Event, fp: Fingerprint) {
    CountsFailures(fp.kind) && Temporary(e) && Streak(b, fp) < 2
  }

  /** A diagnostic is worth showing when it says more than the code. */
  predicate Says(diagnostic: string, code: string) {
    diagnostic != "" && diagnostic != code
  }

  /** What a row says after the event, given what an already open row said before. */
  predicate Describes(row: Alert, e: Event, was: Option<Alert>) {
    match e
    case NodeLost(_) =>
      was.Some? || (row.title == "Node disconnected" && row.message == "Swarm node is not ready")
    case ServiceDrifted(_, _, commit, reason, _) =>
      row.message == reason && row.commit == commit && (was.Some? || row.title == "Service drift detected")
    case GitPullFailed(_, category, description) =>
      && row.message == description && row.code == category
      && (was.Some? || (row.title == "Git repository unavailable" && row.stage == "git_pull"))
    case DeployFailed(_, diagnostic, code, stage, deployment, commit, _) =>
      && row.title == "Synchronization failed" && row.stage == stage && row.code == code
      && row.deploymentId == deployment && row.commit == commit
      && (Says(diagnostic, code) ==> row.message == diagnostic)
      && (!Says(diagnostic, code) && was.Some? && was.value.message != "" ==> row.message == was.value.message)
    case DeployPreparationFailed(_, diagnostic, code, stage, commit, _) =>
      && row.title == "Synchronization failed" && row.stage == stage && row.code == code
      && row.deploymentId == "" && row.commit == commit
      && (Says(diagnostic, code) ==> row.message == diagnostic)
      && (!Says(diagnostic, code) && was.Some? && was.value.message != "" ==> row.message == was.value.message)
    case DeployInterrupted(_, diagnostic, code, stage, deployment, commit, _) =>
      && row.title == "Synchronization outcome unknown" && row.stage == stage && row.code == code
      && row.deploymentId == deployment && row.commit == commit
      && (Says(diagnostic, code) ==> row.message == diagnostic)
      && (!Says(diagnostic, code) && was.Some? && was.value.message != "" ==> row.message == was.value.message)
    case _ => false
  }

  /** An open row counts the event and keeps its identity; what the event does not tell stays. */
  predicate Repeats(row: Alert, was: Alert, e: Event, env: Environment) {
    && row.occurrences == was.occurrences + 1 && row.updatedAt == env.now && row.latestEventId == env.eventId
    && row.open && row.fingerprint == was.fingerprint && row.kind == was.kind
    && row.resourceType == was.resourceType && row.resourceId == was.resourceId
    && row.openedAt == was.openedAt && row.openEventId == was.openEventId
    && row.resolvedAt == was.resolvedAt && row.resolution == was.resolution
    && Describes(row, e, Some(was))
    && (e.NodeLost? ==> row == was.(occurrences := row.occurrences, updatedAt := env.now, latestEventId := env.eventId))
    && (e.ServiceDrifted? ==> row.title == was.title && row.stage == was.stage && row.code == was.code)
    && (e.GitPullFailed? ==> row.title == was.title && row.stage == was.stage && row.commit == was.commit)
  }

  /** A new row of the resource, opened by the event; a counted failure brings the failures counted so far. */
  predicate Begins(row: Alert, e: Event, fp: Fingerprint, streak: nat, env: Environment) {
    && WellFormed(row) && row.open && row.fingerprint == fp
    && row.openedAt == row.updatedAt == env.now && row.openEventId == row.latestEventId == env.eventId
    && row.occurrences == (if CountsFailures(fp.kind) then streak + 1 else 1)
    && Describes(row, e, None)
  }

  /** The event repeats the open incident of the resource; without one it is held back or opens one and announces it. */
  predicate Reports(b: Book, after: Book, e: Event, fp: Fingerprint, env: Environment) {
    match FindOpen(b.alerts, fp)
    case Some(id) =>
      && OnlyRowChanges(b.alerts, after.alerts, id) && Repeats(after.alerts[id], b.alerts[id], e, env)
      && after.published == b.published
    case None =>
      if HeldBack(b, e, fp) then after.alerts == b.alerts && after.published == b.published
      else
        && |after.alerts| == |b.alerts| + 1 && after.alerts[..|b.alerts|] == b.alerts
        && Begins(after.alerts[|b.alerts|], e, fp, Streak(b, fp), env)
        && after.published == b.published + [Opened(|b.alerts|, after.alerts[|b.alerts|])]
  }

  lemma NodeLossReports(b: Book, e: Event, env: Environment)
    requires RowsOk(b.alerts) && e.NodeLost? && HandleEvent(b, e, env).Ok?
    ensures Reports(b, HandleEvent(b, e, env).value, e, NodeKey(e.node), env)
  {
  }

  lemma DriftReports(b: Book, e: Event, env: Environment)
    requires RowsOk(b.alerts) && e.ServiceDrifted? && !e.resolved && HandleEvent(b, e, env).Ok?
    ensures Reports(b, HandleEvent(b, e, env).value, e, Drift(e.stack, e.service), env)
  {
  }

  lemma GitFailureReports(b: Book, e: Event, env: Environment)
    requires RowsOk(b.alerts) && e.GitPullFailed? && GitFailed(b, e, env).Ok?
    ensures Reports(b, GitFailed(b, e, env).value, e, Repo(e.repository), env)
  {
  }

  /** The details of a failure carry what its event tells. */
  predicate Tells(e: Event, title: string, d: FailureDetails) {
    && IsFailure(e) && d.stage == e.stage && d.code == e.code && d.commit == e.commit
    && d.deploymentId == (if e.DeployPreparationFailed? then "" else e.deploymentId)
    && title == (if e.DeployInterrupted? then "Synchronization outcome unknown" else "Synchronization failed")
    && (d.hasDiagnostic <==> Says(e.diagnostic, e.code)) && (Says(e.diagnostic, e.code) ==> d.message == e.diagnostic)
  }

  lemma DetailsTell(e: Event)
    requires IsFailure(e)
    ensures Tells(e, TitleOf(e), DetailsOf(e))
  {
  }

  lemma FailureRepeats(was: Alert, e: Event, title: string, d: FailureDetails, failures: nat, env: Environment)
    requires Tells(e, title, d) && was.open
    ensures Repeats(Amended(was, FailedAlert(e.stack, title, d, failures, env), d.hasDiagnostic), was, e, env)
  {
  }

  lemma FailureBegins(e: Event, title: string, d: FailureDetails, streak: nat, env: Environment)
    requires Tells(e, title, d) && e.stack != ""
    ensures Begins(FailedAlert(e.stack, title, d, streak + 1, env), e, Syncing(e.stack), streak, env)
  {
  }

  lemma DeployFailureReports(b: Book, e: Event, title: string, d: FailureDetails, env: Environment)
    requires RowsOk(b.alerts) && Tells(e, title, d) && !StackRemoved(env.provider, e.stack)
    requires Failed(b, e.stack, title, d, e.temporary, env).Ok?
    ensures Reports(b, Failed(b, e.stack, title, d, e.temporary, env).value, e, Syncing(e.stack), env)
  {
    FailedEffect(b, e.stack, title, d, e.temporary, env);
    if FindOpen(b.alerts, Syncing(e.stack)).Some? {
      FailureIsRepeated(b, Failed(b, e.stack, title, d, e.temporary, env).value, e, title, d, env);
    } else if !HeldBack(b, e, Syncing(e.stack)) {
      FailureIsBegun(b, Failed(b, e.stack, title, d, e.temporary, env).value, e, title, d, env);
    }
  }

  lemma FailureIsRepeated(b: Book, after: Book, e: Event, title: string, d: FailureDetails, env: Environment)
    requires Tells(e, title, d) && FindOpen(b.alerts, Syncing(e.stack)).Some? && after.published == b.published
    requires var id := FindOpen(b.alerts, Syncing(e.stack)).value;
      var incoming := FailedAlert(e.stack, title, d, Streak(b, Syncing(e.stack)) + 1, env);
      after.alerts == b.alerts[id := Amended(b.alerts[id], incoming, d.hasDiagnostic)]
    ensures Reports(b, after, e, Syncing(e.stack), env)
  {
    var fp := Syncing(e.stack);
    var id := FindOpen(b.alerts, fp).value;
    FailureRepeats(b.alerts[id], e, title, d, Streak(b, fp) + 1, env);
    RepeatIsReported(b, after, e, fp, env, id, after.alerts[id]);
  }

  lemma FailureIsBegun(b: Book, after: Book, e: Event, title: string, d: FailureDetails, env: Environment)
    requires Tells(e, title, d) && FindOpen(b.alerts, Syncing(e.stack)).None? && !HeldBack(b, e, Syncing(e.stack))
    requires e.stack != ""
    requires var incoming := FailedAlert(e.stack, title, d, Streak(b, Syncing(e.stack)) + 1, env);
      after.alerts == b.alerts + [incoming] && after.published == b.published + [Opened(|b.alerts|, incoming)]
    ensures Reports(b, after, e, Syncing(e.stack), env)
  {
    FailureBegins(e, title, d, Streak(b, Syncing(e.stack)), env);
    BeginningIsReported(b, after, e, Syncing(e.stack), env, after.alerts[|b.alerts|]);
  }

  /** A counted failure amends the open row, is held back, or announces a new row. */
  lemma FailedEffect(b: Book, stack: string, title: string, d: FailureDetails, temporary: bool, env: Environment)
    requires !StackRemoved(env.provider, stack) && Failed(b, stack, title, d, temporary, env).Ok?
    ensures var after := Failed(b, stack, title, d, temporary, env).value;
      var failures := Streak(b, Syncing(stack)) + 1;
      var incoming := FailedAlert(stack, title, d, failures, env);
      match FindOpen(b.alerts, Syncing(stack))
      case Some(id) =>
        && after.alerts == b.alerts[id := Amended(b.alerts[id], incoming, d.hasDiagnostic)]
        && after.published == b.published
      case None =>
        if temporary && failures < THRESHOLD then after.alerts == b.alerts && after.published == b.published
        else
          && stack != "" && after.alerts == b.alerts + [incoming]
          && after.published == b.published + [Opened(|b.alerts|, incoming)]
  {
  }

  lemma {:induction false} RepeatIsReported(b: Book, after: Book, e: Event, fp: Fingerprint, env: Environment, id: nat,
                                            row: Alert)
    requires FindOpen(b.alerts, fp) == Some(id)
    requires after.alerts == b.alerts[id := row] && after.published == b.published
    requires Repeats(row, b.alerts[id], e, env)
    ensures Reports(b, after, e, fp, env)
  {
  }

  lemma {:induction false} BeginningIsReported(b: Book, after: Book, e: Event, fp: Fingerprint, env: Environment,
                                               row: Alert)
    requires FindOpen(b.alerts, fp) == None && !HeldBack(b, e, fp)
    requires after.alerts == b.alerts + [row] && after.published == b.published + [Opened(|b.alerts|, row)]
    requires Begins(row, e, fp, Streak(b, fp), env)
    ensures Reports(b, after, e, fp, env)
  {
  }

  lemma FailureIsHandled(b: Book, e: Event, env: Environment)
    requires IsFailure(e)
    ensures HandleEvent(b, e, env) == Failed(b, e.stack, TitleOf(e), DetailsOf(e), e.temporary, env)
  {
  }

  /** A reported problem counts in its open incident, or opens one that says what the event says. */
  lemma OccurringEventReports(b: Book, e: Event, env: Environment, fp: Fingerprint)
    requires Sound(b) && Occurs(e, env.provider, fp) && HandleEvent(b, e, env).Ok?
    ensures Reports(b, HandleEvent(b, e, env).value, e, fp, env)
  {
    if IsFailure(e) {
      FailureIsHandled(b, e, env);
      DetailsTell(e);
      DeployFailureReports(b, e, TitleOf(e), DetailsOf(e), env);
    } else if e.NodeLost? {
      NodeLossReports(b, e, env);
    } else if e.ServiceDrifted? {
      DriftReports(b, e, env);
    } else {
      GitFailureReports(b, e, env);
    }
  }

  /** Losing a node and an unresolved drift always leave their incident open. */
  lemma {:induction false} UncountedProblemIsOpen(b: Book, e: Event, env: Environment, fp: Fingerprint)
    requires Sound(b) && Occurs(e, env.provider, fp) && (e.NodeLost? || e.ServiceDrifted?)
    requires HandleEvent(b, e, env).Ok?
    ensures FindOpen(HandleEvent(b, e, env).value.alerts, fp).Some?
  {
    OccurringEventReports(b, e, env, fp);
    HandledKeeps(b, e, env);
    var after := HandleEvent(b, e, env).value.alerts;
    FindOpenIs(after, fp, if FindOpen(b.alerts, fp).Some? then FindOpen(b.alerts, fp).value else |b.alerts|);
  }

  /** The only reported problem that is refused is one of a resource without a name. */
  lemma OnlyNamelessIsRefused(b: Book, e: Event, env: Environment, fp: Fingerprint)
    requires Occurs(e, env.provider, fp) && HandleEvent(b, e, env).Err?
    ensures fp.resource == "" && HandleEvent(b, e, env) == Err(InvalidAlert)
  {
    if IsFailure(e) { FailureIsHandled(b, e, env); }
  }

  /** Everything else leaves incidents alone: a drift that is resolved already, a failure of a stack that the
      configuration has dropped, and events that concern no resource. */
  lemma OtherEventsChangeNoIncident(b: Book, e: Event, env: Environment)
    requires Sound(b) && e != ConfigurationChanged("")
    requires forall fp :: !Ends(e, fp) && !Occurs(e, env.provider, fp)
    ensures HandleEvent(b, e, env).Ok?
    ensures var after := HandleEvent(b, e, env).value; after.alerts == b.alerts && after.published == b.published
  {
    match e
    case ConfigurationChanged(previous) => assert Ends(e, Repo(previous));
    case NodeLost(node) => assert Occurs(e, env.provider, NodeKey(node));
    case NodeConnected(node) => assert Ends(e, NodeKey(node));
    case DeploySucceeded(stack) => assert Ends(e, Syncing(stack));
    case GitPullFailed(repository, _, _) => assert Occurs(e, env.provider, Repo(repository));
    case GitPullSucceeded(repository) => assert Ends(e, Repo(repository));
    case ServiceDrifted(stack, service, _, _, _) => assert e.resolved || Occurs(e, env.provider, Drift(stack, service));
    case ServiceDriftFixed(stack, service) => assert Ends(e, Drift(stack, service));
    case ServiceRemovedFromDesired(stack, service) => assert Ends(e, Drift(stack, service));
    case Unrelated =>
    case _ => assert StackRemoved(env.provider, e.stack) || Occurs(e, env.provider, Syncing(e.stack));
  }

  // ---------------------------------------------------------------- configuration changes

  /** The open rows, among the first n, of stacks that the configuration no longer names, in row order. */
  function AbsentRows(alerts: seq<Alert>, n: nat, stacks: seq<string>): seq<nat>
    requires n <= |alerts|
  {
    if n == 0 then []
    else AbsentRows(alerts, n - 1, stacks) + if Absent(alerts[n - 1], stacks) then [n - 1] else []
  }

  function Resolutions(alerts: seq<Alert>, ids: seq<nat>): seq<Publication>
    requires forall k :: 0 <= k < |ids| ==> ids[k] < |alerts|
  {
    seq(|ids|, k requires 0 <= k < |ids| => Resolved(ids[k], alerts[ids[k]]))
  }

  lemma {:induction false} AbsentRowsAreRows(alerts: seq<Alert>, n: nat, stacks: seq<string>)
    requires n <= |alerts|
    ensures forall k :: 0 <= k < |AbsentRows(alerts, n, stacks)| ==> AbsentRows(alerts, n, stacks)[k] < n
    ensures forall i :: i in AbsentRows(alerts, n, stacks) <==> 0 <= i < n && Absent(alerts[i], stacks)
  {
    if n > 0 { AbsentRowsAreRows(alerts, n - 1, stacks); }
  }

  lemma ResolutionsGrow(before: seq<Alert>, after: seq<Alert>, ids: seq<nat>, id: nat)
    requires |after| == |before| && id < |before| && forall k :: 0 <= k < |ids| ==> ids[k] < id
    requires forall i :: 0 <= i < id ==> after[i] == before[i]
    ensures Resolutions(after, ids) == Resolutions(before, ids)
    ensures Resolutions(after, ids + [id]) == Resolutions(before, ids) + [Resolved(id, after[id])]
  {
  }

  lemma {:induction false} ResolveAbsentStep(b: Book, n: nat, env: Environment)
    requires n < |b.alerts|
    ensures var done := ResolveAbsent(b, n, env);
      ResolveAbsent(b, n + 1, env) ==
        if Absent(b.alerts[n], env.provider.stacks)
        then Close(done, n, ResourceRemoved, RemovalMessage(done.alerts[n]), env) else done
  {
    ResolveAbsentAt(b, n, env, n);
  }

  /** The first n rows have been settled, and the ends of those that were absent published in row order. */
  predicate AbsentPublished(b: Book, n: nat, env: Environment)
    requires n <= |b.alerts|
  {
    var ids, after := AbsentRows(b.alerts, n, env.provider.stacks), ResolveAbsent(b, n, env);
    && (forall k :: 0 <= k < |ids| ==> ids[k] < n)
    && after.published == b.published + Resolutions(after.alerts, ids)
  }

  lemma ResolveAbsentPublishesNext(b: Book, n: nat, env: Environment)
    requires n < |b.alerts| && AbsentPublished(b, n, env)
    ensures AbsentPublished(b, n + 1, env)
  {
    var ids, done := AbsentRows(b.alerts, n, env.provider.stacks), ResolveAbsent(b, n, env);
    ResolveAbsentStep(b, n, env);
    if Absent(b.alerts[n], env.provider.stacks) {
      CloseAddsResolution(b.published, done, ids, n, env);
      assert AbsentRows(b.alerts, n + 1, env.provider.stacks) == ids + [n];
    } else {
      assert AbsentRows(b.alerts, n + 1, env.provider.stacks) == ids + [] == ids;
    }
  }

  lemma {:induction false} ResolveAbsentPublishes(b: Book, n: nat, env: Environment)
    requires n <= |b.alerts|
    ensures AbsentPublished(b, n, env)
  {
    if n > 0 {
      ResolveAbsentPublishes(b, n - 1, env);
      ResolveAbsentPublishesNext(b, n - 1, env);
    }
  }

  lemma CloseAddsResolution(published: seq<Publication>, done: Book, ids: seq<nat>, id: nat, env: Environment)
    requires id < |done.alerts| && forall k :: 0 <= k < |ids| ==> ids[k] < id
    requires done.published == published + Resolutions(done.alerts, ids)
    ensures var after := Close(done, id, ResourceRemoved, RemovalMessage(done.alerts[id]), env);
      after.published == published + Resolutions(after.alerts, ids + [id])
  {
    var after := Close(done, id, ResourceRemoved, RemovalMessage(done.alerts[id]), env);
    ResolutionsGrow(done.alerts, after.alerts, ids, id);
  }

  /** A configuration change closes the incidents of absent stacks as removed and publishes each end once, in row order;
      every other row stays as it was. */
  lemma ConfigurationChangeConcludes(b: Book, env: Environment)
    requires Sound(b) && HandleEvent(b, ConfigurationChanged(""), env).Ok?
    ensures var after := HandleEvent(b, ConfigurationChanged(""), env).value; var stacks := env.provider.stacks;
      var ids := AbsentRows(b.alerts, |b.alerts|, stacks);
      && |after.alerts| == |b.alerts| && (forall k :: 0 <= k < |ids| ==> ids[k] < |b.alerts|)
      && (forall i :: 0 <= i < |b.alerts| ==>
            if Absent(b.alerts[i], stacks)
            then ClosedBy(after.alerts[i], b.alerts[i], ResourceRemoved,
                          if b.alerts[i].kind == ServiceDrift
                          then "Service removed with stack from desired configuration"
                          else "Stack removed from desired configuration", env)
            else after.alerts[i] == b.alerts[i])
      && after.published == b.published + Resolutions(after.alerts, ids)
  {
    var kept := b.(streaks := KeptStreaks(b.streaks, env.provider.stacks));
    ResolveAbsentExactly(kept, |b.alerts|, env);
    ResolveAbsentPublishes(kept, |b.alerts|, env);
  }

  // ---------------------------------------------------------------- which events are ordered against each other

  /** What an event is about; services of one stack are told apart by the text of stack and name. */
  datatype Subject =
    | OfNothing
    | OfConfiguration
    | OfRepository(name: string)
    | OfNode(name: string)
    | OfStack(name: string)
    | OfService(name: string)

  /** An unrelated event is about nothing, which is nobody's subject. */
  function SubjectOf(e: Event): Subject {
    match e
    case ConfigurationChanged(previous) => if previous == "" then OfConfiguration else OfRepository(previous)
    case NodeLost(node) => OfNode(node)
    case NodeConnected(node) => OfNode(node)
    case GitPullFailed(repository, _, _) => OfRepository(repository)
    case GitPullSucceeded(repository) => OfRepository(repository)
    case ServiceDrifted(stack, service, _, _, _) => OfService(stack + "/" + service)
    case ServiceDriftFixed(stack, service) => OfService(stack + "/" + service)
    case ServiceRemovedFromDesired(stack, service) => OfService(stack + "/" + service)
    case DeployFailed(stack, _, _, _, _, _, _) => OfStack(stack)
    case DeployPreparationFailed(stack, _, _, _, _, _) => OfStack(stack)
    case DeployInterrupted(stack, _, _, _, _, _, _) => OfStack(stack)
    case DeploySucceeded(stack) => OfStack(stack)
    case Unrelated => OfNothing
  }

  function Label(s: Subject): string {
    match s
    case OfNothing => ""
    case OfConfiguration => "configuration"
    case OfRepository(_) => "repository:"
    case OfNode(_) => "node:"
    case OfStack(_) => "stack:"
    case OfService(_) => "service:"
  }

  lemma LabelTellsKind(a: Subject, b: Subject)
    requires !a.OfNothing? && !b.OfNothing?
    requires Label(a)[0] == Label(b)[0] && Label(a)[1] == Label(b)[1]
    ensures Label(a) == Label(b) && (a.OfConfiguration? <==> b.OfConfiguration?)
    ensures (a.OfNode? <==> b.OfNode?) && (a.OfStack? <==> b.OfStack?) && (a.OfRepository? <==> b.OfRepository?)
  {
  }

  function NameOf(s: Subject): string {
    if s.OfNothing? || s.OfConfiguration? then "" else s.name
  }

  lemma ResourceIsLabelled(e: Event)
    ensures ResourceOf(e) == Label(SubjectOf(e)) + NameOf(SubjectOf(e))
  {
    if e.ServiceDrifted? || e.ServiceDriftFixed? || e.ServiceRemovedFromDesired? {
      assert "service:" + e.stack + "/" + e.service == "service:" + (e.stack + "/" + e.service);
    }
  }

  lemma LabelledIsInjective(x: Subject, y: Subject)
    requires !x.OfNothing? && !y.OfNothing? && Label(x) + NameOf(x) == Label(y) + NameOf(y)
    ensures x == y
  {
    var text := Label(x) + NameOf(x);
    assert text[0] == Label(x)[0] == Label(y)[0] && text[1] == Label(x)[1] == Label(y)[1];
    LabelTellsKind(x, y);
    assert NameOf(x) == text[|Label(x)|..] && NameOf(y) == text[|Label(y)|..];
  }

  /** Two events are ordered against each other, by one version row, exactly when they are about the same subject: a
      success of a stack and its failures, a loss of a node and its return. */
  lemma SameRowIffSameSubject(a: Event, b: Event)
    requires !a.Unrelated? && !b.Unrelated?
    ensures KeyOf(a) == KeyOf(b) <==> SubjectOf(a) == SubjectOf(b)
  {
    ResourceIsLabelled(a);
    ResourceIsLabelled(b);
    if KeyOf(a) == KeyOf(b) { LabelledIsInjective(SubjectOf(a), SubjectOf(b)); }
  }

  /** The stored version is no older than the given one. */
  predicate Covers(stored: Version, at: int, id: string) {
    at < stored.at || (at == stored.at && !Text.Before(stored.id, id))
  }

  /** A delivery never lowers a stored version. */
  lemma CoversStill(s: State, d: Delivery, key: Key, at: int, id: string)
    requires key in s.versions && Covers(s.versions[key], at, id)
    ensures key in Consume(s, d).0.versions && Covers(Consume(s, d).0.versions[key], at, id)
  {
    var stored := Consume(s, d).0.versions[key];
    if stored != s.versions[key] {
      VersionRises(s, d, key);
      if s.versions[key].at == stored.at == at && Text.Before(stored.id, id) {
        Text.BeforeIsTransitive(s.versions[key].id, stored.id, id);
      }
    }
  }

  /** The stored version of the event's subject is no older than the delivery. */
  predicate Outdated(s: State, d: Delivery) {
    d.at.Some? && KeyOf(d.event) in s.versions && Covers(s.versions[KeyOf(d.event)], d.at.value, d.id)
  }

  /** What a delivery does: an event without identifier or date is refused; one that is no news is accepted and ignored;
      news is handled with the delivery's own clock and identifier, and then version and incidents change together or
      not at all. Success is reported exactly if the handler succeeded and its commit did. */
  lemma DeliveryCounts(s: State, d: Delivery)
    requires !d.event.Unrelated?
    ensures var (after, r) := Consume(s, d); var key := KeyOf(d.event);
      var dated := d.id != "" && d.at.Some?;
      var news := dated && (key !in s.versions || s.versions[key].at < d.at.value ||
                            (s.versions[key].at == d.at.value && Text.Before(s.versions[key].id, d.id)));
      var handled := HandleEvent(s.book, d.event, Environment(d.provider, d.now, d.id));
      && (!dated ==> (after, r) == (s, Err(MissingSource)))
      && (dated && !news ==> (after, r) == (s, Ok(())))
      && (news && handled.Err? ==> (after, r) == (s, Err(handled.error)))
      && (news && handled.Ok? ==>
            && (r == if d.commit == Committed then Ok(()) else Err(StorageFailed))
            && after == if d.commit == RolledBack then s
                        else State(s.versions[key := Version(d.at.value, d.id)], handled.value))
  {
  }

  /** A delivery that was handled, or of which a failed commit landed, is outdated from then on. */
  lemma HandledIsOutdated(s: State, d: Delivery)
    requires !d.event.Unrelated? && (Consume(s, d).1.Ok? || Applied(s, d))
    ensures Outdated(Consume(s, d).0, d)
  {
    Text.BeforeIsTotal(d.id, d.id);
    if KeyOf(d.event) in s.versions { NewerIsTotal(Version(d.at.value, d.id), s.versions[KeyOf(d.event)]); }
  }

  lemma OutdatedIsIgnored(s: State, d: Delivery)
    requires !d.event.Unrelated? && Outdated(s, d)
    ensures Consume(s, d).0 == s
  {
    NewerIsTotal(Version(d.at.value, d.id), s.versions[KeyOf(d.event)]);
  }

  lemma {:induction false} CoveredStays(ds: seq<Delivery>, i: nat, key: Key, at: int, id: string)
    requires i <= |ds| && key in Deliver(ds[..i]).versions && Covers(Deliver(ds[..i]).versions[key], at, id)
    ensures key in Deliver(ds).versions && Covers(Deliver(ds).versions[key], at, id)
    decreases |ds|
  {
    if i == |ds| {
      assert ds[..i] == ds;
    } else {
      var n := |ds| - 1;
      assert ds[..n][..i] == ds[..i];
      CoveredStays(ds[..n], i, key, at, id);
      CoversStill(Deliver(ds[..n]), ds[n], key, at, id);
    }
  }

  lemma VersionRises(s: State, d: Delivery, key: Key)
    requires key in s.versions && Consume(s, d).0.versions[key] != s.versions[key]
    ensures var was, stored := s.versions[key], Consume(s, d).0.versions[key];
      was.at < stored.at || (was.at == stored.at && Text.Before(was.id, stored.id))
  {
  }

  /** What comes too late changes nothing: once a delivery is outdated, every older one of the same subject is ignored
      from then on, in particular an older success or return. */
  lemma {:induction false} LateDeliveryIsIgnored(ds: seq<Delivery>, j: nat, past: Delivery, late: Delivery)
    requires j <= |ds| && Outdated(Deliver(ds[..j]), past)
    requires !past.event.Unrelated? && !late.event.Unrelated? && SubjectOf(late.event) == SubjectOf(past.event)
    requires late.at.Some?
    requires late.at.value < past.at.value || (late.at.value == past.at.value && late.id == past.id)
    ensures Consume(Deliver(ds), late).0 == Deliver(ds)
  {
    SameRowIffSameSubject(late.event, past.event);
    CoveredStays(ds, j, KeyOf(past.event), past.at.value, past.id);
    OutdatedIsIgnored(Deliver(ds), late);
  }
}
