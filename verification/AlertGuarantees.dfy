/** Alert guarantees over every delivery history, with duplicates, reorderings, failed handlers and failed commits. */
module AlertGuarantees {
  import opened Wrappers
  import opened Alerts
  import opened AlertSubscriber
  import opened AlertLifecycle
  import opened Projection

  // ---------------------------------------------------------------- one event

  /** A failure reported for a stack that the configuration has already dropped. */
  predicate Dropped(e: Event, provider: Provider, fp: Fingerprint) {
    IsFailure(e) && fp == Syncing(e.stack) && StackRemoved(provider, e.stack)
  }

  lemma DroppedFailureKeeps(b: Book, stack: string)
    requires Sound(b)
    ensures Sound(Reset(b, Syncing(stack)))
    ensures forall fp :: fp != Syncing(stack) && Exact(b, fp) ==> Exact(Reset(b, Syncing(stack)), fp)
  {
    var after := Reset(b, Syncing(stack));
    ToldIgnoresStreaks(b, after);
    forall fp ensures StreakOk(after, fp) { assert StreakOk(b, fp); }
  }

  lemma FailureKeeps(b: Book, stack: string, title: string, d: FailureDetails, temporary: bool, env: Environment)
    requires Sound(b) && Failed(b, stack, title, d, temporary, env).Ok?
    ensures Sound(Failed(b, stack, title, d, temporary, env).value)
    ensures var after := Failed(b, stack, title, d, temporary, env).value;
      var dropped := StackRemoved(env.provider, stack);
      forall fp: Fingerprint ::
        CountsFailures(fp.kind) && Exact(b, fp) && !(fp == Syncing(stack) && dropped) ==> Exact(after, fp)
  {
    if StackRemoved(env.provider, stack) {
      DroppedFailureKeeps(b, stack);
    } else {
      var counted := Counted(b, Syncing(stack));
      var failures := Streak(counted, Syncing(stack));
      var incoming := FailedAlert(stack, title, d, failures, env);
      OccurrenceKeeps(b, counted, incoming, d.hasDiagnostic, temporary && failures < THRESHOLD);
    }
  }

  lemma GitFailureKeeps(b: Book, e: Event, env: Environment)
    requires Sound(b) && e.GitPullFailed? && GitFailed(b, e, env).Ok?
    ensures Sound(GitFailed(b, e, env).value)
    ensures forall fp: Fingerprint :: CountsFailures(fp.kind) && Exact(b, fp) ==> Exact(GitFailed(b, e, env).value, fp)
  {
    var counted := Counted(b, Repo(e.repository));
    var failures := Streak(counted, Repo(e.repository));
    var incoming := Incident(Repo(e.repository), "Git repository unavailable", e.description, failures, env)
      .(stage := "git_pull", code := e.category);
    OccurrenceKeeps(b, counted, incoming, true, e.category == NETWORK && failures < THRESHOLD);
  }

  /** The book stays sound, and occurrences keep matching their streak unless the event is a dropped failure. */
  ghost predicate Keeps(b: Book, after: Book, e: Event, provider: Provider) {
    && Sound(after)
    && forall fp: Fingerprint ::
         CountsFailures(fp.kind) && Exact(b, fp) && !Dropped(e, provider, fp) ==> Exact(after, fp)
  }

  lemma ConfigurationKeeps(b: Book, e: Event, env: Environment)
    requires Sound(b) && e.ConfigurationChanged? && HandleEvent(b, e, env).Ok?
    ensures Keeps(b, HandleEvent(b, e, env).value, e, env.provider)
  {
    if e.previousRepository != "" {
      var key := Repo(e.previousRepository);
      ResetKeeps(b, Reset(b, key), key, ResourceRemoved, "Git repository removed from configuration", env);
    } else {
      ReconfigureKeeps(b, env);
    }
  }

  lemma RecoveryKeeps(b: Book, e: Event, env: Environment)
    requires Sound(b) && (e.DeploySucceeded? || e.GitPullSucceeded?)
    ensures HandleEvent(b, e, env).Ok? && Keeps(b, HandleEvent(b, e, env).value, e, env.provider)
  {
    var key := if e.DeploySucceeded? then Syncing(e.stack) else Repo(e.repository);
    var message :=
      if e.DeploySucceeded? then "Synchronization completed successfully" else "Git repository access recovered";
    ResetKeeps(b, Reset(b, key), key, Recovered, message, env);
  }

  lemma NodeKeeps(b: Book, e: Event, env: Environment)
    requires Sound(b) && (e.NodeLost? || e.NodeConnected?) && HandleEvent(b, e, env).Ok?
    ensures Keeps(b, HandleEvent(b, e, env).value, e, env.provider)
  {
    var key := NodeKey(e.node);
    if e.NodeLost? {
      assert StreakOk(b, key);
      OccurrenceKeeps(b, b, Incident(key, "Node disconnected", "Swarm node is not ready", 1, env), false, false);
    } else {
      ResetKeeps(b, b, key, Recovered, "Swarm node reconnected", env);
    }
  }

  lemma DriftKeeps(b: Book, e: Event, env: Environment)
    requires Sound(b) && e.ServiceDrifted? && HandleEvent(b, e, env).Ok?
    ensures Keeps(b, HandleEvent(b, e, env).value, e, env.provider)
  {
    if !e.resolved {
      var key := Drift(e.stack, e.service);
      assert StreakOk(b, key);
      var incoming := Incident(key, "Service drift detected", e.reason, 1, env).(commit := e.commit);
      OccurrenceKeeps(b, b, incoming, true, false);
    }
  }

  lemma DriftEndKeeps(b: Book, e: Event, env: Environment)
    requires Sound(b) && (e.ServiceDriftFixed? || e.ServiceRemovedFromDesired?)
    ensures HandleEvent(b, e, env).Ok? && Keeps(b, HandleEvent(b, e, env).value, e, env.provider)
  {
    var key := Drift(e.stack, e.service);
    if e.ServiceDriftFixed? {
      ResetKeeps(b, b, key, Recovered, "Service drift resolved", env);
    } else {
      ResetKeeps(b, b, key, ResourceRemoved, "Service removed from desired configuration", env);
    }
  }

  lemma DeployFailureKeeps(b: Book, e: Event, env: Environment)
    requires Sound(b) && IsFailure(e) && HandleEvent(b, e, env).Ok?
    ensures Keeps(b, HandleEvent(b, e, env).value, e, env.provider)
  {
    FailureKeeps(b, e.stack, TitleOf(e), DetailsOf(e), e.temporary, env);
  }

  /** Every handler keeps the book sound, and only a dropped failure lets occurrences and streak drift apart. */
  lemma HandledKeeps(b: Book, e: Event, env: Environment)
    requires Sound(b) && HandleEvent(b, e, env).Ok?
    ensures Sound(HandleEvent(b, e, env).value)
    ensures var after := HandleEvent(b, e, env).value;
      forall fp: Fingerprint ::
        CountsFailures(fp.kind) && Exact(b, fp) && !Dropped(e, env.provider, fp) ==> Exact(after, fp)
  {
    assert Keeps(b, HandleEvent(b, e, env).value, e, env.provider) by {
      match e
      case ConfigurationChanged(_) => ConfigurationKeeps(b, e, env);
      case NodeLost(_) => NodeKeeps(b, e, env);
      case NodeConnected(_) => NodeKeeps(b, e, env);
      case DeployFailed(_, _, _, _, _, _, _) => DeployFailureKeeps(b, e, env);
      case DeployPreparationFailed(_, _, _, _, _, _) => DeployFailureKeeps(b, e, env);
      case DeployInterrupted(_, _, _, _, _, _, _) => DeployFailureKeeps(b, e, env);
      case DeploySucceeded(_) => RecoveryKeeps(b, e, env);
      case GitPullFailed(_, _, _) => GitFailureKeeps(b, e, env);
      case GitPullSucceeded(_) => RecoveryKeeps(b, e, env);
      case ServiceDrifted(_, _, _, _, _) => DriftKeeps(b, e, env);
      case ServiceDriftFixed(_, _) => DriftEndKeeps(b, e, env);
      case ServiceRemovedFromDesired(_, _) => DriftEndKeeps(b, e, env);
      case Unrelated =>
    }
  }

  // ---------------------------------------------------------------- whole runs

  /** The delivery changed the book: news, handled, and not rolled back. */
  predicate Applied(s: State, d: Delivery) {
    && !d.event.Unrelated? && d.id != "" && d.at.Some?
    && Advance(s.versions, KeyOf(d.event), Version(d.at.value, d.id)).1
    && HandleEvent(s.book, d.event, EnvironmentOf(d)).Ok? && d.commit != RolledBack
  }

  lemma ConsumeIsHandleOrNothing(s: State, d: Delivery)
    ensures var after := Consume(s, d).0.book;
      after == if Applied(s, d) then HandleEvent(s.book, d.event, EnvironmentOf(d)).value else s.book
  {
  }

  lemma StartIsSound()
    ensures Sound(START.book)
  {
  }

  lemma {:induction false} BookStaysSound(ds: seq<Delivery>)
    ensures Sound(Deliver(ds).book)
  {
    if ds == [] {
      StartIsSound();
    } else {
      var before, d := Deliver(ds[..|ds| - 1]), ds[|ds| - 1];
      BookStaysSound(ds[..|ds| - 1]);
      ConsumeIsHandleOrNothing(before, d);
      if Applied(before, d) { HandledKeeps(before.book, d.event, EnvironmentOf(d)); }
    }
  }

  /** At most one alert is open per fingerprint. */
  lemma {:induction false} AtMostOneOpenAlert(ds: seq<Delivery>, i: nat, j: nat, fp: Fingerprint)
    requires i < |Deliver(ds).book.alerts| && OpenFor(Deliver(ds).book.alerts[i], fp)
    requires j < |Deliver(ds).book.alerts| && OpenFor(Deliver(ds).book.alerts[j], fp)
    ensures i == j
  {
    BookStaysSound(ds);
    FindOpenIs(Deliver(ds).book.alerts, fp, i);
    FindOpenIs(Deliver(ds).book.alerts, fp, j);
  }

  function CountOpened(h: seq<Publication>): nat {
    if h == [] then 0 else CountOpened(h[..|h| - 1]) + if h[|h| - 1].Opened? then 1 else 0
  }

  lemma {:induction false} AlternationCounts(h: seq<Publication>)
    requires Alternates(h)
    ensures CountOpened(h) == (|h| + 1) / 2
  {
    if h != [] { AlternationCounts(h[..|h| - 1]); }
  }

  /** Opened and Resolved publications of a fingerprint strictly alternate from an Opened one, each Resolved naming
      the incident just opened; an alert is open exactly when Opened publications outnumber Resolved ones, and it is
      the incident last announced. */
  lemma {:induction false} TransitionsAlternate(ds: seq<Delivery>, fp: Fingerprint)
    ensures var b := Deliver(ds).book; var h := Of(b.published, fp);
      && Alternates(h)
      && (FindOpen(b.alerts, fp).Some? <==> CountOpened(h) > |h| - CountOpened(h))
      && (FindOpen(b.alerts, fp).Some? ==>
            h != [] && h[|h| - 1] == Opened(FindOpen(b.alerts, fp).value, h[|h| - 1].alert))
  {
    BookStaysSound(ds);
    AnnouncedCounts(Deliver(ds).book, fp);
  }

  lemma {:induction false} AnnouncedCounts(b: Book, fp: Fingerprint)
    requires Announced(b, fp)
    ensures var h := Of(b.published, fp);
      && (FindOpen(b.alerts, fp).Some? <==> CountOpened(h) > |h| - CountOpened(h))
      && (FindOpen(b.alerts, fp).Some? ==>
            h != [] && h[|h| - 1] == Opened(FindOpen(b.alerts, fp).value, h[|h| - 1].alert))
  {
    AlternationCounts(Of(b.published, fp));
  }

  /** Without an open alert the streak is below the threshold; an open one has seen at least the streak. */
  lemma {:induction false} StreaksStayBelowThreshold(ds: seq<Delivery>, fp: Fingerprint)
    ensures var b := Deliver(ds).book;
      match FindOpen(b.alerts, fp)
      case None => Streak(b, fp) < THRESHOLD
      case Some(id) => Streak(b, fp) <= b.alerts[id].occurrences
  {
    BookStaysSound(ds);
    assert StreakOk(Deliver(ds).book, fp);
  }

  /** No delivery reports a failure of the stack while the configuration lacks it. */
  predicate NeverDropped(ds: seq<Delivery>, fp: Fingerprint) {
    forall d :: d in ds ==> !Dropped(d.event, d.provider, fp)
  }

  /** An open alert of a stack that was never dropped has seen exactly as many failures as its streak counts. */
  lemma {:induction false} OccurrencesMatchStreak(ds: seq<Delivery>, fp: Fingerprint)
    requires CountsFailures(fp.kind) && NeverDropped(ds, fp)
    ensures Exact(Deliver(ds).book, fp)
  {
    if ds != [] {
      var before, d := Deliver(ds[..|ds| - 1]), ds[|ds| - 1];
      OccurrencesMatchStreak(ds[..|ds| - 1], fp);
      BookStaysSound(ds[..|ds| - 1]);
      ConsumeIsHandleOrNothing(before, d);
      if Applied(before, d) { HandledKeeps(before.book, d.event, EnvironmentOf(d)); }
    }
  }

  // ---------------------------------------------------------------- failure streaks

  /** The event reports one more failure that counts toward the fingerprint's streak. */
  predicate Fails(e: Event, provider: Provider, fp: Fingerprint) {
    || (IsFailure(e) && fp == Syncing(e.stack) && !StackRemoved(provider, e.stack))
    || (e.GitPullFailed? && fp == Repo(e.repository))
  }

  /** The event says the resource recovered or is gone from the configuration. */
  predicate Clears(e: Event, provider: Provider, fp: Fingerprint) {
    match e
    case DeploySucceeded(stack) => fp == Syncing(stack)
    case GitPullSucceeded(repository) => fp == Repo(repository)
    case ConfigurationChanged(previous) =>
      if previous != "" then fp == Repo(previous) else fp.kind == SyncFailed && fp.resource !in provider.stacks
    case _ => Dropped(e, provider, fp)
  }

  /** Failures applied since the fingerprint was last cleared. */
  function FailuresSinceCleared(ds: seq<Delivery>, fp: Fingerprint): nat {
    if ds == [] then 0
    else
      var earlier, d := ds[..|ds| - 1], ds[|ds| - 1];
      if !Applied(Deliver(earlier), d) then FailuresSinceCleared(earlier, fp)
      else if Clears(d.event, d.provider, fp) then 0
      else FailuresSinceCleared(earlier, fp) + if Fails(d.event, d.provider, fp) then 1 else 0
  }

  /** The streaks an event leaves, whatever happens to the alerts. */
  function StreaksAfter(b: Book, e: Event, provider: Provider): map<Fingerprint, nat> {
    if IsFailure(e) then
      (if StackRemoved(provider, e.stack) then Reset(b, Syncing(e.stack)) else Counted(b, Syncing(e.stack))).streaks
    else
      match e
      case ConfigurationChanged(previous) =>
        if previous != "" then Reset(b, Repo(previous)).streaks else KeptStreaks(b.streaks, provider.stacks)
      case DeploySucceeded(stack) => Reset(b, Syncing(stack)).streaks
      case GitPullFailed(repository, _, _) => Counted(b, Repo(repository)).streaks
      case GitPullSucceeded(repository) => Reset(b, Repo(repository)).streaks
      case _ => b.streaks
  }

  lemma HandledStreaks(b: Book, e: Event, env: Environment)
    requires HandleEvent(b, e, env).Ok?
    ensures HandleEvent(b, e, env).value.streaks == StreaksAfter(b, e, env.provider)
  {
  }

  lemma HandledStreak(b: Book, e: Event, env: Environment, fp: Fingerprint)
    requires HandleEvent(b, e, env).Ok?
    ensures Streak(HandleEvent(b, e, env).value, fp) ==
      if Clears(e, env.provider, fp) then 0 else Streak(b, fp) + if Fails(e, env.provider, fp) then 1 else 0
  {
    HandledStreaks(b, e, env);
    var after := HandleEvent(b, e, env).value;
    StreakMoves(b, after, e, env.provider, fp);
  }

  lemma StreakMoves(b: Book, after: Book, e: Event, provider: Provider, fp: Fingerprint)
    requires after.streaks == StreaksAfter(b, e, provider)
    ensures Streak(after, fp) ==
      if Clears(e, provider, fp) then 0 else Streak(b, fp) + if Fails(e, provider, fp) then 1 else 0
  {
  }

  /** The stored streak is the number of failures since the last recovery. */
  lemma {:induction false} StreakCountsFailures(ds: seq<Delivery>, fp: Fingerprint)
    ensures Streak(Deliver(ds).book, fp) == FailuresSinceCleared(ds, fp)
  {
    if ds != [] {
      var before, d := Deliver(ds[..|ds| - 1]), ds[|ds| - 1];
      StreakCountsFailures(ds[..|ds| - 1], fp);
      ConsumeIsHandleOrNothing(before, d);
      if Applied(before, d) { HandledStreak(before.book, d.event, EnvironmentOf(d), fp); }
    }
  }

  predicate Temporary(e: Event) {
    if IsFailure(e) then e.temporary else e.GitPullFailed? && e.category == NETWORK
  }

  /** A counted failure leaves an alert open unless it is temporary and fewer than three came since recovery; a
      newly opened alert starts with as many occurrences as failures came. */
  lemma {:induction false} FailureOpensAlertIff(b: Book, e: Event, env: Environment, fp: Fingerprint)
    requires Sound(b) && Fails(e, env.provider, fp) && HandleEvent(b, e, env).Ok?
    ensures var after := HandleEvent(b, e, env).value; var failures := Streak(b, fp) + 1;
      && (FindOpen(after.alerts, fp).Some? <==>
            FindOpen(b.alerts, fp).Some? || !Temporary(e) || failures >= THRESHOLD)
      && (FindOpen(b.alerts, fp).None? && FindOpen(after.alerts, fp).Some? ==>
            after.alerts[FindOpen(after.alerts, fp).value].occurrences == failures)
  {
    HandledStreak(b, e, env, fp);
    var after := HandleEvent(b, e, env).value;
    HandledKeeps(b, e, env);
    FailureFinds(b, e, env, fp);
  }

  /** Where the open alert of a resource stands after it failed once more. */
  function FoundAfter(b: Book, temporary: bool, fp: Fingerprint): Option<nat> {
    if FindOpen(b.alerts, fp).Some? then FindOpen(b.alerts, fp)
    else if temporary && Streak(b, fp) + 1 < THRESHOLD then None
    else Some(|b.alerts|)
  }

  lemma {:induction false} FailureFinds(b: Book, e: Event, env: Environment, fp: Fingerprint)
    requires Sound(b) && Fails(e, env.provider, fp) && HandleEvent(b, e, env).Ok?
    ensures FindOpen(HandleEvent(b, e, env).value.alerts, fp) == FoundAfter(b, Temporary(e), fp)
  {
    if e.GitPullFailed? {
      GitFailureFinds(b, e, env);
    } else {
      DeployFailureFinds(b, e.stack, TitleOf(e), DetailsOf(e), e.temporary, env);
    }
  }

  lemma {:induction false} GitFailureFinds(b: Book, e: Event, env: Environment)
    requires Sound(b) && e.GitPullFailed? && GitFailed(b, e, env).Ok?
    ensures var fp := Repo(e.repository);
      FindOpen(GitFailed(b, e, env).value.alerts, fp) == FoundAfter(b, Temporary(e), fp)
  {
    var counted := Counted(b, Repo(e.repository));
    var failures := Streak(counted, Repo(e.repository));
    ToldIgnoresStreaks(b, counted);
    var incoming := Incident(Repo(e.repository), "Git repository unavailable", e.description, failures, env)
      .(stage := "git_pull", code := e.category);
    OccurKeeps(counted, incoming, true, e.category == NETWORK && failures < THRESHOLD);
  }

  lemma {:induction false} DeployFailureFinds(b: Book, stack: string, title: string, d: FailureDetails,
                                              temporary: bool, env: Environment)
    requires Sound(b) && !StackRemoved(env.provider, stack) && Failed(b, stack, title, d, temporary, env).Ok?
    ensures var fp := Syncing(stack);
      FindOpen(Failed(b, stack, title, d, temporary, env).value.alerts, fp) == FoundAfter(b, temporary, fp)
  {
    var counted := Counted(b, Syncing(stack));
    var failures := Streak(counted, Syncing(stack));
    ToldIgnoresStreaks(b, counted);
    var incoming := FailedAlert(stack, title, d, failures, env);
    OccurKeeps(counted, incoming, d.hasDiagnostic, temporary && failures < THRESHOLD);
  }

  // ---------------------------------------------------------------- configuration changes

  /** After a configuration change no open alert belongs to a stack it does not name; those that did are resolved as
      removed, and every other row stays as it was. */
  lemma ConfigurationChangeResolvesExactly(b: Book, env: Environment)
    requires Sound(b)
    ensures env.provider.ready == Some(false) <==> HandleEvent(b, ConfigurationChanged(""), env).Err?
    ensures HandleEvent(b, ConfigurationChanged(""), env).Ok? ==>
      var after := HandleEvent(b, ConfigurationChanged(""), env).value;
      && |after.alerts| == |b.alerts|
      && (forall i :: 0 <= i < |b.alerts| ==> !Absent(after.alerts[i], env.provider.stacks))
      && (forall i :: 0 <= i < |b.alerts| && !Absent(b.alerts[i], env.provider.stacks) ==>
            after.alerts[i] == b.alerts[i])
      && (forall i :: 0 <= i < |b.alerts| && Absent(b.alerts[i], env.provider.stacks) ==>
            && !after.alerts[i].open && after.alerts[i].resolution.Some?
            && after.alerts[i].resolution.value.reason == ResourceRemoved)
  {
    if env.provider.ready != Some(false) {
      ResolveAbsentExactly(b.(streaks := KeptStreaks(b.streaks, env.provider.stacks)), |b.alerts|, env);
    }
  }

  /** A drift alert survives a configuration change exactly when the text before the first separator of its resource
      names a configured stack; for a stack name without separators that is the stack itself. */
  lemma {:induction false} DriftAlertSurvivesIff(b: Book, env: Environment, stack: string, service: string)
    requires Sound(b) && FindOpen(b.alerts, Drift(stack, service)).Some? && env.provider.ready != Some(false)
    ensures var after := HandleEvent(b, ConfigurationChanged(""), env).value;
      && (FindOpen(after.alerts, Drift(stack, service)).Some? <==>
            Cut(stack + "/" + service).value in env.provider.stacks)
      && ('/' !in stack ==>
            (FindOpen(after.alerts, Drift(stack, service)).Some? <==> stack in env.provider.stacks))
  {
    var kept := b.(streaks := KeptStreaks(b.streaks, env.provider.stacks));
    ToldIgnoresStreaks(b, kept);
    ResolveAbsentFinds(kept, env, Drift(stack, service));
    assert WellFormed(b.alerts[FindOpen(b.alerts, Drift(stack, service)).value]);
    CutFindsStackIff(stack, service);
  }

  const NESTED := Provider(Some(true), ["a/b"])

  /** A drift in the configured stack "a/b", then a configuration change that still names "a/b". */
  const NESTED_DRIFT: seq<Delivery> := [
    Delivery(ServiceDrifted("a/b", "web", "c1", "image differs", false), "e1", Some(1), NESTED, 1, Committed),
    Delivery(ConfigurationChanged(""), "e2", Some(2), NESTED, 2, Committed)]

  const NESTED_ALERT := Incident(
    Drift("a/b", "web"), "Service drift detected", "image differs", 1, EnvironmentOf(NESTED_DRIFT[0])).(commit := "c1")

  lemma NestedDriftOpens() returns (first: State)
    ensures first == Deliver([NESTED_DRIFT[0]]) && first.book.alerts == [NESTED_ALERT]
    ensures forall key :: key in first.versions ==> first.versions[key].at == 1
  {
    first := Deliver([NESTED_DRIFT[0]]);
    assert [NESTED_DRIFT[0]][..0] == [];
  }

  lemma NestedDriftIsCut()
    ensures Cut(NESTED_ALERT.resourceId) == Some("a")
  {
    CutFindsStackIff("a", "b/web");
    assert "a" + "/" + "b/web" == "a/b" + "/" + "web";
  }

  /** The concrete history in which a drift alert of a configured stack is resolved as removed. */
  lemma ConfiguredStackLosesDriftAlert()
    ensures var before, after := Deliver(NESTED_DRIFT[..1]).book.alerts, Deliver(NESTED_DRIFT).book.alerts;
      && "a/b" in NESTED.stacks
      && FindOpen(before, Drift("a/b", "web")) == Some(0)
      && FindOpen(after, Drift("a/b", "web")) == None
      && |after| == 1 && after[0].resolution.Some? && after[0].resolution.value.reason == ResourceRemoved
  {
    var d := NESTED_DRIFT[1];
    var first := NestedDriftOpens();
    assert NESTED_DRIFT[..1] == [NESTED_DRIFT[0]];
    NestedDriftIsCut();
    ResolvesFirst(first.book, NESTED_ALERT);
    assert Advance(first.versions, KeyOf(d.event), Version(2, "e2")).1;
    assert Deliver(NESTED_DRIFT).book == HandleEvent(first.book, d.event, EnvironmentOf(d)).value;
  }

  lemma ResolvesFirst(b: Book, row: Alert)
    requires b.alerts == [row] && row.open && row.kind == ServiceDrift && row.resourceType == Service
    requires Cut(row.resourceId) == Some("a") && row.fingerprint == Drift("a/b", "web")
    ensures var d := NESTED_DRIFT[1]; var r := HandleEvent(b, d.event, EnvironmentOf(d));
      && r.Ok? && FindOpen(r.value.alerts, row.fingerprint) == None
      && |r.value.alerts| == 1 && r.value.alerts[0].resolution.Some?
      && r.value.alerts[0].resolution.value.reason == ResourceRemoved
  {
    var d := NESTED_DRIFT[1];
    var kept := b.(streaks := KeptStreaks(b.streaks, NESTED.stacks));
    ResolveAbsentExactly(kept, 1, EnvironmentOf(d));
  }
}
