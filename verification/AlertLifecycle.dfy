/** What every run of the alert subscriber keeps: incidents, their published transitions and the failure streaks. */
module AlertLifecycle {
  import opened Wrappers
  import opened Alerts
  import opened AlertSubscriber

  // ---------------------------------------------------------------- the invariant

  /** The published transitions of one fingerprint, oldest first. */
  function Of(published: seq<Publication>, fp: Fingerprint): seq<Publication> {
    if published == [] then []
    else
      var earlier := Of(published[..|published| - 1], fp);
      if published[|published| - 1].alert.fingerprint == fp then earlier + [published[|published| - 1]] else earlier
  }

  /** Opened and Resolved take turns, starting with Opened, and every Resolved ends the incident just opened. */
  ghost predicate Alternates(h: seq<Publication>) {
    && (forall i :: 0 <= i < |h| ==> (h[i].Opened? <==> i % 2 == 0))
    && (forall i :: 0 < i < |h| && i % 2 == 1 ==> h[i].id == h[i - 1].id)
  }

  predicate WellFormed(a: Alert) {
    && a.fingerprint == Fingerprint(a.kind, a.resourceId) && a.resourceType == TypeOf(a.kind) && a.resourceId != ""
    && (a.open <==> a.resolvedAt == None) && (a.open <==> a.resolution == None)
  }

  /** Rows are coherent, and no two open rows share a fingerprint. */
  ghost predicate RowsOk(alerts: seq<Alert>) {
    && (forall i :: 0 <= i < |alerts| ==> WellFormed(alerts[i]))
    && (forall i, j :: 0 <= i < j < |alerts| && alerts[i].open && alerts[j].open ==>
          alerts[i].fingerprint != alerts[j].fingerprint)
  }

  /** An alert is open exactly when its last published transition opened that very row. */
  ghost predicate Announced(b: Book, fp: Fingerprint) {
    var h := Of(b.published, fp);
    && Alternates(h)
    && match FindOpen(b.alerts, fp)
       case None => |h| % 2 == 0
       case Some(id) => |h| % 2 == 1 && h[|h| - 1].id == id
  }

  predicate CountsFailures(kind: Kind) {
    kind == SyncFailed || kind == GitRepositoryUnavailable
  }

  /** Without an open alert the streak is below the threshold; an open alert has seen at least the streak. */
  ghost predicate StreakOk(b: Book, fp: Fingerprint) {
    && (!CountsFailures(fp.kind) ==> Streak(b, fp) == 0)
    && match FindOpen(b.alerts, fp)
       case None => Streak(b, fp) < THRESHOLD
       case Some(id) => Streak(b, fp) <= b.alerts[id].occurrences
  }

  /** An open alert has seen exactly as many failures as the streak counts. */
  ghost predicate Exact(b: Book, fp: Fingerprint) {
    FindOpen(b.alerts, fp).Some? ==> Streak(b, fp) == b.alerts[FindOpen(b.alerts, fp).value].occurrences
  }

  ghost predicate Sound(b: Book) {
    && RowsOk(b.alerts)
    && (forall fp :: Announced(b, fp))
    && (forall fp :: StreakOk(b, fp))
  }

  // ---------------------------------------------------------------- rows and publications

  lemma {:induction false} FindOpenIs(alerts: seq<Alert>, fp: Fingerprint, i: nat)
    requires RowsOk(alerts) && i < |alerts| && OpenFor(alerts[i], fp)
    ensures FindOpen(alerts, fp) == Some(i)
  {
    var found := FindOpen(alerts, fp).value;
    assert OpenFor(alerts[found], fp);
  }

  /** Appending an open row whose fingerprint is free. */
  lemma {:induction false} AppendRow(alerts: seq<Alert>, row: Alert, fp: Fingerprint)
    requires RowsOk(alerts) && WellFormed(row) && row.open && FindOpen(alerts, row.fingerprint).None?
    ensures RowsOk(alerts + [row])
    ensures FindOpen(alerts + [row], fp) == if fp == row.fingerprint then Some(|alerts|) else FindOpen(alerts, fp)
  {
    assert (alerts + [row])[..|alerts|] == alerts;
  }

  /** Replacing an open row by one of the same fingerprint, open or closed. */
  lemma {:induction false} ReplaceRow(alerts: seq<Alert>, id: nat, row: Alert, fp: Fingerprint)
    requires RowsOk(alerts) && id < |alerts| && alerts[id].open
    requires WellFormed(row) && row.fingerprint == alerts[id].fingerprint
    ensures RowsOk(alerts[id := row])
    ensures FindOpen(alerts[id := row], fp) ==
      if fp == row.fingerprint then (if row.open then Some(id) else None) else FindOpen(alerts, fp)
  {
    var after := alerts[id := row];
    if fp == row.fingerprint {
      if row.open { FindOpenIs(after, fp, id); }
    } else if FindOpen(alerts, fp).Some? {
      FindOpenIs(after, fp, FindOpen(alerts, fp).value);
    }
  }

  lemma AlternatesGrows(h: seq<Publication>, p: Publication)
    requires Alternates(h) && (p.Opened? <==> |h| % 2 == 0) && (|h| % 2 == 1 ==> p.id == h[|h| - 1].id)
    ensures Alternates(h + [p])
  {
  }

  lemma {:induction false} OfGrows(published: seq<Publication>, p: Publication, fp: Fingerprint)
    ensures Of(published + [p], fp) == Of(published, fp) + if p.alert.fingerprint == fp then [p] else []
  {
    assert (published + [p])[..|published|] == published;
  }

  // ---------------------------------------------------------------- the steps

  lemma {:induction false} AnnounceKeeps(b: Book, row: Alert, fp: Fingerprint)
    requires RowsOk(b.alerts) && Announced(b, fp)
    requires WellFormed(row) && row.open && FindOpen(b.alerts, row.fingerprint).None?
    ensures RowsOk(Announce(b, row).alerts) && Announced(Announce(b, row), fp)
    ensures FindOpen(Announce(b, row).alerts, fp) ==
      if fp == row.fingerprint then Some(|b.alerts|) else FindOpen(b.alerts, fp)
  {
    AppendRow(b.alerts, row, fp);
    OfGrows(b.published, Opened(|b.alerts|, row), fp);
    if fp == row.fingerprint { AlternatesGrows(Of(b.published, fp), Opened(|b.alerts|, row)); }
  }

  lemma {:induction false} AmendKeeps(b: Book, id: nat, row: Alert, fp: Fingerprint)
    requires RowsOk(b.alerts) && Announced(b, fp) && id < |b.alerts| && b.alerts[id].open
    requires WellFormed(row) && row.fingerprint == b.alerts[id].fingerprint && row.open
    ensures RowsOk(Amend(b, id, row).alerts) && Announced(Amend(b, id, row), fp)
    ensures FindOpen(Amend(b, id, row).alerts, fp) == FindOpen(b.alerts, fp)
  {
    ReplaceRow(b.alerts, id, row, fp);
    if fp == row.fingerprint { FindOpenIs(b.alerts, fp, id); }
  }

  /** Ending an open row frees its fingerprint. */
  lemma EndRow(alerts: seq<Alert>, id: nat, reason: Reason, message: string, env: Environment, fp: Fingerprint)
    requires RowsOk(alerts) && id < |alerts| && alerts[id].open
    ensures var after := alerts[id := Ended(alerts[id], reason, message, env)];
      && RowsOk(after)
      && FindOpen(after, fp) == if fp == alerts[id].fingerprint then None else FindOpen(alerts, fp)
  {
    ReplaceRow(alerts, id, Ended(alerts[id], reason, message, env), fp);
  }

  lemma {:induction false} CloseKeeps(b: Book, id: nat, reason: Reason, message: string, env: Environment,
                                      fp: Fingerprint)
    requires RowsOk(b.alerts) && Announced(b, fp) && id < |b.alerts| && b.alerts[id].open
    ensures RowsOk(Close(b, id, reason, message, env).alerts) && Announced(Close(b, id, reason, message, env), fp)
    ensures FindOpen(Close(b, id, reason, message, env).alerts, fp) ==
      if fp == b.alerts[id].fingerprint then None else FindOpen(b.alerts, fp)
  {
    var resolved := Resolved(id, Ended(b.alerts[id], reason, message, env));
    EndRow(b.alerts, id, reason, message, env, fp);
    OfGrows(b.published, resolved, fp);
    if fp == b.alerts[id].fingerprint {
      FindOpenIs(b.alerts, fp, id);
      AlternatesGrows(Of(b.published, fp), resolved);
    }
  }

  /** Rows and publications of a sound book do not depend on its streaks. */
  ghost predicate Told(b: Book) {
    RowsOk(b.alerts) && forall fp :: Announced(b, fp)
  }

  lemma CloseTold(b: Book, id: nat, reason: Reason, message: string, env: Environment)
    requires Told(b) && id < |b.alerts| && b.alerts[id].open
    ensures Told(Close(b, id, reason, message, env))
    ensures var after := Close(b, id, reason, message, env);
      forall fp :: FindOpen(after.alerts, fp) == if fp == b.alerts[id].fingerprint then None else FindOpen(b.alerts, fp)
  {
    var after := Close(b, id, reason, message, env);
    forall fp ensures Announced(after, fp) && FindOpen(after.alerts, fp) ==
        if fp == b.alerts[id].fingerprint then None else FindOpen(b.alerts, fp) {
      CloseKeeps(b, id, reason, message, env, fp);
    }
    CloseKeeps(b, id, reason, message, env, b.alerts[id].fingerprint);
  }

  lemma OccurKeeps(b: Book, incoming: Alert, hasDiagnostic: bool, held: bool)
    requires Told(b) && incoming.fingerprint == Fingerprint(incoming.kind, incoming.resourceId) && incoming.open
    requires incoming.resourceType == TypeOf(incoming.kind)
    requires incoming.resolvedAt == None && incoming.resolution == None
    requires Occur(b, incoming, hasDiagnostic, held).Ok?
    ensures Told(Occur(b, incoming, hasDiagnostic, held).value)
    ensures var after := Occur(b, incoming, hasDiagnostic, held).value; forall fp ::
      FindOpen(after.alerts, fp) == if fp == incoming.fingerprint && !held && FindOpen(b.alerts, fp).None?
                                    then Some(|b.alerts|) else FindOpen(b.alerts, fp)
  {
    var after := Occur(b, incoming, hasDiagnostic, held).value;
    if FindOpen(b.alerts, incoming.fingerprint).Some? {
      var id := FindOpen(b.alerts, incoming.fingerprint).value;
      var row := Amended(b.alerts[id], incoming, hasDiagnostic);
      forall fp ensures Announced(after, fp) && FindOpen(after.alerts, fp) == FindOpen(b.alerts, fp) {
        AmendKeeps(b, id, row, fp);
      }
      AmendKeeps(b, id, row, incoming.fingerprint);
    } else if !held {
      forall fp ensures Announced(after, fp) && FindOpen(after.alerts, fp) ==
          if fp == incoming.fingerprint then Some(|b.alerts|) else FindOpen(b.alerts, fp) {
        AnnounceKeeps(b, incoming, fp);
      }
      AnnounceKeeps(b, incoming, incoming.fingerprint);
    }
  }

  lemma RecoverKeeps(b: Book, key: Fingerprint, reason: Reason, message: string, env: Environment)
    requires Told(b)
    ensures Told(Recover(b, key, reason, message, env))
    ensures var after := Recover(b, key, reason, message, env);
      forall fp :: FindOpen(after.alerts, fp) == if fp == key then None else FindOpen(b.alerts, fp)
  {
    if FindOpen(b.alerts, key).Some? {
      CloseTold(b, FindOpen(b.alerts, key).value, reason, message, env);
    }
  }

  lemma ToldIgnoresStreaks(b: Book, c: Book)
    requires Told(b) && c.alerts == b.alerts && c.published == b.published
    ensures Told(c)
  {
    forall fp ensures Announced(c, fp) { assert Announced(b, fp); }
  }

  // ---------------------------------------------------------------- configuration changes

  lemma {:induction false} ResolveAbsentAt(b: Book, n: nat, env: Environment, i: nat)
    requires n <= |b.alerts| && i < |b.alerts|
    ensures ResolveAbsent(b, n, env).alerts[i] ==
      if i < n && Absent(b.alerts[i], env.provider.stacks)
      then Ended(b.alerts[i], ResourceRemoved, RemovalMessage(b.alerts[i]), env) else b.alerts[i]
  {
    if n > 0 {
      ResolveAbsentAt(b, n - 1, env, i);
      var done := ResolveAbsent(b, n - 1, env);
      if i != n - 1 {
        assert ResolveAbsent(b, n, env).alerts[i] == done.alerts[i];
      } else {
        assert done.alerts[i] == b.alerts[i];
      }
    }
  }

  /** One configuration change resolves exactly the open alerts of stacks it no longer names. */
  lemma {:induction false} ResolveAbsentExactly(b: Book, n: nat, env: Environment)
    requires n <= |b.alerts|
    ensures var after := ResolveAbsent(b, n, env);
      && |after.alerts| == |b.alerts|
      && (forall i :: 0 <= i < |b.alerts| ==>
            after.alerts[i] ==
              if i < n && Absent(b.alerts[i], env.provider.stacks)
              then Ended(b.alerts[i], ResourceRemoved, RemovalMessage(b.alerts[i]), env) else b.alerts[i])
  {
    var after := ResolveAbsent(b, n, env);
    forall i | 0 <= i < |b.alerts|
      ensures after.alerts[i] ==
        if i < n && Absent(b.alerts[i], env.provider.stacks)
        then Ended(b.alerts[i], ResourceRemoved, RemovalMessage(b.alerts[i]), env) else b.alerts[i]
    {
      ResolveAbsentAt(b, n, env, i);
    }
  }

  lemma {:induction false} ResolveAbsentKeeps(b: Book, n: nat, env: Environment)
    requires Told(b) && n <= |b.alerts|
    ensures Told(ResolveAbsent(b, n, env))
  {
    if n > 0 {
      ResolveAbsentKeeps(b, n - 1, env);
      var done := ResolveAbsent(b, n - 1, env);
      if Absent(done.alerts[n - 1], env.provider.stacks) {
        CloseTold(done, n - 1, ResourceRemoved, RemovalMessage(done.alerts[n - 1]), env);
      }
    }
  }

  /** Where the open row of a fingerprint stands after a configuration change. */
  lemma {:induction false} ResolveAbsentFinds(b: Book, env: Environment, fp: Fingerprint)
    requires Told(b)
    ensures var after := ResolveAbsent(b, |b.alerts|, env);
      var found := FindOpen(b.alerts, fp);
      && FindOpen(after.alerts, fp) ==
           (if found.Some? && Absent(b.alerts[found.value], env.provider.stacks) then None else found)
      && (FindOpen(after.alerts, fp).Some? ==> after.alerts[found.value] == b.alerts[found.value])
  {
    var after := ResolveAbsent(b, |b.alerts|, env);
    ResolveAbsentExactly(b, |b.alerts|, env);
    ResolveAbsentKeeps(b, |b.alerts|, env);
    var found := FindOpen(b.alerts, fp);
    if FindOpen(after.alerts, fp).Some? {
      var i := FindOpen(after.alerts, fp).value;
      assert after.alerts[i] == b.alerts[i];
      FindOpenIs(b.alerts, fp, i);
    }
  }

  lemma ReconfigureKeeps(b: Book, env: Environment)
    requires Sound(b) && Reconfigure(b, env).Ok?
    ensures Sound(Reconfigure(b, env).value)
    ensures forall fp: Fingerprint :: CountsFailures(fp.kind) && Exact(b, fp) ==> Exact(Reconfigure(b, env).value, fp)
  {
    var kept := b.(streaks := KeptStreaks(b.streaks, env.provider.stacks));
    var after := Reconfigure(b, env).value;
    ToldIgnoresStreaks(b, kept);
    ResolveAbsentKeeps(kept, |kept.alerts|, env);
    forall fp ensures StreakOk(after, fp) && (CountsFailures(fp.kind) && Exact(b, fp) ==> Exact(after, fp)) {
      assert StreakOk(b, fp);
      ResolveAbsentFinds(kept, env, fp);
      if FindOpen(b.alerts, fp).Some? { assert WellFormed(b.alerts[FindOpen(b.alerts, fp).value]); }
    }
  }

  // ---------------------------------------------------------------- the other handlers

  /** Closing the incident of a resource whose streak is cleared, or that has none. */
  lemma ResetKeeps(b: Book, cleared: Book, key: Fingerprint, reason: Reason, message: string, env: Environment)
    requires Sound(b)
    requires cleared == Reset(b, key) || (cleared == b && !CountsFailures(key.kind))
    ensures Sound(Recover(cleared, key, reason, message, env))
    ensures var after := Recover(cleared, key, reason, message, env);
      forall fp :: Exact(b, fp) ==> Exact(after, fp)
  {
    ToldIgnoresStreaks(b, cleared);
    RecoverKeeps(cleared, key, reason, message, env);
    var after := Recover(cleared, key, reason, message, env);
    forall fp ensures StreakOk(after, fp) && (Exact(b, fp) ==> Exact(after, fp)) {
      assert StreakOk(b, fp);
      if fp != key && FindOpen(b.alerts, fp).Some? {
        assert after.alerts[FindOpen(b.alerts, fp).value] == b.alerts[FindOpen(b.alerts, fp).value];
      }
    }
  }

  predicate Reportable(incoming: Alert) {
    && incoming.fingerprint == Fingerprint(incoming.kind, incoming.resourceId) && incoming.open
    && incoming.resourceType == TypeOf(incoming.kind) && incoming.resolvedAt == None && incoming.resolution == None
  }

  /** One more occurrence, counted first when its kind counts failures. */
  lemma OccurrenceKeeps(b: Book, counted: Book, incoming: Alert, hasDiagnostic: bool, held: bool)
    requires Sound(b) && Reportable(incoming)
    requires counted == if CountsFailures(incoming.kind) then Counted(b, incoming.fingerprint) else b
    requires Streak(counted, incoming.fingerprint) <= incoming.occurrences
    requires CountsFailures(incoming.kind) ==> incoming.occurrences == Streak(counted, incoming.fingerprint)
    requires held ==> Streak(counted, incoming.fingerprint) < THRESHOLD
    requires Occur(counted, incoming, hasDiagnostic, held).Ok?
    ensures Sound(Occur(counted, incoming, hasDiagnostic, held).value)
    ensures var after := Occur(counted, incoming, hasDiagnostic, held).value;
      forall fp: Fingerprint :: CountsFailures(fp.kind) && Exact(b, fp) ==> Exact(after, fp)
  {
    var after := Occur(counted, incoming, hasDiagnostic, held).value;
    ToldIgnoresStreaks(b, counted);
    OccurKeeps(counted, incoming, hasDiagnostic, held);
    forall fp ensures StreakOk(after, fp) && (CountsFailures(fp.kind) && Exact(b, fp) ==> Exact(after, fp)) {
      assert StreakOk(b, fp);
      if fp == incoming.fingerprint {
        OccurrenceMatches(b, counted, incoming, hasDiagnostic, held);
      } else if FindOpen(b.alerts, fp).Some? {
        assert after.alerts[FindOpen(b.alerts, fp).value] == b.alerts[FindOpen(b.alerts, fp).value];
      }
    }
  }

  /** The streak of the resource concerned, and the occurrences its open alert then has seen. */
  lemma OccurrenceMatches(b: Book, counted: Book, incoming: Alert, hasDiagnostic: bool, held: bool)
    requires StreakOk(b, incoming.fingerprint) && Reportable(incoming)
    requires counted == if CountsFailures(incoming.kind) then Counted(b, incoming.fingerprint) else b
    requires Streak(counted, incoming.fingerprint) <= incoming.occurrences
    requires CountsFailures(incoming.kind) ==> incoming.occurrences == Streak(counted, incoming.fingerprint)
    requires held ==> Streak(counted, incoming.fingerprint) < THRESHOLD
    requires Occur(counted, incoming, hasDiagnostic, held).Ok?
    requires var after := Occur(counted, incoming, hasDiagnostic, held).value;
      FindOpen(after.alerts, incoming.fingerprint) ==
        if !held && FindOpen(b.alerts, incoming.fingerprint).None? then Some(|b.alerts|)
        else FindOpen(b.alerts, incoming.fingerprint)
    ensures var after := Occur(counted, incoming, hasDiagnostic, held).value; var fp := incoming.fingerprint;
      StreakOk(after, fp) && (CountsFailures(fp.kind) && Exact(b, fp) ==> Exact(after, fp))
  {
  }
}
