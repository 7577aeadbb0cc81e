/** Stack recommendations as a last-writer-wins projection of deployment events. */
module Recommendations {
  import opened Wrappers
  import opened Projection
  import opened Text

  /** What the analyzers make of one stack definition. */
  type Advice = seq<string>

  datatype Event =
    | Deployed(stack: string, at: Option<int>, id: string, advice: Advice)
    | Irrelevant

  /** One delivery; the handler behind the projection may fail, and then the whole transaction rolls back. */
  datatype Delivery = Delivery(event: Event, fails: bool)

  datatype State = State(versions: map<Key, Version>, advice: map<string, Advice>)

  const NOTHING := State(map[], map[])

  const PROJECTION := "recommendations"

  function KeyOf(stack: string): Key {
    Key(PROJECTION, stack)
  }

  function HandleDelivery(s: State, d: Delivery): (State, Result<(), Error>) {
    match d.event
    case Irrelevant => (s, Ok(()))
    case Deployed(stack, at, id, advice) =>
      if at == None then (s, Err(MissingTime))
      else
        var (versions, accepted) := Advance(s.versions, KeyOf(stack), Version(at.value, id));
        if !accepted then (s, Ok(()))
        else if d.fails then (s, Err(HandlerFailed))
        else (State(versions, s.advice[stack := advice]), Ok(()))
  }

  function Deliver(ds: seq<Delivery>): State {
    if ds == [] then NOTHING else HandleDelivery(Deliver(ds[..|ds| - 1]), ds[|ds| - 1]).0
  }

  class OrderedSubscriber {
    const projections: ProjectionStore
    var advice: map<string, Advice>

    constructor (projections: ProjectionStore)
      ensures this.projections == projections && advice == map[]
    {
      this.projections := projections;
      advice := map[];
    }

    method Handle(d: Delivery) returns (r: Result<(), Error>)
      modifies this, projections
      ensures (State(projections.versions, advice), r) == HandleDelivery(old(State(projections.versions, advice)), d)
    {
      if d.event.Irrelevant? {
        return Ok(());
      }
      var committed := projections.versions;
      var accepted := projections.AdvanceProjection(PROJECTION, d.event.stack, d.event.at, d.event.id);
      if accepted.Err? {
        return Err(accepted.error);
      }
      if !accepted.value {
        return Ok(());
      }
      if d.fails {
        projections.versions := committed;
        return Err(HandlerFailed);
      }
      advice := advice[d.event.stack := d.event.advice];
      r := Ok(());
    }
  }

  // ---------------------------------------------------------------- convergence

  /** The dated events of a stack that some delivery handled without failing. */
  function Handled(ds: seq<Delivery>, stack: string): set<Event> {
    set d | d in ds && !d.fails && d.event.Deployed? && d.event.stack == stack && d.event.at.Some? :: d.event
  }

  function VersionOf(e: Event): Version
    requires e.Deployed? && e.at.Some?
  {
    Version(e.at.value, e.id)
  }

  /** e is the newest of the given events: none happened later, nor at the same instant with a later identifier. */
  ghost predicate Newest(e: Event, events: set<Event>) {
    && e in events && e.Deployed? && e.at.Some?
    && forall other :: other in events && other.Deployed? && other.at.Some? ==>
         other.at.value < e.at.value || (other.at.value == e.at.value && !Before(e.id, other.id))
  }

  /** The stored version and advice of a stack are those of its newest handled event, and absent without one. */
  ghost predicate Reflects(s: State, events: set<Event>, stack: string) {
    && (KeyOf(stack) in s.versions <==> stack in s.advice)
    && (stack !in s.advice ==> events == {})
    && (stack in s.advice ==>
         exists e :: Newest(e, events) && s.versions[KeyOf(stack)] == VersionOf(e) && s.advice[stack] == e.advice)
  }

  lemma HandledGrows(ds: seq<Delivery>, stack: string)
    requires ds != []
    ensures var last := ds[|ds| - 1];
      Handled(ds, stack) == Handled(ds[..|ds| - 1], stack) +
        if !last.fails && last.event.Deployed? && last.event.stack == stack && last.event.at.Some?
        then {last.event} else {}
  {
    assert ds == ds[..|ds| - 1] + [ds[|ds| - 1]];
  }

  /** Along any delivery with duplicates, reorderings, failures and retries, the projection reflects the newest
      successfully handled event. */
  lemma {:induction false} ProjectionReflectsNewest(ds: seq<Delivery>, stack: string)
    ensures Reflects(Deliver(ds), Handled(ds, stack), stack)
  {
    if ds != [] {
      var before := Deliver(ds[..|ds| - 1]);
      var known := Handled(ds[..|ds| - 1], stack);
      var last := ds[|ds| - 1];
      ProjectionReflectsNewest(ds[..|ds| - 1], stack);
      HandledGrows(ds, stack);
      if last.event.Deployed? && last.event.stack == stack && last.event.at.Some? && !last.fails {
        StepReflects(before, known, last);
      }
    }
  }

  lemma StepReflects(s: State, known: set<Event>, d: Delivery)
    requires !d.fails && d.event.Deployed? && d.event.at.Some?
    requires forall e :: e in known ==> e.Deployed? && e.at.Some?
    requires Reflects(s, known, d.event.stack)
    ensures Reflects(HandleDelivery(s, d).0, known + {d.event}, d.event.stack)
  {
    var v := VersionOf(d.event);
    NewerIsTotal(v, v);
    if d.event.stack in s.advice {
      var stack := d.event.stack;
      var e :| Newest(e, known) && s.versions[KeyOf(stack)] == VersionOf(e) && s.advice[stack] == e.advice;
      NewerIsTotal(v, VersionOf(e));
      if Newer(v, VersionOf(e)) {
        forall other | other in known ensures !Newer(VersionOf(other), v) {
          if Newer(VersionOf(other), v) { NewerIsTransitive(VersionOf(other), v, VersionOf(e)); }
        }
        assert Newest(d.event, known + {d.event});
      } else {
        assert Newest(e, known + {d.event});
      }
    } else {
      assert Newest(d.event, known + {d.event});
    }
  }

  /** Source identifiers are unique: equal versions of a stack mean the same event. */
  ghost predicate UniqueVersions(events: set<Event>) {
    forall a, b :: a in events && b in events && a != b && a.Deployed? && b.Deployed? && a.at.Some? && b.at.Some?
      ==> VersionOf(a) != VersionOf(b)
  }

  /** Convergence: two delivery histories that handled the same events of a stack end with the same version and
      the same recommendations, whatever their order, duplicates and failed attempts. */
  lemma {:induction false} DeliveriesConverge(a: seq<Delivery>, b: seq<Delivery>, stack: string)
    requires Handled(a, stack) == Handled(b, stack) && UniqueVersions(Handled(a, stack))
    ensures stack in Deliver(a).advice <==> stack in Deliver(b).advice
    ensures KeyOf(stack) in Deliver(a).versions <==> KeyOf(stack) in Deliver(b).versions
    ensures stack in Deliver(a).advice ==>
      && KeyOf(stack) in Deliver(a).versions && KeyOf(stack) in Deliver(b).versions
      && Deliver(a).advice[stack] == Deliver(b).advice[stack]
      && Deliver(a).versions[KeyOf(stack)] == Deliver(b).versions[KeyOf(stack)]
  {
    var events := Handled(a, stack);
    ProjectionReflectsNewest(a, stack);
    ProjectionReflectsNewest(b, stack);
    if stack in Deliver(a).advice && stack in Deliver(b).advice {
      var left, right := Deliver(a), Deliver(b);
      var x :| Newest(x, events) && left.versions[KeyOf(stack)] == VersionOf(x) && left.advice[stack] == x.advice;
      var y :| Newest(y, events) && right.versions[KeyOf(stack)] == VersionOf(y) && right.advice[stack] == y.advice;
      NewerIsTotal(VersionOf(x), VersionOf(y));
    }
  }

  /** Every handled event happened no later than the stored version, and at the stored instant its identifier does not
      sort after the stored one. */
  lemma {:induction false} HandledEventIsNoLater(ds: seq<Delivery>, e: Event)
    requires e.Deployed? && e in Handled(ds, e.stack)
    ensures KeyOf(e.stack) in Deliver(ds).versions
    ensures var stored := Deliver(ds).versions[KeyOf(e.stack)];
      && e.at.value <= stored.at && (e.at.value == stored.at ==> !Before(stored.id, e.id))
  {
    ProjectionReflectsNewest(ds, e.stack);
  }

  /** What one delivery does: only a dated event that is news and whose handler succeeds changes anything, namely the
      version and the advice of its own stack; an error is reported exactly for a missing date and for a handler that
      fails on news. */
  lemma DeliveryCounts(s: State, d: Delivery)
    requires d.event.Deployed?
    ensures var (after, r) := HandleDelivery(s, d); var e, key := d.event, KeyOf(d.event.stack);
      var news := e.at.Some? && (key !in s.versions || s.versions[key].at < e.at.value ||
                                 (s.versions[key].at == e.at.value && Before(s.versions[key].id, e.id)));
      && (news && !d.fails ==>
            after.versions == s.versions[key := VersionOf(e)] && after.advice == s.advice[e.stack := e.advice])
      && (!news || d.fails ==> after == s)
      && (r.Err? <==> e.at.None? || (news && d.fails))
  {
  }

  /** A stored version that changed is later than every version the stack stored before. */
  lemma {:induction false} AcceptedVersionsIncrease(ds: seq<Delivery>, i: nat, stack: string)
    requires i <= |ds| && KeyOf(stack) in Deliver(ds[..i]).versions
    ensures KeyOf(stack) in Deliver(ds).versions
    ensures var early := Deliver(ds[..i]).versions[KeyOf(stack)];
      var late := Deliver(ds).versions[KeyOf(stack)];
      late == early || early.at < late.at || (early.at == late.at && Before(early.id, late.id))
  {
    if i == |ds| {
      assert ds[..i] == ds;
    } else {
      var shorter := ds[..|ds| - 1];
      assert shorter[..i] == ds[..i];
      AcceptedVersionsIncrease(shorter, i, stack);
      var early := Deliver(ds[..i]).versions[KeyOf(stack)];
      var middle := Deliver(shorter).versions[KeyOf(stack)];
      var late := Deliver(ds).versions[KeyOf(stack)];
      if Newer(late, middle) && Newer(middle, early) { NewerIsTransitive(late, middle, early); }
    }
  }
}
