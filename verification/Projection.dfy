/** Ordered projections: the version row that decides whether a delivered source event is still news. */
module Projection {
  import opened Wrappers
  import Text

  /** Occurrence time, then source identifier; identifiers order publications within one instant. */
  datatype Version = Version(at: int, id: string)

  datatype Key = Key(projection: string, resource: string)

  datatype Error = MissingTime | HandlerFailed

  predicate Newer(a: Version, b: Version) {
    a.at > b.at || (a.at == b.at && Text.Before(b.id, a.id))
  }

  /** The lexicographic order on versions is strict and total. */
  lemma NewerIsTotal(a: Version, b: Version)
    ensures a == b || Newer(a, b) || Newer(b, a)
    ensures !(Newer(a, b) && Newer(b, a))
  {
    Text.BeforeIsTotal(a.id, b.id);
  }

  lemma NewerIsTransitive(a: Version, b: Version, c: Version)
    requires Newer(a, b) && Newer(b, c)
    ensures Newer(a, c)
  {
    if a.at == b.at && b.at == c.at { Text.BeforeIsTransitive(c.id, b.id, a.id); }
  }

  /** An event is accepted exactly when no version is stored, or it happened after the stored one, or at the same
      instant with an identifier that sorts after it. */
  function Advance(versions: map<Key, Version>, key: Key, v: Version): (r: (map<Key, Version>, bool))
    ensures r.1 <==>
      || key !in versions || versions[key].at < v.at
      || (versions[key].at == v.at && Text.Before(versions[key].id, v.id))
    ensures r.1 ==> r.0 == versions[key := v]
    ensures !r.1 ==> r.0 == versions
  {
    if key !in versions || Newer(v, versions[key]) then (versions[key := v], true) else (versions, false)
  }

  class ProjectionStore {
    var versions: map<Key, Version>

    constructor ()
      ensures versions == map[]
    {
      versions := map[];
    }

    /** A missing occurrence time is refused; otherwise an insert, or an update guarded by the row comparison. */
    method AdvanceProjection(projection: string, resource: string, at: Option<int>, id: string)
      returns (accepted: Result<bool, Error>)
      modifies this
      ensures at == None ==> accepted == Err(MissingTime) && versions == old(versions)
      ensures at.Some? ==>
        (versions, accepted) ==
          (Advance(old(versions), Key(projection, resource), Version(at.value, id)).0,
           Ok(Advance(old(versions), Key(projection, resource), Version(at.value, id)).1))
      ensures at.Some? ==> var key := Key(projection, resource);
        accepted == Ok(|| key !in old(versions) || old(versions)[key].at < at.value
                       || (old(versions)[key].at == at.value && Text.Before(old(versions)[key].id, id)))
      ensures versions ==
        if accepted == Ok(true) then old(versions)[Key(projection, resource) := Version(at.value, id)]
        else old(versions)
    {
      if at == None {
        return Err(MissingTime);
      }
      var key := Key(projection, resource);
      if key !in versions {
        versions := versions[key := Version(at.value, id)];
        return Ok(true);
      }
      var current := versions[key];
      if at.value > current.at || (at.value == current.at && Text.Before(current.id, id)) {
        versions := versions[key := Version(at.value, id)];
        accepted := Ok(true);
      } else {
        accepted := Ok(false);
      }
    }
  }
}
