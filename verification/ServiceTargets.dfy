/** Resolving the text a user gave for a service to exactly one service of the catalogue. */
module ServiceTargets {
  import opened Text

  datatype Service = Service(stack: string, name: string)

  datatype Resolution = Found(stack: string, service: string) | Ambiguous | Unknown

  function TargetOf(s: Service): string {
    Trim(s.stack) + "/" + Trim(s.name)
  }

  datatype Tier = ByTarget | ByName | ByStack | ByText

  /** How a service may answer to a target, from the most to the least specific. */
  predicate Matches(s: Service, target: string, tier: Tier) {
    match tier
    case ByTarget => EqualFold(TargetOf(s), target)
    case ByName => EqualFold(s.name, target)
    case ByStack => EqualFold(s.stack, target)
    case ByText =>
      var part := Lower(target);
      Contains(Lower(TargetOf(s)), part) || Contains(Lower(s.name), part) || Contains(Lower(s.stack), part)
  }

  function Matching(services: seq<Service>, target: string, tier: Tier): (r: seq<Service>)
    ensures forall s :: s in r <==> s in services && Matches(s, target, tier)
    ensures |r| <= |services|
  {
    if services == [] then []
    else
      var earlier := Matching(services[..|services| - 1], target, tier);
      var last := services[|services| - 1];
      if Matches(last, target, tier) then earlier + [last] else earlier
  }

  function Picked(matches: seq<Service>): Resolution
    requires matches != []
  {
    if |matches| == 1 then Found(matches[0].stack, matches[0].name) else Ambiguous
  }

  function Resolve(services: seq<Service>, target: string): Resolution {
    var t := Trim(target);
    if t == "" then Unknown
    else if Matching(services, t, ByTarget) != [] then
      var first := Matching(services, t, ByTarget)[0];
      Found(first.stack, first.name)
    else if Matching(services, t, ByName) != [] then Picked(Matching(services, t, ByName))
    else if Matching(services, t, ByStack) != [] then Picked(Matching(services, t, ByStack))
    else if Matching(services, t, ByText) != [] then Picked(Matching(services, t, ByText))
    else Unknown
  }

  /** The tiers that are tried before the given one. */
  predicate MoreSpecific(a: Tier, b: Tier) {
    match b
    case ByTarget => false
    case ByName => a == ByTarget
    case ByStack => a == ByTarget || a == ByName
    case ByText => a != ByText
  }

  /** The first match is the earliest matching service of the catalogue. */
  lemma {:induction false} FirstMatch(services: seq<Service>, target: string, tier: Tier) returns (i: nat)
    requires Matching(services, target, tier) != []
    ensures i < |services| && services[i] == Matching(services, target, tier)[0]
    ensures forall j :: 0 <= j < i ==> !Matches(services[j], target, tier)
  {
    var n := |services| - 1;
    var earlier := services[..n];
    if Matching(earlier, target, tier) != [] {
      i := FirstMatch(earlier, target, tier);
      assert forall j :: 0 <= j <= i ==> earlier[j] == services[j];
    } else {
      i := n;
      forall j | 0 <= j < i ensures !Matches(services[j], target, tier) { assert services[j] == earlier[j]; }
    }
  }

  /** What the tier that decides means for the service found. */
  ghost predicate Decides(services: seq<Service>, target: string, tier: Tier, found: Service) {
    && Matches(found, target, tier)
    && (forall s, other :: s in services && MoreSpecific(other, tier) ==> !Matches(s, target, other))
    && (tier == ByTarget ==>
          exists i :: 0 <= i < |services| && services[i] == found
                      && forall j :: 0 <= j < i ==> !Matches(services[j], target, tier))
    && (tier != ByTarget ==> forall s :: s in services && Matches(s, target, tier) ==> s == found)
  }

  lemma {:induction false} FirstTierDecides(services: seq<Service>, target: string, tier: Tier)
    requires Matching(services, target, tier) != []
    requires forall other :: MoreSpecific(other, tier) ==> Matching(services, target, other) == []
    requires tier != ByTarget ==> |Matching(services, target, tier)| == 1
    ensures Decides(services, target, tier, Matching(services, target, tier)[0])
  {
    forall s, other | s in services && MoreSpecific(other, tier) ensures !Matches(s, target, other) {
      assert Matching(services, target, other) == [];
    }
    var i := FirstMatch(services, target, tier);
  }

  /** A found service is in the catalogue; in the most specific tier that has any match it is the earliest that answers
      to the full target, or the only match. */
  lemma ResolveFindsListedService(services: seq<Service>, target: string)
    ensures Resolve(services, target).Found? ==>
      var r := Resolve(services, target);
      && Service(r.stack, r.service) in services
      && exists tier :: Decides(services, Trim(target), tier, Service(r.stack, r.service))
  {
    var r, t := Resolve(services, target), Trim(target);
    if r.Found? {
      var tier := if Matching(services, t, ByTarget) != [] then ByTarget
                  else if Matching(services, t, ByName) != [] then ByName
                  else if Matching(services, t, ByStack) != [] then ByStack else ByText;
      FirstTierDecides(services, t, tier);
      assert Matching(services, t, tier)[0] == Service(r.stack, r.service);
    }
  }

  /** Nothing is found only when nothing matches, in any tier, or the target is blank. */
  lemma ResolveIsUnknownIff(services: seq<Service>, target: string)
    ensures Resolve(services, target) == Unknown <==>
      Trim(target) == "" || forall s, tier :: s in services ==> !Matches(s, Trim(target), tier)
  {
    var t := Trim(target);
    if Resolve(services, target) == Unknown && t != "" {
      forall s, tier | s in services ensures !Matches(s, t, tier) {
        assert Matching(services, t, tier) == [];
      }
    } else if t != "" {
      var tier := if Matching(services, t, ByTarget) != [] then ByTarget
                  else if Matching(services, t, ByName) != [] then ByName
                  else if Matching(services, t, ByStack) != [] then ByStack else ByText;
      assert Matches(Matching(services, t, tier)[0], t, tier);
    }
  }

  /** Exactly one entry of the catalogue answers in the tier. */
  ghost predicate Unique(services: seq<Service>, target: string, tier: Tier) {
    exists i :: 0 <= i < |services| && Matches(services[i], target, tier)
                && forall j :: 0 <= j < |services| && j != i ==> !Matches(services[j], target, tier)
  }

  lemma {:induction false} SomeMatch(services: seq<Service>, target: string, tier: Tier, i: nat)
    requires i < |services| && Matches(services[i], target, tier)
    ensures Matching(services, target, tier) != []
  {
    assert services[i] in Matching(services, target, tier);
  }

  lemma {:induction false} TwoMatches(services: seq<Service>, target: string, tier: Tier, i: nat, j: nat)
    requires i < j < |services| && Matches(services[i], target, tier) && Matches(services[j], target, tier)
    ensures |Matching(services, target, tier)| >= 2
  {
    var earlier := services[..|services| - 1];
    if j == |services| - 1 {
      assert earlier[i] == services[i];
      SomeMatch(earlier, target, tier, i);
    } else {
      assert earlier[i] == services[i] && earlier[j] == services[j];
      TwoMatches(earlier, target, tier, i, j);
    }
  }

  lemma {:induction false} OneMatch(services: seq<Service>, target: string, tier: Tier, i: nat)
    requires i < |services| && Matches(services[i], target, tier)
    requires forall j :: 0 <= j < |services| && j != i ==> !Matches(services[j], target, tier)
    ensures Matching(services, target, tier) == [services[i]]
  {
    var n := |services| - 1;
    var earlier := services[..n];
    if i < n {
      assert earlier[i] == services[i];
      OneMatch(earlier, target, tier, i);
    } else {
      forall s | s in earlier ensures !Matches(s, target, tier) {
        var j :| 0 <= j < n && earlier[j] == s;
        assert services[j] == s;
      }
      TierIsEmptyIff(earlier, target, tier);
    }
  }

  lemma {:induction false} UniqueIsSingle(services: seq<Service>, target: string, tier: Tier)
    requires Unique(services, target, tier)
    ensures |Matching(services, target, tier)| == 1
  {
    var i :| 0 <= i < |services| && Matches(services[i], target, tier)
             && forall j :: 0 <= j < |services| && j != i ==> !Matches(services[j], target, tier);
    OneMatch(services, target, tier, i);
  }

  lemma {:induction false} SingleIsUnique(services: seq<Service>, target: string, tier: Tier)
    requires |Matching(services, target, tier)| == 1
    ensures Unique(services, target, tier)
  {
    var i := FirstMatch(services, target, tier);
    assert Matching(services, target, tier)[0] in Matching(services, target, tier);
    forall j | 0 <= j < |services| && j != i ensures !Matches(services[j], target, tier) {
      if i < j && Matches(services[j], target, tier) { TwoMatches(services, target, tier, i, j); }
    }
  }

  lemma {:induction false} SingleMatchIff(services: seq<Service>, target: string, tier: Tier)
    ensures |Matching(services, target, tier)| == 1 <==> Unique(services, target, tier)
  {
    if Unique(services, target, tier) { UniqueIsSingle(services, target, tier); }
    if |Matching(services, target, tier)| == 1 { SingleIsUnique(services, target, tier); }
  }

  /** The tier has a match, and no more specific one has any. */
  ghost predicate Deciding(services: seq<Service>, target: string, tier: Tier) {
    && (exists s :: s in services && Matches(s, target, tier))
    && (forall s, other :: s in services && MoreSpecific(other, tier) ==> !Matches(s, target, other))
  }

  lemma {:induction false} DecidingIsFirstTier(services: seq<Service>, target: string, tier: Tier)
    ensures Deciding(services, target, tier) <==>
      && Matching(services, target, tier) != []
      && forall other :: MoreSpecific(other, tier) ==> Matching(services, target, other) == []
  {
    TierIsEmptyIff(services, target, tier);
    forall other ensures Matching(services, target, other) == [] <==>
        forall s :: s in services ==> !Matches(s, target, other) {
      TierIsEmptyIff(services, target, other);
    }
  }

  lemma DecidingTierResolves(services: seq<Service>, target: string, tier: Tier)
    requires Trim(target) != "" && Deciding(services, Trim(target), tier)
    ensures Resolve(services, target).Found? <==> tier == ByTarget || Unique(services, Trim(target), tier)
  {
    var t := Trim(target);
    DecidingIsFirstTier(services, t, tier);
    SingleMatchIff(services, t, tier);
    FirstTierResolves(services, target, tier);
  }

  lemma {:induction false} FirstTierResolves(services: seq<Service>, target: string, tier: Tier)
    requires Trim(target) != "" && Matching(services, Trim(target), tier) != []
    requires forall other :: MoreSpecific(other, tier) ==> Matching(services, Trim(target), other) == []
    ensures Resolve(services, target).Found? <==> tier == ByTarget || |Matching(services, Trim(target), tier)| == 1
  {
    var t := Trim(target);
    assert tier != ByTarget ==> MoreSpecific(ByTarget, tier);
    assert tier == ByStack || tier == ByText ==> MoreSpecific(ByName, tier);
    assert tier == ByText ==> MoreSpecific(ByStack, tier);
  }

  /** A target is resolved exactly when the most specific tier with any match is the full target or has just one. */
  lemma ResolveFindsIff(services: seq<Service>, target: string)
    ensures Resolve(services, target).Found? <==>
      Trim(target) != "" && exists tier :: Deciding(services, Trim(target), tier) &&
                                           (tier == ByTarget || Unique(services, Trim(target), tier))
  {
    var t := Trim(target);
    if tier :| t != "" && Deciding(services, t, tier) && (tier == ByTarget || Unique(services, t, tier)) {
      DecidingTierResolves(services, target, tier);
    }
    if Resolve(services, target).Found? {
      var tier := if Matching(services, t, ByTarget) != [] then ByTarget
                  else if Matching(services, t, ByName) != [] then ByName
                  else if Matching(services, t, ByStack) != [] then ByStack else ByText;
      DecidingIsFirstTier(services, t, tier);
      DecidingTierResolves(services, target, tier);
    }
  }

  lemma {:induction false} TierIsEmptyIff(services: seq<Service>, target: string, tier: Tier)
    ensures Matching(services, target, tier) == [] <==> forall s :: s in services ==> !Matches(s, target, tier)
  {
    if Matching(services, target, tier) != [] { assert Matching(services, target, tier)[0] in services; }
  }

  /** Written in full, a target finds the earliest service whose stack and name it joins, whatever else it may match. */
  lemma FullTargetIsFound(services: seq<Service>, target: string, i: nat)
    requires Trim(target) != "" && i < |services|
    requires Lower(Trim(services[i].stack) + "/" + Trim(services[i].name)) == Lower(Trim(target))
    requires forall j :: 0 <= j < i ==>
      Lower(Trim(services[j].stack) + "/" + Trim(services[j].name)) != Lower(Trim(target))
    ensures Resolve(services, target) == Found(services[i].stack, services[i].name)
  {
    var t := Trim(target);
    assert Matches(services[i], t, ByTarget);
    SomeMatch(services, t, ByTarget, i);
    var first := FirstMatch(services, t, ByTarget);
    assert Matching(services, t, ByTarget)[0] in Matching(services, t, ByTarget);
    assert !Matches(services[first], t, ByTarget) || first == i;
  }

  /** The service's own name, when no target is written in full, or its stack's, when no service is so named either:
      one entry so named is found, several are ambiguous. */
  lemma NameThenStack(services: seq<Service>, target: string, i: nat, j: nat, stacks: bool)
    requires Trim(target) != "" && i < |services| && j < |services|
    requires forall s :: s in services ==> Lower(Trim(s.stack) + "/" + Trim(s.name)) != Lower(Trim(target))
    requires stacks ==> forall s :: s in services ==> Lower(s.name) != Lower(Trim(target))
    requires Lower(if stacks then services[i].stack else services[i].name) == Lower(Trim(target))
    ensures (forall k :: 0 <= k < |services| && k != i ==>
               Lower(if stacks then services[k].stack else services[k].name) != Lower(Trim(target))) ==>
      Resolve(services, target) == Found(services[i].stack, services[i].name)
    ensures i != j && Lower(if stacks then services[j].stack else services[j].name) == Lower(Trim(target)) ==>
      Resolve(services, target) == Ambiguous
  {
    var t, tier := Trim(target), if stacks then ByStack else ByName;
    TierIsEmptyIff(services, t, ByTarget);
    TierIsEmptyIff(services, t, ByName);
    SomeMatch(services, t, tier, i);
    if forall k :: 0 <= k < |services| && k != i ==> !Matches(services[k], t, tier) {
      OneMatch(services, t, tier, i);
    }
    if i != j && Matches(services[j], t, tier) {
      TwoMatches(services, t, tier, if i < j then i else j, if i < j then j else i);
    }
  }

  /** A part of a target or name serves when nothing is named in full and only one entry has it. */
  lemma PartIsFound(services: seq<Service>, target: string, i: nat)
    requires Trim(target) != "" && i < |services|
    requires forall s :: s in services ==>
      && Lower(Trim(s.stack) + "/" + Trim(s.name)) != Lower(Trim(target))
      && Lower(s.name) != Lower(Trim(target)) && Lower(s.stack) != Lower(Trim(target))
    requires Contains(Lower(Trim(services[i].stack) + "/" + Trim(services[i].name)), Lower(Trim(target))) ||
             Contains(Lower(services[i].name), Lower(Trim(target))) ||
             Contains(Lower(services[i].stack), Lower(Trim(target)))
    requires forall k :: 0 <= k < |services| && k != i ==>
      && !Contains(Lower(Trim(services[k].stack) + "/" + Trim(services[k].name)), Lower(Trim(target)))
      && !Contains(Lower(services[k].name), Lower(Trim(target)))
      && !Contains(Lower(services[k].stack), Lower(Trim(target)))
    ensures Resolve(services, target) == Found(services[i].stack, services[i].name)
  {
    var t := Trim(target);
    TierIsEmptyIff(services, t, ByTarget);
    TierIsEmptyIff(services, t, ByName);
    TierIsEmptyIff(services, t, ByStack);
    OneMatch(services, t, ByText, i);
  }
}
