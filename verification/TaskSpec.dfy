/** Comparing task specifications: a structural diff over reflected values, after normalizing the engine's defaults. */
module TaskSpec {
  import opened Wrappers

  // ---------------------------------------------------------------- reflected values

  datatype Data = Text(text: string) | Number(number: int) | Nil | Elements(elements: seq<string>)

  datatype Field = Field(name: string, exported: bool, value: Value)

  /** A value as reflection sees it: scalars and collections are leaves; a pointer or interface may be nil. */
  datatype Value =
    | Leaf(kind: string, data: Data)
    | Pointer(kind: string, target: Option<Value>)
    | Struct(kind: string, fields: seq<Field>)

  /** Values of one type; a struct type fixes its fields. */
  predicate SameType(l: Value, r: Value) {
    match (l, r)
    case (Leaf(a, _), Leaf(b, _)) => a == b
    case (Pointer(a, _), Pointer(b, _)) => a == b
    case (Struct(a, fs), Struct(b, gs)) =>
      a == b && |fs| == |gs| &&
      forall i :: 0 <= i < |fs| ==> fs[i].name == gs[i].name && fs[i].exported == gs[i].exported
    case _ => false
  }

  /** The paths at which two values differ, deepest exported fields first named. */
  function DifferencePaths(l: Value, r: Value, path: string): seq<string>
    decreases l, if l.Struct? then |l.fields| + 1 else 0
  {
    if !SameType(l, r) then [path]
    else if l == r then []
    else
      match l
      case Leaf(_, _) => [path]
      case Pointer(_, target) =>
        if target == None || r.target == None then [path] else DifferencePaths(target.value, r.target.value, path)
      case Struct(_, fields) =>
        var inner := FieldPaths(l, r, |fields|, path);
        if inner == [] then [path] else inner
  }

  /** The differences within the first n fields. */
  function FieldPaths(l: Value, r: Value, n: nat, path: string): seq<string>
    requires l.Struct? && SameType(l, r) && n <= |l.fields|
    decreases l, n
  {
    if n == 0 then []
    else
      var earlier, field := FieldPaths(l, r, n - 1, path), l.fields[n - 1];
      if field.exported then earlier + DifferencePaths(field.value, r.fields[n - 1].value, path + "." + field.name)
      else earlier
  }

  /** The recursive walk that appends to one shared list. */
  method AppendDifferences(l: Value, r: Value, path: string, found: seq<string>) returns (paths: seq<string>)
    ensures paths == found + DifferencePaths(l, r, path)
    decreases l
  {
    paths := found;
    if !SameType(l, r) {
      return paths + [path];
    }
    if l == r {
      return;
    }
    match l {
      case Leaf(_, _) => paths := paths + [path];
      case Pointer(_, target) =>
        if target == None || r.target == None {
          return paths + [path];
        }
        paths := AppendDifferences(target.value, r.target.value, path, paths);
      case Struct(_, fields) =>
        for i := 0 to |fields|
          invariant paths == found + FieldPaths(l, r, i, path)
        {
          if fields[i].exported {
            paths := AppendDifferences(fields[i].value, r.fields[i].value, path + "." + fields[i].name, paths);
          }
        }
        if |paths| == |found| {
          paths := paths + [path];
        }
    }
  }

  // ---------------------------------------------------------------- the diff is sound and complete

  /** The path is the base itself or goes on below it. */
  predicate Under(path: string, base: string) {
    path == base || base + "." <= path
  }

  /** No differences are found exactly between equal values. */
  lemma {:induction false} NoPathsIffEqual(l: Value, r: Value, path: string)
    ensures DifferencePaths(l, r, path) == [] <==> l == r
    decreases l
  {
    if SameType(l, r) && l != r && l.Pointer? && l.target.Some? && r.target.Some? {
      NoPathsIffEqual(l.target.value, r.target.value, path);
    }
  }

  /** Every path found lies at or below the compared path. */
  lemma {:induction false} PathsLieUnder(l: Value, r: Value, path: string)
    ensures forall p :: p in DifferencePaths(l, r, path) ==> Under(p, path)
    decreases l, if l.Struct? then |l.fields| + 1 else 0
  {
    if SameType(l, r) && l != r {
      match l
      case Leaf(_, _) =>
      case Pointer(_, target) =>
        if target.Some? && r.target.Some? { PathsLieUnder(target.value, r.target.value, path); }
      case Struct(_, fields) => FieldPathsLieUnder(l, r, |fields|, path);
    }
  }

  lemma {:induction false} FieldPathsLieUnder(l: Value, r: Value, n: nat, path: string)
    requires l.Struct? && SameType(l, r) && n <= |l.fields|
    ensures forall p :: p in FieldPaths(l, r, n, path) ==>
      exists i :: 0 <= i < n && l.fields[i].exported && l.fields[i].value != r.fields[i].value
                  && Under(p, path + "." + l.fields[i].name)
    ensures forall p :: p in FieldPaths(l, r, n, path) ==> Under(p, path)
    decreases l, n
  {
    if n > 0 {
      var field, base := l.fields[n - 1], path + "." + l.fields[n - 1].name;
      FieldPathsLieUnder(l, r, n - 1, path);
      PathsLieUnder(field.value, r.fields[n - 1].value, base);
      NoPathsIffEqual(field.value, r.fields[n - 1].value, base);
    }
  }

  /** Each exported field that differs shows up in the paths. */
  lemma {:induction false} DifferingFieldShows(l: Value, r: Value, n: nat, path: string, i: nat) returns (p: string)
    requires l.Struct? && SameType(l, r) && i < n <= |l.fields|
    requires l.fields[i].exported && l.fields[i].value != r.fields[i].value
    ensures p in FieldPaths(l, r, n, path) && Under(p, path + "." + l.fields[i].name)
    decreases n
  {
    if i == n - 1 {
      var base := path + "." + l.fields[i].name;
      NoPathsIffEqual(l.fields[i].value, r.fields[i].value, base);
      PathsLieUnder(l.fields[i].value, r.fields[i].value, base);
      p := DifferencePaths(l.fields[i].value, r.fields[i].value, base)[0];
    } else {
      p := DifferingFieldShows(l, r, n - 1, path, i);
    }
  }

  // ---------------------------------------------------------------- differences in one field only

  /** A struct with exported fields of distinct names, none holding a separator. */
  predicate Plain(l: Value) {
    && l.Struct?
    && (forall i :: 0 <= i < |l.fields| ==> l.fields[i].exported && '.' !in l.fields[i].name)
    && (forall i, j :: 0 <= i < j < |l.fields| ==> l.fields[i].name != l.fields[j].name)
  }

  predicate AllUnder(paths: seq<string>, base: string) {
    paths != [] && forall p :: p in paths ==> Under(p, base)
  }

  predicate OnlyFieldDiffers(l: Value, r: Value, k: nat)
    requires l.Struct? && SameType(l, r) && k < |l.fields|
  {
    && l.fields[k].value != r.fields[k].value
    && forall i :: 0 <= i < |l.fields| && i != k ==> l.fields[i].value == r.fields[i].value
  }

  lemma SeparatorShows(p: string, start: nat, n: nat, name: string)
    requires start + |name| <= |p| && p[start..start + |name|] == name
    ensures n < |name| && p[start + n] == '.' ==> '.' in name
  {
    assert n < |name| ==> name[n] == p[start..start + |name|][n];
  }

  /** A path below two fields names the same field. */
  lemma UnderOneField(p: string, path: string, a: string, b: string)
    requires Under(p, path + "." + a) && Under(p, path + "." + b) && '.' !in a && '.' !in b
    ensures a == b
  {
    var start := |path| + 1;
    assert (path + "." + a)[start..] == a && (path + "." + b)[start..] == b;
    assert p[start..start + |a|] == a && p[start..start + |b|] == b;
    SeparatorShows(p, start, |a|, b);
    SeparatorShows(p, start, |b|, a);
  }

  lemma SomeFieldDiffers(l: Value, r: Value) returns (i: nat)
    requires l.Struct? && SameType(l, r) && l != r
    ensures i < |l.fields| && l.fields[i] != r.fields[i]
  {
    i :| 0 <= i < |l.fields| && l.fields[i] != r.fields[i];
  }

  /** All differences lie in one field exactly when that field is the only one that differs. */
  lemma {:induction false} AllUnderIff(l: Value, r: Value, path: string, k: nat)
    requires Plain(l) && SameType(l, r) && k < |l.fields|
    ensures AllUnder(DifferencePaths(l, r, path), path + "." + l.fields[k].name) <==> OnlyFieldDiffers(l, r, k)
  {
    if l != r {
      var base, n := path + "." + l.fields[k].name, |l.fields|;
      var paths := FieldPaths(l, r, n, path);
      var i := SomeFieldDiffers(l, r);
      var shown := DifferingFieldShows(l, r, n, path, i);
      FieldPathsLieUnder(l, r, n, path);
      assert DifferencePaths(l, r, path) == paths;
      if AllUnder(paths, base) {
        forall j | 0 <= j < n && j != k ensures l.fields[j].value == r.fields[j].value {
          if l.fields[j].value != r.fields[j].value {
            var p := DifferingFieldShows(l, r, n, path, j);
            UnderOneField(p, path, l.fields[j].name, l.fields[k].name);
          }
        }
      }
    }
  }

  lemma {:induction false} OneFieldPaths(l: Value, r: Value, n: nat, path: string, k: nat)
    requires Plain(l) && SameType(l, r) && k < |l.fields| && n <= |l.fields| && OnlyFieldDiffers(l, r, k)
    ensures FieldPaths(l, r, n, path) ==
      if k < n then DifferencePaths(l.fields[k].value, r.fields[k].value, path + "." + l.fields[k].name) else []
    decreases n
  {
    if n > 0 {
      OneFieldPaths(l, r, n - 1, path, k);
      var base := path + "." + l.fields[n - 1].name;
      NoPathsIffEqual(l.fields[n - 1].value, r.fields[n - 1].value, base);
    }
  }

  /** The one path of a leaf field is found exactly when only that field differs. */
  lemma {:induction false} SinglePathIff(l: Value, r: Value, path: string, k: nat)
    requires Plain(l) && SameType(l, r) && k < |l.fields|
    requires l.fields[k].value.Leaf? && SameType(l.fields[k].value, r.fields[k].value)
    ensures DifferencePaths(l, r, path) == [path + "." + l.fields[k].name] <==> OnlyFieldDiffers(l, r, k)
  {
    AllUnderIff(l, r, path, k);
    if OnlyFieldDiffers(l, r, k) { OneFieldPaths(l, r, |l.fields|, path, k); }
  }

  // ---------------------------------------------------------------- task specifications

  /** Parts the normalization fills in; the other fields of a container specification stay reflected values. */
  datatype ContainerSpec = ContainerSpec(
    isolation: string, stopGracePeriod: Option<int>, dnsConfig: Option<Value>, others: seq<Field>)

  datatype RestartPolicy = RestartPolicy(
    condition: string, delay: Option<int>, maxAttempts: Option<nat>, window: Option<int>)

  datatype Spec = Spec(
    containerSpec: Option<ContainerSpec>, pluginSpec: Option<Value>, networkAttachmentSpec: Option<Value>,
    resources: Option<Value>, restartPolicy: Option<RestartPolicy>, placement: Option<Value>, networks: seq<string>,
    logDriver: Option<Value>, forceUpdate: nat, runtime: string)

  /** Durations in nanoseconds. */
  const STOP_GRACE_PERIOD := 10_000_000_000
  const RESTART_DELAY := 5_000_000_000

  /** The zero values of the engine's types. */
  const EMPTY_DNS := Struct("DNSConfig", [
    Field("Nameservers", true, Leaf("[]string", Nil)), Field("Search", true, Leaf("[]string", Nil)),
    Field("Options", true, Leaf("[]string", Nil))])
  const EMPTY_RESOURCES := Struct("ResourceRequirements", [
    Field("Limits", true, Pointer("Limit", None)), Field("Reservations", true, Pointer("Resources", None))])
  const EMPTY_PLACEMENT := Struct("Placement", [
    Field("Constraints", true, Leaf("[]string", Nil)), Field("Preferences", true, Leaf("[]PlacementPreference", Nil)),
    Field("MaxReplicas", true, Leaf("uint64", Number(0))), Field("Platforms", true, Leaf("[]Platform", Nil))])
  const EMPTY_POLICY := RestartPolicy("", None, None, None)

  function NormalizeContainer(c: ContainerSpec): ContainerSpec {
    c.(isolation := if c.isolation == "" then "default" else c.isolation,
       stopGracePeriod := if c.stopGracePeriod == None then Some(STOP_GRACE_PERIOD) else c.stopGracePeriod,
       dnsConfig := if c.dnsConfig == None then Some(EMPTY_DNS) else c.dnsConfig)
  }

  function NormalizePolicy(p: RestartPolicy): RestartPolicy {
    p.(condition := if p.condition == "" then "any" else p.condition,
       delay := if p.delay == None then Some(RESTART_DELAY) else p.delay,
       maxAttempts := if p.maxAttempts == None then Some(0) else p.maxAttempts)
  }

  function NormalizeRuntime(s: Spec): string {
    if s.runtime != "" then s.runtime
    else if s.containerSpec.Some? && s.pluginSpec == None then "container"
    else if s.pluginSpec.Some? && s.containerSpec == None then "plugin"
    else ""
  }

  function Normalize(s: Spec): Spec {
    s.(runtime := NormalizeRuntime(s),
       containerSpec := if s.containerSpec == None then None else Some(NormalizeContainer(s.containerSpec.value)),
       resources := if s.resources == None then Some(EMPTY_RESOURCES) else s.resources,
       restartPolicy := Some(NormalizePolicy(if s.restartPolicy == None then EMPTY_POLICY else s.restartPolicy.value)),
       placement := if s.placement == None then Some(EMPTY_PLACEMENT) else s.placement)
  }

  /** Nothing is left for the engine to fill in; the runtime is left open only between both specifications and none. */
  predicate Explicit(s: Spec) {
    && (s.runtime == "" ==> (s.containerSpec.Some? <==> s.pluginSpec.Some?))
    && (s.containerSpec.Some? ==>
          && s.containerSpec.value.isolation != "" && s.containerSpec.value.stopGracePeriod.Some?
          && s.containerSpec.value.dnsConfig.Some?)
    && s.resources.Some? && s.placement.Some? && s.restartPolicy.Some?
    && s.restartPolicy.value.condition != "" && s.restartPolicy.value.delay.Some?
    && s.restartPolicy.value.maxAttempts.Some?
  }

  /** Normalizing makes a specification explicit, and leaves exactly the explicit ones as they are. */
  lemma NormalizeFixesExactlyExplicit(s: Spec)
    ensures Explicit(Normalize(s))
    ensures Normalize(s) == s <==> Explicit(s)
  {
    if Explicit(s) {
      assert NormalizeRuntime(s) == s.runtime && NormalizePolicy(s.restartPolicy.value) == s.restartPolicy.value;
    }
  }

  /** A struct of the kind with every field nil or zero. */
  predicate Zero(v: Value, kind: string, fields: nat) {
    && v.Struct? && v.kind == kind && |v.fields| == fields
    && forall i :: 0 <= i < fields ==>
         || (v.fields[i].value.Pointer? && v.fields[i].value.target == None)
         || (v.fields[i].value.Leaf? && v.fields[i].value.data in {Nil, Number(0)})
  }

  predicate ContainerFilledIn(before: ContainerSpec, after: ContainerSpec) {
    && after.others == before.others
    && (if before.isolation != "" then after.isolation == before.isolation else after.isolation == "default")
    && (if before.stopGracePeriod.Some? then after.stopGracePeriod == before.stopGracePeriod
        else after.stopGracePeriod == Some(10 * 1_000_000_000))
    && (if before.dnsConfig.Some? then after.dnsConfig == before.dnsConfig
        else after.dnsConfig.Some? && Zero(after.dnsConfig.value, "DNSConfig", 3))
  }

  predicate PolicyFilledIn(before: Option<RestartPolicy>, after: RestartPolicy) {
    && (if before.Some? && before.value.condition != "" then after.condition == before.value.condition
        else after.condition == "any")
    && (if before.Some? && before.value.delay.Some? then after.delay == before.value.delay
        else after.delay == Some(5 * 1_000_000_000))
    && (if before.Some? && before.value.maxAttempts.Some? then after.maxAttempts == before.value.maxAttempts
        else after.maxAttempts == Some(0))
    && after.window == if before.Some? then before.value.window else None
  }

  /** What a specification sets it keeps; what it leaves open gets the engine's default. */
  lemma NormalizeFillsIn(s: Spec)
    ensures var n := Normalize(s);
      && n.pluginSpec == s.pluginSpec && n.networkAttachmentSpec == s.networkAttachmentSpec
      && n.networks == s.networks && n.logDriver == s.logDriver && n.forceUpdate == s.forceUpdate
      && (s.runtime != "" ==> n.runtime == s.runtime)
      && (s.runtime == "" ==>
            && (n.runtime == "container" <==> s.containerSpec.Some? && s.pluginSpec == None)
            && (n.runtime == "plugin" <==> s.pluginSpec.Some? && s.containerSpec == None)
            && n.runtime in {"", "container", "plugin"})
      && (n.containerSpec.Some? <==> s.containerSpec.Some?)
      && (s.containerSpec.Some? ==> ContainerFilledIn(s.containerSpec.value, n.containerSpec.value))
      && n.restartPolicy.Some? && PolicyFilledIn(s.restartPolicy, n.restartPolicy.value)
      && (if s.resources.Some? then n.resources == s.resources
          else n.resources.Some? && Zero(n.resources.value, "ResourceRequirements", 2))
      && (if s.placement.Some? then n.placement == s.placement
          else n.placement.Some? && Zero(n.placement.value, "Placement", 4))
  {
    assert "container"[0] != "plugin"[0];
  }

  /** Normalizing twice is normalizing once. */
  lemma NormalizeIsIdempotent(s: Spec)
    ensures Normalize(Normalize(s)) == Normalize(s)
  {
    NormalizeFixesExactlyExplicit(s);
    NormalizeFixesExactlyExplicit(Normalize(s));
  }

  function Optional(kind: string, n: Option<int>): Value {
    Pointer(kind, if n == None then None else Some(Leaf("int64", Number(n.value))))
  }

  function ReflectContainer(c: ContainerSpec): Value {
    Struct("ContainerSpec", [
      Field("Isolation", true, Leaf("Isolation", Text(c.isolation))),
      Field("StopGracePeriod", true, Optional("Duration", c.stopGracePeriod)),
      Field("DNSConfig", true, Pointer("DNSConfig", c.dnsConfig))] + c.others)
  }

  function ReflectPolicy(p: RestartPolicy): Value {
    Struct("RestartPolicy", [
      Field("Condition", true, Leaf("RestartPolicyCondition", Text(p.condition))),
      Field("Delay", true, Optional("Duration", p.delay)),
      Field("MaxAttempts", true,
        Pointer("uint64", if p.maxAttempts == None then None else Some(Leaf("uint64", Number(p.maxAttempts.value))))),
      Field("Window", true, Optional("Duration", p.window))])
  }

  /** The fields of a task specification in the order of the engine's type. */
  function Reflect(s: Spec): Value {
    Struct("TaskSpec", [
      Field("ContainerSpec", true,
        Pointer("ContainerSpec",
                if s.containerSpec == None then None else Some(ReflectContainer(s.containerSpec.value)))),
      Field("PluginSpec", true, Pointer("PluginSpec", s.pluginSpec)),
      Field("NetworkAttachmentSpec", true, Pointer("NetworkAttachmentSpec", s.networkAttachmentSpec)),
      Field("Resources", true, Pointer("ResourceRequirements", s.resources)),
      Field("RestartPolicy", true,
        Pointer("RestartPolicy", if s.restartPolicy == None then None else Some(ReflectPolicy(s.restartPolicy.value)))),
      Field("Placement", true, Pointer("Placement", s.placement)),
      Field("Networks", true, Leaf("[]NetworkAttachmentConfig", Elements(s.networks))),
      Field("LogDriver", true, Pointer("Driver", s.logDriver)),
      Field("ForceUpdate", true, Leaf("uint64", Number(s.forceUpdate))),
      Field("Runtime", true, Leaf("RuntimeType", Text(s.runtime)))])
  }

  const NAMES := ["ContainerSpec", "PluginSpec", "NetworkAttachmentSpec", "Resources", "RestartPolicy", "Placement",
                  "Networks", "LogDriver", "ForceUpdate", "Runtime"]

  lemma NamesHoldNoSeparator(i: nat)
    requires i < 10
    ensures '.' !in NAMES[i]
  {
  }

  /** Length and third letter tell the field names apart. */
  lemma NamesAreDistinct(i: nat, j: nat)
    requires i < j < 10
    ensures NAMES[i] != NAMES[j]
  {
    assert |NAMES[i]| != |NAMES[j]| || NAMES[i][2] != NAMES[j][2];
  }

  lemma ReflectHasNames(s: Spec, i: nat)
    requires i < 10
    ensures |Reflect(s).fields| == 10 && Reflect(s).fields[i].exported && Reflect(s).fields[i].name == NAMES[i]
  {
  }

  lemma ReflectIsPlain(s: Spec)
    ensures Plain(Reflect(s)) && |Reflect(s).fields| == 10
    ensures Reflect(s).fields[5].name == NAMES[5] && Reflect(s).fields[8].name == NAMES[8]
  {
    var l := Reflect(s);
    forall i | 0 <= i < |l.fields| ensures l.fields[i].exported && '.' !in l.fields[i].name {
      ReflectHasNames(s, i);
      NamesHoldNoSeparator(i);
    }
    forall i, j | 0 <= i < j < |l.fields| ensures l.fields[i].name != l.fields[j].name {
      ReflectHasNames(s, i);
      ReflectHasNames(s, j);
      NamesAreDistinct(i, j);
    }
    ReflectHasNames(s, 5);
    ReflectHasNames(s, 8);
  }

  lemma ReflectPolicyIsFaithful(a: RestartPolicy, b: RestartPolicy)
    requires ReflectPolicy(a) == ReflectPolicy(b)
    ensures a == b
  {
    forall i | 0 <= i < 4 ensures ReflectPolicy(a).fields[i].value == ReflectPolicy(b).fields[i].value {}
  }

  lemma ReflectContainerIsFaithful(a: ContainerSpec, b: ContainerSpec)
    requires ReflectContainer(a) == ReflectContainer(b)
    ensures a == b
  {
    var l, r := ReflectContainer(a).fields, ReflectContainer(b).fields;
    assert l[0].value == r[0].value && l[1].value == r[1].value && l[2].value == r[2].value;
    assert a.others == l[3..] && b.others == r[3..];
  }

  predicate FieldSame(a: Spec, b: Spec, i: nat) {
    match i
    case 0 => a.containerSpec == b.containerSpec
    case 1 => a.pluginSpec == b.pluginSpec
    case 2 => a.networkAttachmentSpec == b.networkAttachmentSpec
    case 3 => a.resources == b.resources
    case 4 => a.restartPolicy == b.restartPolicy
    case 5 => a.placement == b.placement
    case 6 => a.networks == b.networks
    case 7 => a.logDriver == b.logDriver
    case 8 => a.forceUpdate == b.forceUpdate
    case _ => a.runtime == b.runtime
  }

  /** One field of a reflected specification is equal exactly when the specification's own field is. */
  lemma FieldEqualIff(a: Spec, b: Spec, i: nat)
    requires i < 10
    ensures |Reflect(a).fields| == |Reflect(b).fields| == 10
    ensures Reflect(a).fields[i].value == Reflect(b).fields[i].value <==> FieldSame(a, b, i)
  {
    if i == 0 && a.containerSpec.Some? && b.containerSpec.Some?
       && ReflectContainer(a.containerSpec.value) == ReflectContainer(b.containerSpec.value) {
      ReflectContainerIsFaithful(a.containerSpec.value, b.containerSpec.value);
    }
    if i == 4 && a.restartPolicy.Some? && b.restartPolicy.Some?
       && ReflectPolicy(a.restartPolicy.value) == ReflectPolicy(b.restartPolicy.value) {
      ReflectPolicyIsFaithful(a.restartPolicy.value, b.restartPolicy.value);
    }
  }

  lemma SameIfAllFieldsSame(a: Spec, b: Spec)
    requires forall i :: 0 <= i < 10 ==> FieldSame(a, b, i)
    ensures a == b
  {
    assert FieldSame(a, b, 0) && FieldSame(a, b, 1) && FieldSame(a, b, 2) && FieldSame(a, b, 3) && FieldSame(a, b, 4);
    assert FieldSame(a, b, 5) && FieldSame(a, b, 6) && FieldSame(a, b, 7) && FieldSame(a, b, 8) && FieldSame(a, b, 9);
  }

  /** Reflection tells specifications apart. */
  lemma ReflectIsFaithful(a: Spec, b: Spec)
    ensures SameType(Reflect(a), Reflect(b))
    ensures Reflect(a) == Reflect(b) <==> a == b
  {
    if Reflect(a) == Reflect(b) {
      forall i | 0 <= i < 10 ensures FieldSame(a, b, i) { FieldEqualIff(a, b, i); }
      SameIfAllFieldsSame(a, b);
    }
  }

  // ---------------------------------------------------------------- the comparison

  datatype Comparison = Comparison(mismatchPaths: seq<string>, olderForceUpdateOnly: bool)

  /** A task specification, already normalized, against a service template. */
  function Compare(task: Spec, template: Spec): Comparison {
    var t := Normalize(template);
    if task == t then Comparison([], false)
    else
      var paths := DifferencePaths(Reflect(t), Reflect(task), "TaskTemplate");
      Comparison(paths, task.forceUpdate < t.forceUpdate && |paths| == 1 && paths[0] == "TaskTemplate.ForceUpdate")
  }

  method CompareServiceTemplate(task: Spec, template: Spec) returns (c: Comparison)
    ensures c == Compare(task, template)
  {
    var t := Normalize(template);
    if task == t {
      return Comparison([], false);
    }
    var paths := AppendDifferences(Reflect(t), Reflect(task), "TaskTemplate", []);
    c := Comparison(paths, task.forceUpdate < t.forceUpdate && |paths| == 1 && paths[0] == "TaskTemplate.ForceUpdate");
  }

  predicate Equal(c: Comparison) {
    c.mismatchPaths == []
  }

  predicate PlacementOnly(c: Comparison) {
    c.mismatchPaths != [] &&
    forall p :: p in c.mismatchPaths ==> p == "TaskTemplate.Placement" || "TaskTemplate.Placement." <= p
  }

  /** The comparison reports equality exactly for equal normalized specifications. */
  lemma EqualIff(task: Spec, template: Spec)
    ensures Equal(Compare(task, template)) <==> task == Normalize(template)
  {
    var t := Normalize(template);
    ReflectIsFaithful(t, task);
    NoPathsIffEqual(Reflect(t), Reflect(task), "TaskTemplate");
  }

  lemma OnlyFieldDiffersIff(a: Spec, b: Spec, k: nat)
    requires k < 10 && SameType(Reflect(a), Reflect(b)) && |Reflect(a).fields| == 10
    ensures OnlyFieldDiffers(Reflect(a), Reflect(b), k) <==>
      !FieldSame(a, b, k) && forall i :: 0 <= i < 10 && i != k ==> FieldSame(a, b, i)
  {
    forall i | 0 <= i < 10
      ensures Reflect(a).fields[i].value == Reflect(b).fields[i].value <==> FieldSame(a, b, i)
    {
      FieldEqualIff(a, b, i);
    }
  }

  lemma OnlyPlacementDiffersIff(a: Spec, b: Spec)
    requires a != b && SameType(Reflect(a), Reflect(b)) && |Reflect(a).fields| == 10
    ensures OnlyFieldDiffers(Reflect(a), Reflect(b), 5) <==> b.(placement := a.placement) == a
  {
    OnlyFieldDiffersIff(a, b, 5);
    if OnlyFieldDiffers(Reflect(a), Reflect(b), 5) {
      var c := b.(placement := a.placement);
      forall i | 0 <= i < 10 ensures FieldSame(a, c, i) {
        if i != 5 { assert FieldSame(a, b, i); }
      }
      SameIfAllFieldsSame(a, c);
    }
  }

  lemma OnlyForceUpdateDiffersIff(a: Spec, b: Spec)
    requires a != b && SameType(Reflect(a), Reflect(b)) && |Reflect(a).fields| == 10
    ensures OnlyFieldDiffers(Reflect(a), Reflect(b), 8) <==> b.(forceUpdate := a.forceUpdate) == a
  {
    OnlyFieldDiffersIff(a, b, 8);
    if OnlyFieldDiffers(Reflect(a), Reflect(b), 8) {
      var c := b.(forceUpdate := a.forceUpdate);
      forall i | 0 <= i < 10 ensures FieldSame(a, c, i) {
        if i != 8 { assert FieldSame(a, b, i); }
      }
      SameIfAllFieldsSame(a, c);
    }
  }

  /** A mismatch is in placement only exactly when the specifications differ and overwriting Placement makes them
      equal. */
  lemma PlacementOnlyIff(task: Spec, template: Spec)
    ensures var t := Normalize(template);
      PlacementOnly(Compare(task, template)) <==> task != t && task.(placement := t.placement) == t
  {
    var t := Normalize(template);
    var l, r := Reflect(t), Reflect(task);
    ReflectIsFaithful(t, task);
    ReflectIsPlain(t);
    if task != t {
      AllUnderIff(l, r, "TaskTemplate", 5);
      OnlyPlacementDiffersIff(t, task);
      assert "TaskTemplate" + "." + "Placement" == "TaskTemplate.Placement";
      assert "TaskTemplate.Placement" + "." == "TaskTemplate.Placement.";
    }
  }

  lemma OnlyForceUpdateShownIff(t: Spec, task: Spec)
    requires task != t
    ensures DifferencePaths(Reflect(t), Reflect(task), "TaskTemplate") == ["TaskTemplate.ForceUpdate"] <==>
      task.(forceUpdate := t.forceUpdate) == t
  {
    ReflectIsFaithful(t, task);
    ReflectIsPlain(t);
    SinglePathIff(Reflect(t), Reflect(task), "TaskTemplate", 8);
    OnlyForceUpdateDiffersIff(t, task);
    assert "TaskTemplate" + "." + "ForceUpdate" == "TaskTemplate.ForceUpdate";
  }

  /** Only an older forced update is reported exactly when nothing but ForceUpdate differs and the task's is smaller. */
  lemma OlderForceUpdateOnlyIff(task: Spec, template: Spec)
    ensures var t := Normalize(template);
      Compare(task, template).olderForceUpdateOnly <==>
        task.(forceUpdate := t.forceUpdate) == t && task.forceUpdate < t.forceUpdate
  {
    var t := Normalize(template);
    if task != t { OnlyForceUpdateShownIff(t, task); }
  }
}
