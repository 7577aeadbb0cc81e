/** Which paths a comparison of reflected values names: one for each deepest place where they differ, in order. */
module TaskDifferences {
  import opened Wrappers
  import opened TaskSpec

  // ---------------------------------------------------------------- places

  /** One step into a value: through a pointer, or into a field. */
  datatype Turn = Through | Into(field: nat)

  /** What two values hold at the same place; hidden fields, nil pointers and different types bar the way. */
  function At(l: Value, r: Value, route: seq<Turn>): Option<(Value, Value)> {
    if route == [] then Some((l, r))
    else if !SameType(l, r) then None
    else
      match route[0]
      case Through =>
        if l.Pointer? && l.target.Some? && r.target.Some? then At(l.target.value, r.target.value, route[1..]) else None
      case Into(i) =>
        if l.Struct? && i < |l.fields| && l.fields[i].exported then At(l.fields[i].value, r.fields[i].value, route[1..])
        else None
  }

  /** The path of a place: the names of the fields entered, each after a dot. */
  function PathTo(l: Value, route: seq<Turn>, path: string): string {
    if route == [] then path
    else
      match route[0]
      case Through => if l.Pointer? && l.target.Some? then PathTo(l.target.value, route[1..], path) else path
      case Into(i) =>
        if l.Struct? && i < |l.fields| then PathTo(l.fields[i].value, route[1..], path + "." + l.fields[i].name)
        else path
  }

  /** No step leads on to a difference. */
  ghost predicate Stops(l: Value, r: Value) {
    forall turn :: At(l, r, [turn]).Some? ==> At(l, r, [turn]).value.0 == At(l, r, [turn]).value.1
  }

  /** The values differ at the place, and at no place just below it. */
  ghost predicate Deepest(l: Value, r: Value, route: seq<Turn>) {
    && At(l, r, route).Some?
    && At(l, r, route).value.0 != At(l, r, route).value.1
    && Stops(At(l, r, route).value.0, At(l, r, route).value.1)
  }

  /** The first route that enters an earlier field comes first. */
  predicate Before(a: seq<Turn>, b: seq<Turn>) {
    && a != [] && b != []
    && (|| (a[0].Into? && b[0].Into? && a[0].field < b[0].field)
        || (a[0] == b[0] && Before(a[1..], b[1..])))
  }

  /** The route enters one of the first n fields. */
  predicate EntersBefore(route: seq<Turn>, n: nat) {
    route != [] && route[0].Into? && route[0].field < n
  }

  // ---------------------------------------------------------------- one step

  lemma {:induction false} EqualThroughout(l: Value, route: seq<Turn>)
    ensures At(l, l, route).Some? ==> At(l, l, route).value.0 == At(l, l, route).value.1
    decreases |route|
  {
    if route != [] && At(l, l, route).Some? {
      if route[0].Through? { EqualThroughout(l.target.value, route[1..]); }
      else { EqualThroughout(l.fields[route[0].field].value, route[1..]); }
    }
  }

  lemma {:induction false} AtStep(l: Value, r: Value, turn: Turn, rest: seq<Turn>)
    ensures At(l, r, [turn] + rest) ==
      if At(l, r, [turn]).Some? then At(At(l, r, [turn]).value.0, At(l, r, [turn]).value.1, rest) else None
  {
    assert ([turn] + rest)[1..] == rest && [turn][1..] == [];
  }

  /** A deepest place lies behind a step exactly if it is a deepest one of what the step leads to. */
  lemma {:induction false} DeepestStep(l: Value, r: Value, turn: Turn, rest: seq<Turn>)
    requires At(l, r, [turn]).Some?
    ensures Deepest(l, r, [turn] + rest) <==>
      Deepest(At(l, r, [turn]).value.0, At(l, r, [turn]).value.1, rest)
  {
    AtStep(l, r, turn, rest);
  }

  /** A step that leads nowhere, or to equal values, has no deepest place behind it. */
  lemma {:induction false} NothingBehind(l: Value, r: Value, turn: Turn, rest: seq<Turn>)
    requires At(l, r, [turn]).Some? ==> At(l, r, [turn]).value.0 == At(l, r, [turn]).value.1
    ensures !Deepest(l, r, [turn] + rest)
  {
    AtStep(l, r, turn, rest);
    if At(l, r, [turn]).Some? { EqualThroughout(At(l, r, [turn]).value.0, rest); }
  }

  lemma FirstTurn(route: seq<Turn>)
    requires route != []
    ensures route == [route[0]] + route[1..]
  {
  }

  /** Where no step leads on to a difference, the place itself is the only deepest one. */
  lemma OnlyHere(l: Value, r: Value, route: seq<Turn>)
    requires l != r && Stops(l, r)
    ensures Deepest(l, r, route) <==> route == []
  {
    if route != [] {
      FirstTurn(route);
      NothingBehind(l, r, route[0], route[1..]);
    }
  }

  lemma SameHere(l: Value, route: seq<Turn>)
    ensures !Deepest(l, l, route)
  {
    EqualThroughout(l, route);
  }

  // ---------------------------------------------------------------- lists of places

  /** The routes are deepest places in order, and their paths are the given ones. */
  ghost predicate Lists(l: Value, r: Value, path: string, routes: seq<seq<Turn>>, paths: seq<string>) {
    && |routes| == |paths|
    && (forall i :: 0 <= i < |routes| ==> Deepest(l, r, routes[i]) && PathTo(l, routes[i], path) == paths[i])
    && (forall i, j :: 0 <= i < j < |routes| ==> Before(routes[i], routes[j]))
  }

  function Behind(turn: Turn, routes: seq<seq<Turn>>): (r: seq<seq<Turn>>)
    ensures |r| == |routes| && forall i :: 0 <= i < |r| ==> r[i] == [turn] + routes[i]
  {
    seq(|routes|, i requires 0 <= i < |routes| => [turn] + routes[i])
  }

  function Entered(l: Value, turn: Turn, path: string): string {
    if turn.Into? && l.Struct? && turn.field < |l.fields| then path + "." + l.fields[turn.field].name else path
  }

  lemma {:induction false} PathStep(l: Value, r: Value, turn: Turn, rest: seq<Turn>, path: string)
    requires At(l, r, [turn]).Some?
    ensures PathTo(l, [turn] + rest, path) == PathTo(At(l, r, [turn]).value.0, rest, Entered(l, turn, path))
  {
    assert ([turn] + rest)[1..] == rest;
  }

  /** The places of what a step leads to, seen from before the step. */
  lemma {:induction false} ListsBehind(l: Value, r: Value, turn: Turn, path: string, routes: seq<seq<Turn>>,
                                       paths: seq<string>)
    requires At(l, r, [turn]).Some?
    requires Lists(At(l, r, [turn]).value.0, At(l, r, [turn]).value.1, Entered(l, turn, path), routes, paths)
    ensures Lists(l, r, path, Behind(turn, routes), paths)
  {
    var behind := Behind(turn, routes);
    forall i | 0 <= i < |routes| ensures Deepest(l, r, behind[i]) && PathTo(l, behind[i], path) == paths[i] {
      DeepestStep(l, r, turn, routes[i]);
      PathStep(l, r, turn, routes[i], path);
    }
    forall i, j | 0 <= i < j < |routes| ensures Before(behind[i], behind[j]) {
      assert ([turn] + routes[i])[1..] == routes[i] && ([turn] + routes[j])[1..] == routes[j];
    }
  }

  /** The places in later fields follow those in earlier ones. */
  lemma ListsAppend(l: Value, r: Value, path: string, n: nat, earlier: seq<seq<Turn>>, a: seq<string>,
                    later: seq<seq<Turn>>, b: seq<string>)
    requires Lists(l, r, path, earlier, a) && Lists(l, r, path, later, b)
    requires forall route :: route in earlier ==> EntersBefore(route, n)
    requires forall route :: route in later ==> route != [] && route[0] == Into(n)
    ensures Lists(l, r, path, earlier + later, a + b)
  {
    var all := earlier + later;
    forall i, j | 0 <= i < j < |all| ensures Before(all[i], all[j]) {
      if i < |earlier| <= j {
        assert all[i] in earlier && all[j] in later;
      } else if i < |earlier| {
        assert all[i] == earlier[i] && all[j] == earlier[j];
      } else {
        assert all[i] == later[i - |earlier|] && all[j] == later[j - |earlier|];
      }
    }
  }

  // ---------------------------------------------------------------- the theorem

  /** For any two values, the comparison names one path for each deepest place where they differ, in field order. */
  lemma {:induction false} PathsAreDeepestDifferences(l: Value, r: Value, path: string) returns (routes: seq<seq<Turn>>)
    ensures Lists(l, r, path, routes, DifferencePaths(l, r, path))
    ensures forall route :: Deepest(l, r, route) ==> route in routes
    decreases l, if l.Struct? then |l.fields| + 1 else 0
  {
    if l == r {
      routes := [];
      forall route ensures !Deepest(l, r, route) { SameHere(l, route); }
    } else if SameType(l, r) && l.Pointer? && l.target.Some? && r.target.Some? {
      var inner := PathsAreDeepestDifferences(l.target.value, r.target.value, path);
      routes := BehindPointer(l, r, path, inner);
    } else if SameType(l, r) && l.Struct? && FieldPaths(l, r, |l.fields|, path) != [] {
      routes := FieldsAreDeepestDifferences(l, r, |l.fields|, path);
      assert |routes| > 0 && Deepest(l, r, routes[0]);
      forall route | Deepest(l, r, route) ensures route in routes {
        if route == [] { OnlyHere(l, r, routes[0]); }
        else { AtStep(l, r, route[0], route[1..]); FirstTurn(route); }
      }
    } else {
      StopsAtLeaf(l, r, path);
      routes := [[]];
      assert Deepest(l, r, []);
      forall route | Deepest(l, r, route) ensures route in routes { OnlyHere(l, r, route); }
    }
  }

  lemma BehindPointer(l: Value, r: Value, path: string, inner: seq<seq<Turn>>) returns (routes: seq<seq<Turn>>)
    requires l != r && SameType(l, r) && l.Pointer? && l.target.Some? && r.target.Some?
    requires Lists(l.target.value, r.target.value, path, inner, DifferencePaths(l.target.value, r.target.value, path))
    requires forall route :: Deepest(l.target.value, r.target.value, route) ==> route in inner
    ensures Lists(l, r, path, routes, DifferencePaths(l, r, path))
    ensures forall route :: Deepest(l, r, route) ==> route in routes
  {
    routes := Behind(Through, inner);
    assert [Through][1..] == [];
    assert At(l, r, [Through]) == Some((l.target.value, r.target.value));
    ListsBehind(l, r, Through, path, inner, DifferencePaths(l.target.value, r.target.value, path));
    forall route | Deepest(l, r, route) ensures route in routes {
      assert !Stops(l, r);
      FirstTurn(route);
      assert route[0] == Through;
      DeepestStep(l, r, Through, route[1..]);
      var i :| 0 <= i < |inner| && inner[i] == route[1..];
      assert routes[i] == route;
    }
  }

  /** Without a differing exported field to enter, the comparison stops and names the place itself. */
  lemma {:induction false} StopsAtLeaf(l: Value, r: Value, path: string)
    requires l != r
    requires !(SameType(l, r) && l.Pointer? && l.target.Some? && r.target.Some?)
    requires SameType(l, r) && l.Struct? ==> FieldPaths(l, r, |l.fields|, path) == []
    ensures Stops(l, r) && DifferencePaths(l, r, path) == [path]
  {
    forall turn | At(l, r, [turn]).Some? ensures At(l, r, [turn]).value.0 == At(l, r, [turn]).value.1 {
      assert [turn][1..] == [];
      if l.fields[turn.field].value != r.fields[turn.field].value {
        var p := DifferingFieldShows(l, r, |l.fields|, path, turn.field);
      }
    }
  }

  lemma HiddenField(l: Value, r: Value, k: nat, route: seq<Turn>)
    requires l.Struct? && k < |l.fields| && !l.fields[k].exported && route != [] && route[0] == Into(k)
    ensures !Deepest(l, r, route)
  {
    FirstTurn(route);
    NothingBehind(l, r, Into(k), route[1..]);
  }

  lemma {:induction false} FieldsAreDeepestDifferences(l: Value, r: Value, n: nat, path: string)
    returns (routes: seq<seq<Turn>>)
    requires l.Struct? && SameType(l, r) && n <= |l.fields|
    ensures Lists(l, r, path, routes, FieldPaths(l, r, n, path))
    ensures forall route :: route in routes ==> EntersBefore(route, n)
    ensures forall route ::
      EntersBefore(route, n) && Deepest(l, r, route) ==> route in routes
    decreases l, n
  {
    if n == 0 {
      routes := [];
    } else {
      var k := n - 1;
      var earlier := FieldsAreDeepestDifferences(l, r, k, path);
      if l.fields[k].exported {
        var inner := PathsAreDeepestDifferences(l.fields[k].value, r.fields[k].value, path + "." + l.fields[k].name);
        routes := AfterField(l, r, k, path, earlier, inner);
      } else {
        routes := earlier;
        forall route | route != [] && route[0] == Into(k) ensures !Deepest(l, r, route) {
          HiddenField(l, r, k, route);
        }
      }
    }
  }

  lemma AfterField(l: Value, r: Value, k: nat, path: string, earlier: seq<seq<Turn>>, inner: seq<seq<Turn>>)
    returns (routes: seq<seq<Turn>>)
    requires l.Struct? && SameType(l, r) && k < |l.fields| && l.fields[k].exported
    requires Lists(l, r, path, earlier, FieldPaths(l, r, k, path))
    requires forall route :: route in earlier ==> EntersBefore(route, k)
    requires forall route ::
      EntersBefore(route, k) && Deepest(l, r, route) ==> route in earlier
    requires var base := path + "." + l.fields[k].name;
      Lists(l.fields[k].value, r.fields[k].value, base, inner,
            DifferencePaths(l.fields[k].value, r.fields[k].value, base))
    requires forall route :: Deepest(l.fields[k].value, r.fields[k].value, route) ==> route in inner
    ensures Lists(l, r, path, routes, FieldPaths(l, r, k + 1, path))
    ensures forall route :: route in routes ==> EntersBefore(route, k + 1)
    ensures forall route ::
      EntersBefore(route, k + 1) && Deepest(l, r, route) ==> route in routes
  {
    var base, later := path + "." + l.fields[k].name, Behind(Into(k), inner);
    assert [Into(k)][1..] == [];
    assert At(l, r, [Into(k)]) == Some((l.fields[k].value, r.fields[k].value));
    ListsBehind(l, r, Into(k), path, inner, DifferencePaths(l.fields[k].value, r.fields[k].value, base));
    ListsAppend(l, r, path, k, earlier, FieldPaths(l, r, k, path),
                later, DifferencePaths(l.fields[k].value, r.fields[k].value, base));
    routes := earlier + later;
    forall route | route != [] && route[0] == Into(k) && Deepest(l, r, route) ensures route in routes {
      FirstTurn(route);
      DeepestStep(l, r, Into(k), route[1..]);
      var i :| 0 <= i < |inner| && inner[i] == route[1..];
      assert later[i] == route;
    }
  }
}
