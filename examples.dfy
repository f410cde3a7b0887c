/** Concrete trees from the library's documentation, with path components,
    handlers, middlewares and errors all named by strings. */
module DocumentedExamples {
  import opened Endpoints
  import opened RouteTree
  import opened Flattening
  import opened FlattenProperties

  type Tree = Node<string, string, string, string>
  type Log = seq<Registration<string, string, string>>

  /** `Route(path..., on: method, use: handler)` as a tree node. */
  function Leaf(handler: string, path: seq<string> := [], httpMethod: HttpMethod := GET): Tree {
    Endpoint(NewRoute(handler, path, httpMethod))
  }

  /** The methods and full paths of a log, in order. */
  function Summary(log: Log): (s: seq<(HttpMethod, seq<string>)>)
    ensures |s| == |log|
    ensures forall i :: 0 <= i < |log| ==> s[i] == (log[i].route.httpMethod, log[i].FullPath())
  {
    if |log| == 0 then [] else [(log[0].route.httpMethod, log[0].FullPath())] + Summary(log[1..])
  }

  /** The `Group("api") { ... }` of the documentation comments. */
  function ApiGroup(): Tree {
    NewGroup(BuildBlock([Leaf("index"), Leaf("todos view", ["todos"]), Leaf("todo", ["todos"], POST)]), ["api"])
  }

  /** It registers GET /api, GET /api/todos and POST /api/todos, in that
      order, with no middleware and the default body strategy. */
  lemma ApiGroupRegistrations()
    ensures Flatten(ApiGroup(), Root()).failure == None
    ensures Summary(Flatten(ApiGroup(), Root()).registrations) ==
      [(GET, ["api"]), (GET, ["api", "todos"]), (POST, ["api", "todos"])]
    ensures forall r :: r in Flatten(ApiGroup(), Root()).registrations ==>
      r.middlewares == [] && r.route.responder.body == DefaultStrategy
  {
    ApiGroupLog();
    ApiLogSummary();
  }

  /** The registrations the documented group makes. */
  function ApiLog(): Log {
    [Registration([], ["api"], NewRoute("index")),
     Registration([], ["api"], NewRoute("todos view", ["todos"])),
     Registration([], ["api"], NewRoute("todo", ["todos"], POST))]
  }

  /** Their methods and full paths, and their shared middlewares and strategy. */
  lemma ApiLogSummary()
    ensures Summary(ApiLog()) == [(GET, ["api"]), (GET, ["api", "todos"]), (POST, ["api", "todos"])]
    ensures forall r :: r in ApiLog() ==> r.middlewares == [] && r.route.responder.body == DefaultStrategy
  {
    var log := ApiLog();
    assert ["api"] + [] == ["api"];
    assert ["api"] + ["todos"] == ["api", "todos"];
    assert Summary(log)[0] == (GET, ["api"]);
    assert Summary(log)[1] == (GET, ["api", "todos"]);
    assert Summary(log)[2] == (POST, ["api", "todos"]);
  }

  lemma ApiGroupLog()
    ensures Flatten(ApiGroup(), Root()) == Walk(ApiLog(), None)
  {
    var elements := [Leaf("index"), Leaf("todos view", ["todos"]), Leaf("todo", ["todos"], POST)];
    var api: Context<string, string> := Context(["api"], []);
    var r0 := Registration([], ["api"], NewRoute("index"));
    var r1 := Registration([], ["api"], NewRoute("todos view", ["todos"]));
    var r2 := Registration([], ["api"], NewRoute("todo", ["todos"], POST));
    assert GroupScope(Root(), ["api"]) == api;
    assert Identity<string, string, string>()(api) == Ok(api);
    assert Flatten(ApiGroup(), Root()) == FlattenAll(elements, api);
    assert elements[1..][1..] == [elements[2]];
    FlattenAllSingle(elements[2], api);
    assert FlattenAll(elements[1..][1..], api) == Walk([r2], None);
    assert FlattenAll(elements[1..], api) == Walk([r1] + [r2], None);
    assert FlattenAll(elements, api) == Walk([r0] + ([r1] + [r2]), None);
    assert [r0] + ([r1] + [r2]) == [r0, r1, r2];
  }

  /** Nested groups concatenate outer to inner: `Group("a") { Group("b") { Route() } }`
      registers at /a/b. */
  lemma NestedGroupsConcatenate()
    ensures Summary(Flatten(NewGroup(NewGroup(Leaf("h"), ["b"]), ["a"]), Root()).registrations) == [(GET, ["a", "b"])]
  {
    var a: Context<string, string> := Context(["a"], []);
    var ab: Context<string, string> := Context(["a", "b"], []);
    assert GroupScope(Root(), ["a"]) == a;
    assert Identity<string, string, string>()(a) == Ok(a);
    assert ["a"] + ["b"] == ["a", "b"];
    assert GroupScope(a, ["b"]) == ab;
    assert Identity<string, string, string>()(ab) == Ok(ab);
    assert ["a", "b"] + [] == ["a", "b"];
  }

  /** `MiddlewareGroup(A, B) { Route() }` inside a scope that already has
      `Outer`: the stack is Outer, A, B, outermost first. */
  lemma MiddlewareDeclarationOrder()
    ensures Flatten(NewMiddlewareGroup(["A", "B"], Leaf("h")), Context([], ["Outer"])).registrations
      == [Registration(["Outer", "A", "B"], [], NewRoute("h"))]
  {
    assert ["Outer"] + ["A", "B"] == ["Outer", "A", "B"];
  }

  /** A hook that throws stops the walk: `TupleRoute(Route("x"), Group("y", then: throws) {...}, Route("z"))`
      registers /x and then fails, and /z is never registered. */
  lemma HookFailureAbortsWalk()
    ensures Flatten(TupleRoute([Leaf("x", ["x"]), Group(["y"], Leaf("w"), c => Err("refused")), Leaf("z", ["z"])]), Root())
      == Walk([Registration([], [], NewRoute("x", ["x"]))], Some("refused"))
  {
    var elements: seq<Tree> := [Leaf("x", ["x"]), Group(["y"], Leaf("w"), c => Err("refused")), Leaf("z", ["z"])];
    assert elements[1..][0] == elements[1];
  }
}
