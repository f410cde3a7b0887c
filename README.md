# VaporDSL route trees in Dafny

This project models the core of VaporDSL, a result-builder DSL for declaring Vapor routes.
It covers the route tree that declarations build and the `boot(routes:)` walk that turns
the tree into route registrations.

- **Node model** (`tree.dfy`, module `RouteTree`). A tree has five kinds of node:
  - a `Route` endpoint;
  - a `Group`, which adds path components and a `then` hook;
  - a `MiddlewareGroup`, which adds middlewares;
  - a `TupleRoute`, which holds ordered siblings;
  - `Custom`, a user-defined `RouteBuildable` whose `body` is another node.

  `BuildBlock`, `BuildEitherFirst` and `BuildEitherSecond` are the `RouteBuilder`
  combinators. `NewGroup` and `NewMiddlewareGroup` are the initialisers, with their
  defaults.
- **Endpoints** (`endpoint.dfy`, module `Endpoints`). `NewRoute` is the `Route`
  convenience initialiser with its defaults: GET, `.collect`, and the parent's root path.
  `Respond` is the decision the responder makes for each request: collect the body or
  not, with which limit, and then call the handler.
- **The walk, as a specification** (`flatten.dfy`, module `Flattening`). `Flatten` is a
  depth-first, pre-order walk. It threads a context down the tree: the path prefix and
  the middleware stack of the scoped builder. It returns the registrations made, in
  order, together with the error that stopped the walk, if there was one.
- **The walk, as it runs** (`router.dfy`, module `Booting`). `Router` is the route table,
  kept as an append-only log. Each `boot` method is a method that appends to the log.
  `BootTuple` keeps the source's loop. Every method is proved to append exactly
  `Flatten(node, ctx).registrations` and to return exactly `Flatten(node, ctx).failure`.
- **Properties** (`properties.dfy`, module `FlattenProperties`):
  - order preservation for every arity;
  - sibling isolation;
  - a failure aborts the remaining siblings;
  - a nested `TupleRoute` behaves as if spliced in;
  - every endpoint is registered once, in pre-order;
  - with default hooks, the walk agrees with a separate bottom-up definition (`Declared`).
    This gives the prefix and middleware laws for `Group` and `MiddlewareGroup`.
- **The source's own dispatch** (`as_written.dfy`, module `AsWritten`). This is the same
  walk with Swift's `as? Route` tests and the protocol's default `boot`, bounded by fuel.
  It shows that a `Route` reached through the default `boot` is never registered (see
  Findings). Wherever the source's walk finishes, it agrees with `Flatten`. It finishes,
  given enough fuel, exactly on the trees where every `Route` the walk reaches is the
  direct content or element of a `Group`, `MiddlewareGroup` or `TupleRoute` (`Bootable`);
  on every other tree it never finishes.
- **Examples** (`examples.dfy`). These are the documentation's examples, worked through
  as lemmas.

The router backend is abstract. The model assumes the following about Vapor, because
these sources do not show it:
- `grouped(path)` appends the path components to the prefix;
- `grouped(middlewares)` adds the middlewares inside those already in scope;
- `add(route)` records the route with the builder's prefix and middleware stack, and
  never fails.

In the sources, `routes.add` does not throw. A component that implements its own
throwing `boot` is not modelled: `Custom` always runs the default `boot`. So in the model
the only failures are those thrown by a `Group`'s `then` hook. Vapor's `RoutesBuilder.add`
does not throw, so the model's `add` never fails.

## Model

| member | source | states |
|---|---|---|
| `Endpoints.NewRouteDefaults` | Sources/VaporDSL/Route+init.swift:37-41 | With every argument omitted, a route has method GET, the empty path (the parent's root) and strategy `.collect` with no explicit maximum |
| `Endpoints.NewRouteKeepsArguments` | Sources/VaporDSL/Route+init.swift:98 | The method and path given to the initialiser are the route's own, unchanged; the responder keeps the strategy and handler |
| `Endpoints.Respond` | Sources/VaporDSL/Route+init.swift:85-96 | The handler is called exactly once, as the last step. The body is collected first if and only if the strategy is `.collect` and the body is not yet buffered. The limit is the explicit maximum if one is given, otherwise the application's default |
| `Endpoints.DefaultRouteCollectsWithApplicationLimit` | Sources/VaporDSL/Route+init.swift:44-50 | A route with every default collects an unbuffered body with `defaultMaxBodySize`, then calls the handler; a buffered body goes straight to the handler |
| `Endpoints.StreamNeverCollects` | Sources/VaporDSL/Route+init.swift:92-94 | With `.stream` the handler is called directly, with no collection step |
| `RouteTree.BuildBlock` | Sources/VaporDSL/RouteBuilder.swift:14-75 | A one-component block is that component, with no wrapper. A block of k ≥ 2 components is a `TupleRoute` whose elements are exactly the components, in argument order; nested tuples are not spliced |
| `RouteTree.NewGroup` | Sources/VaporDSL/Group.swift:38-42 | The group keeps the path, content and `then` hook it is given |
| `RouteTree.NewGroupDefaults` | Sources/VaporDSL/Group.swift:38-42 | With the arguments omitted, a group has the empty path and the identity hook |
| `RouteTree.NewMiddlewareGroup` | Sources/VaporDSL/Group.swift:82-85 | The middleware group keeps its middlewares, in declaration order, and its content |
| `RouteTree.BuildEitherPassesThrough` | Sources/VaporDSL/RouteBuilder.swift:18-24 | Both `buildEither` forms return the chosen component unchanged |
| `Flattening.GroupScope` | Sources/VaporDSL/Group.swift:45 | A group's scoped builder has the parent's middlewares and the parent's prefix followed by the group's path; an empty path leaves the prefix as it is |
| `Flattening.MiddlewareScope` | Sources/VaporDSL/Group.swift:88 | The scoped builder keeps the prefix; its middleware stack is the parent's stack followed by the group's middlewares, in order |
| `Flattening.Flatten` | Sources/VaporDSL/RouteBuilder.swift:116-120 | The walk of any node registers at most one entry per endpoint of the tree, and exactly one per endpoint when no hook throws (the content of the walk is stated by the lemmas below and matched by `Booting.Boot`) |
| `Flattening.FlattenAllCount` | Sources/VaporDSL/RouteBuilder.swift:94-106 | The same bound for `FlattenAll`, the tuple's loop: its elements walked in order on one builder, stopping at the first error |
| `FlattenProperties.SiblingIsolation` | Sources/VaporDSL/RouteBuilder.swift:94-106 | Walking siblings `a + b` walks `a`, then, unless `a` failed, walks `b` on the same builder, as if `a` were not there |
| `FlattenProperties.FlattenAllExtend` | Sources/VaporDSL/RouteBuilder.swift:99-105 | One more loop iteration appends exactly the next element's registrations |
| `FlattenProperties.BuildBlockRegistersInOrder` | Sources/VaporDSL/RouteBuilder.swift:32-35 | Booting a block of any arity registers its components in argument order, all on the block's builder |
| `FlattenProperties.FailureStopsSiblings` | Sources/VaporDSL/RouteBuilder.swift:99-105 | When element i throws, the walk's log is the earlier elements' registrations plus what element i made before throwing; no later sibling is registered, and the error is returned |
| `FlattenProperties.DefaultBootRegistersBody` | Sources/VaporDSL/RouteBuilder.swift:117-119 | The default `boot` registers the component's body on the same builder, with the context unchanged |
| `FlattenProperties.NestedTupleSplices` | Sources/VaporDSL/RouteBuilder.swift:102-103 | A nested `TupleRoute` kept as one element registers exactly what splicing its elements in its place would |
| `FlattenProperties.RegistersLeavesInOrder` | Sources/VaporDSL/RouteBuilder.swift:99-104 | The routes registered are the tree's endpoints in pre-order, left to right, each once (all of them on success, a leading part of them when a hook throws) |
| `FlattenProperties.FlattenMatchesDeclaration` | Sources/VaporDSL/Group.swift:44-53 | With default hooks, booting under any builder never fails and registers the bottom-up declaration of the tree (groups prefix, middleware groups wrap, tuples concatenate), rebased under that builder |
| `FlattenProperties.ContextIsCompositional` | Sources/VaporDSL/Group.swift:45-46 | With default hooks, booting under a builder equals booting at the root and then adding the builder's prefix and middlewares to every registration |
| `FlattenProperties.GroupScopesContent` | Sources/VaporDSL/Group.swift:44-53 | For any content, hooks included, a group with the default hook boots its content on the builder whose prefix is the parent's followed by the group's path, with the parent's middlewares |
| `FlattenProperties.EmptyGroupTransparent` | Sources/VaporDSL/Group.swift:45 | For any content, a group with neither a path nor a hook has no effect at all |
| `FlattenProperties.GroupPrefixesContent` | Sources/VaporDSL/Group.swift:38-53 | When every hook inside is the default, a group with the default hook puts its path before every registration of its content, outer segments first, and leaves middlewares alone |
| `FlattenProperties.MiddlewareGroupWrapsContent` | Sources/VaporDSL/Group.swift:82-95 | When every hook inside is the default, a middleware group scopes every registration of its content with its middlewares, in declaration order inside those already in scope, and leaves the path prefix alone |
| `Booting.Router.Add` | Sources/VaporDSL/RouteBuilder.swift:101 | `add` appends one registration carrying the builder's prefix and middlewares, and nothing else changes |
| `Booting.Boot` | Sources/VaporDSL/RouteBuilder.swift:116-120 | Booting any node appends exactly `Flatten`'s registrations to the log and returns exactly its error |
| `Booting.BootGroup` | Sources/VaporDSL/Group.swift:44-53 | The path scope is applied, then the hook, then the content is added or registered on the hook's builder. If the hook throws, the log is unchanged and the error is returned |
| `Booting.BootMiddlewareGroup` | Sources/VaporDSL/Group.swift:87-95 | The content is added or registered on the builder scoped by the group's middlewares, and errors propagate out |
| `Booting.AddOrBoot` | Sources/VaporDSL/Group.swift:48-52 | A container's `if let route = content as? Route { add } else { register }`, also at Group.swift:90-94 and RouteBuilder.swift:100-104: appends exactly `Flatten`'s registrations for the node and returns its error |
| `Booting.BootTuple` | Sources/VaporDSL/RouteBuilder.swift:94-106 | The loop adds or boots the elements in tuple order on the same builder and stops at the first error. Its invariant is that the log holds exactly the registrations of the elements done so far |
| `Booting.BootApplication` | Sources/VaporDSL/Application+init.swift:51 | Registering the root on a new route table leaves in it exactly the root's flattening under the empty context |
| `AsWritten.BootAsWritten` | Sources/VaporDSL/RouteBuilder.swift:116-120 | The source's own dispatch, with `as? Route` tests and the default `boot`: whenever it finishes, it has registered exactly `Flatten`'s registrations and reports exactly its error |
| `AsWritten.RegisterRootAsWritten` | Sources/VaporDSL/Application+init.swift:51 | Registering the root's `body` as written: whenever it finishes, it agrees with `Flatten` of the root under the empty context |
| `AsWritten.RouteBootNeverFinishes` | Sources/VaporDSL/Route+init.swift:102-106 | As written, booting a `Route` through the default `boot` never finishes, for any fuel |
| `AsWritten.BareRouteIsNeverRegistered` | Sources/VaporDSL/RouteBuilder.swift:117-119 | As written, a root collection that is one `Route`, and a component whose body is one `Route`, never register it |
| `AsWritten.FlattenRegistersBareRoute` | Sources/VaporDSL/RouteBuilder.swift:100-101 | The corrected walk registers such a route once, under the builder it is booted on, as the containers do |
| `AsWritten.AsWrittenAgreesWithFlatten` | Sources/VaporDSL/Group.swift:48-52 | On every tree where each `Route` the walk reaches is the direct content of a container (routes below a throwing hook are not reached), and with fuel at least the nesting depth, the source's walk finishes with exactly `Flatten`'s registrations and error |
| `AsWritten.AsWrittenAgreesWithFlattenAll` | Sources/VaporDSL/RouteBuilder.swift:99-105 | The same for the tuple loop, where each element the loop reaches (none after one that throws) is a `Route`, which is added, or a bootable node, which is registered |
| `AsWritten.UnbootableNeverFinishes` | Sources/VaporDSL/RouteBuilder.swift:116-120 | Conversely, on every tree where the walk reaches a `Route` other than as the direct content of a container, the source's walk never finishes, for any fuel |
| `AsWritten.UnbootableNeverFinishesAll` | Sources/VaporDSL/RouteBuilder.swift:99-105 | The same for the tuple loop: a reached element that is neither a `Route` nor bootable keeps the loop from finishing |
| `AsWritten.ThrowingHookShieldsRoute` | Sources/VaporDSL/Group.swift:46-47 | A group whose hook throws never reaches its content, so a bare route inside it does no harm: the walk finishes with the hook's error |
| `AsWritten.AddOrRegister` | Sources/VaporDSL/Group.swift:48-52 | A container's `as? Route` test as written: a `Route` is added under the builder, anything else is booted; whenever it finishes, it agrees with `Flatten` |
| `AsWritten.BootElementsAsWritten` | Sources/VaporDSL/RouteBuilder.swift:99-105 | `TupleRoute.boot`'s loop as written: whenever it finishes, it agrees with `FlattenAll`, the elements in order stopping at the first error |
| `DocumentedExamples.ApiGroupRegistrations` | Sources/VaporDSL/Group.swift:18-30 | The documented `Group("api")` registers GET /api, GET /api/todos and POST /api/todos, in that order, with no middleware and the default strategy |
| `DocumentedExamples.NestedGroupsConcatenate` | Sources/VaporDSL/Group.swift:13 | A group inside a group registers at the outer path followed by the inner path |
| `DocumentedExamples.MiddlewareDeclarationOrder` | Sources/VaporDSL/Group.swift:66-74 | `MiddlewareGroup(A, B)` inside a scope holding `Outer` registers with the stack Outer, A, B |
| `DocumentedExamples.HookFailureAbortsWalk` | Sources/VaporDSL/Group.swift:46 | A throwing `then` hook in the middle of a tuple ends the walk: the earlier sibling stays registered and the later one is not |

## Findings

| source | as written | input that shows it | evidently intended | confidence | as-written member | corrected member |
|---|---|---|---|---|---|---|
| Sources/VaporDSL/RouteBuilder.swift:117-119 | `Route` has no `boot` of its own, so it uses the default `boot`, which registers `body`. A route's `body` is the route itself (Route+init.swift:102-106), so the call recurses without end. Only the containers' `as? Route` branches avoid it | `Application { Route("x") { req in "x" } }`: a single root route, registered at Application+init.swift:51. Or a custom `RouteBuildable` whose `body` is one `Route` | The route is added once to the builder, as the containers do | medium; not executed | `AsWritten.RouteBootNeverFinishes` | `AsWritten.FlattenRegistersBareRoute` |

`Flatten`, `Booting.Boot` and everything built on them use the corrected behaviour: an
endpoint is a leaf wherever it occurs.

## Left out

- The rest of `Application+init.swift` is left out: the environment, the event loop
  group, `print`, `then` with `shutdown()` on error, `routes()` and global middleware.
  All of it is lifecycle or I/O. Only line 51, registering the root, is modelled, as
  `BootApplication`.
- `Package.swift` is left out: it is a build manifest.
- Vapor's router internals are not part of this model. What `grouped(path)`,
  `grouped(middlewares)`, `add` and `register(collection:)` do is taken as the
  assumption stated above. Vapor's `Route` is a class that the router may update in
  place; the model treats a route as a value.
- The runtime type inspection is replaced by exhaustive matching on `Node`. This covers
  the `Mirror` over the tuple, the `as? Route` and `as? RouteCollection` downcasts, and
  the silent skip of an element that is neither (no `RouteBuildable` can be such an
  element). `debug()` only prints, and is left out.
- `Never: RouteBuildable` is left out. It is a type-system device whose `body` is
  `fatalError()`, and no value of it exists.
- The actual body collection, async/await, `EventLoopFuture` chaining and response
  encoding are left out. So are errors raised while a request is handled. Only the
  decision to collect, and with which limit, is modelled (`Respond`). The async and the
  synchronous initialiser make the same decision and share one model.
- The ten-argument limit of `buildBlock` is an artefact of its overloads.
  `TupleRoute.elements` is an unbounded sequence.
- Handlers, middlewares, path components and thrown errors are opaque type parameters.
  HTTP methods are an enumeration with a `Raw` case. A body-size limit is a `nat`, so a
  negative `ByteCount` is not modelled.
- `Flattening.Flatten`: a `then` hook is modelled as a function from the scoped builder
  to a builder or an error. Routes that the hook itself registers on the builder it
  receives are not modelled.
- `Flattening.Flatten`: a component that implements its own `boot` (a `RouteBuildable`
  that overrides the default, or any other `RouteCollection` such as a controller) is not
  modelled, although the containers run it through `try register(collection:)`. `Custom`
  always runs the default `boot`, so in the model the only failures are thrown hooks.
- `AsWritten.BootAsWritten` uses a fuel bound. A run that is out of fuel for every fuel
  stands for the source's unbounded recursion, which in practice ends in a stack
  overflow.
