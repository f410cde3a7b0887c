/** The walk exactly as the source dispatches it, with a fuel bound on the
    depth of nested `boot` calls so that it can be written as a function.

    A `Route` is a `RouteBuildable` whose `body` is the route itself, and it
    has no `boot` of its own, so booting it runs the protocol's default
    `boot`, which registers its `body`: the same route again. The containers
    avoid that call by adding a direct `Route` content or element with
    `add`; a route reached any other way (the application's root collection,
    or the body of a user-defined component) is booted and never finishes.
    Wherever the as-written walk finishes it agrees with `Flatten`, which
    adds an endpoint as a leaf wherever it occurs. Given enough fuel, it
    finishes exactly on the trees whose walk reaches no route in those
    other ways (`Bootable`). */
module AsWritten {
  import opened Endpoints
  import opened RouteTree
  import opened Flattening

  /** A walk that finished, or ran out of fuel. */
  datatype Run<P, H, M, E> = Finished(walk: Walk<P, H, M, E>) | OutOfFuel

  /** `node.boot(routes:)` as written, each nested `boot` costing one unit of
      fuel. Whenever it finishes, it has done what `Flatten` says. */
  function BootAsWritten<P, H, M, E>(node: Node<P, H, M, E>, ctx: Context<P, M>, fuel: nat): (r: Run<P, H, M, E>)
    ensures r.Finished? ==> r.walk == Flatten(node, ctx)
    decreases fuel, 0, 0
  {
    if fuel == 0 then OutOfFuel
    else
      match node
      // `Route.body` is `self`, and the default `boot` registers `body`
      case Endpoint(_) => BootAsWritten(node, ctx, fuel - 1)
      case Group(path, content, hook) =>
        (match hook(GroupScope(ctx, path))
         case Err(e) => Finished(Walk([], Some(e)))
         case Ok(server) => AddOrRegister(content, server, fuel - 1))
      case MiddlewareGroup(middlewares, content) =>
        AddOrRegister(content, MiddlewareScope(ctx, middlewares), fuel - 1)
      case TupleRoute(elements) => BootElementsAsWritten(elements, ctx, fuel - 1)
      case Custom(body) => BootAsWritten(body, ctx, fuel - 1)
  }

  /** A container's `if let route = x as? Route { add } else { register }`. */
  function AddOrRegister<P, H, M, E>(node: Node<P, H, M, E>, ctx: Context<P, M>, fuel: nat): (r: Run<P, H, M, E>)
    ensures r.Finished? ==> r.walk == Flatten(node, ctx)
    decreases fuel, 1, 0
  {
    if node.Endpoint? then Finished(Walk([Added(ctx, node.route)], None))
    else BootAsWritten(node, ctx, fuel)
  }

  /** `TupleRoute.boot`'s loop as written. */
  function BootElementsAsWritten<P, H, M, E>(elements: seq<Node<P, H, M, E>>, ctx: Context<P, M>, fuel: nat): (r: Run<P, H, M, E>)
    ensures r.Finished? ==> r.walk == FlattenAll(elements, ctx)
    decreases fuel, 2, |elements|
  {
    if |elements| == 0 then Finished(Walk([], None))
    else
      match AddOrRegister(elements[0], ctx, fuel)
      case OutOfFuel => OutOfFuel
      case Finished(first) =>
        if first.failure.Some? then Finished(first)
        else
          match BootElementsAsWritten(elements[1..], ctx, fuel)
          case OutOfFuel => OutOfFuel
          case Finished(rest) => Finished(Then(first.registrations, rest))
  }

  /** The application's `register(collection: collection.body)`: the root's
      `body` is the root itself for every kind but a user-defined component,
      whose `body` is its content. */
  function RegisterRootAsWritten<P, H, M, E>(root: Node<P, H, M, E>, fuel: nat): (r: Run<P, H, M, E>)
    ensures r.Finished? ==> r.walk == Flatten(root, Root())
  {
    BootAsWritten(if root.Custom? then root.body else root, Root(), fuel)
  }

  /** As written, booting a route never finishes, whatever the fuel. */
  lemma {:induction false} RouteBootNeverFinishes<P, H, M, E>(route: Route<P, H>, ctx: Context<P, M>, fuel: nat)
    ensures BootAsWritten(Endpoint(route), ctx, fuel) == Run<P, H, M, E>.OutOfFuel
  {
    if fuel > 0 {
      RouteBootNeverFinishes<P, H, M, E>(route, ctx, fuel - 1);
    }
  }

  /** So neither a root collection that is a single route nor a component
      whose body is a single route ever registers it. */
  lemma BareRouteIsNeverRegistered<P, H, M, E>(route: Route<P, H>, ctx: Context<P, M>, fuel: nat)
    ensures RegisterRootAsWritten(Node<P, H, M, E>.Endpoint(route), fuel) == OutOfFuel
    ensures BootAsWritten(Custom(Node<P, H, M, E>.Endpoint(route)), ctx, fuel) == OutOfFuel
  {
    RouteBootNeverFinishes<P, H, M, E>(route, Root(), fuel);
    if fuel > 0 {
      RouteBootNeverFinishes<P, H, M, E>(route, ctx, fuel - 1);
    }
  }

  /** The corrected walk registers such a route once, under the builder it
      is booted on. */
  lemma FlattenRegistersBareRoute<P, H, M, E>(route: Route<P, H>, ctx: Context<P, M>)
    ensures Flatten(Node<P, H, M, E>.Endpoint(route), ctx) == Walk([Registration(ctx.middlewares, ctx.prefix, route)], None)
    ensures Flatten(Custom(Node<P, H, M, E>.Endpoint(route)), ctx) == Walk([Registration(ctx.middlewares, ctx.prefix, route)], None)
  {
  }

  // ---------------------------------------------------------------------
  // Where the source finishes, it agrees with Flatten

  /** The trees the source boots to completion on the builder `ctx`: every
      route that the walk reaches is the direct content or element of a
      container. A route below a group whose hook throws, or after a sibling
      that throws, is never reached and does not matter. */
  predicate Bootable<P, H, M, E>(node: Node<P, H, M, E>, ctx: Context<P, M>)
    decreases node, 1
  {
    match node
    case Endpoint(_) => false
    case Group(path, content, hook) =>
      (match hook(GroupScope(ctx, path))
       case Err(_) => true
       case Ok(server) => content.Endpoint? || Bootable(content, server))
    case MiddlewareGroup(middlewares, content) =>
      content.Endpoint? || Bootable(content, MiddlewareScope(ctx, middlewares))
    case TupleRoute(elements) => BootableAll(elements, ctx)
    case Custom(body) => Bootable(body, ctx)
  }

  predicate BootableAll<P, H, M, E>(elements: seq<Node<P, H, M, E>>, ctx: Context<P, M>)
    decreases elements, 0
  {
    |elements| == 0 ||
    ((elements[0].Endpoint? || Bootable(elements[0], ctx)) &&
     (Flatten(elements[0], ctx).failure.Some? || BootableAll(elements[1..], ctx)))
  }

  /** A group whose hook throws never reaches its content, so a bare route
      inside it does no harm: the walk finishes with the hook's error. */
  lemma ThrowingHookShieldsRoute<P, H, M, E>(route: Route<P, H>, path: seq<P>, hook: Hook<P, M, E>, ctx: Context<P, M>)
    requires hook(GroupScope(ctx, path)).Err?
    ensures Bootable(Group(path, Custom(Endpoint(route)), hook), ctx)
    ensures BootAsWritten(Group(path, Custom(Endpoint(route)), hook), ctx, 1)
      == Finished(Walk([], Some(hook(GroupScope(ctx, path)).error)))
  {
  }

  /** The depth of nested `boot` calls a tree needs. */
  function Depth<P, H, M, E>(node: Node<P, H, M, E>): nat
    decreases node, 1
  {
    match node
    case Endpoint(_) => 0
    case Group(_, content, _) => 1 + Depth(content)
    case MiddlewareGroup(_, content) => 1 + Depth(content)
    case TupleRoute(elements) => 1 + DepthAll(elements)
    case Custom(body) => 1 + Depth(body)
  }

  function DepthAll<P, H, M, E>(elements: seq<Node<P, H, M, E>>): nat
    decreases elements, 0
  {
    if |elements| == 0 then 0
    else
      var d, rest := Depth(elements[0]), DepthAll(elements[1..]);
      if d < rest then rest else d
  }

  /** Given enough fuel, the source's walk of a bootable tree finishes and
      registers exactly what `Flatten` registers, failing where it fails. */
  lemma {:induction false} AsWrittenAgreesWithFlatten<P, H, M, E>(node: Node<P, H, M, E>, ctx: Context<P, M>, fuel: nat)
    requires Bootable(node, ctx) && Depth(node) <= fuel
    ensures BootAsWritten(node, ctx, fuel) == Finished(Flatten(node, ctx))
    decreases node, 1
  {
    match node
    case Group(path, content, hook) =>
      match hook(GroupScope(ctx, path)) {
        case Err(e) =>
        case Ok(server) =>
          if !content.Endpoint? {
            AsWrittenAgreesWithFlatten(content, server, fuel - 1);
          }
      }
    case MiddlewareGroup(middlewares, content) =>
      if !content.Endpoint? {
        AsWrittenAgreesWithFlatten(content, MiddlewareScope(ctx, middlewares), fuel - 1);
      }
    case TupleRoute(elements) =>
      AsWrittenAgreesWithFlattenAll(elements, ctx, fuel - 1);
    case Custom(body) =>
      AsWrittenAgreesWithFlatten(body, ctx, fuel - 1);
  }

  lemma {:induction false} AsWrittenAgreesWithFlattenAll<P, H, M, E>(elements: seq<Node<P, H, M, E>>, ctx: Context<P, M>, fuel: nat)
    requires BootableAll(elements, ctx) && DepthAll(elements) <= fuel
    ensures BootElementsAsWritten(elements, ctx, fuel) == Finished(FlattenAll(elements, ctx))
    decreases elements, 0
  {
    if |elements| > 0 {
      if !elements[0].Endpoint? {
        AsWrittenAgreesWithFlatten(elements[0], ctx, fuel);
      }
      if Flatten(elements[0], ctx).failure.None? {
        AsWrittenAgreesWithFlattenAll(elements[1..], ctx, fuel);
      }
    }
  }

  /** Conversely, on a tree that is not bootable the source's walk never
      finishes, whatever the fuel: `Bootable` is exactly where it finishes. */
  lemma {:induction false} UnbootableNeverFinishes<P, H, M, E>(node: Node<P, H, M, E>, ctx: Context<P, M>, fuel: nat)
    requires !Bootable(node, ctx)
    ensures BootAsWritten(node, ctx, fuel) == OutOfFuel
    decreases node, 1
  {
    if fuel > 0 {
      match node
      case Endpoint(route) =>
        RouteBootNeverFinishes<P, H, M, E>(route, ctx, fuel);
      case Group(path, content, hook) =>
        match hook(GroupScope(ctx, path)) {
          case Ok(server) =>
            UnbootableNeverFinishes(content, server, fuel - 1);
        }
      case MiddlewareGroup(middlewares, content) =>
        UnbootableNeverFinishes(content, MiddlewareScope(ctx, middlewares), fuel - 1);
      case TupleRoute(elements) =>
        UnbootableNeverFinishesAll(elements, ctx, fuel - 1);
      case Custom(body) =>
        UnbootableNeverFinishes(body, ctx, fuel - 1);
    }
  }

  lemma {:induction false} UnbootableNeverFinishesAll<P, H, M, E>(elements: seq<Node<P, H, M, E>>, ctx: Context<P, M>, fuel: nat)
    requires !BootableAll(elements, ctx)
    ensures BootElementsAsWritten(elements, ctx, fuel) == OutOfFuel
    decreases elements, 0
  {
    if !elements[0].Endpoint? && !Bootable(elements[0], ctx) {
      UnbootableNeverFinishes(elements[0], ctx, fuel);
    } else {
      UnbootableNeverFinishesAll(elements[1..], ctx, fuel);
    }
  }
}
