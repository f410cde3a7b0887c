/** The `boot(routes:)` methods as they run: each one appends to the router's
    registration log through a builder scoped by the context it was handed.
    A scoped builder is the pair of the shared router and a context value;
    `grouped` produces a new context and never changes the caller's. Every
    method is proved to append exactly what `Flatten` says and to report the
    error `Flatten` reports. */
module Booting {
  import opened Endpoints
  import opened RouteTree
  import opened Flattening
  import opened FlattenProperties

  /** The application's route table, seen as an append-only log. */
  class Router<P, H, M> {
    var log: seq<Registration<P, H, M>>

    constructor ()
      ensures log == []
    {
      log := [];
    }

    /** `routes.add(route)` on the builder scoped by `ctx`. */
    method Add(ctx: Context<P, M>, route: Route<P, H>)
      modifies this
      ensures log == old(log) + [Added(ctx, route)]
    {
      log := log + [Added(ctx, route)];
    }
  }

  /** `node.boot(routes:)`, dispatched on the node kind. A `Custom` node runs
      the protocol's default `boot`: it registers its body on the same
      builder. An endpoint booted on its own is added as a leaf. */
  method Boot<P, H, M, E>(node: Node<P, H, M, E>, routes: Router<P, H, M>, ctx: Context<P, M>)
    returns (error: Option<E>)
    modifies routes
    ensures routes.log == old(routes.log) + Flatten(node, ctx).registrations
    ensures error == Flatten(node, ctx).failure
    decreases node, 2
  {
    match node
    case Endpoint(route) =>
      routes.Add(ctx, route);
      error := None;
    case Group(_, _, _) =>
      error := BootGroup(node, routes, ctx);
    case MiddlewareGroup(_, _) =>
      error := BootMiddlewareGroup(node, routes, ctx);
    case TupleRoute(_) =>
      error := BootTuple(node, routes, ctx);
    case Custom(body) =>
      error := Boot(body, routes, ctx);
  }

  /** `Group.boot`: scope by the path unless it is empty, pass the scoped
      builder through the `then` hook, and register the content on what the
      hook returns. A hook that throws registers nothing. */
  method BootGroup<P, H, M, E>(node: Node<P, H, M, E>, routes: Router<P, H, M>, ctx: Context<P, M>)
    returns (error: Option<E>)
    requires node.Group?
    modifies routes
    ensures routes.log == old(routes.log) + Flatten(node, ctx).registrations
    ensures error == Flatten(node, ctx).failure
    ensures node.hook(GroupScope(ctx, node.path)).Err? ==> routes.log == old(routes.log)
    decreases node, 1
  {
    var server := GroupScope(ctx, node.path);
    var hooked := node.hook(server);
    if hooked.Err? {
      return Some(hooked.error);
    }
    server := hooked.value;
    error := AddOrBoot(node.content, routes, server);
  }

  /** `MiddlewareGroup.boot`: register the content on the builder scoped by
      the group's middlewares; the path prefix is unchanged. */
  method BootMiddlewareGroup<P, H, M, E>(node: Node<P, H, M, E>, routes: Router<P, H, M>, ctx: Context<P, M>)
    returns (error: Option<E>)
    requires node.MiddlewareGroup?
    modifies routes
    ensures routes.log == old(routes.log) + Flatten(node, ctx).registrations
    ensures error == Flatten(node, ctx).failure
    decreases node, 1
  {
    var server := MiddlewareScope(ctx, node.middlewares);
    error := AddOrBoot(node.content, routes, server);
  }

  /** A container's `if let route = x as? Route { add } else { register }`. */
  method AddOrBoot<P, H, M, E>(node: Node<P, H, M, E>, routes: Router<P, H, M>, ctx: Context<P, M>)
    returns (error: Option<E>)
    modifies routes
    ensures routes.log == old(routes.log) + Flatten(node, ctx).registrations
    ensures error == Flatten(node, ctx).failure
    decreases node, 3
  {
    if node.Endpoint? {
      routes.Add(ctx, node.route);
      error := None;
    } else {
      error := Boot(node, routes, ctx);
    }
  }

  /** `TupleRoute.boot`: every element in tuple order on the same builder;
      an endpoint is added, anything else is booted; the first error ends
      the loop and later elements are not registered. */
  method BootTuple<P, H, M, E>(node: Node<P, H, M, E>, routes: Router<P, H, M>, ctx: Context<P, M>)
    returns (error: Option<E>)
    requires node.TupleRoute?
    modifies routes
    ensures routes.log == old(routes.log) + Flatten(node, ctx).registrations
    ensures error == Flatten(node, ctx).failure
    decreases node, 1
  {
    var elements := node.elements;
    ghost var start := routes.log;
    assert Flatten(node, ctx) == FlattenAll(elements, ctx);
    var i := 0;
    while i < |elements|
      invariant 0 <= i <= |elements|
      invariant FlattenAll(elements[..i], ctx).failure.None?
      invariant routes.log == start + FlattenAll(elements[..i], ctx).registrations
    {
      ghost var before := routes.log;
      var failed := AddOrBoot(elements[i], routes, ctx);
      assert routes.log == before + Flatten(elements[i], ctx).registrations;
      if failed.Some? {
        FailureStopsSiblings(elements, i, ctx);
        assert routes.log == start + FlattenAll(elements, ctx).registrations;
        return failed;
      }
      FlattenAllExtend(elements, i, ctx);
      i := i + 1;
    }
    assert elements[..i] == elements;
    error := None;
  }

  /** Registering the application's root collection on a new route table
      (the routes of an application that has no other routes). */
  method BootApplication<P, H, M, E>(root: Node<P, H, M, E>) returns (routes: Router<P, H, M>, error: Option<E>)
    ensures fresh(routes)
    ensures routes.log == Flatten(root, Root()).registrations
    ensures error == Flatten(root, Root()).failure
  {
    routes := new Router();
    error := Boot(root, routes, Root());
  }
}
