/** What booting a route tree registers: a depth-first, pre-order walk that
    threads the scoped builder (path prefix and middleware stack) down the
    tree and appends one registration per endpoint, in declaration order.

    Vapor's `RoutesBuilder` is abstracted as an append-only log. It is an
    assumption of this model, not something these sources show, that
    `grouped(path)` appends `path` to the prefix, that `grouped(middlewares)`
    appends the middlewares inside those already in scope, and that `add`
    records the route with the prefix and stack of the builder it is called
    on and never fails. */
module Flattening {
  import opened Endpoints
  import opened RouteTree

  /** One `add(route)` on a scoped builder, as the backend sees it. */
  datatype Registration<P, H, M> = Registration(middlewares: seq<M>, prefix: seq<P>, route: Route<P, H>) {
    /** The path the route answers on: the builder's prefix, then the route's own path. */
    function FullPath(): seq<P> {
      prefix + route.path
    }
  }

  /** The result of a walk: the registrations made, in order, and the error
      that stopped the walk, if one did. Registrations made before the error
      stay made: nothing is rolled back. */
  datatype Walk<P, H, M, E> = Walk(registrations: seq<Registration<P, H, M>>, failure: Option<E>)

  /** `routes.add(route)` on the builder `ctx`. */
  function Added<P, H, M>(ctx: Context<P, M>, route: Route<P, H>): Registration<P, H, M> {
    Registration(ctx.middlewares, ctx.prefix, route)
  }

  /** The builder `Group.boot` starts from: the parent itself when the path
      is empty, otherwise `routes.grouped(path)`. */
  function GroupScope<P, M>(ctx: Context<P, M>, path: seq<P>): (scoped: Context<P, M>)
    ensures scoped.middlewares == ctx.middlewares
    ensures scoped.prefix == ctx.prefix + path
  {
    if |path| == 0 then ctx else Context(ctx.prefix + path, ctx.middlewares)
  }

  /** `routes.grouped(middlewares)`: same prefix, the new middlewares inside
      those already in scope. */
  function MiddlewareScope<P, M>(ctx: Context<P, M>, middlewares: seq<M>): (scoped: Context<P, M>)
    ensures scoped.prefix == ctx.prefix
    ensures |scoped.middlewares| == |ctx.middlewares| + |middlewares|
    ensures scoped.middlewares[..|ctx.middlewares|] == ctx.middlewares
    ensures scoped.middlewares[|ctx.middlewares|..] == middlewares
  {
    Context(ctx.prefix, ctx.middlewares + middlewares)
  }

  /** Registrations `done` followed by the walk `rest`. */
  function Then<P, H, M, E>(done: seq<Registration<P, H, M>>, rest: Walk<P, H, M, E>): Walk<P, H, M, E> {
    Walk(done + rest.registrations, rest.failure)
  }

  /** The endpoints of a tree, in pre-order, left to right. */
  function Leaves<P, H, M, E>(node: Node<P, H, M, E>): seq<Route<P, H>>
    decreases node, 1
  {
    match node
    case Endpoint(route) => [route]
    case Group(_, content, _) => Leaves(content)
    case MiddlewareGroup(_, content) => Leaves(content)
    case TupleRoute(elements) => LeavesAll(elements)
    case Custom(body) => Leaves(body)
  }

  function LeavesAll<P, H, M, E>(elements: seq<Node<P, H, M, E>>): seq<Route<P, H>>
    decreases elements, 0
  {
    if |elements| == 0 then [] else Leaves(elements[0]) + LeavesAll(elements[1..])
  }

  /** Booting `node` on the builder `ctx`. An endpoint is added as a leaf
      wherever it occurs (see the as-written model for what the source does
      with an endpoint that is not the direct content of a container). It
      registers at most one entry per endpoint of the tree, and exactly one
      per endpoint when no hook throws. */
  function Flatten<P, H, M, E>(node: Node<P, H, M, E>, ctx: Context<P, M>): (w: Walk<P, H, M, E>)
    ensures |w.registrations| <= |Leaves(node)|
    ensures w.failure.None? ==> |w.registrations| == |Leaves(node)|
    decreases node, 1
  {
    match node
    case Endpoint(route) => Walk([Added(ctx, route)], None)
    case Group(path, content, hook) =>
      (match hook(GroupScope(ctx, path))
       case Err(e) => Walk([], Some(e))
       case Ok(server) => Flatten(content, server))
    case MiddlewareGroup(middlewares, content) => Flatten(content, MiddlewareScope(ctx, middlewares))
    case TupleRoute(elements) => FlattenAllCount(elements, ctx); FlattenAll(elements, ctx)
    case Custom(body) => Flatten(body, ctx)
  }

  /** `TupleRoute.boot`'s loop: each element in order, all on the same
      builder; the first error ends the loop. */
  function FlattenAll<P, H, M, E>(elements: seq<Node<P, H, M, E>>, ctx: Context<P, M>): Walk<P, H, M, E>
    decreases elements, 0
  {
    if |elements| == 0 then Walk([], None)
    else
      var first := Flatten(elements[0], ctx);
      if first.failure.Some? then first else Then(first.registrations, FlattenAll(elements[1..], ctx))
  }

  /** A tuple's walk registers at most one entry per endpoint of its
      elements, exactly one per endpoint when no hook throws. */
  lemma {:induction false} FlattenAllCount<P, H, M, E>(elements: seq<Node<P, H, M, E>>, ctx: Context<P, M>)
    ensures |FlattenAll(elements, ctx).registrations| <= |LeavesAll(elements)|
    ensures FlattenAll(elements, ctx).failure.None? ==> |FlattenAll(elements, ctx).registrations| == |LeavesAll(elements)|
    decreases elements, 1
  {
    if |elements| > 0 {
      FlattenAllCount(elements[1..], ctx);
    }
  }
}
