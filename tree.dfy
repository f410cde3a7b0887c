/** The route tree: the node kinds a routing declaration is made of, and the
    result-builder combinators that assemble them. Nothing here touches a
    router; `Flattening` gives the tree its meaning. */
module RouteTree {
  import opened Endpoints

  datatype Result<T, E> = Ok(value: T) | Err(error: E)

  /** What a scoped `RoutesBuilder` adds to every route registered through
      it: the path prefix (outer segments first) and the middleware stack
      (outermost first). */
  datatype Context<P, M> = Context(prefix: seq<P>, middlewares: seq<M>)

  /** The application's own builder: no prefix and no middleware. */
  function Root<P, M>(): Context<P, M> {
    Context([], [])
  }

  /** A `Group`'s `then` closure: it receives the scoped builder and returns
      the builder the content is registered on, or throws. */
  type Hook<!P, !M, E> = Context<P, M> -> Result<Context<P, M>, E>

  /** The default `then`: `{ builder in return builder }`. */
  function Identity<P, M, E>(): Hook<P, M, E> {
    builder => Ok(builder)
  }

  /** The node kinds. `Custom` is a user-defined `RouteBuildable` whose
      `body` is another node; it is booted by the protocol's default `boot`. */
  datatype Node<!P, H, !M, E> =
    | Endpoint(route: Route<P, H>)
    | Group(path: seq<P>, content: Node<P, H, M, E>, hook: Hook<P, M, E>)
    | MiddlewareGroup(middlewares: seq<M>, content: Node<P, H, M, E>)
    | TupleRoute(elements: seq<Node<P, H, M, E>>)
    | Custom(body: Node<P, H, M, E>)

  /** `Group(_ path: PathComponent..., content:, then: = identity)`. */
  function NewGroup<P, H, M, E>(content: Node<P, H, M, E>, path: seq<P> := [],
                                hook: Hook<P, M, E> := Identity()): (g: Node<P, H, M, E>)
    ensures g.Group? && g.path == path && g.content == content && g.hook == hook
  {
    Group(path, content, hook)
  }

  /** A group declared with neither a path nor a `then` hook: empty path,
      identity hook. */
  lemma NewGroupDefaults<P, H, M, E>(content: Node<P, H, M, E>)
    ensures NewGroup(content).path == []
    ensures NewGroup(content).hook == Identity()
    ensures NewGroup(content).content == content
  {
  }

  /** `MiddlewareGroup(_ middleware: any Middleware..., content:)`. */
  function NewMiddlewareGroup<P, H, M, E>(middlewares: seq<M>, content: Node<P, H, M, E>): (g: Node<P, H, M, E>)
    ensures g.MiddlewareGroup? && g.middlewares == middlewares && g.content == content
  {
    MiddlewareGroup(middlewares, content)
  }

  /** `RouteBuilder.buildBlock` for every arity the result builder accepts:
      one component is passed through, two or more become one `TupleRoute`
      whose elements are the components in order. A component that is
      itself a `TupleRoute` stays one element: nothing is spliced. */
  function BuildBlock<P, H, M, E>(components: seq<Node<P, H, M, E>>): (r: Node<P, H, M, E>)
    requires |components| >= 1
    ensures |components| == 1 ==> r == components[0]
    ensures |components| >= 2 ==> r.TupleRoute? && |r.elements| == |components|
    ensures |components| >= 2 ==> forall i :: 0 <= i < |components| ==> r.elements[i] == components[i]
  {
    if |components| == 1 then components[0] else TupleRoute(components)
  }

  /** `RouteBuilder.buildEither(first:)`: the branch taken by an `if`. */
  function BuildEitherFirst<P, H, M, E>(component: Node<P, H, M, E>): Node<P, H, M, E> {
    component
  }

  /** `RouteBuilder.buildEither(second:)`: the branch taken by an `else`. */
  function BuildEitherSecond<P, H, M, E>(component: Node<P, H, M, E>): Node<P, H, M, E> {
    component
  }

  /** Neither `buildEither` introduces a wrapper node. */
  lemma BuildEitherPassesThrough<P, H, M, E>(component: Node<P, H, M, E>)
    ensures BuildEitherFirst(component) == component
    ensures BuildEitherSecond(component) == component
  {
  }
}
