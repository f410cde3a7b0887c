/** Properties of the walk: order preservation, splicing of nested tuples,
    sibling isolation, abort on error, and agreement with a bottom-up
    reading of the tree in which every group simply prefixes and every
    middleware group simply wraps what it contains. */
module FlattenProperties {
  import opened Endpoints
  import opened RouteTree
  import opened Flattening

  // ---------------------------------------------------------------------
  // Sequencing siblings

  /** Walking `a + b` is walking `a`, then, unless `a` failed, walking `b` on
      the same builder: what `a` contains (groups, middleware groups) has no
      effect on the context `b` is registered under. */
  lemma {:induction false} SiblingIsolation<P, H, M, E>(a: seq<Node<P, H, M, E>>, b: seq<Node<P, H, M, E>>, ctx: Context<P, M>)
    ensures FlattenAll(a + b, ctx) ==
      (var wa := FlattenAll(a, ctx);
       if wa.failure.Some? then wa else Then(wa.registrations, FlattenAll(b, ctx)))
  {
    if |a| == 0 {
      assert a + b == b;
    } else {
      assert (a + b)[0] == a[0];
      assert (a + b)[1..] == a[1..] + b;
      var first := Flatten(a[0], ctx);
      if first.failure.None? {
        SiblingIsolation(a[1..], b, ctx);
        var wr := FlattenAll(a[1..], ctx);
        if wr.failure.None? {
          assert first.registrations + (wr.registrations + FlattenAll(b, ctx).registrations)
              == (first.registrations + wr.registrations) + FlattenAll(b, ctx).registrations;
        }
      }
    }
  }

  /** A one-element loop walks that element. */
  lemma FlattenAllSingle<P, H, M, E>(x: Node<P, H, M, E>, ctx: Context<P, M>)
    ensures FlattenAll([x], ctx) == Flatten(x, ctx)
  {
    var w := Flatten(x, ctx);
    if w.failure.None? {
      assert [x][1..] == [];
      assert w.registrations + [] == w.registrations;
    }
  }

  /** A block of any arity registers its components in argument order, each
      on the builder the block is booted on; a one-component block is
      exactly its component. */
  lemma BuildBlockRegistersInOrder<P, H, M, E>(components: seq<Node<P, H, M, E>>, ctx: Context<P, M>)
    requires |components| >= 1
    ensures Flatten(BuildBlock(components), ctx) == FlattenAll(components, ctx)
  {
    if |components| == 1 {
      assert components == [components[0]];
      FlattenAllSingle(components[0], ctx);
    }
  }

  /** An element that throws ends the loop: the registrations are those of
      the elements before it followed by those it made before throwing, and
      no later sibling is registered. */
  lemma FailureStopsSiblings<P, H, M, E>(elements: seq<Node<P, H, M, E>>, i: nat, ctx: Context<P, M>)
    requires i < |elements|
    requires FlattenAll(elements[..i], ctx).failure.None?
    requires Flatten(elements[i], ctx).failure.Some?
    ensures FlattenAll(elements, ctx) ==
      Then(FlattenAll(elements[..i], ctx).registrations, Flatten(elements[i], ctx))
  {
    assert elements == elements[..i] + elements[i..];
    SiblingIsolation(elements[..i], elements[i..], ctx);
    assert elements[i..][0] == elements[i];
  }

  /** One more element on a loop that has not failed so far. */
  lemma FlattenAllExtend<P, H, M, E>(elements: seq<Node<P, H, M, E>>, i: nat, ctx: Context<P, M>)
    requires i < |elements|
    requires FlattenAll(elements[..i], ctx).failure.None?
    ensures FlattenAll(elements[..i + 1], ctx) ==
      Then(FlattenAll(elements[..i], ctx).registrations, Flatten(elements[i], ctx))
  {
    assert elements[..i + 1] == elements[..i] + [elements[i]];
    SiblingIsolation(elements[..i], [elements[i]], ctx);
    FlattenAllSingle(elements[i], ctx);
  }

  /** The protocol's default `boot` registers the component's body on the
      builder it was given, with the context unchanged. */
  lemma DefaultBootRegistersBody<P, H, M, E>(body: Node<P, H, M, E>, ctx: Context<P, M>)
    ensures Flatten(Custom(body), ctx) == Flatten(body, ctx)
  {
  }

  /** A `TupleRoute` nested as one element is registered exactly as if its
      elements had been spliced in its place. */
  lemma NestedTupleSplices<P, H, M, E>(before: seq<Node<P, H, M, E>>, inner: seq<Node<P, H, M, E>>,
                                       after: seq<Node<P, H, M, E>>, ctx: Context<P, M>)
    ensures FlattenAll(before + [TupleRoute(inner)] + after, ctx) == FlattenAll(before + inner + after, ctx)
  {
    var t := TupleRoute(inner);
    SiblingIsolation(before, [t] + after, ctx);
    assert before + [t] + after == before + ([t] + after);
    SiblingIsolation([t], after, ctx);
    FlattenAllSingle(t, ctx);
    SiblingIsolation(before, inner + after, ctx);
    assert before + inner + after == before + (inner + after);
    SiblingIsolation(inner, after, ctx);
    var wb := FlattenAll(before, ctx);
    var wi := FlattenAll(inner, ctx);
    if wb.failure.None? && wi.failure.None? {
      assert wb.registrations + (wi.registrations + FlattenAll(after, ctx).registrations)
          == (wb.registrations + wi.registrations) + FlattenAll(after, ctx).registrations;
    }
  }

  // ---------------------------------------------------------------------
  // Every endpoint once, in pre-order

  /** The routes of a registration log, in order. */
  function Routes<P, H, M>(regs: seq<Registration<P, H, M>>): (routes: seq<Route<P, H>>)
    ensures |routes| == |regs|
    ensures forall i :: 0 <= i < |regs| ==> routes[i] == regs[i].route
  {
    if |regs| == 0 then [] else [regs[0].route] + Routes(regs[1..])
  }

  lemma RoutesAppend<P, H, M>(a: seq<Registration<P, H, M>>, b: seq<Registration<P, H, M>>)
    ensures Routes(a + b) == Routes(a) + Routes(b)
  {
  }

  /** Booting registers the tree's endpoints in pre-order, each once: all of
      them when the walk succeeds, and a leading part of them when a hook
      throws. */
  lemma {:induction false} RegistersLeavesInOrder<P, H, M, E>(node: Node<P, H, M, E>, ctx: Context<P, M>)
    ensures Routes(Flatten(node, ctx).registrations) <= Leaves(node)
    ensures Flatten(node, ctx).failure.None? ==> Routes(Flatten(node, ctx).registrations) == Leaves(node)
    decreases node, 1
  {
    match node
    case Endpoint(route) =>
    case Group(path, content, hook) =>
      match hook(GroupScope(ctx, path)) {
        case Err(e) =>
        case Ok(server) => RegistersLeavesInOrder(content, server);
      }
    case MiddlewareGroup(middlewares, content) =>
      RegistersLeavesInOrder(content, MiddlewareScope(ctx, middlewares));
    case TupleRoute(elements) => RegistersLeavesInOrderAll(elements, ctx);
    case Custom(body) => RegistersLeavesInOrder(body, ctx);
  }

  lemma {:induction false} RegistersLeavesInOrderAll<P, H, M, E>(elements: seq<Node<P, H, M, E>>, ctx: Context<P, M>)
    ensures Routes(FlattenAll(elements, ctx).registrations) <= LeavesAll(elements)
    ensures FlattenAll(elements, ctx).failure.None? ==> Routes(FlattenAll(elements, ctx).registrations) == LeavesAll(elements)
    decreases elements, 0
  {
    if |elements| > 0 {
      var first := Flatten(elements[0], ctx);
      RegistersLeavesInOrder(elements[0], ctx);
      if first.failure.None? {
        var rest := FlattenAll(elements[1..], ctx);
        RegistersLeavesInOrderAll(elements[1..], ctx);
        RoutesAppend(first.registrations, rest.registrations);
      }
    }
  }

  // ---------------------------------------------------------------------
  // Bottom-up reading of the tree

  /** Every `then` hook in the tree is the default one: it hands back the
      builder it is given. */
  ghost predicate DefaultHooks<P, H, M, E>(node: Node<P, H, M, E>)
    decreases node, 1
  {
    match node
    case Endpoint(_) => true
    case Group(_, content, hook) => hook == Identity() && DefaultHooks(content)
    case MiddlewareGroup(_, content) => DefaultHooks(content)
    case TupleRoute(elements) => DefaultHooksAll(elements)
    case Custom(body) => DefaultHooks(body)
  }

  ghost predicate DefaultHooksAll<P, H, M, E>(elements: seq<Node<P, H, M, E>>)
    decreases elements, 0
  {
    |elements| == 0 || (DefaultHooks(elements[0]) && DefaultHooksAll(elements[1..]))
  }

  /** `regs` registered under the builder `ctx`: its prefix goes before each
      registration's own prefix and its middlewares outside each
      registration's own middlewares. */
  function Rebase<P, H, M>(ctx: Context<P, M>, regs: seq<Registration<P, H, M>>): (out: seq<Registration<P, H, M>>)
    ensures |out| == |regs|
    ensures forall i :: 0 <= i < |regs| ==>
      out[i] == Registration(ctx.middlewares + regs[i].middlewares, ctx.prefix + regs[i].prefix, regs[i].route)
  {
    if |regs| == 0 then []
    else [Registration(ctx.middlewares + regs[0].middlewares, ctx.prefix + regs[0].prefix, regs[0].route)]
         + Rebase(ctx, regs[1..])
  }

  /** The registrations a tree declares relative to the root, computed from
      the leaves up: an endpoint declares itself, a group prefixes its path
      to what its content declares, a middleware group wraps its middlewares
      around it, a tuple concatenates its elements' declarations. */
  function Declared<P, H, M, E>(node: Node<P, H, M, E>): seq<Registration<P, H, M>>
    decreases node, 1
  {
    match node
    case Endpoint(route) => [Registration([], [], route)]
    case Group(path, content, _) => Rebase(Context(path, []), Declared(content))
    case MiddlewareGroup(middlewares, content) => Rebase(Context([], middlewares), Declared(content))
    case TupleRoute(elements) => DeclaredAll(elements)
    case Custom(body) => Declared(body)
  }

  function DeclaredAll<P, H, M, E>(elements: seq<Node<P, H, M, E>>): seq<Registration<P, H, M>>
    decreases elements, 0
  {
    if |elements| == 0 then [] else Declared(elements[0]) + DeclaredAll(elements[1..])
  }

  lemma RebaseAppend<P, H, M>(ctx: Context<P, M>, a: seq<Registration<P, H, M>>, b: seq<Registration<P, H, M>>)
    ensures Rebase(ctx, a + b) == Rebase(ctx, a) + Rebase(ctx, b)
  {
  }

  /** Rebasing under an inner builder, then under an outer one, is rebasing
      once under their combination: outer prefix first, outer middlewares
      outermost. */
  lemma {:induction false} RebaseRebase<P, H, M>(outer: Context<P, M>, inner: Context<P, M>, regs: seq<Registration<P, H, M>>)
    ensures Rebase(outer, Rebase(inner, regs)) ==
      Rebase(Context(outer.prefix + inner.prefix, outer.middlewares + inner.middlewares), regs)
  {
    if |regs| > 0 {
      var r := regs[0];
      assert outer.prefix + (inner.prefix + r.prefix) == (outer.prefix + inner.prefix) + r.prefix;
      assert outer.middlewares + (inner.middlewares + r.middlewares) == (outer.middlewares + inner.middlewares) + r.middlewares;
      assert Rebase(inner, regs)[1..] == Rebase(inner, regs[1..]);
      RebaseRebase(outer, inner, regs[1..]);
    }
  }

  lemma {:induction false} RebaseRoot<P, H, M>(regs: seq<Registration<P, H, M>>)
    ensures Rebase(Root(), regs) == regs
  {
    if |regs| > 0 {
      assert [] + regs[0].prefix == regs[0].prefix;
      assert [] + regs[0].middlewares == regs[0].middlewares;
      RebaseRoot(regs[1..]);
      assert regs == [regs[0]] + regs[1..];
    }
  }

  /** With default hooks, booting on the builder `ctx` never fails and
      registers exactly the bottom-up declaration, rebased under `ctx`. */
  lemma {:induction false} FlattenMatchesDeclaration<P, H, M, E>(node: Node<P, H, M, E>, ctx: Context<P, M>)
    requires DefaultHooks(node)
    ensures Flatten(node, ctx) == Walk(Rebase(ctx, Declared(node)), None)
    decreases node, 1
  {
    match node
    case Endpoint(route) =>
      assert ctx.prefix + [] == ctx.prefix;
      assert ctx.middlewares + [] == ctx.middlewares;
    case Group(path, content, hook) =>
      var scoped := GroupScope(ctx, path);
      assert hook(scoped) == Ok(scoped);
      FlattenMatchesDeclaration(content, scoped);
      RebaseRebase(ctx, Context(path, []), Declared(content));
      assert ctx.middlewares + [] == ctx.middlewares;
    case MiddlewareGroup(middlewares, content) =>
      FlattenMatchesDeclaration(content, MiddlewareScope(ctx, middlewares));
      RebaseRebase(ctx, Context([], middlewares), Declared(content));
      assert ctx.prefix + [] == ctx.prefix;
    case TupleRoute(elements) => FlattenAllMatchesDeclaration(elements, ctx);
    case Custom(body) => FlattenMatchesDeclaration(body, ctx);
  }

  lemma {:induction false} FlattenAllMatchesDeclaration<P, H, M, E>(elements: seq<Node<P, H, M, E>>, ctx: Context<P, M>)
    requires DefaultHooksAll(elements)
    ensures FlattenAll(elements, ctx) == Walk(Rebase(ctx, DeclaredAll(elements)), None)
    decreases elements, 0
  {
    if |elements| > 0 {
      FlattenMatchesDeclaration(elements[0], ctx);
      FlattenAllMatchesDeclaration(elements[1..], ctx);
      RebaseAppend(ctx, Declared(elements[0]), DeclaredAll(elements[1..]));
    }
  }

  /** With default hooks the context threading is compositional: booting on
      any builder is booting at the root and then adding that builder's
      prefix and middlewares to every registration. */
  lemma ContextIsCompositional<P, H, M, E>(node: Node<P, H, M, E>, ctx: Context<P, M>)
    requires DefaultHooks(node)
    ensures Flatten(node, ctx).failure.None?
    ensures Flatten(node, ctx).registrations == Rebase(ctx, Flatten(node, Root()).registrations)
  {
    FlattenMatchesDeclaration(node, ctx);
    FlattenMatchesDeclaration(node, Root());
    RebaseRoot(Declared(node));
  }

  /** For any content, hooks included: a group without a `then` hook boots
      its content on the builder scoped by its path. */
  lemma GroupScopesContent<P, H, M, E>(path: seq<P>, content: Node<P, H, M, E>, ctx: Context<P, M>)
    ensures Flatten(NewGroup(content, path), ctx) == Flatten(content, Context(ctx.prefix + path, ctx.middlewares))
  {
    var scoped := GroupScope(ctx, path);
    assert Identity<P, M, E>()(scoped) == Ok(scoped);
  }

  /** So a group with neither a path nor a hook is transparent. */
  lemma EmptyGroupTransparent<P, H, M, E>(content: Node<P, H, M, E>, ctx: Context<P, M>)
    ensures Flatten(NewGroup(content), ctx) == Flatten(content, ctx)
  {
    GroupScopesContent([], content, ctx);
    assert ctx.prefix + [] == ctx.prefix;
  }

  /** When every hook inside is the default, a group prefixes its path to
      every registration of its content (outer segments before inner ones)
      and leaves the middlewares alone. */
  lemma GroupPrefixesContent<P, H, M, E>(path: seq<P>, content: Node<P, H, M, E>, ctx: Context<P, M>)
    requires DefaultHooks(content)
    ensures Flatten(NewGroup(content, path), ctx).failure.None?
    ensures Flatten(NewGroup(content, path), ctx).registrations ==
      Rebase(Context(ctx.prefix + path, ctx.middlewares), Flatten(content, Root()).registrations)
    ensures |path| == 0 ==> Flatten(NewGroup(content, path), ctx) == Flatten(content, ctx)
  {
    var scoped := GroupScope(ctx, path);
    assert Identity<P, M, E>()(scoped) == Ok(scoped);
    ContextIsCompositional(content, scoped);
  }

  /** A middleware group scopes every registration of its content with its
      middlewares, in declaration order and inside those already in scope,
      and leaves the path prefix alone. */
  lemma MiddlewareGroupWrapsContent<P, H, M, E>(middlewares: seq<M>, content: Node<P, H, M, E>, ctx: Context<P, M>)
    requires DefaultHooks(content)
    ensures Flatten(NewMiddlewareGroup(middlewares, content), ctx).failure.None?
    ensures Flatten(NewMiddlewareGroup(middlewares, content), ctx).registrations ==
      Rebase(Context(ctx.prefix, ctx.middlewares + middlewares), Flatten(content, Root()).registrations)
  {
    ContextIsCompositional(content, MiddlewareScope(ctx, middlewares));
  }
}
