/** Endpoints: the two `Route` convenience initialisers and the decision their
    responders make about the request body before calling the handler. The two
    initialisers (async and synchronous handler) differ only in how the handler
    is awaited, so one model covers both. Handlers and path components are
    opaque type parameters. */
module Endpoints {

  datatype Option<T> = None | Some(value: T) {
    /** `value ?? fallback` */
    function GetOr(fallback: T): T {
      match this
      case Some(v) => v
      case None => fallback
    }
  }

  /** Vapor's `HTTPMethod`; `Raw` stands for any other method, given by name. */
  datatype HttpMethod = GET | POST | PUT | PATCH | DELETE | HEAD | OPTIONS | Raw(name: string)

  /** Vapor's `HTTPBodyStreamStrategy`: buffer the body (up to an optional
      maximum size in bytes) or hand the stream to the handler. */
  datatype BodyStrategy = Collect(maxSize: Option<nat>) | Stream

  /** `.collect`: collect, with no explicit maximum. */
  const DefaultStrategy: BodyStrategy := Collect(None)

  /** What the responder built by the initialiser captures: the body strategy
      and the user's handler closure. */
  datatype Responder<H> = Responder(body: BodyStrategy, handler: H)

  /** Vapor's `Route`, as far as the initialisers fill it in. */
  datatype Route<P, H> = Route(httpMethod: HttpMethod, path: seq<P>, responder: Responder<H>)

  /** `Route(_ path: PathComponent..., on httpMethod = .GET, body = .collect, use: closure)`.
      An omitted path is the empty path: the parent's root. */
  function NewRoute<P, H>(handler: H, path: seq<P> := [], httpMethod: HttpMethod := GET,
                          body: BodyStrategy := DefaultStrategy): Route<P, H>
  {
    Route(httpMethod, path, Responder(body, handler))
  }

  lemma NewRouteDefaults<P, H>(handler: H)
    ensures NewRoute<P, H>(handler).httpMethod == GET
    ensures NewRoute<P, H>(handler).path == []
    ensures NewRoute<P, H>(handler).responder == Responder(Collect(None), handler)
  {
  }

  lemma NewRouteKeepsArguments<P, H>(handler: H, path: seq<P>, httpMethod: HttpMethod, body: BodyStrategy)
    ensures NewRoute(handler, path, httpMethod, body).httpMethod == httpMethod
    ensures NewRoute(handler, path, httpMethod, body).path == path
    ensures NewRoute(handler, path, httpMethod, body).responder == Responder(body, handler)
  {
  }

  /** The part of a request the responder looks at: whether the body is
      already buffered, and the application's `defaultMaxBodySize`. */
  datatype Request = Request(bodyBuffered: bool, defaultMaxBodySize: nat)

  /** One step the responder takes for a request. */
  datatype Step = CollectBody(limit: nat) | CallHandler

  /** The steps the responder takes for `request`: collect the body first when
      the strategy is `.collect(max)` and the body is not buffered yet, with
      limit `max ?? defaultMaxBodySize`; then call the handler. */
  function Respond<H>(responder: Responder<H>, request: Request): (steps: seq<Step>)
    ensures |steps| > 0 && steps[|steps| - 1] == CallHandler
    ensures forall i :: 0 <= i < |steps| - 1 ==> steps[i].CollectBody?
    ensures |steps| > 1 <==> responder.body.Collect? && !request.bodyBuffered
    ensures |steps| <= 2
    ensures forall i :: 0 <= i < |steps| && steps[i].CollectBody? ==>
              responder.body.Collect? &&
              (responder.body.maxSize.Some? ==> steps[i].limit == responder.body.maxSize.value) &&
              (responder.body.maxSize.None? ==> steps[i].limit == request.defaultMaxBodySize)
  {
    match responder.body
    case Collect(max) =>
      if !request.bodyBuffered then [CollectBody(max.GetOr(request.defaultMaxBodySize)), CallHandler]
      else [CallHandler]
    case Stream => [CallHandler]
  }

  /** A route built with every default collects an unbuffered body with the
      application's default limit before it calls the handler, and calls the
      handler directly when the body is already buffered. */
  lemma DefaultRouteCollectsWithApplicationLimit<P, H>(handler: H, request: Request)
    ensures !request.bodyBuffered ==>
      Respond(NewRoute<P, H>(handler).responder, request) ==
        [CollectBody(request.defaultMaxBodySize), CallHandler]
    ensures request.bodyBuffered ==>
      Respond(NewRoute<P, H>(handler).responder, request) == [CallHandler]
  {
  }

  /** With `.stream` the handler is called directly, whatever the request. */
  lemma StreamNeverCollects<H>(handler: H, request: Request)
    ensures Respond(Responder(Stream, handler), request) == [CallHandler]
  {
  }
}
