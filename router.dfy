/** The example router of rustdi_examples/src/router.rs: a resolver that
    layers the incoming request over a shared inner resolver, and a table of
    handlers keyed by HTTP method and path. */
module Routing {
  import opened Results
  import opened TypeKeys
  import opened Services
  import opened Resolvers
  import opened ResolveErrors
  import Inject

  /** `RequestResolver`: the request, under its own type, in front of the
      inner resolver. Its error type is the inner resolver's. */
  datatype RequestResolver<V, E> = RequestResolver(requestType: TypeKey, request: V, resolver: Resolver<V, E>)
  {
    /** The request itself, borrowed, when its own type is asked for;
        otherwise whatever the inner resolver answers. */
    function ResolveImmutableRef(k: TypeKey): (r: Result<ReadGuard<V>, E>)
      ensures k == requestType ==> r.Ok? && r.value.Origin().None? && r.value.Deref() == request
      ensures k != requestType ==> r == resolver.immutableRef(k)
    {
      if k == requestType then Ok(ReadRef(request)) else resolver.immutableRef(k)
    }

    function ResolveMutableRef(k: TypeKey): Result<WriteGuard<V>, E> {
      resolver.mutableRef(k)
    }

    function ResolveOwnedValue(k: TypeKey): Result<V, E> {
      resolver.ownedValue(k)
    }

    /** The layered resolver seen through the `Resolver` capability. */
    function AsResolver(): Resolver<V, E> {
      Resolver(k => ResolveImmutableRef(k), k => ResolveMutableRef(k), k => ResolveOwnedValue(k))
    }
  }

  /** Asking for the request type gives exactly the `Ref` guard onto the
      request, whatever the inner resolver is. */
  lemma RequestTypeIsOverridden<V, E>(rr: RequestResolver<V, E>, inner: Resolver<V, E>)
    ensures rr.ResolveImmutableRef(rr.requestType) == Ok(ReadRef(rr.request))
    ensures rr.ResolveImmutableRef(rr.requestType) == rr.(resolver := inner).ResolveImmutableRef(rr.requestType)
  {
  }

  /** Every mutable or owned request, the request type's included, is the
      inner resolver's answer. */
  lemma OtherRequestsDelegate<V, E>(rr: RequestResolver<V, E>, k: TypeKey)
    ensures rr.ResolveMutableRef(k) == rr.resolver.mutableRef(k)
    ensures rr.ResolveOwnedValue(k) == rr.resolver.ownedValue(k)
  {
  }

  /** An injected handler's `&Request` parameter always resolves, to the
      request being handled. */
  lemma RequestParameterResolves<V, E>(rr: RequestResolver<V, E>)
    ensures Inject.ResolveParam(rr.AsResolver(), Inject.Param(rr.requestType, Inject.ImmutableBorrow))
      == Ok(Inject.Shared(ReadRef(rr.request)))
  {
  }

  /** A parameter the request layer does not intercept. */
  predicate PassesThrough<V, E>(rr: RequestResolver<V, E>, p: Inject.Param) {
    !(p.key == rr.requestType && p.mode == Inject.ImmutableBorrow)
  }

  /** For a handler none of whose parameters borrow the request, resolving
      through the request layer is resolving through the inner resolver. */
  lemma {:induction false} LayerIsTransparent<V, E>(rr: RequestResolver<V, E>, ps: seq<Inject.Param>)
    requires forall i :: 0 <= i < |ps| ==> PassesThrough(rr, ps[i])
    ensures Inject.ResolveAll(rr.AsResolver(), ps) == Inject.ResolveAll(rr.resolver, ps)
  {
    if ps != [] {
      assert PassesThrough(rr, ps[0]);
      assert Inject.ResolveParam(rr.AsResolver(), ps[0]) == Inject.ResolveParam(rr.resolver, ps[0]);
      LayerIsTransparent(rr, ps[1..]);
    }
  }

  /** A route handler, as boxed in the table. */
  type Handler<!V, !E> = RequestResolver<V, E> -> Result<(), ResolveError>

  datatype Method = Options | Get | Post | Put | Delete | Head | Trace | Connect | Patch | Extension(name: string)

  /** `TypeId::of::<Request<Body>>()`. */
  const RequestType: TypeKey := TypeOf("hyper::Request<hyper::Body>")

  /** What `handle_request` does: nothing, the handler ran to `Ok(())`, or
      the handler's error reached `unwrap` and panicked. */
  datatype Dispatch = NoRoute | Handled | Panicked(error: ResolveError)

  /** `handler(&resolver).unwrap()`. */
  function Unwrapped(result: Result<(), ResolveError>): Dispatch {
    match result
    case Ok(_) => Handled
    case Err(e) => Panicked(e)
  }

  class Router<V, E> {
    const resolver: Resolver<V, E>
    var routes: map<(Method, string), Handler<V, E>>

    /** `Router::new`: no routes, over the given shared resolver. */
    constructor (resolver: Resolver<V, E>)
      ensures this.resolver == resolver
      ensures routes == map[]
    {
      this.resolver := resolver;
      routes := map[];
    }

    /** `add`: the handler is stored under `(method, path)`, replacing any
        handler already there; no other route changes. */
    method Add(verb: Method, path: string, handler: Handler<V, E>)
      modifies this
      ensures routes == old(routes)[(verb, path) := handler]
    {
      routes := routes[(verb, path) := handler];
    }

    /** `lookup`: a handler exactly when one was added under this method and
        path, and then that handler. */
    function Lookup(verb: Method, path: string): (h: Option<Handler<V, E>>)
      reads this
      ensures h.Some? <==> (verb, path) in routes
      ensures h.Some? ==> h.value == routes[(verb, path)]
    {
      if (verb, path) in routes then Some(routes[(verb, path)]) else None
    }

    /** `handle_request` for a request whose method is `verb` and whose URI
        path is `path`: nothing when no route matches; otherwise the matching
        handler is run once, on a resolver layering this request over the
        router's shared resolver, and its result is unwrapped. */
    method HandleRequest(request: V, verb: Method, path: string) returns (d: Dispatch)
      ensures (verb, path) !in routes ==> d == NoRoute
      ensures (verb, path) in routes ==>
        d == Unwrapped(routes[(verb, path)](RequestResolver(RequestType, request, resolver)))
    {
      var h := Lookup(verb, path);
      match h
      case Some(handler) =>
        var layered := RequestResolver(RequestType, request, resolver);
        d := Unwrapped(handler(layered));
      case None =>
        d := NoRoute;
    }
  }

  /** Re-adding a route replaces its handler: a matching request runs the
      newer handler; the same path under another method is not handled. */
  method ReaddReplaces<V, E>(inner: Resolver<V, E>, request: V, first: Handler<V, E>, second: Handler<V, E>)
    returns (matched: Dispatch, unmatched: Dispatch)
    ensures matched == Unwrapped(second(RequestResolver(RequestType, request, inner)))
    ensures unmatched == NoRoute
  {
    var router := new Router(inner);
    router.Add(Get, "/state/echo", first);
    router.Add(Get, "/state/echo", second);
    matched := router.HandleRequest(request, Get, "/state/echo");
    unmatched := router.HandleRequest(request, Post, "/state/echo");
  }
}
