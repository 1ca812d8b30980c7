/** Handlers and middlewares as opaque symbols (middleware.go's
    `type Middleware func(http.Handler) http.Handler`), and the decorator chain
    that http.go's Handle builds around a route's handler. */
module Handlers {

  /** A middleware, known only by name: applying it to a handler yields a new handler. */
  datatype Middleware = Middleware(name: string)

  /** A handler is either an endpoint or an endpoint wrapped by middlewares,
      outermost first. */
  datatype Handler =
    | Endpoint(name: string)
    | Wrapped(layer: Middleware, next: Handler)

  /** mws[0](mws[1](... mws[n-1](h))): the first middleware is the outermost. */
  function Chain(mws: seq<Middleware>, h: Handler): Handler {
    if mws == [] then h else Wrapped(mws[0], Chain(mws[1..], h))
  }

  /** The middlewares a request passes through before it reaches the endpoint,
      in the order it meets them. */
  function Layers(h: Handler): seq<Middleware> {
    match h
    case Endpoint(_) => []
    case Wrapped(m, next) => [m] + Layers(next)
  }

  /** The endpoint that finally serves the request. */
  function Innermost(h: Handler): (e: Handler)
    ensures e.Endpoint?
  {
    match h
    case Endpoint(_) => h
    case Wrapped(_, next) => Innermost(next)
  }

  /** Wrapping adds exactly the given middlewares in front, first one outermost,
      and leaves the endpoint alone; with no middlewares the handler is unchanged. */
  lemma {:induction false} ChainLayers(mws: seq<Middleware>, h: Handler)
    ensures Layers(Chain(mws, h)) == mws + Layers(h)
    ensures Innermost(Chain(mws, h)) == Innermost(h)
    ensures mws == [] ==> Chain(mws, h) == h
    ensures mws != [] ==> Chain(mws, h).Wrapped? && Chain(mws, h).layer == mws[0]
  {
    if mws != [] {
      ChainLayers(mws[1..], h);
      assert [mws[0]] + (mws[1..] + Layers(h)) == mws + Layers(h);
    }
  }

  /** Wrapping an endpoint is undone by reading its layers back. */
  lemma ChainRoundTrip(mws: seq<Middleware>, name: string)
    ensures Layers(Chain(mws, Endpoint(name))) == mws
    ensures Innermost(Chain(mws, Endpoint(name))) == Endpoint(name)
  {
    ChainLayers(mws, Endpoint(name));
    assert mws + [] == mws;
  }

  /** Wrapping with a + b is wrapping with b first and then with a around it:
      middlewares collected earlier end up further out. */
  lemma {:induction false} ChainAppend(a: seq<Middleware>, b: seq<Middleware>, h: Handler)
    ensures Chain(a + b, h) == Chain(a, Chain(b, h))
  {
    if a == [] {
      assert a + b == b;
    } else {
      ChainAppend(a[1..], b, h);
      assert (a + b)[1..] == a[1..] + b;
    }
  }

  /** The reverse loop of http.go's Handle: each middleware, last to first,
      wraps the handler built so far. */
  method WrapHandler(mws: seq<Middleware>, handler: Handler) returns (final: Handler)
    ensures final == Chain(mws, handler)
    ensures Layers(final) == mws + Layers(handler)
    ensures Innermost(final) == Innermost(handler)
  {
    final := handler;
    var i := |mws|;
    while i > 0
      invariant 0 <= i <= |mws|
      invariant final == Chain(mws[i..], handler)
    {
      i := i - 1;
      assert mws[i..][1..] == mws[i + 1..];
      final := Wrapped(mws[i], final);
    }
    ChainLayers(mws, handler);
  }
}
