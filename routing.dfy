/** Route groups (http.go): a parent-linked tree of groups, each with a path
    prefix and its own list of middlewares, registering routes on a shared mux.
    The mux is an abstract table from path to route entry; how it matches
    incoming requests to paths is not modelled. */
module Routing {
  import opened Paths
  import opened Handlers

  /** The closure http.go's Handle registers: the HTTP method it accepts, the
      handler it ends in, and the group whose middlewares it collects on every
      request. */
  datatype Route = Route(httpMethod: string, handler: Handler, group: RouterGroup)

  /** What a registered route does with one request. */
  datatype Outcome =
    | MethodRejected       // wrong method: no middleware collected, handler not run
                           // (the source's nil logger then panics; see README)
    | Serves(h: Handler)   // the fully wrapped handler that serves the request

  const MethodGet := "GET"
  const MethodPost := "POST"
  const MethodPut := "PUT"
  const MethodDelete := "DELETE"

  /** http.ServeMux reduced to its table of registered patterns. */
  class Mux {
    var routes: map<string, Route>

    constructor ()
      ensures routes == map[]
    {
      routes := map[];
    }

    /** ServeMux.HandleFunc (Go 1.22 and later): a pattern without '/' (the
        empty one included) or one registered before makes Go panic; here that
        registration is refused and the table is left alone. */
    method Register(pattern: string, route: Route) returns (ok: bool)
      modifies this
      ensures ok <==> '/' in pattern && pattern !in old(routes)
      ensures routes == if ok then old(routes)[pattern := route] else old(routes)
    {
      ok := '/' in pattern && pattern !in routes;
      if ok {
        routes := routes[pattern := route];
      }
    }
  }

  class RouterGroup {
    const mux: Mux
    const prefix: string
    const parent: RouterGroup?
    var middlewares: seq<Middleware>

    /** The parent chain, nearest ancestor first, root last. */
    ghost const ancestry: seq<RouterGroup>

    /** The group followed by its ancestors. */
    ghost function Lineage(): seq<RouterGroup> {
      [this] + ancestry
    }

    /** The parent links are acyclic and `ancestry` lists them. Only constant
        fields are involved, so validity never changes once established. */
    ghost predicate Valid()
      decreases |ancestry|
    {
      && (parent == null ==> ancestry == [])
      && (parent != null ==>
            && ancestry == [parent] + parent.ancestry
            && this !in ancestry
            && parent.Valid())
    }

    /** The middlewares of every group from the root down to this one, root
        first; every request through a route of this group passes them in
        this order. */
    ghost function AllMiddlewares(): seq<Middleware>
      requires Valid()
      reads {this} + set g | g in ancestry
      decreases |ancestry|
    {
      if parent == null then middlewares
      else parent.AllMiddlewares() + middlewares
    }

    /** NewRouterGroup: a root group. The logger argument is dropped by the
        source, so it does not appear here. */
    constructor (mux: Mux, prefix: string)
      ensures Valid()
      ensures this.mux == mux && this.prefix == prefix
      ensures parent == null && middlewares == []
      ensures AllMiddlewares() == []
    {
      this.mux := mux;
      this.prefix := prefix;
      this.parent := null;
      this.middlewares := [];
      this.ancestry := [];
    }

    /** The group built by Group: shares the parent's mux, joins the prefixes,
        links back to the parent and starts with no middlewares of its own. */
    constructor Child(parent: RouterGroup, prefix: string)
      requires parent.Valid()
      ensures Valid()
      ensures this.mux == parent.mux && this.prefix == Join(parent.prefix, prefix)
      ensures this.parent == parent && ancestry == parent.Lineage()
      ensures middlewares == []
      ensures AllMiddlewares() == parent.AllMiddlewares()
    {
      this.mux := parent.mux;
      this.prefix := Join(parent.prefix, prefix);
      this.parent := parent;
      this.middlewares := [];
      this.ancestry := parent.Lineage();
      new;
      assert parent.AllMiddlewares() + [] == parent.AllMiddlewares();
    }

    /** Group: a nested group whose prefix is this prefix + `prefix` without
        trailing slashes; the parent's middlewares are not copied. */
    method Group(prefix: string) returns (child: RouterGroup)
      requires Valid()
      ensures fresh(child) && child.Valid()
      ensures child.mux == mux && child.prefix == Join(this.prefix, prefix)
      ensures child.parent == this && child.middlewares == []
      ensures child.AllMiddlewares() == AllMiddlewares()
    {
      child := new RouterGroup.Child(this, prefix);
    }

    /** Use: appends a middleware to this group's own list; no other group's
        list changes, and everything collected for this group gains it last. */
    method Use(mw: Middleware)
      requires Valid()
      modifies this`middlewares
      ensures middlewares == old(middlewares) + [mw]
      ensures AllMiddlewares() == old(AllMiddlewares()) + [mw]
    {
      middlewares := middlewares + [mw];
    }

    /** CollectMiddlewares: walks up the parent links, putting each group's
        list in front of what was collected so far. */
    method CollectMiddlewares() returns (mws: seq<Middleware>)
      requires Valid()
      ensures mws == AllMiddlewares()
    {
      mws := [];
      var current: RouterGroup? := this;
      ghost var k := 0;
      while current != null
        invariant current != null ==> k < |Lineage()| && current == Lineage()[k] && current.Valid()
        invariant (if current == null then [] else current.AllMiddlewares()) + mws == AllMiddlewares()
        decreases |Lineage()| - k
      {
        LineageAt(this, k);
        assert current.Lineage() == Lineage()[k..];
        assert current.parent != null ==> current.parent == Lineage()[k + 1];
        mws := current.middlewares + mws;
        current := current.parent;
        k := k + 1;
      }
    }

    /** Handle: registers `handler` for `httpMethod` at Join(prefix, pattern),
        the same path a Group(pattern) of this group would get as prefix. */
    method Handle(httpMethod: string, pattern: string, handler: Handler) returns (ok: bool)
      requires Valid()
      modifies mux
      ensures var path := Join(prefix, pattern);
              && (ok <==> '/' in path && path !in old(mux.routes))
              && mux.routes == if ok then old(mux.routes)[path := Route(httpMethod, handler, this)]
                               else old(mux.routes)
    {
      var fullPath := Join(prefix, pattern);
      ok := mux.Register(fullPath, Route(httpMethod, handler, this));
    }

    method Get(pattern: string, handler: Handler) returns (ok: bool)
      requires Valid()
      modifies mux
      ensures var path := Join(prefix, pattern);
              && (ok <==> '/' in path && path !in old(mux.routes))
              && mux.routes == if ok then old(mux.routes)[path := Route(MethodGet, handler, this)]
                               else old(mux.routes)
    {
      ok := Handle(MethodGet, pattern, handler);
    }

    method Post(pattern: string, handler: Handler) returns (ok: bool)
      requires Valid()
      modifies mux
      ensures var path := Join(prefix, pattern);
              && (ok <==> '/' in path && path !in old(mux.routes))
              && mux.routes == if ok then old(mux.routes)[path := Route(MethodPost, handler, this)]
                               else old(mux.routes)
    {
      ok := Handle(MethodPost, pattern, handler);
    }

    method Put(pattern: string, handler: Handler) returns (ok: bool)
      requires Valid()
      modifies mux
      ensures var path := Join(prefix, pattern);
              && (ok <==> '/' in path && path !in old(mux.routes))
              && mux.routes == if ok then old(mux.routes)[path := Route(MethodPut, handler, this)]
                               else old(mux.routes)
    {
      ok := Handle(MethodPut, pattern, handler);
    }

    method Delete(pattern: string, handler: Handler) returns (ok: bool)
      requires Valid()
      modifies mux
      ensures var path := Join(prefix, pattern);
              && (ok <==> '/' in path && path !in old(mux.routes))
              && mux.routes == if ok then old(mux.routes)[path := Route(MethodDelete, handler, this)]
                               else old(mux.routes)
    {
      ok := Handle(MethodDelete, pattern, handler);
    }
  }

  /** Every group on a valid group's lineage is valid, and its own lineage is
      the matching suffix. */
  lemma {:induction false} LineageAt(g: RouterGroup, k: nat)
    requires g.Valid() && k < |g.Lineage()|
    ensures g.Lineage()[k].Valid() && g.Lineage()[k].Lineage() == g.Lineage()[k..]
    decreases k
  {
    if k > 0 {
      assert g.Lineage() == [g] + g.parent.Lineage();
      LineageAt(g.parent, k - 1);
      assert g.Lineage()[k..] == g.parent.Lineage()[k - 1..];
    }
  }

  /** What an ancestor collects is a prefix of what its descendants collect:
      an outer group's middlewares always wrap an inner group's. */
  lemma {:induction false} AncestorMiddlewaresFirst(g: RouterGroup, a: RouterGroup)
    requires g.Valid() && a in g.Lineage()
    ensures a.Valid()
    ensures |a.AllMiddlewares()| <= |g.AllMiddlewares()|
    ensures g.AllMiddlewares()[..|a.AllMiddlewares()|] == a.AllMiddlewares()
    decreases |g.ancestry|
  {
    if a != g {
      assert g.parent != null;
      assert a in g.parent.Lineage();
      AncestorMiddlewaresFirst(g.parent, a);
      assert g.AllMiddlewares() == g.parent.AllMiddlewares() + g.middlewares;
    }
  }

  /** Total number of own middlewares of the given groups. */
  ghost function SumOfLengths(groups: seq<RouterGroup>): nat
    reads set g | g in groups
  {
    if groups == [] then 0 else |groups[0].middlewares| + SumOfLengths(groups[1..])
  }

  /** A group collects exactly as many middlewares as the groups on its lineage
      hold between them. */
  lemma {:induction false} CollectedLength(g: RouterGroup)
    requires g.Valid()
    ensures |g.AllMiddlewares()| == SumOfLengths(g.Lineage())
    decreases |g.ancestry|
  {
    assert g.Lineage()[1..] == g.ancestry;
    if g.parent != null {
      assert g.parent.Lineage() == g.ancestry;
      CollectedLength(g.parent);
    } else {
      assert SumOfLengths(g.ancestry) == 0;
    }
  }

  /** The registered closure: a wrong method is rejected before anything is
      collected; otherwise the group's middlewares, collected now, wrap the
      handler with the outermost group's first middleware outside. */
  method Serve(route: Route, requestMethod: string) returns (o: Outcome)
    requires route.group.Valid()
    ensures o.MethodRejected? <==> requestMethod != route.httpMethod
    ensures o.Serves? ==> o.h == Chain(route.group.AllMiddlewares(), route.handler)
    ensures o.Serves? ==> Layers(o.h) == route.group.AllMiddlewares() + Layers(route.handler)
  {
    if requestMethod != route.httpMethod {
      return MethodRejected;
    }
    var mws := route.group.CollectMiddlewares();
    var final := WrapHandler(mws, route.handler);
    return Serves(final);
  }

  /** The route's group is only read when a request arrives, so a middleware
      added to it after the route was registered wraps the next request too,
      innermost of all the group's middlewares. */
  method ServeAfterUse(route: Route, mw: Middleware) returns (o: Outcome)
    requires route.group.Valid()
    modifies route.group`middlewares
    ensures route.group.middlewares == old(route.group.middlewares) + [mw]
    ensures o == Serves(Chain(old(route.group.AllMiddlewares()) + [mw], route.handler))
  {
    route.group.Use(mw);
    o := Serve(route, route.httpMethod);
  }

  /** A root group with an empty prefix computes the empty path for route "/",
      and the mux refuses it (Go's ServeMux panics on the empty pattern), so
      nothing is registered. */
  method RootRouteRefused(mux: Mux, handler: Handler) returns (ok: bool)
    modifies mux
    ensures !ok && mux.routes == old(mux.routes)
  {
    var root := new RouterGroup(mux, "");
    RootRouteCollapses();
    ok := root.Get("/", handler);
  }

  /** A root group with an empty prefix registers route "api" at "api", a
      pattern without '/', which the mux refuses (Go panics on it). */
  method BareRouteRefused(mux: Mux, handler: Handler) returns (ok: bool)
    modifies mux
    ensures !ok && mux.routes == old(mux.routes)
  {
    var root := new RouterGroup(mux, "");
    assert Join("", "api") == "api" by {
      assert "" + "api" == "api";
    }
    ok := root.Get("api", handler);
  }
}
