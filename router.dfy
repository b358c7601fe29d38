/**
 * The resource-oriented router: an append-only route table, capability-based route
 * registration for resources, and the composition of the registered middlewares
 * around the route table when a request is served.
 */
module Router {
  import opened Middlewares

  /** The five route capabilities a resource value may have (Listable ... Destroyable). */
  datatype Capability = List | Store | View | Update | Destroy

  /** The value handed to AddResource, by the capabilities it implements. */
  datatype Resource = Resource(name: string, capabilities: set<Capability>)

  /** What a route dispatches to: a capability's method on a resource value, or a plain handler. */
  datatype HandlerRef = ResourceHandler(resource: Resource, capability: Capability) | HandlerFunc(name: string)

  datatype Route = Route(path: string, handler: HandlerRef, httpMethod: string, name: string)

  /** The order in which AddResource probes capabilities. */
  const CapabilityOrder: seq<Capability> := [List, Store, View, Update, Destroy]

  function Rank(c: Capability): (k: nat)
    ensures k < |CapabilityOrder| && CapabilityOrder[k] == c
  {
    match c
    case List => 0
    case Store => 1
    case View => 2
    case Update => 3
    case Destroy => 4
  }

  const JsonApiContentType: string := "application/vnd.api+json; charset=UTF-8"

  /** The route AddResource registers for one capability of a resource under a prefix. */
  function RouteFor(prefix: string, res: Resource, c: Capability): (r: Route)
    ensures r.handler == ResourceHandler(res, c)
    ensures (c == List || c == Store) <==> r.path == "/" + prefix
    ensures !(c == List || c == Store) ==> r.path == "/" + prefix + "/{id:[0-9]+}"
    ensures |r.name| > |prefix| && r.name[..|prefix|] == prefix && r.name[|prefix|] == '.'
    ensures r.httpMethod == "GET" <==> (c == List || c == View)
  {
    var collection := "/" + prefix;
    var member := "/" + prefix + "/{id:[0-9]+}";
    assert |member| > |collection|;
    match c
    case List => Route(collection, ResourceHandler(res, c), "GET", prefix + ".list")
    case Store => Route(collection, ResourceHandler(res, c), "POST", prefix + ".store")
    case View => Route(member, ResourceHandler(res, c), "GET", prefix + ".view")
    case Update => Route(member, ResourceHandler(res, c), "PATCH", prefix + ".update")
    case Destroy => Route(member, ResourceHandler(res, c), "DELETE", prefix + ".delete")
  }

  /** The route for one capability if the resource has it, as a sequence of zero or one routes. */
  function OptionalRoute(prefix: string, res: Resource, c: Capability): seq<Route>
  {
    if c in res.capabilities then [RouteFor(prefix, res, c)] else []
  }

  /** The routes for the capabilities in `order` that the resource has, in that order. */
  function RoutesFor(prefix: string, res: Resource, order: seq<Capability>): seq<Route>
  {
    if order == [] then []
    else OptionalRoute(prefix, res, order[0]) + RoutesFor(prefix, res, order[1..])
  }

  /** Everything AddResource registers for a resource. */
  function ResourceRoutes(prefix: string, res: Resource): seq<Route>
  {
    RoutesFor(prefix, res, CapabilityOrder)
  }

  lemma RoutesForCons(prefix: string, res: Resource, c: Capability, rest: seq<Capability>)
    ensures RoutesFor(prefix, res, [c] + rest) == OptionalRoute(prefix, res, c) + RoutesFor(prefix, res, rest)
  {
    assert ([c] + rest)[0] == c && ([c] + rest)[1..] == rest;
  }

  lemma ResourceRoutesUnfold(prefix: string, res: Resource)
    ensures ResourceRoutes(prefix, res) ==
      OptionalRoute(prefix, res, List) + OptionalRoute(prefix, res, Store) + OptionalRoute(prefix, res, View)
      + OptionalRoute(prefix, res, Update) + OptionalRoute(prefix, res, Destroy)
  {
    var l, st, v := OptionalRoute(prefix, res, List), OptionalRoute(prefix, res, Store), OptionalRoute(prefix, res, View);
    var u, d := OptionalRoute(prefix, res, Update), OptionalRoute(prefix, res, Destroy);
    RoutesForCons(prefix, res, Destroy, []);
    assert [Destroy] == [Destroy] + [];
    RoutesForCons(prefix, res, Update, [Destroy]);
    assert [Update, Destroy] == [Update] + [Destroy];
    RoutesForCons(prefix, res, View, [Update, Destroy]);
    assert [View, Update, Destroy] == [View] + [Update, Destroy];
    RoutesForCons(prefix, res, Store, [View, Update, Destroy]);
    assert [Store, View, Update, Destroy] == [Store] + [View, Update, Destroy];
    RoutesForCons(prefix, res, List, [Store, View, Update, Destroy]);
    assert CapabilityOrder == [List] + [Store, View, Update, Destroy];
    assert RoutesFor(prefix, res, []) == [];
    assert ResourceRoutes(prefix, res) == l + (st + (v + (u + (d + []))));
    NestFive(l, st, v, u, d);
  }

  lemma NestFive<T>(a: seq<T>, b: seq<T>, c: seq<T>, d: seq<T>, e: seq<T>)
    ensures a + (b + (c + (d + (e + [])))) == a + b + c + d + e
  {
    assert e + [] == e;
  }

  /** The capabilities in `order` that the resource has, in that order. */
  function Present(res: Resource, order: seq<Capability>): (cs: seq<Capability>)
    ensures forall c :: c in cs <==> c in order && c in res.capabilities
    ensures |cs| <= |order|
  {
    if order == [] then []
    else (if order[0] in res.capabilities then [order[0]] else []) + Present(res, order[1..])
  }

  /** Capabilities listed in strictly increasing rank. */
  predicate RankSorted(cs: seq<Capability>)
  {
    forall i, j :: 0 <= i < j < |cs| ==> Rank(cs[i]) < Rank(cs[j])
  }

  /** Dropping the first capability of a sorted list keeps it sorted. */
  lemma RankSortedDrop(cs: seq<Capability>)
    requires cs != [] && RankSorted(cs)
    ensures RankSorted(cs[1..])
    ensures forall c :: c in cs[1..] ==> Rank(cs[0]) < Rank(c)
  {
    forall i, j | 0 <= i < j < |cs[1..]| ensures Rank(cs[1..][i]) < Rank(cs[1..][j]) {
      assert cs[1..][i] == cs[i + 1] && cs[1..][j] == cs[j + 1];
    }
    forall c | c in cs[1..] ensures Rank(cs[0]) < Rank(c) {
      var m :| 0 <= m < |cs[1..]| && cs[1..][m] == c;
      assert cs[m + 1] == c;
    }
  }

  /** A capability ranked below every one of a sorted list can be put in front of it. */
  lemma RankSortedCons(c: Capability, cs: seq<Capability>)
    requires RankSorted(cs) && forall d :: d in cs ==> Rank(c) < Rank(d)
    ensures RankSorted([c] + cs)
  {
    var all := [c] + cs;
    forall i, j | 0 <= i < j < |all| ensures Rank(all[i]) < Rank(all[j]) {
      assert all[j] == cs[j - 1];
      if i > 0 {
        assert all[i] == cs[i - 1];
      } else {
        assert cs[j - 1] in cs;
      }
    }
  }

  /** Present keeps the probing order: its capabilities are in strictly increasing rank. */
  lemma {:induction false} PresentSorted(res: Resource, order: seq<Capability>)
    requires RankSorted(order)
    ensures RankSorted(Present(res, order))
  {
    if order != [] {
      RankSortedDrop(order);
      PresentSorted(res, order[1..]);
      var tail := Present(res, order[1..]);
      if order[0] in res.capabilities {
        assert Present(res, order) == [order[0]] + tail;
        RankSortedCons(order[0], tail);
      } else {
        assert Present(res, order) == tail;
      }
    }
  }

  /** RoutesFor is RouteFor applied to each present capability, in order. */
  lemma {:induction false} RoutesForPresent(prefix: string, res: Resource, order: seq<Capability>)
    ensures var rs, cs := RoutesFor(prefix, res, order), Present(res, order);
      |rs| == |cs| && forall i :: 0 <= i < |rs| ==> rs[i] == RouteFor(prefix, res, cs[i])
  {
    if order != [] {
      RoutesForPresent(prefix, res, order[1..]);
    }
  }

  /**
   * AddResource registers exactly one route per capability the resource has, in the
   * order list, store, view, update, destroy, and nothing for a missing capability.
   */
  lemma ResourceRoutesShape(prefix: string, res: Resource)
    ensures var rs, cs := ResourceRoutes(prefix, res), Present(res, CapabilityOrder);
      && |rs| == |cs|
      && (forall i :: 0 <= i < |rs| ==> rs[i] == RouteFor(prefix, res, cs[i]))
      && RankSorted(cs)
      && (forall c :: c in res.capabilities <==> c in cs)
      && (res.capabilities == {} ==> rs == [])
  {
    RoutesForPresent(prefix, res, CapabilityOrder);
    PresentSorted(res, CapabilityOrder);
    forall c | c in res.capabilities ensures c in CapabilityOrder {
      assert CapabilityOrder[Rank(c)] == c;
    }
    var cs := Present(res, CapabilityOrder);
    assert |cs| > 0 ==> cs[0] in res.capabilities;
  }

  /**
   * Within one resource, no two routes share both method and path, and no two share a name.
   */
  lemma ResourceRoutesDistinct(prefix: string, res: Resource)
    ensures var rs := ResourceRoutes(prefix, res);
      forall i, j :: 0 <= i < j < |rs| ==>
        (rs[i].httpMethod, rs[i].path) != (rs[j].httpMethod, rs[j].path) && rs[i].name != rs[j].name
  {
    ResourceRoutesShape(prefix, res);
    var rs, cs := ResourceRoutes(prefix, res), Present(res, CapabilityOrder);
    forall i, j | 0 <= i < j < |rs|
      ensures (rs[i].httpMethod, rs[i].path) != (rs[j].httpMethod, rs[j].path) && rs[i].name != rs[j].name
    {
      assert Rank(cs[i]) < Rank(cs[j]);
      RouteForInjective(prefix, res, cs[i], cs[j]);
    }
  }

  lemma RouteForInjective(prefix: string, res: Resource, a: Capability, b: Capability)
    requires a != b
    ensures var ra, rb := RouteFor(prefix, res, a), RouteFor(prefix, res, b);
      (ra.httpMethod, ra.path) != (rb.httpMethod, rb.path) && ra.name != rb.name
  {
    var ra, rb := RouteFor(prefix, res, a), RouteFor(prefix, res, b);
    var suffixA, suffixB := ra.name[|prefix|..], rb.name[|prefix|..];
    assert ra.name == prefix + suffixA && rb.name == prefix + suffixB;
    assert suffixA[1] != suffixB[1];
  }

  lemma AppendFive<T>(s: seq<T>, a: seq<T>, b: seq<T>, c: seq<T>, d: seq<T>, e: seq<T>)
    ensures s + a + b + c + d + e == s + (a + b + c + d + e)
  {
  }

  /** A request handler built from the route table and the middlewares wrapped around it. */
  datatype Handler = Mux | Wrapped(mw: Middleware, inner: Handler)

  /** The middlewares of a handler from the innermost to the outermost. */
  function Layers(h: Handler): seq<Middleware>
  {
    match h
    case Mux => []
    case Wrapped(mw, inner) => Layers(inner) + [mw]
  }

  /** The handler ServeHTTP builds: each registered middleware wraps all earlier ones. */
  function Compose(mws: seq<Middleware>): (h: Handler)
    ensures Layers(h) == mws
  {
    if mws == [] then Mux else Wrapped(mws[|mws| - 1], Compose(mws[..|mws| - 1]))
  }

  /** Serving a request through a handler: each gate either passes it inward or answers. */
  function Run(h: Handler, r: Request, matches: Matcher): (o: Outcome)
    ensures o != Forwarded ==> o == Rejected(StatusUnsupportedMediaType) || o == Rejected(StatusUnauthorized)
    ensures o != Forwarded ==> exists k :: 0 <= k < |Layers(h)| && Gate(Layers(h)[k], r, matches) == o
  {
    match h
    case Mux => Forwarded
    case Wrapped(mw, inner) =>
      assert Layers(h)[|Layers(h)| - 1] == mw;
      assert forall k :: 0 <= k < |Layers(inner)| ==> Layers(h)[k] == Layers(inner)[k];
      if Gate(mw, r, matches) == Forwarded then Run(inner, r, matches) else Gate(mw, r, matches)
  }

  /** One unfolding of the pipeline: the last-registered middleware is the outermost gate. */
  lemma ComposeLast(mws: seq<Middleware>, r: Request, matches: Matcher)
    requires mws != []
    ensures var g := Gate(mws[|mws| - 1], r, matches);
      Run(Compose(mws), r, matches) == if g == Forwarded then Run(Compose(mws[..|mws| - 1]), r, matches) else g
  {
  }

  /** The pipeline reaches the route table exactly when every gate passes the request. */
  lemma {:induction false} ComposeForwarded(mws: seq<Middleware>, r: Request, matches: Matcher)
    ensures Run(Compose(mws), r, matches) == Forwarded <==>
      forall k :: 0 <= k < |mws| ==> Gate(mws[k], r, matches) == Forwarded
  {
    if mws != [] {
      var last := |mws| - 1;
      var init := mws[..last];
      ComposeLast(mws, r, matches);
      ComposeForwarded(init, r, matches);
      forall k | 0 <= k < last ensures init[k] == mws[k] { }
    }
  }

  /**
   * The pipeline answers with the rejection of the LAST-registered middleware that
   * rejects (the outermost one).
   */
  lemma {:induction false} ComposeOutermostLast(mws: seq<Middleware>, r: Request, matches: Matcher)
    ensures Run(Compose(mws), r, matches) != Forwarded ==>
      exists k :: 0 <= k < |mws| && Run(Compose(mws), r, matches) == Gate(mws[k], r, matches)
                  && forall j :: k < j < |mws| ==> Gate(mws[j], r, matches) == Forwarded
  {
    if mws != [] {
      var last := |mws| - 1;
      var init := mws[..last];
      var g, inner := Gate(mws[last], r, matches), Run(Compose(init), r, matches);
      var o := Run(Compose(mws), r, matches);
      ComposeLast(mws, r, matches);
      if g != Forwarded {
        assert o == Gate(mws[last], r, matches);
      } else if inner != Forwarded {
        ComposeOutermostLast(init, r, matches);
        var k :| 0 <= k < |init| && inner == Gate(init[k], r, matches)
                 && forall j :: k < j < |init| ==> Gate(init[j], r, matches) == Forwarded;
        assert init[k] == mws[k];
        forall j | k < j < |mws| ensures Gate(mws[j], r, matches) == Forwarded {
          if j < last {
            assert init[j] == mws[j];
          }
        }
        assert o == Gate(mws[k], r, matches);
      } else {
        assert o == Forwarded;
      }
    }
  }

  /**
   * With a content-type gate registered before a firewall (as the server's startup
   * does), a request the firewall refuses gets 401 even if its Content-Type would get 415.
   */
  lemma FirewallBeforeContentType(mws: seq<Middleware>, ct: Middleware, fw: Middleware, r: Request, matches: Matcher)
    requires ct.ContentType? && fw.Firewall?
    requires Gate(fw, r, matches) != Forwarded
    ensures Run(Compose(mws + [ct, fw]), r, matches) == Rejected(StatusUnauthorized)
  {
    var all := mws + [ct, fw];
    assert all[|all| - 1] == fw;
  }

  /** The response as far as the core decides it: its Content-Type header and the outcome. */
  datatype Response = Response(contentType: string, outcome: Outcome)

  class Router {
    var routes: seq<Route>
    var middlewares: seq<Middleware>

    /** NewRouter: no routes and no middlewares. */
    constructor ()
      ensures routes == [] && middlewares == []
    {
      routes := [];
      middlewares := [];
    }

    /** AddRoute appends one route and returns the same router. */
    method AddRoute(route: Route) returns (self: Router)
      modifies this
      ensures routes == old(routes) + [route] && middlewares == old(middlewares)
      ensures self == this
    {
      routes := routes + [route];
      self := this;
    }

    /** AddRoutes adds the routes one by one, in slice order. */
    method AddRoutes(rs: seq<Route>) returns (self: Router)
      modifies this
      ensures routes == old(routes) + rs && middlewares == old(middlewares)
      ensures self == this
    {
      for i := 0 to |rs|
        invariant routes == old(routes) + rs[..i] && middlewares == old(middlewares)
      {
        var _ := AddRoute(rs[i]);
        assert rs[..i + 1] == rs[..i] + [rs[i]];
      }
      assert rs[..|rs|] == rs;
      self := this;
    }

    /** One capability probe of AddResource: add the capability's route if the resource has it. */
    method AddIfCapable(prefix: string, res: Resource, c: Capability)
      modifies this
      ensures routes == old(routes) + OptionalRoute(prefix, res, c) && middlewares == old(middlewares)
    {
      if c in res.capabilities {
        var _ := AddRoute(RouteFor(prefix, res, c));
      }
    }

    /** AddResource probes the capabilities in order and adds one route per capability present. */
    method AddResource(prefix: string, res: Resource) returns (self: Router)
      modifies this
      ensures routes == old(routes) + ResourceRoutes(prefix, res) && middlewares == old(middlewares)
      ensures self == this
    {
      ghost var before := routes;
      AddIfCapable(prefix, res, List);
      AddIfCapable(prefix, res, Store);
      AddIfCapable(prefix, res, View);
      AddIfCapable(prefix, res, Update);
      AddIfCapable(prefix, res, Destroy);
      ResourceRoutesUnfold(prefix, res);
      AppendFive(before, OptionalRoute(prefix, res, List), OptionalRoute(prefix, res, Store),
        OptionalRoute(prefix, res, View), OptionalRoute(prefix, res, Update), OptionalRoute(prefix, res, Destroy));
      self := this;
    }

    /** Use appends one middleware and returns the same router. */
    method Use(mw: Middleware) returns (self: Router)
      modifies this
      ensures middlewares == old(middlewares) + [mw] && routes == old(routes)
      ensures self == this
    {
      middlewares := middlewares + [mw];
      self := this;
    }

    /**
     * ServeHTTP wraps the route table in each middleware in registration order, so the
     * last one registered sees the request first; the response Content-Type is set to
     * the JSON:API media type before anything runs, so rejections carry it too.
     */
    method ServeHTTP(r: Request, matches: Matcher) returns (resp: Response)
      ensures resp.contentType == JsonApiContentType
      ensures resp.outcome == Run(Compose(middlewares), r, matches)
    {
      var handler := Mux;
      for i := 0 to |middlewares|
        invariant handler == Compose(middlewares[..i])
      {
        assert middlewares[..i + 1][..i] == middlewares[..i];
        handler := Wrapped(middlewares[i], handler);
      }
      assert middlewares[..|middlewares|] == middlewares;
      resp := Response(JsonApiContentType, Run(handler, r, matches));
    }
  }
}
