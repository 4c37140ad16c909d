/** internal/routes/routes.go: the route table SetupRoutes registers on a
    gorilla/mux router, and how a request is dispatched on it. A route
    matches when its path matcher and its method matcher both accept the
    request, and the first matching route in registration order serves it.
    A request whose path matches but whose method does not falls through
    to later routes, ending at the matcher-less catch-all registered last. */
module Routes {
  import opened Common

  datatype Matcher = Path(path: string) | PathPrefix(prefix: string) | Anything
  datatype Methods = AnyMethod | Only(allowed: seq<string>)

  /** The wrapper around the handler: none, RequireAuth or RequireAdmin. */
  datatype Guard = Unguarded | RequireAuth | RequireAdmin

  datatype Handler =
    | StaticFiles
    | Login
    | Logout
    | Dashboard
    | List(entity: string)
    | New(entity: string)
    | Edit(entity: string)
    | Delete(entity: string)
    | NotFound

  datatype Route = Route(matcher: Matcher, methods: Methods, guard: Guard, handler: Handler)

  predicate PathMatches(m: Matcher, path: string) {
    match m
    case Path(p) => path == p
    case PathPrefix(p) => p <= path
    case Anything => true
  }

  predicate MethodMatches(ms: Methods, httpMethod: string) {
    ms.AnyMethod? || httpMethod in ms.allowed
  }

  predicate Matches(r: Route, path: string, httpMethod: string) {
    PathMatches(r.matcher, path) && MethodMatches(r.methods, httpMethod)
  }

  /** Router.Match: the first route that matches. */
  function Dispatch(routes: seq<Route>, path: string, httpMethod: string): (r: Option<Route>)
    ensures r.Some? ==> r.value in routes && Matches(r.value, path, httpMethod)
    ensures r.None? <==> forall i :: 0 <= i < |routes| ==> !Matches(routes[i], path, httpMethod)
  {
    if |routes| == 0 then None
    else if Matches(routes[0], path, httpMethod) then Some(routes[0])
    else Dispatch(routes[1..], path, httpMethod)
  }

  /** Route i is the first one matching the request. */
  predicate FirstMatchAt(routes: seq<Route>, path: string, httpMethod: string, i: int) {
    && 0 <= i < |routes|
    && Matches(routes[i], path, httpMethod)
    && forall j :: 0 <= j < i ==> !Matches(routes[j], path, httpMethod)
  }

  /** Dispatch picks exactly the first matching route. */
  lemma {:induction false} DispatchIsFirstMatch(routes: seq<Route>, path: string, httpMethod: string, i: int)
    requires FirstMatchAt(routes, path, httpMethod, i)
    ensures Dispatch(routes, path, httpMethod) == Some(routes[i])
  {
    if i > 0 {
      assert !Matches(routes[0], path, httpMethod);
      assert FirstMatchAt(routes[1..], path, httpMethod, i - 1) by {
        assert forall j :: 0 <= j < i - 1 ==> routes[1..][j] == routes[j + 1];
      }
      DispatchIsFirstMatch(routes[1..], path, httpMethod, i - 1);
    }
  }

  /** Routes registered later are consulted only when no earlier one matches. */
  lemma {:induction false} DispatchAppend(a: seq<Route>, b: seq<Route>, path: string, httpMethod: string)
    ensures Dispatch(a + b, path, httpMethod)
         == if Dispatch(a, path, httpMethod).Some? then Dispatch(a, path, httpMethod) else Dispatch(b, path, httpMethod)
  {
    if |a| == 0 {
      assert a + b == b;
    } else {
      DispatchAppend(a[1..], b, path, httpMethod);
      assert (a + b)[1..] == a[1..] + b;
    }
  }

  /** A route registered again after an identical one never serves anything:
      removing the later copy changes no dispatch. */
  lemma DuplicateShadowed(routes: seq<Route>, i: int, j: int, path: string, httpMethod: string)
    requires 0 <= i < j < |routes| && routes[i] == routes[j]
    ensures Dispatch(routes[..j] + routes[j + 1..], path, httpMethod) == Dispatch(routes, path, httpMethod)
  {
    assert routes == routes[..j] + routes[j..];
    DispatchAppend(routes[..j], routes[j..], path, httpMethod);
    DispatchAppend(routes[..j], routes[j + 1..], path, httpMethod);
    if Dispatch(routes[..j], path, httpMethod).None? {
      assert routes[..j][i] == routes[j];
      assert routes[j..][1..] == routes[j + 1..];
    }
  }

  // ---------------------------------------------------------------------
  // The table SetupRoutes registers

  /** The nine entities with list, new, edit and delete routes, in
      registration order. */
  const Entities: seq<string> :=
    ["user_types", "users", "restaurants", "metrics", "reviews",
     "metric_reviews", "filter_types", "filters", "otp_requests"]

  /** Path suffixes of an entity's list, new, edit and delete routes. */
  const Suffixes: seq<string> := ["", "/new", "/edit", "/delete"]

  function EntityPath(entity: string, k: nat): string
    requires k < 4
  {
    "/" + entity + Suffixes[k]
  }

  /** The handler behind an entity's delete route: /filters/delete is
      registered with the list handler FiltersHandler (routes.go:91). */
  function DeleteHandlerOf(entity: string): Handler {
    if entity == "filters" then List(entity) else Delete(entity)
  }

  /** The four routes of one entity: the list is GET-only behind
      RequireAuth, new and edit take GET and POST behind RequireAdmin,
      delete is POST-only behind RequireAdmin. */
  function Crud(entity: string): seq<Route> {
    [Route(Path(EntityPath(entity, 0)), Only(["GET"]), RequireAuth, List(entity)),
     Route(Path(EntityPath(entity, 1)), Only(["GET", "POST"]), RequireAdmin, New(entity)),
     Route(Path(EntityPath(entity, 2)), Only(["GET", "POST"]), RequireAdmin, Edit(entity)),
     Route(Path(EntityPath(entity, 3)), Only(["POST"]), RequireAdmin, DeleteHandlerOf(entity))]
  }

  function CrudRoutes(entities: seq<string>): seq<Route> {
    if |entities| == 0 then [] else Crud(entities[0]) + CrudRoutes(entities[1..])
  }

  const StaticRoute: Route := Route(PathPrefix("/static/"), AnyMethod, Unguarded, StaticFiles)
  const LoginRoute: Route := Route(Path("/login"), Only(["GET", "POST"]), Unguarded, Login)
  const LogoutRoute: Route := Route(Path("/logout"), Only(["GET"]), Unguarded, Logout)
  const DashboardRoute: Route := Route(Path("/"), Only(["GET"]), RequireAuth, Dashboard)

  /** router.NewRoute().HandlerFunc(http.NotFound): no matcher, so it
      matches every request. */
  const CatchAllRoute: Route := Route(Anything, AnyMethod, Unguarded, NotFound)

  /** Registered before the entity blocks (routes.go:26-35). */
  const HeadRoutes: seq<Route> := [StaticRoute, LoginRoute, LogoutRoute, DashboardRoute]

  /** Registered after them (routes.go:101-105). */
  const TailRoutes: seq<Route> := [LogoutRoute, CatchAllRoute]

  /** The table's shape for any list of entity blocks. */
  function TableOf(names: seq<string>): seq<Route> {
    HeadRoutes + CrudRoutes(names) + TailRoutes
  }

  /** The whole table, in registration order. */
  function Table(): seq<Route> {
    TableOf(Entities)
  }

  /** A mux.Router as far as registration goes: routes in order and the
      NotFoundHandler field. */
  class Router {
    var routes: seq<Route>
    var notFoundHandler: Option<Handler>

    constructor ()
      ensures routes == [] && notFoundHandler == None
    {
      routes, notFoundHandler := [], None;
    }

    /** Handle / HandleFunc / PathPrefix(...).Handler, with .Methods(...). */
    method Handle(matcher: Matcher, methods: Methods, guard: Guard, handler: Handler)
      modifies this`routes
      ensures routes == old(routes) + [Route(matcher, methods, guard, handler)]
    {
      routes := routes + [Route(matcher, methods, guard, handler)];
    }

    /** NewRoute().HandlerFunc(h).GetHandler(): appends a route with no
        matcher and returns its handler. */
    method NewRoute(handler: Handler) returns (h: Handler)
      modifies this`routes
      ensures routes == old(routes) + [Route(Anything, AnyMethod, Unguarded, handler)]
      ensures h == handler
    {
      routes := routes + [Route(Anything, AnyMethod, Unguarded, handler)];
      h := handler;
    }
  }

  /** SetupRoutes (routes.go:11-108). */
  method SetupRoutes() returns (router: Router)
    ensures fresh(router)
    ensures router.routes == Table()
    ensures router.notFoundHandler == Some(NotFound)
  {
    router := new Router();
    RegisterHead(router);
    RegisterEntities(router);
    RegisterTail(router);
  }

  /** The static files, login, logout and dashboard routes (routes.go:26-35). */
  method RegisterHead(router: Router)
    requires router.routes == []
    modifies router`routes
    ensures router.routes == HeadRoutes
  {
    router.Handle(PathPrefix("/static/"), AnyMethod, Unguarded, StaticFiles);
    router.Handle(Path("/login"), Only(["GET", "POST"]), Unguarded, Login);
    router.Handle(Path("/logout"), Only(["GET"]), Unguarded, Logout);
    router.Handle(Path("/"), Only(["GET"]), RequireAuth, Dashboard);
  }

  /** The second logout route and the catch-all NotFound route, whose
      handler also becomes the router's NotFoundHandler (routes.go:101-105). */
  method RegisterTail(router: Router)
    modifies router
    ensures router.routes == old(router.routes) + TailRoutes
    ensures router.notFoundHandler == Some(NotFound)
  {
    router.Handle(Path("/logout"), Only(["GET"]), Unguarded, Logout);
    var notFound := router.NewRoute(NotFound);
    router.notFoundHandler := Some(notFound);
  }

  /** The nine entity blocks (routes.go:37-98), in source order. */
  method RegisterEntities(router: Router)
    modifies router`routes
    ensures router.routes == old(router.routes) + CrudRoutes(Entities)
  {
    ghost var start := router.routes;
    assert Entities[..0] == [];
    RegisterBlocks(router, ["user_types", "users", "restaurants"], start, 0);
    RegisterBlocks(router, ["metrics", "reviews", "metric_reviews"], start, 3);
    RegisterBlocks(router, ["filter_types", "filters", "otp_requests"], start, 6);
    assert Entities[..9] == Entities;
  }

  /** Three consecutive entity blocks, from the k-th entity on
      (routes.go:37-98). */
  method RegisterBlocks(router: Router, names: seq<string>, ghost start: seq<Route>, ghost k: nat)
    requires |names| == 3 && k + 3 <= |Entities| && names == Entities[k..k + 3]
    requires router.routes == start + CrudRoutes(Entities[..k])
    modifies router`routes
    ensures router.routes == start + CrudRoutes(Entities[..k + 3])
  {
    RegisterCrud(router, names[0], DeleteHandlerOf(names[0]), start, k);
    RegisterCrud(router, names[1], DeleteHandlerOf(names[1]), start, k + 1);
    RegisterCrud(router, names[2], DeleteHandlerOf(names[2]), start, k + 2);
  }

  /** One more entity block registered extends the registered prefix. */
  lemma RegisteredUpTo(start: seq<Route>, before: seq<Route>, routes: seq<Route>, k: nat)
    requires k < |Entities|
    requires before == start + CrudRoutes(Entities[..k]) && routes == before + Crud(Entities[k])
    ensures routes == start + CrudRoutes(Entities[..k + 1])
  {
    assert Entities[..k + 1] == Entities[..k] + [Entities[k]];
    CrudRoutesSnoc(Entities[..k], Entities[k]);
  }

  lemma {:induction false} CrudRoutesSnoc(entities: seq<string>, entity: string)
    ensures CrudRoutes(entities + [entity]) == CrudRoutes(entities) + Crud(entity)
  {
    if |entities| == 0 {
      assert [entity][1..] == [];
    } else {
      CrudRoutesSnoc(entities[1..], entity);
      assert (entities + [entity])[1..] == entities[1..] + [entity];
    }
  }

  /** The four registrations of one entity block (e.g. routes.go:38-42),
      with the delete route's handler as written in the source.
      The ghost parameters say which block of the table this is: the
      routes registered so far are `start` followed by the blocks of the
      first `k` entities. */
  method RegisterCrud(router: Router, entity: string, deleteHandler: Handler, ghost start: seq<Route>, ghost k: nat)
    requires k < |Entities| && entity == Entities[k]
    requires deleteHandler == DeleteHandlerOf(entity)
    requires router.routes == start + CrudRoutes(Entities[..k])
    modifies router`routes
    ensures router.routes == old(router.routes) + Crud(entity)
    ensures router.routes == start + CrudRoutes(Entities[..k + 1])
  {
    router.Handle(Path("/" + entity), Only(["GET"]), RequireAuth, List(entity));
    router.Handle(Path("/" + entity + "/new"), Only(["GET", "POST"]), RequireAdmin, New(entity));
    router.Handle(Path("/" + entity + "/edit"), Only(["GET", "POST"]), RequireAdmin, Edit(entity));
    router.Handle(Path("/" + entity + "/delete"), Only(["POST"]), RequireAdmin, deleteHandler);
    assert "/" + entity + "" == "/" + entity;
    RegisteredUpTo(start, old(router.routes), router.routes, k);
  }

  // ---------------------------------------------------------------------
  // Which route serves which request

  /** Entity names that cannot collide with the other routes: non-empty,
      without '/', neither "login" nor "logout", and not starting with 's'
      (so no entity path lies under /static/). */
  predicate GoodName(e: string) {
    e != "" && '/' !in e && e != "login" && e != "logout" && e[0] != 's'
  }

  predicate GoodNames(names: seq<string>) {
    forall i :: 0 <= i < |names| ==> GoodName(names[i])
  }

  lemma EntityNames()
    ensures GoodNames(Entities)
  {
  }

  lemma GoodNamesTail(names: seq<string>)
    requires |names| > 0 && GoodNames(names)
    ensures GoodNames(names[1..])
  {
    assert forall i :: 0 <= i < |names| - 1 ==> names[1..][i] == names[i + 1];
  }

  /** The layout of an entity path: '/', the name, then the suffix, which
      starts with '/' unless it is empty. */
  lemma EntityPathShape(e: string, k: nat)
    requires k < 4
    ensures |EntityPath(e, k)| == 1 + |e| + |Suffixes[k]|
    ensures EntityPath(e, k)[1..1 + |e|] == e
    ensures forall i :: 0 <= i < |e| ==> EntityPath(e, k)[1 + i] == e[i]
    ensures k > 0 ==> EntityPath(e, k)[1 + |e|] == '/'
  {
  }

  lemma NameNotShorter(e1: string, k1: nat, e2: string, k2: nat)
    requires k1 < 4 && k2 < 4 && '/' !in e2
    requires EntityPath(e1, k1) == EntityPath(e2, k2)
    ensures |e1| >= |e2|
  {
    EntityPathShape(e1, k1);
    EntityPathShape(e2, k2);
  }

  /** An entity route's path shows which entity and which of the four
      routes it belongs to. */
  lemma EntityPathInjective(e1: string, k1: nat, e2: string, k2: nat)
    requires k1 < 4 && k2 < 4 && '/' !in e1 && '/' !in e2
    ensures EntityPath(e1, k1) == EntityPath(e2, k2) <==> e1 == e2 && k1 == k2
  {
    EntityPathShape(e1, k1);
    EntityPathShape(e2, k2);
    if EntityPath(e1, k1) == EntityPath(e2, k2) {
      NameNotShorter(e1, k1, e2, k2);
      NameNotShorter(e2, k2, e1, k1);
      assert |Suffixes[k1]| == |Suffixes[k2]|;
    }
  }

  /** Within one entity's block, only the route built for a path accepts it. */
  lemma CrudPathMatches(e: string, e2: string, k: nat)
    requires k < 4 && '/' !in e && '/' !in e2
    ensures forall j :: 0 <= j < 4 ==> (PathMatches(Crud(e)[j].matcher, EntityPath(e2, k)) <==> e == e2 && j == k)
  {
    forall j | 0 <= j < 4
      ensures PathMatches(Crud(e)[j].matcher, EntityPath(e2, k)) <==> e == e2 && j == k
    {
      assert Crud(e)[j].matcher == Path(EntityPath(e, j));
      EntityPathInjective(e, j, e2, k);
    }
  }

  /** No block of another entity serves an entity path. */
  lemma {:induction false} CrudRoutesMiss(names: seq<string>, e: string, k: nat, httpMethod: string)
    requires k < 4 && GoodNames(names) && '/' !in e && e !in names
    ensures Dispatch(CrudRoutes(names), EntityPath(e, k), httpMethod) == None
  {
    if |names| > 0 {
      CrudPathMatches(names[0], e, k);
      GoodNamesTail(names);
      CrudRoutesMiss(names[1..], e, k, httpMethod);
      DispatchAppend(Crud(names[0]), CrudRoutes(names[1..]), EntityPath(e, k), httpMethod);
    }
  }

  /** An entity path is served by its own route when the method is allowed,
      and by no route of the entity blocks otherwise. */
  lemma {:induction false} CrudRoutesHit(names: seq<string>, e: string, k: nat, httpMethod: string)
    requires k < 4 && GoodNames(names) && e in names
    ensures Dispatch(CrudRoutes(names), EntityPath(e, k), httpMethod)
         == if MethodMatches(Crud(e)[k].methods, httpMethod) then Some(Crud(e)[k]) else None
  {
    var path := EntityPath(e, k);
    assert GoodName(names[0]);
    assert '/' !in e;
    CrudPathMatches(names[0], e, k);
    GoodNamesTail(names);
    DispatchAppend(Crud(names[0]), CrudRoutes(names[1..]), path, httpMethod);
    if names[0] == e {
      if MethodMatches(Crud(e)[k].methods, httpMethod) {
        DispatchIsFirstMatch(Crud(e), path, httpMethod, k);
      } else if e in names[1..] {
        CrudRoutesHit(names[1..], e, k, httpMethod);
      } else {
        CrudRoutesMiss(names[1..], e, k, httpMethod);
      }
    } else {
      assert e in names[1..];
      CrudRoutesHit(names[1..], e, k, httpMethod);
    }
  }

  /** The unguarded and dashboard routes registered first serve no entity path. */
  lemma HeadMisses(e: string, k: nat, httpMethod: string)
    requires k < 4 && GoodName(e)
    ensures Dispatch(HeadRoutes, EntityPath(e, k), httpMethod) == None
  {
    var p := EntityPath(e, k);
    EntityPathShape(e, k);
    assert "/login" == EntityPath("login", 0);
    assert "/logout" == EntityPath("logout", 0);
    EntityPathInjective(e, k, "login", 0);
    EntityPathInjective(e, k, "logout", 0);
    assert p[1] == e[0];
    assert "/static/"[1] == 's';
  }

  /** The table is consulted part by part: head, entity blocks, tail. */
  lemma TableSplit(names: seq<string>, path: string, httpMethod: string)
    ensures Dispatch(TableOf(names), path, httpMethod)
         == if Dispatch(HeadRoutes, path, httpMethod).Some? then Dispatch(HeadRoutes, path, httpMethod)
            else if Dispatch(CrudRoutes(names), path, httpMethod).Some? then Dispatch(CrudRoutes(names), path, httpMethod)
            else Dispatch(TailRoutes, path, httpMethod)
  {
    DispatchAppend(HeadRoutes, CrudRoutes(names), path, httpMethod);
    DispatchAppend(HeadRoutes + CrudRoutes(names), TailRoutes, path, httpMethod);
  }

  lemma TailDispatch(path: string, httpMethod: string)
    ensures Dispatch(TailRoutes, path, httpMethod)
         == if path == "/logout" && httpMethod == "GET" then Some(LogoutRoute) else Some(CatchAllRoute)
  {
    if path == "/logout" && httpMethod == "GET" {
      DispatchIsFirstMatch(TailRoutes, path, httpMethod, 0);
    } else {
      DispatchIsFirstMatch(TailRoutes, path, httpMethod, 1);
    }
  }

  /** An entity path reaches its own route when the method is one it was
      registered with, and NotFound otherwise. */
  lemma TableEntityDispatch(names: seq<string>, e: string, k: nat, httpMethod: string)
    requires GoodNames(names) && e in names && k < 4
    ensures Dispatch(TableOf(names), EntityPath(e, k), httpMethod)
         == if MethodMatches(Crud(e)[k].methods, httpMethod) then Some(Crud(e)[k]) else Some(CatchAllRoute)
  {
    var path := EntityPath(e, k);
    assert GoodName(e);
    HeadMisses(e, k, httpMethod);
    CrudRoutesHit(names, e, k, httpMethod);
    assert "/logout" == EntityPath("logout", 0);
    EntityPathInjective(e, k, "logout", 0);
    TailDispatch(path, httpMethod);
    TableSplit(names, path, httpMethod);
  }

  /** Every entity route of the registered table behaves so. */
  lemma EntityRouteDispatch(e: string, k: nat, httpMethod: string)
    requires e in Entities && k < 4
    ensures Dispatch(Table(), EntityPath(e, k), httpMethod)
         == if MethodMatches(Crud(e)[k].methods, httpMethod) then Some(Crud(e)[k]) else Some(CatchAllRoute)
  {
    EntityNames();
    TableEntityDispatch(Entities, e, k, httpMethod);
  }

  /** The nine list pages are GET-only behind RequireAuth (routes.go:38-94). */
  lemma ListRoutesRequireAuth(e: string, httpMethod: string)
    requires e in Entities
    ensures var r := Dispatch(Table(), "/" + e, httpMethod);
      && r.Some?
      && (httpMethod == "GET" ==> r.value.guard == RequireAuth && r.value.handler == List(e))
      && (httpMethod != "GET" ==> r.value == CatchAllRoute)
  {
    assert EntityPath(e, 0) == "/" + e;
    EntityRouteDispatch(e, 0, httpMethod);
  }

  /** Every new, edit and delete route is behind RequireAdmin; new and edit
      take GET and POST, delete only POST, and any other method reaches
      NotFound (routes.go:40-98). */
  lemma AdminRoutesRequireAdmin(e: string, k: nat, httpMethod: string)
    requires e in Entities && 1 <= k < 4
    ensures var r := Dispatch(Table(), EntityPath(e, k), httpMethod);
      && r.Some?
      && (r.value.guard == RequireAdmin <==> httpMethod == "POST" || (k < 3 && httpMethod == "GET"))
      && (r.value.guard != RequireAdmin ==> r.value == CatchAllRoute)
      && (r.value.guard == RequireAdmin ==>
            r.value.handler == (if k == 1 then New(e) else if k == 2 then Edit(e) else DeleteHandlerOf(e)))
  {
    EntityRouteDispatch(e, k, httpMethod);
  }

  /** /filters/delete is served by the list handler, behind RequireAdmin. */
  lemma FiltersDeleteServedByList()
    ensures Dispatch(Table(), "/filters/delete", "POST")
         == Some(Route(Path("/filters/delete"), Only(["POST"]), RequireAdmin, List("filters")))
  {
    assert EntityPath("filters", 3) == "/filters/delete";
    EntityRouteDispatch("filters", 3, "POST");
  }

  lemma HeadPublicRoutes(rest: string, httpMethod: string)
    ensures Dispatch(HeadRoutes, "/static/" + rest, httpMethod) == Some(StaticRoute)
    ensures Dispatch(HeadRoutes, "/login", httpMethod)
         == if httpMethod == "GET" || httpMethod == "POST" then Some(LoginRoute) else None
    ensures Dispatch(HeadRoutes, "/logout", httpMethod)
         == if httpMethod == "GET" then Some(LogoutRoute) else None
  {
    assert "/static/" <= "/static/" + rest;
    DispatchIsFirstMatch(HeadRoutes, "/static/" + rest, httpMethod, 0);
    assert |"/logout"| < |"/static/"| && |"/login"| < |"/static/"|;
    if httpMethod == "GET" || httpMethod == "POST" {
      DispatchIsFirstMatch(HeadRoutes, "/login", httpMethod, 1);
    }
    if httpMethod == "GET" {
      DispatchIsFirstMatch(HeadRoutes, "/logout", httpMethod, 2);
    }
  }

  lemma TablePublicRoutes(names: seq<string>, rest: string, httpMethod: string)
    requires GoodNames(names)
    ensures Dispatch(TableOf(names), "/static/" + rest, httpMethod) == Some(StaticRoute)
    ensures Dispatch(TableOf(names), "/login", httpMethod)
         == if httpMethod == "GET" || httpMethod == "POST" then Some(LoginRoute) else Some(CatchAllRoute)
    ensures Dispatch(TableOf(names), "/logout", httpMethod)
         == if httpMethod == "GET" then Some(LogoutRoute) else Some(CatchAllRoute)
  {
    HeadPublicRoutes(rest, httpMethod);
    TableSplit(names, "/static/" + rest, httpMethod);
    assert "/login" == EntityPath("login", 0);
    assert "/logout" == EntityPath("logout", 0);
    assert forall i :: 0 <= i < |names| ==> '/' !in names[i] && names[i] != "login" && names[i] != "logout";
    CrudRoutesMiss(names, "login", 0, httpMethod);
    CrudRoutesMiss(names, "logout", 0, httpMethod);
    TailDispatch("/login", httpMethod);
    TailDispatch("/logout", httpMethod);
    TableSplit(names, "/login", httpMethod);
    TableSplit(names, "/logout", httpMethod);
  }

  /** /login (GET, POST), /logout (GET) and everything under /static/ are
      served without a guard (routes.go:26-30). */
  lemma PublicRoutes(rest: string, httpMethod: string)
    ensures Dispatch(Table(), "/static/" + rest, httpMethod) == Some(StaticRoute)
    ensures Dispatch(Table(), "/login", httpMethod)
         == if httpMethod == "GET" || httpMethod == "POST" then Some(LoginRoute) else Some(CatchAllRoute)
    ensures Dispatch(Table(), "/logout", httpMethod)
         == if httpMethod == "GET" then Some(LogoutRoute) else Some(CatchAllRoute)
  {
    EntityNames();
    TablePublicRoutes(Entities, rest, httpMethod);
  }

  /** Every request is served, by NotFound when no registered route
      matches (routes.go:103-105). */
  lemma UnmatchedReachNotFound(path: string, httpMethod: string)
    ensures Dispatch(Table(), path, httpMethod).Some?
    ensures Dispatch(Table(), path, httpMethod) == Some(CatchAllRoute)
        <== forall i :: 0 <= i < |Table()| - 1 ==> !Matches(Table()[i], path, httpMethod)
  {
    var t := Table();
    assert t[|t| - 1] == CatchAllRoute;
    if forall i :: 0 <= i < |t| - 1 ==> !Matches(t[i], path, httpMethod) {
      DispatchIsFirstMatch(t, path, httpMethod, |t| - 1);
    }
  }

  /** The guard a route carries fits its handler. */
  predicate GuardFits(r: Route) {
    && (r.handler.New? || r.handler.Edit? || r.handler.Delete? ==> r.guard == RequireAdmin)
    && (r.guard == Unguarded <==> r.handler in {StaticFiles, Login, Logout, NotFound})
    && r.handler != Delete("filters")
  }

  lemma {:induction false} CrudRoutesGuarded(names: seq<string>)
    ensures forall r :: r in CrudRoutes(names) ==> GuardFits(r)
  {
    if |names| > 0 {
      CrudRoutesGuarded(names[1..]);
      assert forall r :: r in Crud(names[0]) ==> GuardFits(r);
    }
  }

  lemma TableGuarded(names: seq<string>)
    ensures forall r :: r in TableOf(names) ==> GuardFits(r)
  {
    CrudRoutesGuarded(names);
    assert forall r :: r in HeadRoutes ==> GuardFits(r);
    assert forall r :: r in TailRoutes ==> GuardFits(r);
  }

  /** Whatever the request, the route serving it carries RequireAdmin when
      its handler creates, edits or deletes, is guarded unless it is the
      static, login, logout or NotFound handler, and is never
      FilterDeleteHandler. */
  lemma ServedRoutesGuarded(path: string, httpMethod: string)
    ensures var r := Dispatch(Table(), path, httpMethod);
      r.Some? && GuardFits(r.value)
  {
    UnmatchedReachNotFound(path, httpMethod);
    TableGuarded(Entities);
  }

  /** /logout is registered twice (routes.go:30, 101); the second copy never
      serves a request. */
  lemma SecondLogoutShadowed(path: string, httpMethod: string)
    ensures Table()[2] == Table()[|Table()| - 2] == LogoutRoute
    ensures Dispatch(Table()[..|Table()| - 2] + Table()[|Table()| - 1..], path, httpMethod)
         == Dispatch(Table(), path, httpMethod)
  {
    var t := Table();
    assert t[2] == LogoutRoute;
    assert t[|t| - 2] == LogoutRoute;
    DuplicateShadowed(t, 2, |t| - 2, path, httpMethod);
  }
}
