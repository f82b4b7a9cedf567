/** Resource registration of jsonapi.go:63-96: the collection name is
    derived from the type name, the identity kind chooses the routes, and
    the routes of all handlers are concatenated for the router. The
    panics of registration become a `ConfigError`. */
module Registration {
  import opened Wrappers
  import opened Documents
  import opened Includers
  import opened Handlers
  import Text

  /** A `rest.Route`: HTTP method, path pattern and handler. */
  datatype Route = Route(httpMethod: string, path: string, handler: GetHandler)

  /** The route `setUintRoutes` appends (jsonapi.go:94). */
  function UintRoute(name: string, get: Getter, incs: map<string, Includer>): Route
  {
    Route("GET", "/" + name + "#ids", GetHandler(name, get, incs))
  }

  /** The includers of a resource. jsonapi.go:94 calls `makeIncluder` with
      the resource alone, which matches no function of the source; the
      evident intent is `makeIncluders` (jsonapi.go:180-189), itself
      unfinished: for a `UintIncluder` it runs `getUintIncluders`. Its
      `StringIncluder` branch (jsonapi.go:185-187) is not modelled, so a
      resource that is not a `UintIncluder` has nothing to include. */
  function IncludersOf(res: Resource): Result<map<string, Includer>, ConfigError>
  {
    if res.includeUint.Some? then UintIncluders(res) else Ok(map[])
  }

  /** The routes registering `res` yields, or the configuration error. */
  function Registered(res: Resource): Result<seq<Route>, ConfigError>
  {
    if res.typeName == [] then Err(UnnamedType)
    else
      var name := ResourceName(res.typeName);
      match res.identity
      case UintIdentity =>
        if res.get.None? then Ok([])
        else (
          match IncludersOf(res)
          case Err(e) => Err(e)
          case Ok(incs) => Ok([UintRoute(name, res.get.value, incs)]))
      // jsonapi.go:85: the string routes are commented out in the source
      case StringIdentity => Ok([])
      case NoIdentity => Err(NoIdMethod(res.typeName))
  }

  /** An unnamed type is refused before anything else is looked at; a type
      without `GetId` is refused; a uint-identified type with `Get` gets
      exactly one route, `GET /<lower-cased name>s#ids`, whose handler
      carries the resource's `Get` and includers; any other accepted type
      gets none. */
  lemma RegisteredSpec(res: Resource)
    ensures res.typeName == [] ==> Registered(res) == Err(UnnamedType)
    ensures res.typeName != [] && res.identity == NoIdentity ==> Registered(res) == Err(NoIdMethod(res.typeName))
    ensures res.typeName != [] && res.identity == UintIdentity && res.get.Some? ==>
      (Registered(res).Ok? <==> IncludersOf(res).Ok?)
    ensures res.typeName != [] && res.identity == StringIdentity ==> Registered(res) == Ok([])
    ensures Registered(res).Ok? ==>
      var routes := Registered(res).value;
      && (|routes| == 1 <==> res.identity == UintIdentity && res.get.Some?)
      && |routes| <= 1
      && (|routes| == 1 ==>
            && routes[0].httpMethod == "GET"
            && routes[0].path == "/" + Text.ToLower(res.typeName) + "s#ids"
            && routes[0].handler == GetHandler(ResourceName(res.typeName), res.get.value, IncludersOf(res).value))
  {
    var name := ResourceName(res.typeName);
    assert "/" + name + "#ids" == "/" + Text.ToLower(res.typeName) + "s#ids";
  }

  /** Registration of a `UintIncluder` fails exactly when classification
      of its `links` struct does. */
  lemma IncludersOfSpec(res: Resource)
    ensures IncludersOf(res).Err? <==>
      res.includeUint.Some? && Classify(UintId, res.typeName, res.links).Err?
    ensures IncludersOf(res).Err? ==> IncludersOf(res).error == Classify(UintId, res.typeName, res.links).error
    ensures IncludersOf(res).Ok? ==> RelNamesInjective(IncludersOf(res).value)
  {
    if res.includeUint.Some? && Classify(UintId, res.typeName, res.links).Ok? {
      MakeIncludersInjective(res.typeName, Classify(UintId, res.typeName, res.links).value, res.includeUint.value);
    }
  }

  /** The `ResourceHandler` struct (jsonapi.go:71-73). */
  class ResourceHandler {
    var routes: seq<Route>

    /** Every route is a GET on the pattern built from its handler's name. */
    ghost predicate Valid()
      reads this
    {
      forall k | 0 <= k < |routes| ::
        routes[k].httpMethod == "GET" && routes[k].path == "/" + routes[k].handler.name + "#ids"
    }

    constructor ()
      ensures Valid() && routes == []
    {
      routes := [];
    }

    /** `setUintRoutes` (jsonapi.go:92-96): a `UintGetter` gets its GET
      route; building its includers may fail, and then nothing is added. */
    method SetUintRoutes(name: string, res: Resource) returns (err: Option<ConfigError>)
      requires Valid()
      modifies this
      ensures Valid()
      ensures res.get.None? ==> err == None && routes == old(routes)
      ensures res.get.Some? && IncludersOf(res).Err? ==>
        err == Some(IncludersOf(res).error) && routes == old(routes)
      ensures res.get.Some? && IncludersOf(res).Ok? ==>
        err == None && routes == old(routes) + [UintRoute(name, res.get.value, IncludersOf(res).value)]
    {
      if res.get.Some? {
        var incs: Result<map<string, Includer>, ConfigError>;
        if res.includeUint.Some? {
          incs := GetUintIncluders(res);
        } else {
          incs := Ok(map[]);
        }
        if incs.Err? {
          return Some(incs.error);
        }
        routes := routes + [UintRoute(name, res.get.value, incs.value)];
      }
      err := None;
    }
  }

  /** `NewRessourceHandler` (jsonapi.go:75-90). The uint identity is
      tested before the string identity; as a Go type cannot have both,
      the order is not observable. */
  method NewResourceHandler(res: Resource) returns (r: Result<ResourceHandler, ConfigError>)
    ensures r.Ok? <==> Registered(res).Ok?
    ensures r.Err? ==> r.error == Registered(res).error
    ensures r.Ok? ==> fresh(r.value) && r.value.Valid() && r.value.routes == Registered(res).value
  {
    if res.typeName == [] {
      return Err(UnnamedType);
    }
    var name := ResourceName(res.typeName);
    var handler := new ResourceHandler();
    match res.identity {
      case UintIdentity =>
        var err := handler.SetUintRoutes(name, res);
        if err.Some? {
          return Err(err.value);
        }
      case StringIdentity =>
      case NoIdentity =>
        return Err(NoIdMethod(res.typeName));
    }
    r := Ok(handler);
  }

  /** The routes of the handlers, in order. */
  function AllRoutes(handlers: seq<ResourceHandler>): seq<Route>
    reads handlers
  {
    if handlers == [] then []
    else AllRoutes(handlers[..|handlers| - 1]) + handlers[|handlers| - 1].routes
  }

  /** A route is collected exactly when one of the handlers has it. */
  lemma {:induction false} AllRoutesMembers(handlers: seq<ResourceHandler>, route: Route)
    ensures route in AllRoutes(handlers) <==> exists i | 0 <= i < |handlers| :: route in handlers[i].routes
  {
    if handlers != [] {
      var prefix := handlers[..|handlers| - 1];
      AllRoutesMembers(prefix, route);
      if exists i | 0 <= i < |handlers| :: route in handlers[i].routes {
        var i :| 0 <= i < |handlers| && route in handlers[i].routes;
        if i < |prefix| {
          assert prefix[i] == handlers[i];
        }
      }
      if route in AllRoutes(prefix) {
        var i :| 0 <= i < |prefix| && route in prefix[i].routes;
        assert handlers[i] == prefix[i];
      }
    }
  }

  /** Gathering keeps the route shape: from handlers built by registration,
      every route is a GET on the pattern of its handler's name. */
  lemma AllRoutesValid(handlers: seq<ResourceHandler>)
    requires forall i | 0 <= i < |handlers| :: handlers[i].Valid()
    ensures forall route | route in AllRoutes(handlers) ::
      route.httpMethod == "GET" && route.path == "/" + route.handler.name + "#ids"
  {
    forall route | route in AllRoutes(handlers)
      ensures route.httpMethod == "GET" && route.path == "/" + route.handler.name + "#ids"
    {
      AllRoutesMembers(handlers, route);
      var i :| 0 <= i < |handlers| && route in handlers[i].routes;
      var k :| 0 <= k < |handlers[i].routes| && handlers[i].routes[k] == route;
    }
  }

  /** `SetRoutes` (jsonapi.go:63-69): the routes of every handler, handler
      by handler; handing them to the router is left to the transport. */
  method SetRoutes(handlers: seq<ResourceHandler>) returns (routes: seq<Route>)
    ensures routes == AllRoutes(handlers)
    ensures (forall i | 0 <= i < |handlers| :: handlers[i].Valid()) ==>
      forall k | 0 <= k < |routes| ::
        routes[k].httpMethod == "GET" && routes[k].path == "/" + routes[k].handler.name + "#ids"
  {
    routes := [];
    for i := 0 to |handlers|
      invariant routes == AllRoutes(handlers[..i])
    {
      assert handlers[..i + 1][..i] == handlers[..i];
      routes := routes + handlers[i].routes;
    }
    assert handlers[..|handlers|] == handlers;
    if forall i | 0 <= i < |handlers| :: handlers[i].Valid() {
      AllRoutesValid(handlers);
    }
  }
}
