/** The live API of jsonapi/jsonapi.go:74-105: a registry of resources with
    string identifiers, one `GET <name>/:id` route per resource, whose
    handler hands the comma-split identifiers to the resource's `Get`
    unparsed and answers with the whole result list under the resource's
    name. */
module LiveApi {
  import opened Wrappers
  import Text
  import IdCodec

  /** A served document (jsonapi/jsonapi.go:13-15); only its identifier is
      visible to the API, the rest is opaque JSON. */
  datatype Document = Document(id: string)

  /** `Resource.Get` (jsonapi/jsonapi.go:36-38), an oracle; the error is
      the text `err.Error()` yields. */
  type LiveGetter = seq<string> -> Result<seq<Document>, string>

  /** A resource value: the name of its Go type and its `Get`. */
  datatype LiveResource = LiveResource(typeName: string, get: LiveGetter)

  /** The closure `makeGetHandler(name, res)` returns. */
  datatype LiveHandler = LiveHandler(name: string, get: LiveGetter)

  /** A `rest.Route`. */
  datatype LiveRoute = LiveRoute(httpMethod: string, path: string, handler: LiveHandler)

  /** What the handler writes: a JSON object through `WriteJson` (status
      200), or status 500 with a message through `rest.Error`. */
  datatype LiveResponse =
    | JsonReply(status: int, body: map<string, seq<Document>>)
    | ErrorReply(status: int, message: string)

  /** The route `AddResource` appends for `res` (jsonapi/jsonapi.go:83-84). */
  function RouteFor(res: LiveResource): LiveRoute
  {
    var name := Text.ToLower(res.typeName);
    LiveRoute("GET", name + "/:id", LiveHandler(name, res.get))
  }

  /** The route is a GET whose path is the lower-cased type name followed by
      `/:id`, with no plural suffix and no leading slash, and whose handler
      answers under that same name with the resource's own `Get`. */
  lemma RouteForSpec(res: LiveResource)
    ensures RouteFor(res).httpMethod == "GET"
    ensures RouteFor(res).path == Text.ToLower(res.typeName) + "/:id"
    ensures RouteFor(res).handler.name == Text.ToLower(res.typeName)
    ensures RouteFor(res).path == RouteFor(res).handler.name + "/:id"
    ensures |RouteFor(res).handler.name| == |res.typeName|
    ensures Text.IsLower(RouteFor(res).handler.name)
    ensures RouteFor(res).handler.get == res.get
  {
    Text.ToLowerIsLower(res.typeName);
  }

  /** Two types whose names differ only in case get the same path: the
      registry does not detect the clash. */
  lemma RouteForIgnoresCase(a: LiveResource, b: LiveResource)
    requires |a.typeName| == |b.typeName|
    requires forall k | 0 <= k < |a.typeName| :: Text.LowerChar(a.typeName[k]) == Text.LowerChar(b.typeName[k])
    ensures RouteFor(a).path == RouteFor(b).path
  {
    assert Text.ToLower(a.typeName) == Text.ToLower(b.typeName);
  }

  /** The `api` struct (jsonapi/jsonapi.go:74-76). */
  class Api {
    var routes: seq<LiveRoute>

    /** Every registered route is a GET on `<lower-case name>/:id`,
        served under that name. */
    ghost predicate Valid()
      reads this
    {
      forall k | 0 <= k < |routes| ::
        && routes[k].httpMethod == "GET"
        && routes[k].path == routes[k].handler.name + "/:id"
        && Text.IsLower(routes[k].handler.name)
    }

    /** `NewApi` (jsonapi/jsonapi.go:78-80): no routes yet. */
    constructor ()
      ensures Valid() && routes == []
    {
      routes := [];
    }

    /** `AddResource` (jsonapi/jsonapi.go:82-86): appends exactly the
        resource's route, keeps the earlier ones, and never fails. */
    method AddResource(res: LiveResource) returns (err: Option<string>)
      requires Valid()
      modifies this
      ensures Valid()
      ensures routes == old(routes) + [RouteFor(res)]
      ensures err == None
    {
      RouteForSpec(res);
      routes := routes + [RouteFor(res)];
      err := None;
    }

    /** `GetRoutes` (jsonapi/jsonapi.go:88-90): the routes in registration
        order. */
    method GetRoutes() returns (rs: seq<LiveRoute>)
      ensures rs == routes
    {
      rs := routes;
    }
  }

  /** The handler of `makeGetHandler` (jsonapi/jsonapi.go:92-105) for the
      path parameter `idsStr`. `segments` is the argument it hands to `Get`:
      every comma-separated segment, unparsed, in order, empty ones
      included. A failing `Get` gives status 500 and its message; otherwise
      the reply has the single key `name`, bound to the whole list, even a
      list of one. */
  method HandleLiveGet(h: LiveHandler, idsStr: string) returns (resp: LiveResponse, segments: seq<string>)
    ensures segments == IdCodec.SplitStringIds(idsStr)
    ensures h.get(segments).Err? ==> resp == ErrorReply(500, h.get(segments).error)
    ensures h.get(segments).Ok? ==>
      && resp.JsonReply?
      && resp.status == 200
      && resp.body.Keys == {h.name}
      && resp.body[h.name] == h.get(segments).value
  {
    segments := Text.Split(idsStr, ',');
    var got := h.get(segments);
    if got.Err? {
      resp := ErrorReply(500, got.error);
      return;
    }
    var body: map<string, seq<Document>> := map[];
    body := body[h.name := got.value];
    resp := JsonReply(200, body);
  }

  /** The segments are not validated: an empty parameter and empty
      segments reach `Get` as empty strings. */
  lemma EmptySegmentsPassed()
    ensures IdCodec.SplitStringIds("a,,b") == ["a", "", "b"]
    ensures IdCodec.SplitStringIds("") == [""]
  {
    Text.SplitJoin(["a", "", "b"], ',');
    assert Text.Join(["a", "", "b"], ',') == "a,,b";
  }
}
