/** The GET handler of jsonapi.go:98-124 and its error envelope
    (jsonapi.go:164-178). Go's `panic`/`recover` becomes explicit control
    flow: every stage that panics in the source returns the response the
    deferred `respondWithErrors` would have written. */
module Handlers {
  import opened Wrappers
  import opened UintSyntax
  import opened Documents
  import opened Includers
  import IdCodec
  import Text

  // ---------------------------------------------------------------------
  // Error envelope.

  /** A recovered panic value: a `[]interface{}` or any other single value. */
  datatype Panic = PanicValue(item: ErrorItem) | PanicSlice(items: seq<ErrorItem>)

  /** The `errors` struct (jsonapi.go:160-162). */
  datatype Envelope = Envelope(errors: seq<ErrorItem>)

  /** `respondWithErrors` (jsonapi.go:164-178): nothing to write without a
      panic; a slice becomes the error list as it is; any other value
      becomes a one-element list. */
  function RespondWithErrors(recovered: Option<Panic>): (r: Option<Envelope>)
    ensures r.None? <==> recovered.None?
    ensures r.Some? && recovered.value.PanicSlice? ==> r.value.errors == recovered.value.items
    ensures r.Some? && recovered.value.PanicValue? ==> r.value.errors == [recovered.value.item]
  {
    match recovered
    case None => None
    case Some(PanicSlice(errs)) => Some(Envelope(errs))
    case Some(PanicValue(e)) => Some(Envelope([e]))
  }

  /** Every error the panic carried reaches the envelope, in order, and
      nothing else does. */
  lemma EnvelopeKeepsErrors(p: Panic)
    ensures RespondWithErrors(Some(p)).Some?
    ensures var errs := RespondWithErrors(Some(p)).value.errors;
      forall e :: e in errs <==> (if p.PanicSlice? then e in p.items else e == p.item)
  {
  }

  // ---------------------------------------------------------------------
  // Responses.

  /** The primary payload: one document or a list of them. */
  datatype Primary = Single(doc: Doc) | Collection(docs: seq<Doc>)

  /** The `RelDesc` part of an `include` (jsonapi.go:151-154). */
  datatype RelDesc = RelDesc(href: string, relType: string)

  /** The `linked` and `links` members, both keyed by relation descriptor
      name (`include.RelName`). */
  datatype Included = Included(linked: map<string, seq<Doc>>, links: map<string, RelDesc>)

  /** A value stored in the handler's response map. */
  datatype Payload =
    | PrimaryPayload(primary: Primary)
    | LinkedPayload(linked: map<string, seq<Doc>>)
    | LinksPayload(links: map<string, RelDesc>)

  /** The JSON body: the response map `resp` of the handler, or the error
      envelope. */
  datatype Body =
    | JsonObject(members: map<string, Payload>)
    | ErrorBody(envelope: Envelope)

  datatype Response = Response(status: int, body: Body)

  /** One call of a `Get`: the key it was made under (the collection name
      for the resource's own `Get`, the relation name for an includer's),
      the identifiers it was given, and what came back. */
  datatype GetCall = GetCall(key: string, ids: seq<Uint64>, result: Result<seq<Doc>, ErrorItem>)

  /** What `makeUintGetHandler` closes over: the collection name, the
      resource's `Get` and its includers. */
  datatype GetHandler = GetHandler(name: string, get: Getter, includers: map<string, Includer>)

  /** The single-or-list choice of jsonapi.go:112-116. */
  function PrimaryOf(docs: seq<Doc>): (p: Primary)
    ensures p.Single? <==> |docs| == 1
    ensures p.Single? ==> p.doc == docs[0]
    ensures p.Collection? ==> p.docs == docs
  {
    if |docs| == 1 then Single(docs[0]) else Collection(docs)
  }

  function DocsOf(p: Primary): seq<Doc>
  {
    match p
    case Single(d) => [d]
    case Collection(ds) => ds
  }

  /** The choice of shape loses nothing: the documents can be read back. */
  lemma PrimaryRoundTrip(docs: seq<Doc>)
    ensures DocsOf(PrimaryOf(docs)) == docs
  {
  }

  /** A response after a panic: the status the handler wrote before
      panicking, and the envelope `respondWithErrors` writes. */
  function Failure(status: int, e: ErrorItem): (r: Response)
    ensures r.status == status && r.body == ErrorBody(Envelope([e]))
  {
    Response(status, ErrorBody(RespondWithErrors(Some(PanicValue(e))).value))
  }

  /** One relation's contribution: an entry in `linked` and in `links`
      when its `Get` returned documents, nothing otherwise. The source has
      no code that combines the `include` structs (its `linked` type is
      commented out at jsonapi.go:144-147 yet used at jsonapi.go:158); the
      model fills the gap by keying both maps by the descriptor name
      `RelName` and by leaving out a relation that returned no documents. */
  function AddInclude(acc: Included, inc: Includer, docs: seq<Doc>): Included
  {
    if docs == [] then acc
    else Included(acc.linked[inc.relName := docs], acc.links[inc.relName := RelDesc("", inc.relType)])
  }

  /** The outcome of the relation calls made so far: the first failure, or
      what the successful calls included. */
  function Assemble(incs: map<string, Includer>, calls: seq<GetCall>): Result<Included, ErrorItem>
    requires forall k | 0 <= k < |calls| :: calls[k].key in incs
  {
    if calls == [] then Ok(Included(map[], map[]))
    else
      var last := calls[|calls| - 1];
      match Assemble(incs, calls[..|calls| - 1])
      case Err(e) => Err(e)
      case Ok(acc) =>
        match last.result
        case Err(e) => Err(e)
        case Ok(docs) => Ok(AddInclude(acc, incs[last.key], docs))
  }

  /** The response once the primary documents are in hand
      (jsonapi.go:112-122): the primary payload is stored under `name`,
      then, when anything was included, `linked` and `links` are stored
      under their own keys, in that order. The source's test `l != 0` on a
      pointer does not compile; the model reads it as "something was
      included". */
  function Respond(name: string, docs: seq<Doc>, included: Result<Included, ErrorItem>): Response
  {
    match included
    case Err(e) => Failure(500, e)
    case Ok(inc) =>
      var resp := map[name := PrimaryPayload(PrimaryOf(docs))];
      if inc.linked == map[] then Response(200, JsonObject(resp))
      else Response(200, JsonObject(resp["linked" := LinkedPayload(inc.linked)]["links" := LinksPayload(inc.links)]))
  }

  /** `call` is the one `Get` of `inc`'s batch fetcher over `resources`. */
  predicate FetchedBy(resources: seq<Doc>, inc: Includer, call: GetCall)
  {
    && NoDuplicates(call.ids)
    && AsSet(call.ids) == Collected(resources, inc.reference)
    && |call.ids| <= TotalReferences(resources, inc.reference)
    && call.result == inc.target.get(call.ids)
  }

  /** The relation calls of one request: each a fetch of a distinct
      includer; every call but the last succeeded; fewer calls than
      includers only when the last one failed. */
  predicate ValidIncludeCalls(incs: map<string, Includer>, resources: seq<Doc>, calls: seq<GetCall>)
  {
    && (forall k | 0 <= k < |calls| :: calls[k].key in incs && FetchedBy(resources, incs[calls[k].key], calls[k]))
    && (forall j, k | 0 <= j < k < |calls| :: calls[j].key != calls[k].key)
    && (forall k | 0 <= k < |calls| - 1 :: calls[k].result.Ok?)
    && (|calls| < |incs| ==> |calls| > 0 && calls[|calls| - 1].result.Err?)
  }

  /** Assembly fails exactly when some call failed, with the error of the
      first failing call. */
  lemma {:induction false} AssembleFailure(incs: map<string, Includer>, calls: seq<GetCall>)
    requires forall k | 0 <= k < |calls| :: calls[k].key in incs
    ensures Assemble(incs, calls).Err? <==> exists k | 0 <= k < |calls| :: calls[k].result.Err?
    ensures Assemble(incs, calls).Err? ==>
      exists k | 0 <= k < |calls| ::
        calls[k].result == Err(Assemble(incs, calls).error)
        && forall j | 0 <= j < k :: calls[j].result.Ok?
  {
    if calls != [] {
      var prefix := calls[..|calls| - 1];
      AssembleFailure(incs, prefix);
      assert forall k | 0 <= k < |prefix| :: prefix[k] == calls[k];
    }
  }

  /** The call returned documents to include. */
  predicate Contributes(call: GetCall)
  {
    call.result.Ok? && call.result.value != []
  }

  /** `linked` and `links` have the same keys: the descriptor names of the
      relations whose call returned documents. */
  lemma {:induction false} AssembleKeys(incs: map<string, Includer>, calls: seq<GetCall>)
    requires forall k | 0 <= k < |calls| :: calls[k].key in incs
    requires Assemble(incs, calls).Ok?
    ensures Assemble(incs, calls).value.linked.Keys == Assemble(incs, calls).value.links.Keys
    ensures forall rel :: rel in Assemble(incs, calls).value.linked <==>
      exists k | 0 <= k < |calls| :: incs[calls[k].key].relName == rel && Contributes(calls[k])
  {
    if calls != [] {
      var prefix := calls[..|calls| - 1];
      AssembleKeys(incs, prefix);
      assert forall k | 0 <= k < |prefix| :: prefix[k] == calls[k];
      var last := calls[|calls| - 1];
      forall rel
        ensures rel in Assemble(incs, calls).value.linked <==>
          exists k | 0 <= k < |calls| :: incs[calls[k].key].relName == rel && Contributes(calls[k])
      {
        if exists k | 0 <= k < |calls| :: incs[calls[k].key].relName == rel && Contributes(calls[k]) {
          var k :| 0 <= k < |calls| && incs[calls[k].key].relName == rel && Contributes(calls[k]);
          if k < |prefix| {
            assert prefix[k] == calls[k];
          }
        }
      }
    }
  }

  /** With distinct relation names, every relation whose call returned
      documents is included with exactly those documents and its type. */
  lemma {:induction false} AssembleEntries(incs: map<string, Includer>, calls: seq<GetCall>, k: nat)
    requires forall j | 0 <= j < |calls| :: calls[j].key in incs
    requires forall i, j | 0 <= i < j < |calls| :: calls[i].key != calls[j].key
    requires RelNamesInjective(incs)
    requires Assemble(incs, calls).Ok?
    requires k < |calls| && Contributes(calls[k])
    ensures var inc := incs[calls[k].key];
      && inc.relName in Assemble(incs, calls).value.linked
      && Assemble(incs, calls).value.linked[inc.relName] == calls[k].result.value
      && inc.relName in Assemble(incs, calls).value.links
      && Assemble(incs, calls).value.links[inc.relName] == RelDesc("", inc.relType)
  {
    var prefix := calls[..|calls| - 1];
    var last := calls[|calls| - 1];
    assert forall j | 0 <= j < |prefix| :: prefix[j] == calls[j];
    AssembleKeys(incs, calls);
    if k < |prefix| {
      AssembleEntries(incs, prefix, k);
      assert last.key != calls[k].key;
    }
  }

  /** Without a failure every includer was called exactly once. */
  lemma IncludeCoverage(incs: map<string, Includer>, resources: seq<Doc>, calls: seq<GetCall>)
    requires ValidIncludeCalls(incs, resources, calls)
    requires Assemble(incs, calls).Ok?
    ensures |calls| == |incs|
    ensures forall name :: name in incs <==> exists k | 0 <= k < |calls| :: calls[k].key == name
  {
    AssembleFailure(incs, calls);
    var called := set k | 0 <= k < |calls| :: calls[k].key;
    assert called <= incs.Keys;
    DistinctTargets(calls);
    assert |called| == |calls|;
    SubsetSize(called, incs.Keys);
  }

  lemma {:induction false} DistinctTargets(calls: seq<GetCall>)
    requires forall i, j | 0 <= i < j < |calls| :: calls[i].key != calls[j].key
    ensures |set k | 0 <= k < |calls| :: calls[k].key| == |calls|
  {
    if calls != [] {
      var prefix := calls[..|calls| - 1];
      DistinctTargets(prefix);
      var s := set k | 0 <= k < |calls| :: calls[k].key;
      var p := set k | 0 <= k < |prefix| :: prefix[k].key;
      assert s == p + {calls[|calls| - 1].key};
      assert calls[|calls| - 1].key !in p;
    }
  }

  lemma {:induction false} SubsetCard(a: set<string>, b: set<string>)
    requires a <= b
    ensures |a| <= |b|
    decreases a
  {
    if a != {} {
      var x :| x in a;
      SubsetCard(a - {x}, b - {x});
    }
  }

  lemma SubsetSize(a: set<string>, b: set<string>)
    requires a <= b && |a| >= |b|
    ensures a == b
  {
    if a != b {
      var x :| x in b && x !in a;
      SubsetCard(a, b - {x});
    }
  }

  /** A response is either the response map (status 200) or an error
      envelope with a failure status, never a mix. The map holds `name`
      and, when anything was included, `linked` and `links`; the primary
      payload survives under `name` unless something was included and
      `name` is one of those two keys, whose assignment overwrites it. */
  lemma RespondAllOrNothing(name: string, docs: seq<Doc>, included: Result<Included, ErrorItem>)
    ensures var r := Respond(name, docs, included);
      && (r.status == 200 <==> r.body.JsonObject?)
      && (included.Err? ==> r == Failure(500, included.error))
      && (included.Ok? ==>
            var m := r.body.members;
            var any := included.value.linked != map[];
            && m.Keys == {name} + (if any then {"linked", "links"} else {})
            && (any ==> m["linked"] == LinkedPayload(included.value.linked)
                        && m["links"] == LinksPayload(included.value.links))
            && (m[name] == PrimaryPayload(PrimaryOf(docs)) <==>
                  !any || (name != "linked" && name != "links")))
  {
  }

  /** Collection names end in "s", so only "links" can collide: a type whose
      lower-cased name is `link` loses its primary documents from the
      response whenever anything is included, and no other type does. */
  lemma PrimaryShadowed(typeName: string, docs: seq<Doc>, inc: Included)
    requires inc.linked != map[]
    ensures var m := Respond(ResourceName(typeName), docs, Ok(inc)).body.members;
      ResourceName(typeName) in m
      && (m[ResourceName(typeName)].PrimaryPayload? <==> Text.ToLower(typeName) != "link")
  {
    var name := ResourceName(typeName);
    RespondAllOrNothing(name, docs, Ok(inc));
    assert name != "linked" by {
      assert name[|name| - 1] == 's';
    }
    if Text.ToLower(typeName) == "link" {
      assert name == "links";
    }
  }

  // ---------------------------------------------------------------------
  // The handler.

  /** The combined includer of the handler (jsonapi.go:117): every includer
      of the resource runs once, in the map's unspecified order, and the
      first failure aborts the request. The source's `includer` type refers
      to an undefined `linked` and the handler compares the result with 0;
      the model fills in the evident intent: one fetch per relation, the
      `include` structs gathered into `linked` and `links`. */
  method IncludeAll(incs: map<string, Includer>, resources: seq<Doc>)
    returns (r: Result<Included, ErrorItem>, calls: seq<GetCall>)
    ensures ValidIncludeCalls(incs, resources, calls)
    ensures r == Assemble(incs, calls)
  {
    calls := [];
    var acc := Included(map[], map[]);
    var pending := incs.Keys;
    while pending != {}
      invariant pending <= incs.Keys
      invariant |calls| + |pending| == |incs|
      invariant forall k | 0 <= k < |calls| ::
        calls[k].key in incs && calls[k].key !in pending
        && FetchedBy(resources, incs[calls[k].key], calls[k])
      invariant forall j, k | 0 <= j < k < |calls| :: calls[j].key != calls[k].key
      invariant forall k | 0 <= k < |calls| :: calls[k].result.Ok?
      invariant Assemble(incs, calls) == Ok(acc)
      decreases |pending|
    {
      var name :| name in pending;
      var inc := incs[name];
      var ids, fetched := FetchIncluded(resources, inc.reference, inc.target);
      var call := GetCall(name, ids, fetched);
      assert (calls + [call])[..|calls|] == calls;
      calls := calls + [call];
      pending := pending - {name};
      if fetched.Err? {
        // jsonapi.go:274-277: status 500, and the error is raised as a panic
        return Err(fetched.error), calls;
      }
      acc := AddInclude(acc, inc, fetched.value);
    }
    r := Ok(acc);
  }

  /** `makeUintGetHandler` (jsonapi.go:98-124) for one request: `idParam`
      is the `ids` path parameter and `uri` the request URI. Returned beside
      the response: every `Get` the request made, in order, the resource's
      own first. */
  method HandleGet(h: GetHandler, idParam: string, uri: string) returns (resp: Response, calls: seq<GetCall>)
    ensures IdCodec.ParseIds(idParam).Err? ==> calls == [] && resp == Failure(400, InvalidRequest(uri))
    ensures IdCodec.ParseIds(idParam).Ok? ==>
      var ids := IdCodec.ParseIds(idParam).value;
      |calls| >= 1 && calls[0] == GetCall(h.name, ids, h.get(ids))
    ensures IdCodec.ParseIds(idParam).Ok? && calls[0].result.Err? ==>
      |calls| == 1 && resp == Failure(500, calls[0].result.error)
    ensures IdCodec.ParseIds(idParam).Ok? && calls[0].result.Ok? ==>
      var docs := calls[0].result.value;
      ValidIncludeCalls(h.includers, docs, calls[1..])
      && resp == Respond(h.name, docs, Assemble(h.includers, calls[1..]))
    ensures resp.status in {200, 400, 500}
    ensures resp.status == 200 <==> resp.body.JsonObject?
  {
    var parsed := IdCodec.SplitUintIds(idParam);
    if parsed.Err? {
      // jsonapi.go:102-105: status 400, and an "Invalid request" error naming the URI
      return Failure(400, InvalidRequest(uri)), [];
    }
    var ids := parsed.value;
    var resources := h.get(ids);
    calls := [GetCall(h.name, ids, resources)];
    if resources.Err? {
      // jsonapi.go:108-111: status 500, and the error of Get is raised
      return Failure(500, resources.error), calls;
    }
    var body: map<string, Payload> := map[];
    body := body[h.name := PrimaryPayload(PrimaryOf(resources.value))];
    var included, relationCalls := IncludeAll(h.includers, resources.value);
    calls := calls + relationCalls;
    assert calls[1..] == relationCalls;
    if included.Err? {
      // jsonapi.go:274-277: a failing includer writes status 500 and panics
      return Failure(500, included.error), calls;
    }
    if included.value.linked != map[] {
      body := body["linked" := LinkedPayload(included.value.linked)];
      body := body["links" := LinksPayload(included.value.links)];
    }
    resp := Response(200, JsonObject(body));
  }
}
