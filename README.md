# gojsonapi in Dafny

This project models the request pipeline of gojsonapi, a small Go library
that serves resources over HTTP in the JSON API style.

In the root package (`jsonapi.go`), registration works like this:
- A registered resource value gets a collection name: its Go type name, lower-cased, plus `s`.
- A resource with unsigned identifiers and a `Get` gets the route `GET /<name>#ids`.
- A `UintIncluder` has its `links` struct classified into to-one and to-many references.

At request time the handler:
- splits the `ids` parameter on commas;
- parses every segment with `strconv.ParseUint(s, 0, 64)`;
- fetches the primary documents with one `Get`;
- runs one batch fetch per relation, with every referenced identifier exactly once;
- answers with the primary document (or list) plus `linked` and `links`.

Errors are raised as panics and turned into an `errors` envelope by a deferred recover.

The live package (`jsonapi/jsonapi.go`) is simpler:
- an `api` registry appends one `GET <name>/:id` route per resource;
- its handler passes the comma-split identifiers, unparsed, to `Get`;
- it answers with the whole result list under the resource's name.

Modules:
- `Wrappers`: `Option` and `Result`.
- `Text`: `strings.Split`/`Join` with a one-character separator, and ASCII `strings.ToLower`.
- `UintSyntax`: `strconv.ParseUint` in base 0 with 64 bits, including its wrap-around overflow check, proved against a positional reference definition.
- `IdCodec`: `splitUintIds` and `splitStringIds`.
- `Documents`: resources, documents and configuration errors, as values. Go reflection is replaced by explicit descriptions of a type's name, identity kind, capabilities and `links` fields.
- `Includers`: reference classification, includer construction and the batch fetcher.
- `Handlers`: the error envelope and the GET handler.
- `Registration`: `ResourceHandler`, `NewRessourceHandler` and `SetRoutes`.
- `LiveApi`: the live package's `api`, `AddResource`, `GetRoutes` and `makeGetHandler`.

Calls to a resource's `Get` are oracle functions carried by the resource.
The handlers return the list of calls they made beside the response. This is how "`Get` is called exactly once, with these identifiers" is stated.

In these places the model follows the code:
- For each relation, `Get` is called even when no identifier was referenced (jsonapi.go:240-246).
- The 400 error names the request URI, not the bad segment (jsonapi.go:104).
- A to-one reference always contributes its value, zero included (jsonapi.go:211).
- The response map is filled in the handler's order: the primary payload under the collection name, then `linked`, then `links` (jsonapi.go:113-120). A type whose lower-cased name is `link` has the collection name `links`, so whenever something is included its primary documents are overwritten (Handlers.PrimaryShadowed).

Several pieces of the root package do not compile as written. The model takes the evident intent in each case and notes it at the member:
- `resourceName` lacks its `return`.
- `splitStringIds` declares an error result it never returns.
- `makeIncluder` is called with one argument.
- Relation names are taken from a field's type instead of the field's name.
- `makeUintResourceGetter` ranges over an undefined variable.
- No code combines the `include` structs into `linked` and `links`: the `linked` type is commented out (jsonapi.go:144-147) yet used (jsonapi.go:158). The model keys both maps by the descriptor name `<source>s.<relation>`. It leaves out a relation whose `Get` returned no documents, and omits `linked` and `links` when nothing was included (Handlers.AddInclude, Handlers.Respond).

## Model

| member | source | states |
|---|---|---|
| Text.SplitCount | jsonapi.go:128 | splitting on a comma gives one more part than there are commas |
| Text.SplitHasNoSeparator | jsonapi.go:128 | no part of a split contains the separator |
| Text.JoinSplit | jsonapi.go:128 | joining the parts of a split with the separator gives the input back |
| Text.SplitJoin | jsonapi.go:128 | splitting the join of separator-free parts gives the parts back |
| Text.ToLower | jsonapi.go:80 | lower-casing keeps the length and maps each character by the ASCII case rule |
| Text.ToLowerIsLower | jsonapi.go:80 | a lower-cased name has no upper-case letter, and lower-casing is idempotent |
| UintSyntax.BaseAndDigits | jsonapi.go:131 | base 0 selects base 2, 8, 10 or 16 and strips a prefix unless the base is decimal |
| UintSyntax.Accumulate | jsonapi.go:131 | the digit loop's errors name the segment; a syntax error means some digit is invalid for the base |
| UintSyntax.ParseUint | jsonapi.go:131 | every error names the parsed segment; a syntax error means the segment is empty or has an invalid digit |
| UintSyntax.AccumulateValue | jsonapi.go:131 | the 64-bit digit loop with wrap-around checks succeeds exactly when all digits are valid and the positional value fits in 64 bits, and then yields that value |
| UintSyntax.ParseUintCorrect | jsonapi.go:131 | the empty segment is a syntax error; otherwise parsing succeeds iff the digits after the base prefix are valid and denote at most 2^64-1, with that value |
| UintSyntax.ParseUintRange | jsonapi.go:131-134 | valid digits denoting more than 2^64-1 give a range error, not a syntax error |
| UintSyntax.DecimalRoundTrip | jsonapi.go:131 | every 64-bit value printed in decimal parses back to itself |
| IdCodec.ParseSegmentsAllOk | jsonapi.go:130-136 | when every segment parses, the list is the parsed values in order |
| IdCodec.ParseSegmentsFirstError | jsonapi.go:130-134 | the first segment that fails decides the error |
| IdCodec.ParseSegmentsSpec | jsonapi.go:128-136 | the list parses iff every segment does, then with one value per segment in order; otherwise with the error of the first bad segment |
| IdCodec.SplitUintIds | jsonapi.go:127-137 | the slot-filling loop that stops at the first bad segment returns exactly the list parse of the comma split |
| IdCodec.SplitStringIds | jsonapi.go:140-142 | string identifiers are the comma split: one more part than commas, no comma in a part, joining gives the parameter back |
| IdCodec.HexExample | jsonapi.go:131 | "0x1F" parses to 31 |
| IdCodec.OctalExample | jsonapi.go:131 | "010" parses to 8 (leading zero means octal) and "0" to 0 |
| IdCodec.BarePrefixExample | jsonapi.go:131 | "0x" with no digits is a syntax error |
| IdCodec.BadSegmentExample | jsonapi.go:130-134 | "1,abc,2" fails with a syntax error naming "abc" |
| IdCodec.DuplicatesExample | jsonapi.go:127-137 | duplicate identifiers are kept: "7,7" gives [7, 7] |
| IdCodec.EmptySegmentExample | jsonapi.go:128-134 | a trailing comma or an empty parameter yields an empty segment, a syntax error |
| Includers.ResourceName | jsonapi.go:281-283 | the resource name is the lower-cased type name followed by "s", with no upper-case letter |
| Includers.ResourceNameIgnoresCase | jsonapi.go:80 | type names differing only in case share a collection name |
| Includers.GetLinksStruct | jsonapi.go:192-199 | succeeds iff the type has a `links` field of struct type, yielding its fields; otherwise the "no links field" error |
| Includers.ReferencesOfKey | jsonapi.go:205-224 | a relation name is present iff some eligible field has that lower-cased name |
| Includers.ReferencesOfValue | jsonapi.go:205-224 | a relation refers to the last eligible field with its name, with the cardinality of the field's kind |
| Includers.ReferencesOfSpec | jsonapi.go:205-224 | the references map has exactly the eligible names, each bound to its last field and cardinality |
| Includers.ClassifySpec | jsonapi.go:203-227 | no links struct and no eligible field are the two registration errors; otherwise the references map |
| Includers.StringReferencesSpec | jsonapi.go:251-265 | for string identifiers only string fields and slices count, to-one and to-many respectively; a struct without them is refused |
| Includers.CollectReferences | jsonapi.go:203-227 | the field loop computes exactly the classification |
| Includers.MakeIncluder | jsonapi.go:267-269 | the descriptor is named `<source>s.<relation>` and typed with the destination's resource name |
| Includers.MakeIncluders | jsonapi.go:228-231 | one includer per reference, none other |
| Includers.MakeIncludersInjective | jsonapi.go:268 | distinct relations of a resource get distinct descriptor names |
| Includers.GetUintIncluders | jsonapi.go:202-233 | computes the includers of a `UintIncluder`; on success there is at least one, with distinct descriptor names |
| Includers.ReferencedIds | jsonapi.go:210-222 | a to-one reference contributes at most one identifier |
| Includers.CollectedBound | jsonapi.go:236-245 | the deduplicated identifier set is never larger than the number of references |
| Includers.ExtractInto | jsonapi.go:210-222 | an extractor adds exactly the identifiers the document references to the set |
| Includers.CollectIds | jsonapi.go:236-239 | the extractor loop yields the set of all identifiers the documents reference |
| Includers.SetToSlice | jsonapi.go:240-245 | the copy loop yields each identifier of the set exactly once |
| Includers.FetchIncluded | jsonapi.go:235-248 | one `Get` with every referenced identifier exactly once and no more identifiers than references |
| Handlers.RespondWithErrors | jsonapi.go:164-178 | nothing is written without a panic; a slice becomes the error list as is; any other value a one-element list |
| Handlers.EnvelopeKeepsErrors | jsonapi.go:170-176 | every error the panic carried reaches the envelope and nothing else does |
| Handlers.PrimaryOf | jsonapi.go:112-116 | a single result is unwrapped, any other count is kept as a list |
| Handlers.PrimaryRoundTrip | jsonapi.go:112-116 | the documents can be read back from the primary payload |
| Handlers.Failure | jsonapi.go:102-111 | an error response carries the written status and a one-error envelope |
| Handlers.AssembleFailure | jsonapi.go:270-277 | the includes fail iff some relation call failed, with the error of the first failing call |
| Handlers.AssembleKeys | jsonapi.go:117-121 | `linked` and `links` have the same keys, exactly the relations whose call returned documents |
| Handlers.AssembleEntries | jsonapi.go:117-121 | each relation that returned documents is linked with exactly those documents and described by its destination type |
| Handlers.IncludeCoverage | jsonapi.go:117 | without a failure every includer was called exactly once |
| Handlers.RespondAllOrNothing | jsonapi.go:112-122 | status 200 iff a response map; an include failure is a 500 envelope; otherwise the map has the collection name and, when something was included, `linked` and `links` with their values; the primary payload survives under the collection name iff nothing was included or the name is neither `linked` nor `links` |
| Handlers.PrimaryShadowed | jsonapi.go:113-120 | with something included, the primary documents of a resource survive in the response map iff its lower-cased type name is not `link` |
| Handlers.IncludeAll | jsonapi.go:117 | runs each includer at most once in some order, stopping at the first failure, and returns the assembled includes |
| Handlers.HandleGet | jsonapi.go:98-124 | a bad parameter is a 400 naming the URI with no `Get`; otherwise the resource's `Get` is called first with the parsed identifiers; its failure is a 500; otherwise the relation fetches are valid and the response map is filled from them in the handler's order; the status is 200, 400 or 500, and 200 iff a response map |
| Registration.RegisteredSpec | jsonapi.go:75-90 | an unnamed type is refused first; no `GetId` is refused; a uint getter gets exactly one `GET /<lower name>s#ids` route with its `Get` and includers; other accepted types get none |
| Registration.IncludersOfSpec | jsonapi.go:180-189 | building includers fails iff the resource is a `UintIncluder` whose classification fails, with that error; on success descriptor names are distinct |
| Registration.ResourceHandler.constructor | jsonapi.go:81 | a new handler has no routes |
| Registration.ResourceHandler.SetUintRoutes | jsonapi.go:92-96 | a getter appends its route, a non-getter appends nothing, an includer error appends nothing; the route invariant is kept |
| Registration.NewResourceHandler | jsonapi.go:75-90 | registration succeeds exactly when the registration function does, with a fresh handler holding exactly its routes, or with its error |
| Registration.AllRoutesMembers | jsonapi.go:63-69 | a route is collected iff one of the handlers has it |
| Registration.AllRoutesValid | jsonapi.go:63-69 | from handlers built by registration every gathered route is a GET on `/<name>#ids` of its handler's name |
| Registration.SetRoutes | jsonapi.go:63-69 | the loop concatenates all handlers' routes in order, and from registered handlers every route is a GET on `/<name>#ids` |
| LiveApi.RouteForSpec | jsonapi/jsonapi.go:83-84 | the route is a GET whose path is exactly the lower-cased type name plus "/:id", with no plural suffix; its handler is named by the lower-cased type name and uses the resource's `Get` |
| LiveApi.RouteForIgnoresCase | jsonapi/jsonapi.go:83 | type names differing only in case get the same path |
| LiveApi.Api.constructor | jsonapi/jsonapi.go:78-80 | a new registry has no routes |
| LiveApi.Api.AddResource | jsonapi/jsonapi.go:82-86 | appends exactly the resource's route, keeps the earlier ones, never fails |
| LiveApi.Api.GetRoutes | jsonapi/jsonapi.go:88-90 | returns the routes in registration order |
| LiveApi.HandleLiveGet | jsonapi/jsonapi.go:92-105 | `Get` receives every comma segment unparsed, in order; its failure is a 500 with its message; otherwise the reply has the single key `name` bound to the whole list |
| LiveApi.EmptySegmentsPassed | jsonapi/jsonapi.go:94-96 | empty segments and an empty parameter reach `Get` as empty strings |

## Left out

- HTTP transport: `rest.ResponseWriter`, `WriteHeader`, `WriteJson`, `rest.Error`, `PathParam` and the go-json-rest router are foreign. A response is a status plus a body value, and `SetRoutes` returns the routes instead of installing them.
- JSON encoding of documents is not modelled: a document is its identifier plus its `links` values.
- Reflection is replaced by explicit resource descriptions (type name, identity kind, capabilities, `links` fields).
- Panic and recover become explicit error results. Registration panics are `ConfigError` values.
- Go map iteration order is an arbitrary choice. Only order-independent properties are stated.
- `Get` implementations are oracles: what a collaborator does is not modelled.
- UintSyntax.ParseUint: underscore digit separators, which base 0 accepts in Go, are treated as invalid digits.
- Text.ToLower: only ASCII letters are lower-cased, not the full Unicode mapping.
- IdCodec.SplitUintIds: the partially filled slice Go returns beside an error is not returned; no caller reads it.
- Includers.ReferencedIds: a document whose `links` value does not have the declared kind contributes nothing, where Go's type assertion would panic.
- Registration.Registered: string-identified resources get no routes, because their route set-up is commented out in the source (jsonapi.go:85).
- Registration.IncludersOf: the `StringIncluder` branch of `makeIncluders` (jsonapi.go:185-187) is not modelled, for any identity kind, since it calls an unsuitable function into undeclared variables. A uint-identified resource that is also a `StringIncluder` gets only its uint includers. String references are classified (Includers.StringReferencesSpec) but never turned into includers.
- The behaviour-only interfaces `Creater`, `UintSetter`, `StringSetter`, `UintDeleter`, `StringDeleter` and `Queryer` (jsonapi.go:30-53) are never called, so they are not modelled. The same holds for `Saveable`, `Deletable`, `Referer`, `Creatable`, `Searchable` and `Related` (jsonapi/jsonapi.go:17-67).
- The commented-out block at jsonapi/jsonapi.go:107-327 is a copy of the root package's logic and is modelled once, from jsonapi.go.
- A `UintIdentity` resource and a `StringIdentity` resource exclude each other (a Go type has one `GetId`), so the source's uint-before-string test order is not observable.
- Concurrency between requests is not modelled; each request is one call.
