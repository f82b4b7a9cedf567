/** The values the request pipeline of jsonapi.go works on. Reflection over
    Go types is replaced by explicit descriptions: a resource is its type
    name, its identity kind, the capabilities it implements and the shape of
    its `links` struct; a document is its identifier and the values of its
    `links` struct. */
module Documents {
  import opened Wrappers
  import opened UintSyntax

  /** The value of one field of a document's `links` struct. */
  datatype Value =
    | UintValue(u: Uint64)
    | UintSliceValue(us: seq<Uint64>)
    | StringValue(s: string)
    | StringSliceValue(ss: seq<string>)
    | OtherValue

  /** A document: its identifier and its `links` struct, field by field; the
      rest of its JSON body is opaque to the handlers. */
  datatype Doc = Doc(id: Uint64, links: seq<Value>)

  /** An error value that reaches the error envelope: the handler's own
      "Invalid request: <URI>" or whatever a collaborator's `Get` returned. */
  datatype ErrorItem = InvalidRequest(uri: string) | Downstream(message: string)

  /** `UintGetter.Get` (jsonapi.go:20-23), an oracle: the model never looks
      inside a collaborator. */
  type Getter = seq<Uint64> -> Result<seq<Doc>, ErrorItem>

  /** A `UintGetter` as `IncludeUint` hands it out: its Go type name and its
      `Get`. */
  datatype Target = Target(typeName: string, get: Getter)

  /** The Go type of one field of a `links` struct. */
  datatype FieldKind = UintOne | UintMany | StringOne | StringMany | OtherKind

  datatype Field = Field(name: string, kind: FieldKind)

  /** The `links` field of a resource type: missing, of a non-struct type, or
      a struct with its fields in declaration order. */
  datatype LinksField = NoLinksField | NotAStruct | LinksStruct(fields: seq<Field>)

  /** Which `GetId` method the type has. A Go type has at most one method
      called `GetId`, so `UintIder` and `StringIder` exclude each other. */
  datatype Identity = UintIdentity | StringIdentity | NoIdentity

  /** A resource value handed to registration: `typeName` is
      `reflect.TypeOf(resource).Name()` ("" for unnamed types), `get` is
      present when it implements `UintGetter`, `includeUint` when it
      implements `UintIncluder`. */
  datatype Resource = Resource(
    typeName: string,
    identity: Identity,
    get: Option<Getter>,
    includeUint: Option<string -> Target>,
    links: LinksField)

  /** The panics raised at registration time. */
  datatype ConfigError =
    | UnnamedType
    | NoIdMethod(typeName: string)
    | NoLinksStruct(typeName: string)
    | NoReferences(typeName: string)
}
