/** The relation extractor and the batch fetcher of jsonapi.go:191-248 and
    267-283: registration classifies the fields of a resource's `links`
    struct into to-one and to-many references and builds one includer per
    relation; at request time an includer collects the referenced
    identifiers of all primary documents into a set and fetches them with a
    single `Get`. */
module Includers {
  import opened Wrappers
  import opened UintSyntax
  import opened Documents
  import Text

  datatype IdKind = UintId | StringId

  datatype Cardinality = ToOne | ToMany

  /** Where a relation's identifiers live in a document: the index of its
      field in the `links` struct and whether it holds one or many. */
  datatype Reference = Reference(field: nat, cardinality: Cardinality)

  /** A field is a reference of the given identifier kind when it holds one
      identifier of that kind or a slice of them. */
  predicate Eligible(kind: IdKind, f: Field)
  {
    match kind
    case UintId => f.kind == UintOne || f.kind == UintMany
    case StringId => f.kind == StringOne || f.kind == StringMany
  }

  function CardinalityOf(k: FieldKind): Cardinality
  {
    if k == UintOne || k == StringOne then ToOne else ToMany
  }

  /** `resourceName` (jsonapi.go:281-283), also the collection name formed
      by `NewRessourceHandler` (jsonapi.go:80): the lower-cased type name
      plus "s". The source omits the `return` (it does not compile as
      written); the model returns the expression. */
  function ResourceName(typeName: string): (name: string)
    ensures |name| == |typeName| + 1 && name[|typeName|] == 's'
    ensures Text.IsLower(name)
    ensures name[..|typeName|] == Text.ToLower(typeName)
  {
    Text.ToLowerIsLower(typeName);
    Text.ToLower(typeName) + "s"
  }

  /** Type names that differ only in letter case share a collection name. */
  lemma ResourceNameIgnoresCase(typeName: string)
    ensures ResourceName(Text.ToLower(typeName)) == ResourceName(typeName)
  {
    Text.ToLowerIsLower(typeName);
  }

  /** `getLinksStruct` (jsonapi.go:192-199). */
  function GetLinksStruct(typeName: string, links: LinksField): (r: Result<seq<Field>, ConfigError>)
    ensures r.Ok? <==> links.LinksStruct?
    ensures r.Ok? ==> r.value == links.fields
    ensures r.Err? ==> r.error == NoLinksStruct(typeName)
  {
    match links
    case LinksStruct(fields) => Ok(fields)
    case _ => Err(NoLinksStruct(typeName))
  }

  /** The references map the field loop of `getUintIncluders` builds
      (jsonapi.go:205-224): keyed by lower-cased field name, a later field
      with the same key replacing an earlier one. */
  function ReferencesOf(kind: IdKind, fields: seq<Field>): map<string, Reference>
  {
    if fields == [] then map[]
    else
      var i := |fields| - 1;
      var m := ReferencesOf(kind, fields[..i]);
      if Eligible(kind, fields[i])
      then m[Text.ToLower(fields[i].name) := Reference(i, CardinalityOf(fields[i].kind))]
      else m
  }

  /** What classification of a resource's `links` struct yields: an error
      when there is no struct or no eligible field in it. */
  function Classify(kind: IdKind, typeName: string, links: LinksField): Result<map<string, Reference>, ConfigError>
  {
    match GetLinksStruct(typeName, links)
    case Err(e) => Err(e)
    case Ok(fields) =>
      var m := ReferencesOf(kind, fields);
      if m == map[] then Err(NoReferences(typeName)) else Ok(m)
  }

  lemma {:induction false} ReferencesOfKey(kind: IdKind, fields: seq<Field>, name: string)
    ensures name in ReferencesOf(kind, fields) <==>
      exists i | 0 <= i < |fields| :: Eligible(kind, fields[i]) && Text.ToLower(fields[i].name) == name
  {
    if fields != [] {
      var i := |fields| - 1;
      var prefix := fields[..i];
      ReferencesOfKey(kind, prefix, name);
      if name in ReferencesOf(kind, prefix) {
        var j :| 0 <= j < |prefix| && Eligible(kind, prefix[j]) && Text.ToLower(prefix[j].name) == name;
        assert fields[j] == prefix[j];
      }
      if exists j | 0 <= j < |fields| :: Eligible(kind, fields[j]) && Text.ToLower(fields[j].name) == name {
        var j :| 0 <= j < |fields| && Eligible(kind, fields[j]) && Text.ToLower(fields[j].name) == name;
        if j < i {
          assert prefix[j] == fields[j];
        }
      }
    }
  }

  /** The reference kept under a name is the last eligible field carrying
      that name, with the cardinality of its kind. */
  predicate RefersToLast(kind: IdKind, fields: seq<Field>, name: string, ref: Reference)
  {
    && ref.field < |fields|
    && Eligible(kind, fields[ref.field])
    && Text.ToLower(fields[ref.field].name) == name
    && ref.cardinality == CardinalityOf(fields[ref.field].kind)
    && forall j | ref.field < j < |fields| :: Eligible(kind, fields[j]) ==> Text.ToLower(fields[j].name) != name
  }

  lemma {:induction false} ReferencesOfValue(kind: IdKind, fields: seq<Field>, name: string)
    requires name in ReferencesOf(kind, fields)
    ensures RefersToLast(kind, fields, name, ReferencesOf(kind, fields)[name])
  {
    var i := |fields| - 1;
    var prefix := fields[..i];
    if !(Eligible(kind, fields[i]) && Text.ToLower(fields[i].name) == name) {
      ReferencesOfValue(kind, prefix, name);
      var ref := ReferencesOf(kind, fields)[name];
      assert ref == ReferencesOf(kind, prefix)[name];
      assert fields[ref.field] == prefix[ref.field];
      forall j | ref.field < j < |fields| && Eligible(kind, fields[j])
        ensures Text.ToLower(fields[j].name) != name
      {
        if j < i { assert fields[j] == prefix[j]; }
      }
    }
  }

  /** The references map has a key for every eligible field and nothing
      else; each key refers to the last eligible field carrying that name,
      with the cardinality of its kind. */
  lemma ReferencesOfSpec(kind: IdKind, fields: seq<Field>)
    ensures forall name :: name in ReferencesOf(kind, fields) <==>
      exists i | 0 <= i < |fields| :: Eligible(kind, fields[i]) && Text.ToLower(fields[i].name) == name
    ensures forall name | name in ReferencesOf(kind, fields) ::
      RefersToLast(kind, fields, name, ReferencesOf(kind, fields)[name])
  {
    forall name
      ensures name in ReferencesOf(kind, fields) <==>
        exists i | 0 <= i < |fields| :: Eligible(kind, fields[i]) && Text.ToLower(fields[i].name) == name
    {
      ReferencesOfKey(kind, fields, name);
    }
    forall name | name in ReferencesOf(kind, fields)
      ensures RefersToLast(kind, fields, name, ReferencesOf(kind, fields)[name])
    {
      ReferencesOfValue(kind, fields, name);
    }
  }

  /** Classification fails when there is no `links` struct, or when it has
      no eligible field; otherwise it succeeds with one reference per
      distinct lower-cased name (see ReferencesOfSpec). */
  lemma ClassifySpec(kind: IdKind, typeName: string, links: LinksField)
    ensures !links.LinksStruct? ==> Classify(kind, typeName, links) == Err(NoLinksStruct(typeName))
    ensures links.LinksStruct? ==>
      (Classify(kind, typeName, links).Ok? <==>
         exists i | 0 <= i < |links.fields| :: Eligible(kind, links.fields[i]))
    ensures links.LinksStruct? && Classify(kind, typeName, links).Err? ==>
      Classify(kind, typeName, links).error == NoReferences(typeName)
    ensures Classify(kind, typeName, links).Ok? ==>
      Classify(kind, typeName, links).value == ReferencesOf(kind, links.fields)
  {
    if links.LinksStruct? {
      var fields := links.fields;
      ReferencesOfSpec(kind, fields);
      if exists i | 0 <= i < |fields| :: Eligible(kind, fields[i]) {
        var i :| 0 <= i < |fields| && Eligible(kind, fields[i]);
        assert Text.ToLower(fields[i].name) in ReferencesOf(kind, fields);
      }
    }
  }

  /** `getStringIncluders` (jsonapi.go:251-265): only string fields and
      string slices are references, a string field being to-one and a
      slice to-many; a struct without either is refused. */
  lemma StringReferencesSpec(typeName: string, links: LinksField)
    requires links.LinksStruct?
    ensures Classify(StringId, typeName, links).Ok? <==>
      exists i | 0 <= i < |links.fields| :: links.fields[i].kind == StringOne || links.fields[i].kind == StringMany
    ensures Classify(StringId, typeName, links).Ok? ==>
      var refs := Classify(StringId, typeName, links).value;
      forall name | name in refs ::
        && refs[name].field < |links.fields|
        && (refs[name].cardinality == ToOne <==> links.fields[refs[name].field].kind == StringOne)
        && (refs[name].cardinality == ToMany <==> links.fields[refs[name].field].kind == StringMany)
  {
    ClassifySpec(StringId, typeName, links);
    ReferencesOfSpec(StringId, links.fields);
  }

  /** The field loop of `getUintIncluders` (jsonapi.go:203-227), for either
      identifier kind; the string kind is the analogue of the broken
      `getStringIncluders` (jsonapi.go:251-265). The source names a relation
      by `strings.ToLower(inc.Name)` with `inc` the field's type, which does
      not compile; the model uses the field's own name, as the error
      messages and `IncludeUint(name)` make plain. */
  method CollectReferences(kind: IdKind, typeName: string, links: LinksField)
    returns (r: Result<map<string, Reference>, ConfigError>)
    ensures r == Classify(kind, typeName, links)
  {
    var l := GetLinksStruct(typeName, links);
    if l.Err? {
      return Err(l.error);
    }
    var fields := l.value;
    var idExtractors: map<string, Reference> := map[];
    for i := 0 to |fields|
      invariant idExtractors == ReferencesOf(kind, fields[..i])
    {
      assert fields[..i + 1][..i] == fields[..i];
      var f := fields[i];
      if kind == UintId && f.kind == UintOne {
        idExtractors := idExtractors[Text.ToLower(f.name) := Reference(i, ToOne)];
      } else if kind == UintId && f.kind == UintMany {
        idExtractors := idExtractors[Text.ToLower(f.name) := Reference(i, ToMany)];
      } else if kind == StringId && f.kind == StringOne {
        idExtractors := idExtractors[Text.ToLower(f.name) := Reference(i, ToOne)];
      } else if kind == StringId && f.kind == StringMany {
        idExtractors := idExtractors[Text.ToLower(f.name) := Reference(i, ToMany)];
      }
    }
    assert fields[..|fields|] == fields;
    if |idExtractors| == 0 {
      return Err(NoReferences(typeName));
    }
    r := Ok(idExtractors);
  }

  /** The relation descriptor `makeIncluder` builds (jsonapi.go:267-269)
      together with where its identifiers live and whom to ask for them. */
  datatype Includer = Includer(relName: string, relType: string, reference: Reference, target: Target)

  function MakeIncluder(name: string, sourceTypeName: string, dest: Target, ref: Reference): (inc: Includer)
    ensures inc.relName == ResourceName(sourceTypeName) + "." + name
    ensures inc.relType == ResourceName(dest.typeName)
    ensures inc.reference == ref && inc.target == dest
  {
    Includer(ResourceName(sourceTypeName) + "." + name, ResourceName(dest.typeName), ref, dest)
  }

  /** The includers loop of `getUintIncluders` (jsonapi.go:228-231): one
      includer per reference, its target asked of `IncludeUint(name)`. */
  function MakeIncluders(sourceTypeName: string, refs: map<string, Reference>, includeUint: string -> Target)
    : (incs: map<string, Includer>)
    ensures incs.Keys == refs.Keys
  {
    map name | name in refs :: MakeIncluder(name, sourceTypeName, includeUint(name), refs[name])
  }

  /** Distinct relations of one resource get distinct descriptor names, so
      their entries in `linked` and `links` never collide. */
  predicate RelNamesInjective(incs: map<string, Includer>)
  {
    forall a, b | a in incs && b in incs && a != b :: incs[a].relName != incs[b].relName
  }

  lemma MakeIncludersInjective(sourceTypeName: string, refs: map<string, Reference>, includeUint: string -> Target)
    ensures RelNamesInjective(MakeIncluders(sourceTypeName, refs, includeUint))
  {
    var incs := MakeIncluders(sourceTypeName, refs, includeUint);
    var prefix := ResourceName(sourceTypeName) + ".";
    forall a, b | a in incs && b in incs && a != b ensures incs[a].relName != incs[b].relName {
      assert incs[a].relName == prefix + a && incs[b].relName == prefix + b;
      assert (prefix + a)[|prefix|..] == a;
      assert (prefix + b)[|prefix|..] == b;
    }
  }

  /** What `getUintIncluders` leaves behind for a `UintIncluder`. */
  function UintIncluders(res: Resource): Result<map<string, Includer>, ConfigError>
    requires res.includeUint.Some?
  {
    match Classify(UintId, res.typeName, res.links)
    case Err(e) => Err(e)
    case Ok(refs) => Ok(MakeIncluders(res.typeName, refs, res.includeUint.value))
  }

  /** `getUintIncluders` (jsonapi.go:202-233); its panics become the error. */
  method GetUintIncluders(res: Resource) returns (r: Result<map<string, Includer>, ConfigError>)
    requires res.includeUint.Some?
    ensures r == UintIncluders(res)
    ensures r.Ok? ==> r.value != map[] && RelNamesInjective(r.value)
  {
    var refs := CollectReferences(UintId, res.typeName, res.links);
    if refs.Err? {
      return Err(refs.error);
    }
    MakeIncludersInjective(res.typeName, refs.value, res.includeUint.value);
    r := Ok(MakeIncluders(res.typeName, refs.value, res.includeUint.value));
  }

  // ---------------------------------------------------------------------
  // Batch fetcher.

  function AsSet(s: seq<Uint64>): set<Uint64>
  {
    set x | x in s
  }

  predicate NoDuplicates(s: seq<Uint64>)
  {
    forall i, j | 0 <= i < j < |s| :: s[i] != s[j]
  }

  /** The identifiers one document contributes through a reference: the
      value of a to-one field (always, zero included), every element of a
      to-many field. A document whose `links` struct does not have the
      declared shape contributes nothing (the Go type assertion would panic). */
  function ReferencedIds(ref: Reference, doc: Doc): (ids: seq<Uint64>)
    ensures ref.cardinality == ToOne ==> |ids| <= 1
  {
    if ref.field < |doc.links| then
      match doc.links[ref.field]
      case UintValue(u) => if ref.cardinality == ToOne then [u] else []
      case UintSliceValue(us) => if ref.cardinality == ToMany then us else []
      case _ => []
    else []
  }

  /** Every identifier the documents reference through `ref`. */
  function Collected(docs: seq<Doc>, ref: Reference): set<Uint64>
  {
    if docs == [] then {}
    else Collected(docs[..|docs| - 1], ref) + AsSet(ReferencedIds(ref, docs[|docs| - 1]))
  }

  /** The number of references, duplicates counted. */
  function TotalReferences(docs: seq<Doc>, ref: Reference): nat
  {
    if docs == [] then 0
    else TotalReferences(docs[..|docs| - 1], ref) + |ReferencedIds(ref, docs[|docs| - 1])|
  }

  lemma {:induction false} AsSetBound(s: seq<Uint64>)
    ensures |AsSet(s)| <= |s|
  {
    if s != [] {
      var t := s[..|s| - 1];
      AsSetBound(t);
      assert s == t + [s[|s| - 1]];
      assert AsSet(s) == AsSet(t) + {s[|s| - 1]};
    }
  }

  /** Deduplication never asks for more identifiers than were referenced. */
  lemma {:induction false} CollectedBound(docs: seq<Doc>, ref: Reference)
    ensures |Collected(docs, ref)| <= TotalReferences(docs, ref)
  {
    if docs != [] {
      var prefix := docs[..|docs| - 1];
      CollectedBound(prefix, ref);
      AsSetBound(ReferencedIds(ref, docs[|docs| - 1]));
    }
  }

  /** The `idExtractor` closures of jsonapi.go:210-222: add the identifiers
      one document references to the identifier set. */
  method ExtractInto(ref: Reference, doc: Doc, idMap: set<Uint64>) returns (out: set<Uint64>)
    ensures out == idMap + AsSet(ReferencedIds(ref, doc))
  {
    var ids := ReferencedIds(ref, doc);
    out := idMap;
    if ref.cardinality == ToOne {
      if ids != [] {
        out := out + {ids[0]};
      }
    } else {
      for j := 0 to |ids|
        invariant out == idMap + AsSet(ids[..j])
      {
        assert ids[..j + 1] == ids[..j] + [ids[j]];
        out := out + {ids[j]};
      }
      assert ids[..|ids|] == ids;
    }
  }

  /** The first loop of `makeUintResourceGetter` (jsonapi.go:236-239): run
      the extractor over every document into one identifier set. The
      source ranges over an undefined `resources`; the model takes the
      primary documents the includer is called with. */
  method CollectIds(resources: seq<Doc>, ref: Reference) returns (idMap: set<Uint64>)
    ensures idMap == Collected(resources, ref)
  {
    idMap := {};
    for i := 0 to |resources|
      invariant idMap == Collected(resources[..i], ref)
    {
      assert resources[..i + 1][..i] == resources[..i];
      idMap := ExtractInto(ref, resources[i], idMap);
    }
    assert resources[..|resources|] == resources;
  }

  /** The copy loop of `makeUintResourceGetter` (jsonapi.go:240-245): a
      slice of the set's size filled through a running counter, in the
      set's (unspecified) iteration order. */
  method SetToSlice(idMap: set<Uint64>) returns (ids: seq<Uint64>)
    ensures NoDuplicates(ids) && AsSet(ids) == idMap && |ids| == |idMap|
  {
    var slice := new Uint64[|idMap|];
    var rest := idMap;
    var i := 0;
    while rest != {}
      invariant rest <= idMap
      invariant i + |rest| == |idMap|
      invariant AsSet(slice[..i]) == idMap - rest
      invariant NoDuplicates(slice[..i])
      decreases |rest|
    {
      // Go ranges over the map in an unspecified order
      var id :| id in rest;
      ghost var copied := slice[..i];
      slice[i] := id;
      assert slice[..i + 1] == copied + [id];
      assert AsSet(copied + [id]) == AsSet(copied) + {id};
      i := i + 1;
      rest := rest - {id};
    }
    assert slice[..] == slice[..i];
    ids := slice[..];
  }

  /** `makeUintResourceGetter` (jsonapi.go:235-248): one `Get` with every
      referenced identifier exactly once. Returned beside the result: the
      identifiers that one call received. */
  method FetchIncluded(resources: seq<Doc>, ref: Reference, dest: Target)
    returns (ids: seq<Uint64>, r: Result<seq<Doc>, ErrorItem>)
    ensures NoDuplicates(ids)
    ensures AsSet(ids) == Collected(resources, ref)
    ensures |ids| <= TotalReferences(resources, ref)
    ensures r == dest.get(ids)
  {
    var idMap := CollectIds(resources, ref);
    ids := SetToSlice(idMap);
    CollectedBound(resources, ref);
    r := dest.get(ids);
  }
}
