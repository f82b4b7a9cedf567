/** The identifier codec of the request handlers (jsonapi.go:126-142): the
    `ids` path parameter is split on commas, and for resources with
    unsigned identifiers every segment is parsed as a 64-bit number. */
module IdCodec {
  import opened Wrappers
  import opened UintSyntax
  import Text

  /** The identifier list a path parameter denotes: every comma-separated
      segment parsed in order; the first segment that fails decides the error. */
  function ParseSegments(segments: seq<string>): Result<seq<Uint64>, NumError>
  {
    if segments == [] then Ok([])
    else match ParseUint(segments[0])
      case Err(e) => Err(e)
      case Ok(v) =>
        match ParseSegments(segments[1..])
        case Err(e) => Err(e)
        case Ok(vs) => Ok([v] + vs)
  }

  function ParseIds(idString: string): Result<seq<Uint64>, NumError>
  {
    ParseSegments(Text.Split(idString, ','))
  }

  lemma {:induction false} ParseSegmentsAllOk(segments: seq<string>, values: seq<Uint64>)
    requires |values| == |segments|
    requires forall k | 0 <= k < |segments| :: ParseUint(segments[k]) == Ok(values[k])
    ensures ParseSegments(segments) == Ok(values)
  {
    if segments != [] {
      ParseSegmentsAllOk(segments[1..], values[1..]);
      assert [values[0]] + values[1..] == values;
    }
  }

  lemma {:induction false} ParseSegmentsFirstError(segments: seq<string>, i: nat)
    requires i < |segments| && ParseUint(segments[i]).Err?
    requires forall k | 0 <= k < i :: ParseUint(segments[k]).Ok?
    ensures ParseSegments(segments) == Err(ParseUint(segments[i]).error)
  {
    if i > 0 {
      ParseSegmentsFirstError(segments[1..], i - 1);
    }
  }

  /** `ParseIds` succeeds exactly when every segment parses; it then has one
      identifier per segment, in order, and otherwise reports the error of
      the first segment that does not parse. */
  lemma {:induction false} ParseSegmentsSpec(segments: seq<string>)
    ensures ParseSegments(segments).Ok? <==> forall k | 0 <= k < |segments| :: ParseUint(segments[k]).Ok?
    ensures ParseSegments(segments).Ok? ==>
      |ParseSegments(segments).value| == |segments|
      && forall k | 0 <= k < |segments| :: ParseSegments(segments).value[k] == ParseUint(segments[k]).value
    ensures ParseSegments(segments).Err? ==>
      exists i | 0 <= i < |segments| ::
        ParseUint(segments[i]) == Err(ParseSegments(segments).error)
        && forall k | 0 <= k < i :: ParseUint(segments[k]).Ok?
  {
    if segments != [] {
      ParseSegmentsSpec(segments[1..]);
      if ParseUint(segments[0]).Err? {
        assert ParseUint(segments[0]) == Err(ParseSegments(segments).error);
      } else if ParseSegments(segments[1..]).Err? {
        var i :| 0 <= i < |segments[1..]|
          && ParseUint(segments[1..][i]) == Err(ParseSegments(segments[1..]).error)
          && forall k | 0 <= k < i :: ParseUint(segments[1..][k]).Ok?;
        assert ParseUint(segments[i + 1]) == Err(ParseSegments(segments).error);
        assert forall k | 0 <= k < i + 1 :: ParseUint(segments[k]).Ok? by {
          forall k | 0 <= k < i + 1 ensures ParseUint(segments[k]).Ok? {
            if k > 0 { assert segments[k] == segments[1..][k - 1]; }
          }
        }
      } else {
        forall k | 0 <= k < |segments| ensures ParseUint(segments[k]).Ok? {
          if k > 0 { assert segments[k] == segments[1..][k - 1]; }
        }
      }
    }
  }

  /** `splitUintIds` (jsonapi.go:127-137): fills a slice of one slot per
      segment and stops at the first segment `strconv.ParseUint` rejects.
      The Go pair `(ids, err)` becomes a result: callers never read `ids`
      once `err` is set (jsonapi.go:102-105). */
  method SplitUintIds(idString: string) returns (r: Result<seq<Uint64>, NumError>)
    ensures r == ParseIds(idString)
  {
    var idStrs := Text.Split(idString, ',');
    var ids := new Uint64[|idStrs|];
    for i := 0 to |idStrs|
      invariant forall k | 0 <= k < i :: ParseUint(idStrs[k]) == Ok(ids[k])
    {
      var parsed := ParseUint(idStrs[i]);
      if parsed.Err? {
        ParseSegmentsFirstError(idStrs, i);
        return Err(parsed.error);
      }
      ids[i] := parsed.value;
    }
    ParseSegmentsAllOk(idStrs, ids[..]);
    r := Ok(ids[..]);
  }

  /** `splitStringIds` (jsonapi.go:140-142). The source declares an error
      result but returns only the split (it does not compile as written);
      the model keeps the evident intent, a split that cannot fail. Every
      segment is kept verbatim, empty ones included. */
  function SplitStringIds(idString: string): (ids: seq<string>)
    ensures |ids| == Text.Count(idString, ',') + 1
    ensures forall k | 0 <= k < |ids| :: ',' !in ids[k]
    ensures Text.Join(ids, ',') == idString
  {
    Text.SplitCount(idString, ',');
    Text.SplitHasNoSeparator(idString, ',');
    Text.JoinSplit(idString, ',');
    Text.Split(idString, ',')
  }

  // Worked cases of the base-0 syntax and of the list syntax.

  lemma HexExample()
    ensures ParseUint("0x1F") == Ok(31)
  {
  }

  lemma OctalExample()
    ensures ParseUint("010") == Ok(8) && ParseUint("0") == Ok(0)
  {
  }

  lemma BarePrefixExample()
    ensures ParseUint("0x") == Err(SyntaxError("0x"))
  {
  }

  /** The error names the first bad segment. */
  lemma BadSegmentExample()
    ensures ParseIds("1,abc,2") == Err(SyntaxError("abc"))
  {
    Text.SplitJoin(["1", "abc", "2"], ',');
    assert Text.Join(["1", "abc", "2"], ',') == "1,abc,2";
  }

  /** Duplicate identifiers are kept. */
  lemma DuplicatesExample()
    ensures ParseIds("7,7") == Ok([7, 7])
  {
    Text.SplitJoin(["7", "7"], ',');
    assert Text.Join(["7", "7"], ',') == "7,7";
    assert ParseUint("7") == Ok(7);
    ParseSegmentsAllOk(["7", "7"], [7, 7]);
  }

  /** An empty segment is malformed, so is an empty parameter. */
  lemma EmptySegmentExample()
    ensures ParseIds("3,") == Err(SyntaxError(""))
    ensures ParseIds("") == Err(SyntaxError(""))
  {
    Text.SplitJoin(["3", ""], ',');
    assert Text.Join(["3", ""], ',') == "3,";
  }
}
