/**
 * Selection of the schemas to declare from the document's paths, and the
 * names those declarations get.  Every `reduce` of the source that builds a
 * fresh object by spreading is a left fold here, written by peeling off the
 * last element.
 */
module PathBuilder {
  import opened Wrappers
  import opened Strings
  import opened OrderedMaps
  import opened Schemas
  import opened Utils

  // ---------------------------------------------------------------------------
  // Naming
  // ---------------------------------------------------------------------------

  /** `pathPart.slice(1, -1)`: the part without its first and last characters. */
  function Unbraced(pathPart: string): string
  {
    if |pathPart| >= 2 then pathPart[1..|pathPart| - 1] else ""
  }

  /** The name fragment of one `/`-separated part of a path template. */
  function TransformSegment(pathPart: string): string
  {
    var isVariable := StartsWith(pathPart, "{");
    if isVariable then "By" + UpperCaseFirstLetter(Unbraced(pathPart))
    else UpperCaseFirstLetter(pathPart)
  }

  /** The fragments of the parts, concatenated in order (`.map(...).join('')`). */
  function TransformSegments(pathParts: seq<string>): string
  {
    if |pathParts| == 0 then "" else TransformSegment(pathParts[0]) + TransformSegments(pathParts[1..])
  }

  /** `buildPathName(pathName, methodKey, status)` */
  function BuildPathName(pathName: string, methodKey: string, status: string): (name: string)
    ensures StartsWith(name, UpperCaseFirstLetter(methodKey))
    ensures EndsWith(name, TextForStatus(status) + "Response")
  {
    Affixes(UpperCaseFirstLetter(methodKey), TransformSegments(Split(pathName, '/')), TextForStatus(status) + "Response");
    UpperCaseFirstLetter(methodKey) + TransformSegments(Split(pathName, '/')) + (TextForStatus(status) + "Response")
  }

  /** A parameter segment `{x}` contributes `By` and the capitalised parameter name. */
  lemma ParameterSegment(param: string)
    ensures TransformSegment("{" + param + "}") == "By" + UpperCaseFirstLetter(param)
  {
    assert Unbraced("{" + param + "}") == param;
  }

  /** An empty segment (before a leading `/`, or between two slashes) contributes nothing. */
  lemma EmptySegment()
    ensures TransformSegment("") == ""
  {
  }

  lemma {:induction false} TransformSegmentsAppend(a: seq<string>, b: seq<string>)
    ensures TransformSegments(a + b) == TransformSegments(a) + TransformSegments(b)
  {
    if |a| == 0 {
      assert a + b == b;
    } else {
      assert (a + b)[0] == a[0];
      assert (a + b)[1..] == a[1..] + b;
      TransformSegmentsAppend(a[1..], b);
    }
  }

  /** The name fragment of a path is built slash-separated piece by piece. */
  lemma PathFragmentAround(a: string, b: string)
    ensures TransformSegments(Split(a + "/" + b, '/')) == TransformSegments(Split(a, '/')) + TransformSegments(Split(b, '/'))
  {
    SplitAround(a, '/', b);
    TransformSegmentsAppend(Split(a, '/'), Split(b, '/'));
  }

  /**
   * The name of a path written as its segments joined by `/` is the
   * capitalised method, the fragments of the segments in order, the status
   * word and `Response`.
   */
  lemma BuildPathNameOfSegments(segments: seq<string>, methodKey: string, status: string)
    requires |segments| >= 1
    requires forall i :: 0 <= i < |segments| ==> '/' !in segments[i]
    ensures BuildPathName(Join(segments, "/"), methodKey, status)
            == UpperCaseFirstLetter(methodKey) + TransformSegments(segments) + (TextForStatus(status) + "Response")
  {
    var pathName := Join(segments, "/");
    assert Split(pathName, '/') == segments by {
      assert "/" == ['/'];
      SplitJoin(segments, '/');
    }
  }

  /** The fragment of `/pets/{petId}`: the empty leading segment gives nothing. */
  lemma PetByIdFragment()
    ensures TransformSegments(["", "pets", "{petId}"]) == "PetsByPetId"
  {
    var segments := ["", "pets", "{petId}"];
    assert TransformSegment("") == "";
    assert TransformSegment("pets") == "Pets" by { assert "pets"[..1] == "p"; }
    assert TransformSegment("{petId}") == "ByPetId" by {
      ParameterSegment("petId");
      assert "{" + "petId" + "}" == "{petId}";
    }
    assert segments[1..] == ["pets", "{petId}"];
    assert segments[1..][1..] == ["{petId}"];
    assert TransformSegments(["{petId}"]) == "ByPetId";
  }

  lemma PetByIdSegments()
    ensures Join(["", "pets", "{petId}"], "/") == "/pets/{petId}"
  {
  }

  /** `GET /pets/{petId}` with status 200 is named `GetPetsByPetIdOkResponse`. */
  lemma PetByIdName()
    ensures BuildPathName("/pets/{petId}", "get", "200") == "GetPetsByPetIdOkResponse"
  {
    var segments := ["", "pets", "{petId}"];
    calc {
      BuildPathName("/pets/{petId}", "get", "200");
      { PetByIdSegments(); }
      BuildPathName(Join(segments, "/"), "get", "200");
      { BuildPathNameOfSegments(segments, "get", "200"); }
      UpperCaseFirstLetter("get") + TransformSegments(segments) + (TextForStatus("200") + "Response");
      { PetByIdFragment(); }
      UpperCaseFirstLetter("get") + "PetsByPetId" + (TextForStatus("200") + "Response");
      { assert UpperCaseFirstLetter("get") == "Get" by { assert "get"[1..] == "et"; } }
      "Get" + "PetsByPetId" + ("Ok" + "Response");
      "GetPetsByPetIdOkResponse";
    }
  }

  /** The parts of `/a/b` give the fragment `AB`. */
  lemma LowerABFragment()
    ensures TransformSegments(["", "a", "b"]) == "AB"
  {
    var segments := ["", "a", "b"];
    assert TransformSegment("") == "";
    assert TransformSegment("a") == "A" by { assert "a"[..1] == "a"; }
    assert TransformSegment("b") == "B" by { assert "b"[..1] == "b"; }
    assert segments[1..] == ["a", "b"];
    assert segments[1..][1..] == ["b"];
    assert TransformSegments(["b"]) == "B";
  }

  /** The parts of `/A/B` give the fragment `AB` as well. */
  lemma UpperABFragment()
    ensures TransformSegments(["", "A", "B"]) == "AB"
  {
    var segments := ["", "A", "B"];
    assert TransformSegment("") == "";
    assert TransformSegment("A") == "A" by { assert "A"[..1] == "A"; }
    assert TransformSegment("B") == "B" by { assert "B"[..1] == "B"; }
    assert segments[1..] == ["A", "B"];
    assert segments[1..][1..] == ["B"];
    assert TransformSegments(["B"]) == "B";
  }

  lemma LowerABSegments()
    ensures Join(["", "a", "b"], "/") == "/a/b"
  {
  }

  lemma UpperABSegments()
    ensures Join(["", "A", "B"], "/") == "/A/B"
  {
  }

  /** `GET /a/b` with status 200 is named `GetABOkResponse`. */
  lemma LowerABName()
    ensures BuildPathName("/a/b", "get", "200") == "GetABOkResponse"
  {
    var segments := ["", "a", "b"];
    calc {
      BuildPathName("/a/b", "get", "200");
      { LowerABSegments(); }
      BuildPathName(Join(segments, "/"), "get", "200");
      { BuildPathNameOfSegments(segments, "get", "200"); }
      UpperCaseFirstLetter("get") + TransformSegments(segments) + (TextForStatus("200") + "Response");
      { LowerABFragment(); }
      UpperCaseFirstLetter("get") + "AB" + (TextForStatus("200") + "Response");
      { assert UpperCaseFirstLetter("get") == "Get" by { assert "get"[1..] == "et"; } }
      "Get" + "AB" + ("Ok" + "Response");
      "GetABOkResponse";
    }
  }

  /** `GET /A/B` with status 200 is named `GetABOkResponse` too. */
  lemma UpperABName()
    ensures BuildPathName("/A/B", "get", "200") == "GetABOkResponse"
  {
    var segments := ["", "A", "B"];
    calc {
      BuildPathName("/A/B", "get", "200");
      { UpperABSegments(); }
      BuildPathName(Join(segments, "/"), "get", "200");
      { BuildPathNameOfSegments(segments, "get", "200"); }
      UpperCaseFirstLetter("get") + TransformSegments(segments) + (TextForStatus("200") + "Response");
      { UpperABFragment(); }
      UpperCaseFirstLetter("get") + "AB" + (TextForStatus("200") + "Response");
      { assert UpperCaseFirstLetter("get") == "Get" by { assert "get"[1..] == "et"; } }
      "Get" + "AB" + ("Ok" + "Response");
      "GetABOkResponse";
    }
  }

  /** Distinct paths can share a name, here `GetABOkResponse`; CollidingPathsKeepLast shows which schema the map keeps. */
  lemma NamesCollide()
    ensures BuildPathName("/a/b", "get", "200") == "GetABOkResponse"
    ensures BuildPathName("/a/b", "get", "200") == BuildPathName("/A/B", "get", "200")
  {
    LowerABName();
    UpperABName();
  }

  // ---------------------------------------------------------------------------
  // Selection
  // ---------------------------------------------------------------------------

  /** `responseInfo.content?.['application/json']?.schema` */
  function JsonSchema(responseInfo: Response): Option<Schema>
  {
    match responseInfo.content
    case None => None
    case Some(content) =>
      match Lookup(content, "application/json")
      case None => None
      case Some(media) => media.schema
  }

  /** The reduce of getPropertiesMapsFromMethodInfo over a list of responses. */
  function SuccessfulJsonSchemas(responses: Entries<Response>): (statuses: Entries<Schema>)
    ensures UniqueKeys(statuses)
    decreases |responses|
  {
    if |responses| == 0 then []
    else
      var acc := SuccessfulJsonSchemas(responses[..|responses| - 1]);
      var (responseCode, responseInfo) := responses[|responses| - 1];
      if !IsSuccessStatus(responseCode) then acc
      else
        match JsonSchema(responseInfo)
        case None => acc
        case Some(schema) => Put(acc, responseCode, schema)
  }

  /** `getPropertiesMapsFromMethodInfo(methodInfo)`: status code to schema, for the 2xx JSON responses. */
  function GetPropertiesMapsFromMethodInfo(methodInfo: Operation): Entries<Schema>
  {
    SuccessfulJsonSchemas(methodInfo.responses.GetOr([]))
  }

  /**
   * For the responses of an operation (an object, so no code twice), a code
   * maps to a schema exactly when it starts with `2` and its response has an
   * `application/json` body with a schema; the schema is that body's.
   */
  lemma {:induction false} SuccessfulJsonSchemasLookup(responses: Entries<Response>, status: string)
    requires UniqueKeys(responses)
    ensures Lookup(SuccessfulJsonSchemas(responses), status)
            == if IsSuccessStatus(status) && status in Keys(responses)
               then JsonSchema(Lookup(responses, status).value) else None
    decreases |responses|
  {
    if |responses| > 0 {
      var init := responses[..|responses| - 1];
      var (code, info) := responses[|responses| - 1];
      assert UniqueKeys(init);
      SuccessfulJsonSchemasLookup(init, status);
      LookupLast(responses, status);
      KeysSnoc(responses);
      var acc := SuccessfulJsonSchemas(init);
      if IsSuccessStatus(code) && JsonSchema(info).Some? {
        assert SuccessfulJsonSchemas(responses) == Put(acc, code, JsonSchema(info).value);
        PutLookup(acc, code, JsonSchema(info).value, status);
      } else {
        assert SuccessfulJsonSchemas(responses) == acc;
      }
    }
  }

  /** Every selected status is a 2xx code of a response whose JSON body has that schema. */
  lemma {:induction false} SuccessfulJsonSchemasSound(responses: Entries<Response>, e: (string, Schema))
    requires e in SuccessfulJsonSchemas(responses)
    ensures exists c :: 0 <= c < |responses| && responses[c].0 == e.0 && IsSuccessStatus(e.0)
                        && JsonSchema(responses[c].1) == Some(e.1)
    decreases |responses|
  {
    var init := responses[..|responses| - 1];
    var (code, info) := responses[|responses| - 1];
    var acc := SuccessfulJsonSchemas(init);
    if e in acc {
      SuccessfulJsonSchemasSound(init, e);
      var c :| 0 <= c < |init| && init[c].0 == e.0 && IsSuccessStatus(e.0) && JsonSchema(init[c].1) == Some(e.1);
      assert responses[c] == init[c];
    } else {
      PutEntry(acc, code, JsonSchema(info).value, e);
      assert responses[|responses| - 1].0 == e.0;
    }
  }

  /** Every 2xx response with a JSON schema has its code selected. */
  lemma {:induction false} SuccessfulJsonSchemasComplete(responses: Entries<Response>, c: nat)
    requires c < |responses| && IsSuccessStatus(responses[c].0) && JsonSchema(responses[c].1).Some?
    ensures responses[c].0 in Keys(SuccessfulJsonSchemas(responses))
    decreases |responses|
  {
    var init := responses[..|responses| - 1];
    var (code, info) := responses[|responses| - 1];
    var acc := SuccessfulJsonSchemas(init);
    if c < |init| {
      assert init[c] == responses[c];
      SuccessfulJsonSchemasComplete(init, c);
    } else {
      assert c == |responses| - 1;
      assert responses[c] == (code, info);
    }
    if IsSuccessStatus(code) && JsonSchema(info).Some? {
      assert SuccessfulJsonSchemas(responses) == Put(acc, code, JsonSchema(info).value);
      PutKeys(acc, code, JsonSchema(info).value, responses[c].0);
    } else {
      assert SuccessfulJsonSchemas(responses) == acc;
    }
  }

  /** The inner reduce of buildPathPropertyEntries: every status renamed by buildPathName. */
  function NamedByStatus(pathName: string, methodKey: string, statuses: Entries<Schema>): (named: Entries<Schema>)
    ensures UniqueKeys(named)
    decreases |statuses|
  {
    if |statuses| == 0 then []
    else
      var (status, schema) := statuses[|statuses| - 1];
      Put(NamedByStatus(pathName, methodKey, statuses[..|statuses| - 1]), BuildPathName(pathName, methodKey, status), schema)
  }

  /** `buildPathPropertyEntries(pathName, pathInfo)` */
  function BuildPathPropertyEntries(pathName: string, pathInfo: PathItem): (entries: Entries<Schema>)
    ensures UniqueKeys(entries)
    decreases |pathInfo|
  {
    if |pathInfo| == 0 then []
    else
      var (methodKey, methodInfo) := pathInfo[|pathInfo| - 1];
      var propertiesMap := GetPropertiesMapsFromMethodInfo(methodInfo);
      Merge(BuildPathPropertyEntries(pathName, pathInfo[..|pathInfo| - 1]),
            NamedByStatus(pathName, methodKey, propertiesMap))
  }

  /** The include test, then the exclude test, of buildPathsPropertyMap. */
  predicate Selected(pathName: string, pathOptions: GenerateOption, matches: Matcher)
  {
    && !(pathOptions.includePatterns.Some? && !MatchesAny(pathName, pathOptions.includePatterns.value, matches))
    && !(pathOptions.excludePatterns.Some? && MatchesAny(pathName, pathOptions.excludePatterns.value, matches))
  }

  /** The reduce of buildPathsPropertyMap over the document's paths. */
  function SelectedPathEntries(paths: Entries<PathItem>, pathOptions: GenerateOption, matches: Matcher): (entries: Entries<Schema>)
    ensures UniqueKeys(entries)
    decreases |paths|
  {
    if |paths| == 0 then []
    else
      var acc := SelectedPathEntries(paths[..|paths| - 1], pathOptions, matches);
      var (pathName, pathInfo) := paths[|paths| - 1];
      if !Selected(pathName, pathOptions, matches) then acc
      else Merge(acc, BuildPathPropertyEntries(pathName, pathInfo))
  }

  /** `buildPathsPropertyMap(document, options)`; the glob matcher is a parameter. */
  function BuildPathsPropertyMap(document: Document, options: ProgramOptions, matches: Matcher): (entries: Entries<Schema>)
    ensures UniqueKeys(entries)
    ensures document.paths.None? ==> entries == []
  {
    SelectedPathEntries(document.paths.GetOr([]), options.paths, matches)
  }

  /**
   * A path is kept exactly when, if include patterns are given, one of them
   * matches, and, if exclude patterns are given, none of them matches.
   */
  lemma SelectedIff(pathName: string, pathOptions: GenerateOption, matches: Matcher)
    ensures Selected(pathName, pathOptions, matches) <==>
      && (pathOptions.includePatterns.Some? ==>
            exists i :: 0 <= i < |pathOptions.includePatterns.value| && matches(pathName, pathOptions.includePatterns.value[i]))
      && (pathOptions.excludePatterns.Some? ==>
            forall i :: 0 <= i < |pathOptions.excludePatterns.value| ==> !matches(pathName, pathOptions.excludePatterns.value[i]))
  {
    if pathOptions.includePatterns.Some? {
      MatchesAnyIsSome(pathName, pathOptions.includePatterns.value, matches);
    }
    if pathOptions.excludePatterns.Some? {
      MatchesAnyIsSome(pathName, pathOptions.excludePatterns.value, matches);
    }
  }

  /** A present but empty include list keeps no path at all. */
  lemma {:induction false} EmptyIncludeSelectsNothing(paths: Entries<PathItem>, pathOptions: GenerateOption, matches: Matcher)
    requires pathOptions.includePatterns == Some([])
    ensures SelectedPathEntries(paths, pathOptions, matches) == []
    decreases |paths|
  {
    if |paths| > 0 {
      EmptyIncludeSelectsNothing(paths[..|paths| - 1], pathOptions, matches);
    }
  }

  /** A present but empty exclude list drops nothing: it is the same as no exclude list. */
  lemma {:induction false} EmptyExcludeIsNoFilter(paths: Entries<PathItem>, pathOptions: GenerateOption, matches: Matcher)
    requires pathOptions.excludePatterns == Some([])
    ensures SelectedPathEntries(paths, pathOptions, matches)
            == SelectedPathEntries(paths, pathOptions.(excludePatterns := None), matches)
    decreases |paths|
  {
    if |paths| > 0 {
      EmptyExcludeIsNoFilter(paths[..|paths| - 1], pathOptions, matches);
    }
  }

  // ---------------------------------------------------------------------------
  // What the paths map holds
  // ---------------------------------------------------------------------------

  /** The responses of an operation, an absent list being empty (`methodInfo.responses || {}`). */
  function Responses(methodInfo: Operation): Entries<Response> {
    methodInfo.responses.GetOr([])
  }

  /**
   * `name` is the name buildPathName gives to a successful JSON response of
   * some operation of some kept path, and `schema` is that response's schema.
   */
  ghost predicate Derived(paths: Entries<PathItem>, pathOptions: GenerateOption, matches: Matcher, name: string, schema: Schema)
  {
    exists p, m, c ::
      && 0 <= p < |paths| && Selected(paths[p].0, pathOptions, matches)
      && 0 <= m < |paths[p].1|
      && 0 <= c < |Responses(paths[p].1[m].1)|
      && IsSuccessStatus(Responses(paths[p].1[m].1)[c].0)
      && JsonSchema(Responses(paths[p].1[m].1)[c].1) == Some(schema)
      && name == BuildPathName(paths[p].0, paths[p].1[m].0, Responses(paths[p].1[m].1)[c].0)
  }

  lemma {:induction false} NamedByStatusSound(pathName: string, methodKey: string, statuses: Entries<Schema>, e: (string, Schema))
    requires e in NamedByStatus(pathName, methodKey, statuses)
    ensures exists j :: 0 <= j < |statuses| && e == (BuildPathName(pathName, methodKey, statuses[j].0), statuses[j].1)
    decreases |statuses|
  {
    var init := statuses[..|statuses| - 1];
    var (status, schema) := statuses[|statuses| - 1];
    var acc := NamedByStatus(pathName, methodKey, init);
    PutEntry(acc, BuildPathName(pathName, methodKey, status), schema, e);
    if e in acc {
      NamedByStatusSound(pathName, methodKey, init, e);
      var j :| 0 <= j < |init| && e == (BuildPathName(pathName, methodKey, init[j].0), init[j].1);
      assert statuses[j] == init[j];
    } else {
      assert e == (BuildPathName(pathName, methodKey, statuses[|statuses| - 1].0), statuses[|statuses| - 1].1);
    }
  }

  lemma {:induction false} NamedByStatusComplete(pathName: string, methodKey: string, statuses: Entries<Schema>, j: nat)
    requires j < |statuses|
    ensures BuildPathName(pathName, methodKey, statuses[j].0) in Keys(NamedByStatus(pathName, methodKey, statuses))
    decreases |statuses|
  {
    var init := statuses[..|statuses| - 1];
    var last := statuses[|statuses| - 1];
    var acc := NamedByStatus(pathName, methodKey, init);
    var name := BuildPathName(pathName, methodKey, last.0);
    var k := BuildPathName(pathName, methodKey, statuses[j].0);
    assert NamedByStatus(pathName, methodKey, statuses) == Put(acc, name, last.1);
    if j < |init| {
      assert init[j] == statuses[j];
      NamedByStatusComplete(pathName, methodKey, init, j);
      assert k in Keys(acc);
    } else {
      assert j == |statuses| - 1;
      assert statuses[j] == last;
    }
    PutKeys(acc, name, last.1, k);
  }

  lemma {:induction false} PathPropertyEntriesSound(pathName: string, pathInfo: PathItem, e: (string, Schema))
    requires e in BuildPathPropertyEntries(pathName, pathInfo)
    ensures exists m :: 0 <= m < |pathInfo| && e in NamedByStatus(pathName, pathInfo[m].0, GetPropertiesMapsFromMethodInfo(pathInfo[m].1))
    decreases |pathInfo|
  {
    var init := pathInfo[..|pathInfo| - 1];
    var (methodKey, methodInfo) := pathInfo[|pathInfo| - 1];
    MergeEntry(BuildPathPropertyEntries(pathName, init), NamedByStatus(pathName, methodKey, GetPropertiesMapsFromMethodInfo(methodInfo)), e);
    if e in BuildPathPropertyEntries(pathName, init) {
      PathPropertyEntriesSound(pathName, init, e);
      var m :| 0 <= m < |init| && e in NamedByStatus(pathName, init[m].0, GetPropertiesMapsFromMethodInfo(init[m].1));
      assert pathInfo[m] == init[m];
    } else {
      assert pathInfo[|pathInfo| - 1] == (methodKey, methodInfo);
    }
  }

  lemma {:induction false} PathPropertyEntriesComplete(pathName: string, pathInfo: PathItem, m: nat, k: string)
    requires m < |pathInfo|
    requires k in Keys(NamedByStatus(pathName, pathInfo[m].0, GetPropertiesMapsFromMethodInfo(pathInfo[m].1)))
    ensures k in Keys(BuildPathPropertyEntries(pathName, pathInfo))
    decreases |pathInfo|
  {
    var init := pathInfo[..|pathInfo| - 1];
    var last := pathInfo[|pathInfo| - 1];
    var acc := BuildPathPropertyEntries(pathName, init);
    var named := NamedByStatus(pathName, last.0, GetPropertiesMapsFromMethodInfo(last.1));
    assert BuildPathPropertyEntries(pathName, pathInfo) == Merge(acc, named);
    if m < |init| {
      assert init[m] == pathInfo[m];
      PathPropertyEntriesComplete(pathName, init, m, k);
    } else {
      assert m == |pathInfo| - 1;
      assert pathInfo[m] == last;
    }
    MergeKeys(acc, named, k);
  }

  lemma {:induction false} SelectedPathEntriesSound(paths: Entries<PathItem>, pathOptions: GenerateOption, matches: Matcher, e: (string, Schema))
    requires e in SelectedPathEntries(paths, pathOptions, matches)
    ensures exists p :: 0 <= p < |paths| && Selected(paths[p].0, pathOptions, matches)
                        && e in BuildPathPropertyEntries(paths[p].0, paths[p].1)
    decreases |paths|
  {
    var init := paths[..|paths| - 1];
    var (pathName, pathInfo) := paths[|paths| - 1];
    var acc := SelectedPathEntries(init, pathOptions, matches);
    if e in acc {
      SelectedPathEntriesSound(init, pathOptions, matches, e);
      var p :| 0 <= p < |init| && Selected(init[p].0, pathOptions, matches) && e in BuildPathPropertyEntries(init[p].0, init[p].1);
      assert paths[p] == init[p];
    } else {
      MergeEntry(acc, BuildPathPropertyEntries(pathName, pathInfo), e);
      assert paths[|paths| - 1] == (pathName, pathInfo);
    }
  }

  lemma {:induction false} SelectedPathEntriesComplete(paths: Entries<PathItem>, pathOptions: GenerateOption, matches: Matcher, p: nat, k: string)
    requires p < |paths| && Selected(paths[p].0, pathOptions, matches)
    requires k in Keys(BuildPathPropertyEntries(paths[p].0, paths[p].1))
    ensures k in Keys(SelectedPathEntries(paths, pathOptions, matches))
    decreases |paths|
  {
    var init := paths[..|paths| - 1];
    var (pathName, pathInfo) := paths[|paths| - 1];
    var acc := SelectedPathEntries(init, pathOptions, matches);
    if p < |init| {
      assert init[p] == paths[p];
      SelectedPathEntriesComplete(init, pathOptions, matches, p, k);
    } else {
      assert p == |paths| - 1;
      assert paths[p] == (pathName, pathInfo);
    }
    if Selected(pathName, pathOptions, matches) {
      assert SelectedPathEntries(paths, pathOptions, matches) == Merge(acc, BuildPathPropertyEntries(pathName, pathInfo));
      MergeKeys(acc, BuildPathPropertyEntries(pathName, pathInfo), k);
    } else {
      assert SelectedPathEntries(paths, pathOptions, matches) == acc;
    }
  }

  /**
   * The last kept path wins: a name its entries produce maps to its schema in
   * the paths map, whatever earlier paths produced under the same name; any
   * other name keeps what the earlier paths gave it.
   */
  lemma LastPathWins(paths: Entries<PathItem>, pathOptions: GenerateOption, matches: Matcher, k: string)
    requires |paths| > 0
    ensures var (pathName, pathInfo) := paths[|paths| - 1];
            Lookup(SelectedPathEntries(paths, pathOptions, matches), k)
            == if Selected(pathName, pathOptions, matches) && k in Keys(BuildPathPropertyEntries(pathName, pathInfo))
               then Lookup(BuildPathPropertyEntries(pathName, pathInfo), k)
               else Lookup(SelectedPathEntries(paths[..|paths| - 1], pathOptions, matches), k)
  {
    var (pathName, pathInfo) := paths[|paths| - 1];
    if Selected(pathName, pathOptions, matches) {
      MergeLookup(SelectedPathEntries(paths[..|paths| - 1], pathOptions, matches), BuildPathPropertyEntries(pathName, pathInfo), k);
    }
  }

  /** A path whose only operation is a `get` answering `200` with an `application/json` body of the given schema. */
  function JsonOkPath(schema: Schema): PathItem {
    [("get", Operation(Some([("200", Response(Some([("application/json", MediaType(Some(schema)))])))])))]
  }

  /** Such a path contributes exactly one entry, named by buildPathName and holding the body's schema. */
  lemma JsonOkPathEntries(pathName: string, schema: Schema)
    ensures BuildPathPropertyEntries(pathName, JsonOkPath(schema)) == [(BuildPathName(pathName, "get", "200"), schema)]
  {
    var item := JsonOkPath(schema);
    JsonOkStatuses(schema);
    NamedSingle(pathName, "get", "200", schema);
    var named := [(BuildPathName(pathName, "get", "200"), schema)];
    calc {
      BuildPathPropertyEntries(pathName, item);
      { assert item[..0] == []; }
      Merge([], NamedByStatus(pathName, "get", GetPropertiesMapsFromMethodInfo(item[0].1)));
      Merge([], named);
      { assert named[..0] == []; }
      Put([], named[0].0, named[0].1);
      { PutIntoEmpty(named[0].0, named[0].1); }
      named;
    }
  }

  /** The operation of such a path selects its one status, `200`, with the body's schema. */
  lemma JsonOkStatuses(schema: Schema)
    ensures GetPropertiesMapsFromMethodInfo(JsonOkPath(schema)[0].1) == [("200", schema)]
  {
    var responses := JsonOkPath(schema)[0].1.responses.value;
    var content := responses[0].1.content.value;
    assert Lookup(content, "application/json") == Some(content[0].1);
    assert JsonSchema(responses[0].1) == Some(schema);
    assert responses[..0] == [];
    PutIntoEmpty<Schema>("200", schema);
    assert SuccessfulJsonSchemas(responses) == Put([], "200", schema);
  }

  /** One status is renamed to its buildPathName name. */
  lemma NamedSingle(pathName: string, methodKey: string, status: string, schema: Schema)
    ensures NamedByStatus(pathName, methodKey, [(status, schema)]) == [(BuildPathName(pathName, methodKey, status), schema)]
  {
    assert [(status, schema)][..0] == [];
    PutIntoEmpty(BuildPathName(pathName, methodKey, status), schema);
  }

  /** Writing into an empty object gives the one entry written. */
  lemma PutIntoEmpty<V>(k: string, v: V)
    ensures Put([], k, v) == [(k, v)]
  {
    assert Keys<V>([]) == [];
  }

  /**
   * Two kept paths that each contribute one entry under the same name: the
   * paths map holds that one entry, with the schema of the later path.
   */
  lemma {:induction false} LaterCollidingPathWins(a: string, pa: PathItem, b: string, pb: PathItem, pathOptions: GenerateOption, matches: Matcher,
                                                  name: string, first: Schema, second: Schema)
    requires Selected(a, pathOptions, matches) && Selected(b, pathOptions, matches)
    requires BuildPathPropertyEntries(a, pa) == [(name, first)]
    requires BuildPathPropertyEntries(b, pb) == [(name, second)]
    ensures SelectedPathEntries([(a, pa), (b, pb)], pathOptions, matches) == [(name, second)]
  {
    var paths := [(a, pa), (b, pb)];
    assert paths[..1] == [(a, pa)];
    SingleKeptPath(a, pa, pathOptions, matches, name, first);
    KeptLastPath(paths, pathOptions, matches);
    MergeOverSingle(name, first, second);
  }

  /** A kept last path merges its entries over those of the earlier paths. */
  lemma KeptLastPath(paths: Entries<PathItem>, pathOptions: GenerateOption, matches: Matcher)
    requires |paths| > 0 && Selected(paths[|paths| - 1].0, pathOptions, matches)
    ensures SelectedPathEntries(paths, pathOptions, matches)
            == Merge(SelectedPathEntries(paths[..|paths| - 1], pathOptions, matches),
                     BuildPathPropertyEntries(paths[|paths| - 1].0, paths[|paths| - 1].1))
  {
  }

  /** Spreading one entry over an object holding only that key replaces its value. */
  lemma MergeOverSingle<V>(k: string, before: V, after: V)
    ensures Merge([(k, before)], [(k, after)]) == [(k, after)]
  {
    assert [(k, after)][..0] == [];
    assert Keys([(k, before)])[0] == k;
  }

  /** A document with one kept path that contributes one entry has exactly that entry. */
  lemma SingleKeptPath(a: string, pa: PathItem, pathOptions: GenerateOption, matches: Matcher, name: string, first: Schema)
    requires Selected(a, pathOptions, matches)
    requires BuildPathPropertyEntries(a, pa) == [(name, first)]
    ensures SelectedPathEntries([(a, pa)], pathOptions, matches) == [(name, first)]
  {
    calc {
      SelectedPathEntries([(a, pa)], pathOptions, matches);
      { assert [(a, pa)][..0] == []; }
      Merge(SelectedPathEntries([], pathOptions, matches), BuildPathPropertyEntries(a, pa));
      Merge([], [(name, first)]);
      { assert [(name, first)][..0] == []; }
      Put([], name, first);
      { PutIntoEmpty(name, first); }
      [(name, first)];
    }
  }

  /**
   * In `{ '/a/b': ..., '/A/B': ... }` both paths produce `GetABOkResponse`,
   * and without include or exclude patterns the paths map keeps that one
   * name, with the schema of `/A/B`.
   */
  lemma CollidingPathsKeepLast(first: Schema, second: Schema, options: ProgramOptions, matches: Matcher)
    requires options.paths.includePatterns.None? && options.paths.excludePatterns.None?
    ensures var document := Document(None, Some([("/a/b", JsonOkPath(first)), ("/A/B", JsonOkPath(second))]));
            BuildPathsPropertyMap(document, options, matches) == [(BuildPathName("/a/b", "get", "200"), second)]
  {
    var name := BuildPathName("/a/b", "get", "200");
    NamesCollide();
    JsonOkPathEntries("/a/b", first);
    JsonOkPathEntries("/A/B", second);
    LaterCollidingPathWins("/a/b", JsonOkPath(first), "/A/B", JsonOkPath(second), options.paths, matches, name, first, second);
  }

  /**
   * Soundness of path selection: every entry of the paths map is named after a
   * successful JSON response of a kept path, and holds that response's schema.
   */
  lemma PathsMapSound(document: Document, options: ProgramOptions, matches: Matcher, e: (string, Schema))
    requires e in BuildPathsPropertyMap(document, options, matches)
    ensures Derived(document.paths.GetOr([]), options.paths, matches, e.0, e.1)
  {
    var paths := document.paths.GetOr([]);
    SelectedPathEntriesSound(paths, options.paths, matches, e);
    var p :| 0 <= p < |paths| && Selected(paths[p].0, options.paths, matches)
             && e in BuildPathPropertyEntries(paths[p].0, paths[p].1);
    PathEntryDerived(paths[p].0, paths[p].1, e);
  }

  /** Every entry one path contributes is named after a successful JSON response of one of its operations, and holds its schema. */
  lemma PathEntryDerived(pathName: string, item: PathItem, e: (string, Schema))
    requires e in BuildPathPropertyEntries(pathName, item)
    ensures exists m, c ::
              && 0 <= m < |item| && 0 <= c < |Responses(item[m].1)|
              && IsSuccessStatus(Responses(item[m].1)[c].0)
              && JsonSchema(Responses(item[m].1)[c].1) == Some(e.1)
              && e.0 == BuildPathName(pathName, item[m].0, Responses(item[m].1)[c].0)
  {
    PathPropertyEntriesSound(pathName, item, e);
    var m :| 0 <= m < |item| && e in NamedByStatus(pathName, item[m].0, GetPropertiesMapsFromMethodInfo(item[m].1));
    var statuses := GetPropertiesMapsFromMethodInfo(item[m].1);
    NamedByStatusSound(pathName, item[m].0, statuses, e);
    var j :| 0 <= j < |statuses| && e == (BuildPathName(pathName, item[m].0, statuses[j].0), statuses[j].1);
    var responses := Responses(item[m].1);
    SuccessfulJsonSchemasSound(responses, statuses[j]);
    var c :| 0 <= c < |responses| && responses[c].0 == statuses[j].0 && IsSuccessStatus(statuses[j].0)
             && JsonSchema(responses[c].1) == Some(statuses[j].1);
  }

  /** Completeness of path selection: every successful JSON response of a kept path gets its name in the map. */
  lemma PathsMapComplete(document: Document, options: ProgramOptions, matches: Matcher, name: string, schema: Schema)
    requires Derived(document.paths.GetOr([]), options.paths, matches, name, schema)
    ensures name in Keys(BuildPathsPropertyMap(document, options, matches))
  {
    var paths := document.paths.GetOr([]);
    var p, m, c :|
      && 0 <= p < |paths| && Selected(paths[p].0, options.paths, matches)
      && 0 <= m < |paths[p].1|
      && 0 <= c < |Responses(paths[p].1[m].1)|
      && IsSuccessStatus(Responses(paths[p].1[m].1)[c].0)
      && JsonSchema(Responses(paths[p].1[m].1)[c].1) == Some(schema)
      && name == BuildPathName(paths[p].0, paths[p].1[m].0, Responses(paths[p].1[m].1)[c].0);
    var item := paths[p].1;
    var responses := Responses(item[m].1);
    var status := responses[c].0;
    SuccessfulJsonSchemasComplete(responses, c);
    var statuses := GetPropertiesMapsFromMethodInfo(item[m].1);
    var j :| 0 <= j < |statuses| && statuses[j].0 == status;
    NamedByStatusComplete(paths[p].0, item[m].0, statuses, j);
    PathPropertyEntriesComplete(paths[p].0, item, m, name);
    SelectedPathEntriesComplete(paths, options.paths, matches, p, name);
  }

  /** Every name in the paths map ends in `Response`. */
  lemma PathNamesEndInResponse(document: Document, options: ProgramOptions, matches: Matcher, k: string)
    requires k in Keys(BuildPathsPropertyMap(document, options, matches))
    ensures EndsWith(k, "Response")
  {
    var entries := BuildPathsPropertyMap(document, options, matches);
    var i :| 0 <= i < |entries| && entries[i].0 == k;
    PathsMapSound(document, options, matches, entries[i]);
    var paths := document.paths.GetOr([]);
    var p, m, c :|
      && 0 <= p < |paths| && Selected(paths[p].0, options.paths, matches)
      && 0 <= m < |paths[p].1|
      && 0 <= c < |Responses(paths[p].1[m].1)|
      && IsSuccessStatus(Responses(paths[p].1[m].1)[c].0)
      && JsonSchema(Responses(paths[p].1[m].1)[c].1) == Some(entries[i].1)
      && k == BuildPathName(paths[p].0, paths[p].1[m].0, Responses(paths[p].1[m].1)[c].0);
    NameEndsInResponse(paths[p].0, paths[p].1[m].0, Responses(paths[p].1[m].1)[c].0);
  }

  /** Every name buildPathName gives ends in `Response`. */
  lemma NameEndsInResponse(pathName: string, methodKey: string, status: string)
    ensures EndsWith(BuildPathName(pathName, methodKey, status), "Response")
  {
    EndsWithTail(BuildPathName(pathName, methodKey, status), TextForStatus(status), "Response");
  }
}
