/**
 * The current renderer: from a schema node to the text of a TypeScript
 * property or type, and from a map of schemas to `export type` declarations.
 *
 * `Render` is the specification of `generateCodeForProperty` as a function;
 * the method `GenerateCodeForProperty` follows the source step by step (the
 * `map` over combinator branches and the `forEach` over properties as loops)
 * and is proved to compute `Render`.
 */
module TypeBuilder {
  import opened Wrappers
  import opened Strings
  import opened OrderedMaps
  import opened Schemas
  import opened Utils
  import opened PathBuilder

  // ---------------------------------------------------------------------------
  // Small helpers
  // ---------------------------------------------------------------------------

  const IndentSize: nat := 2

  /** `getIndents(level)`: two spaces per level. */
  function Indent(level: nat): string {
    Spaces(IndentSize * level)
  }

  /** `indented(text, level, noIndent)` */
  function Indented(text: string, level: nat, noIndent: bool): string {
    if noIndent then text else Indent(level) + text
  }

  /** `wrapNullable(type, nullable)` */
  function WrapNullable(tsType: string, nullable: bool): string {
    if nullable then "Nullable<" + tsType + ">" else tsType
  }

  /** The OpenAPI types rendered as TypeScript primitives. */
  const Primitives: set<string> := {"string", "integer", "boolean", "number"}

  /**
   * `openApiTypeToTypeScriptType(type)`: `integer` becomes `number`, the other
   * primitives keep their name, and any other type is an error (a throw).
   */
  function ToTypeScriptType(openApiType: string): (r: Result<string, string>)
    ensures r.Ok? <==> openApiType in Primitives
    ensures r.Ok? ==> r.value == if openApiType == "integer" then "number" else openApiType
    ensures r.Err? ==> r.error == "Cannot convert OpenAPI type to TS type: " + openApiType
  {
    match openApiType
    case "integer" => Ok("number")
    case "string" => Ok("string")
    case "boolean" => Ok("boolean")
    case "number" => Ok("number")
    case _ => Err("Cannot convert OpenAPI type to TS type: " + openApiType)
  }

  /** `propertyPrefix`: `name: ` when required, `name?: ` when optional, nothing when unnamed. */
  function Prefix(name: Option<string>, isRequired: bool): string {
    match name
    case None => ""
    case Some(n) => if isRequired then n + ": " else n + "?: "
  }

  /** `oneOf || anyOf || allOf`: the first list present, even when it is empty. */
  function ChosenBranches(s: Schema): Branches {
    if s.oneOf.Present? then s.oneOf else if s.anyOf.Present? then s.anyOf else s.allOf
  }

  /** `oneOf || anyOf ? ' | ' : ' & '` */
  function Combinator(s: Schema): string {
    if s.oneOf.Present? || s.anyOf.Present? then " | " else " & "
  }

  /** The combinator rule applies: a list is present and it has branches. */
  predicate HasBranches(s: Schema) {
    ChosenBranches(s).Present? && |ChosenBranches(s).schemas| > 0
  }

  /** `enumValues.map((val) => `'${val}'`).join(' | ')` */
  function EnumUnion(values: seq<string>): string {
    Join(seq(|values|, i requires 0 <= i < |values| => "'" + values[i] + "'"), " | ")
  }

  /** A rendering as `Array.prototype.join` prints it: `null` as the empty string. */
  function OrEmpty(code: Option<string>): string {
    code.GetOr("")
  }

  /** A rendering as a template literal prints it: `null` as `null`. */
  function OrNull(code: Option<string>): string {
    code.GetOr("null")
  }

  // ---------------------------------------------------------------------------
  // generateCodeForProperty, as a function
  // ---------------------------------------------------------------------------

  /**
   * `generateCodeForProperty({ propertyName, propertyDefinition, isRequired, level })`,
   * `None` standing for `null`.  A rendering is never the empty string, so
   * "truthy" and "not null" agree on it.
   */
  function Render(name: Option<string>, s: Schema, isRequired: bool, level: nat): (code: Option<string>)
    ensures code.Some? ==> |code.value| > 0
    decreases s, 2, 0
  {
    var unnamed := name.None?;
    var prefix := Prefix(name, isRequired);
    if HasBranches(s) then
      var blocks := BranchTexts(s, |ChosenBranches(s).schemas|, level);
      Some(Indented(prefix + "(" + Join(blocks, Combinator(s)) + ")", level, unnamed))
    else if |s.enumValues| > 0 then
      Some(Indented(prefix + EnumUnion(s.enumValues), level, unnamed))
    else if s.kind.Some? && s.kind.value in Primitives then
      Some(Indented(prefix + WrapNullable(ToTypeScriptType(s.kind.value).value, s.nullable), level, unnamed))
    else if s.kind == Some("object") then
      Some(RenderObject(name, s, isRequired, level))
    else if s.kind == Some("array") && s.items.Some? then
      match Render(name, s.items.value, isRequired, level)
      case Some(item) => Some(WrapNullable(item + "[]", s.nullable))
      case None => None
    else
      None
  }

  /** What an object with neither properties nor `additionalProperties` renders. */
  const UnknownRecord := "Record<string, unknown>"

  /** The `type === 'object'` branch of generateCodeForProperty. */
  function RenderObject(name: Option<string>, s: Schema, isRequired: bool, level: nat): string
    decreases s, 1, 0
  {
    var unnamed := name.None?;
    var prefix := Prefix(name, isRequired);
    var hasProperties := |s.properties| > 0;
    if !hasProperties && s.additional.Unset? then
      Indented(prefix + WrapNullable(UnknownRecord, s.nullable), level, unnamed)
    else
      var block := "{\n" + PropertyLines(s, |s.properties|, level + 1) + Indented("}", level, false);
      match s.additional
      case Unset => Indented(prefix, level, unnamed) + WrapNullable(block, s.nullable)
      case Values(values) =>
        var record := "Record<string, " + OrNull(Render(None, values, false, level)) + ">";
        if hasProperties then Indented(prefix, level, unnamed) + WrapNullable(block, s.nullable) + " & " + record
        else Indented(prefix + record, level, false)
  }

  /**
   * The lines the first `n` properties of `s` contribute inside the braces:
   * each property rendered at `level`, required when its name is listed in
   * `required`, followed by `;` and a newline; a property rendered `null` adds nothing.
   */
  function PropertyLines(s: Schema, n: nat, level: nat): string
    requires n <= |s.properties|
    decreases s, 0, n
  {
    if n == 0 then ""
    else
      var (propName, prop) := s.properties[n - 1];
      var line := Render(Some(propName), prop, propName in s.required, level);
      PropertyLines(s, n - 1, level) + (if line.Some? then line.value + ";\n" else "")
  }

  /** The renderings of the first `n` combinator branches, each unnamed, optional and at `level`. */
  function BranchTexts(s: Schema, n: nat, level: nat): (texts: seq<string>)
    requires ChosenBranches(s).Present? && n <= |ChosenBranches(s).schemas|
    ensures |texts| == n
    ensures forall i :: 0 <= i < n ==> texts[i] == OrEmpty(Render(None, ChosenBranches(s).schemas[i], false, level))
    decreases s, 0, n
  {
    if n == 0 then []
    else
      var branch := ChosenBranches(s).schemas[n - 1];
      BranchTexts(s, n - 1, level) + [OrEmpty(Render(None, branch, false, level))]
  }

  // ---------------------------------------------------------------------------
  // generateCodeForProperty, step by step
  // ---------------------------------------------------------------------------

  /**
   * `generateCodeForProperty` as the source computes it, case after case.
   * It computes exactly `Render`.
   */
  method GenerateCodeForProperty(name: Option<string>, s: Schema, isRequired: bool, level: nat)
    returns (code: Option<string>)
    ensures code == Render(name, s, isRequired, level)
    decreases s, 2
  {
    var unnamed := name.None?;
    var propertyPrefix := "";
    if !unnamed && isRequired {
      propertyPrefix := name.value + ": ";
    }
    if !unnamed && !isRequired {
      propertyPrefix := name.value + "?: ";
    }
    assert propertyPrefix == Prefix(name, isRequired);

    if s.oneOf.Present? || s.anyOf.Present? || s.allOf.Present? {
      var typeCombinator := if s.oneOf.Present? || s.anyOf.Present? then " | " else " & ";
      var codeBlocks := GenerateBranchCodes(s, level);
      if |codeBlocks| > 0 {
        return Some(Indented(propertyPrefix + "(" + Join(codeBlocks, typeCombinator) + ")", level, unnamed));
      }
    }

    if |s.enumValues| > 0 {
      return Some(Indented(propertyPrefix + EnumUnion(s.enumValues), level, unnamed));
    }

    if s.kind.Some? && s.kind.value in Primitives {
      var basicTypeString := WrapNullable(ToTypeScriptType(s.kind.value).value, s.nullable);
      return Some(Indented(propertyPrefix + basicTypeString, level, unnamed));
    }

    if s.kind == Some("object") {
      var objectCode := GenerateCodeForObject(name, s, isRequired, level);
      return Some(objectCode);
    }

    if s.kind == Some("array") {
      if s.items.None? {
        return None;
      }
      var propTypeString := GenerateCodeForProperty(name, s.items.value, isRequired, level);
      if propTypeString.Some? {
        return Some(WrapNullable(propTypeString.value + "[]", s.nullable));
      }
    }

    return None;
  }

  /** The `map` over the chosen combinator list: every branch rendered unnamed, optional, at `level`. */
  method GenerateBranchCodes(s: Schema, level: nat) returns (codeBlocks: seq<string>)
    requires ChosenBranches(s).Present?
    ensures codeBlocks == BranchTexts(s, |ChosenBranches(s).schemas|, level)
    decreases s, 0
  {
    var branches := ChosenBranches(s).schemas;
    codeBlocks := [];
    var i := 0;
    while i < |branches|
      invariant 0 <= i <= |branches|
      invariant codeBlocks == BranchTexts(s, i, level)
    {
      var block := GenerateCodeForProperty(None, branches[i], false, level);
      codeBlocks := codeBlocks + [OrEmpty(block)];
      i := i + 1;
    }
  }

  /** The `type === 'object'` branch of generateCodeForProperty. */
  method GenerateCodeForObject(name: Option<string>, s: Schema, isRequired: bool, level: nat)
    returns (code: string)
    requires s.kind == Some("object")
    ensures code == RenderObject(name, s, isRequired, level)
    decreases s, 1
  {
    var unnamed := name.None?;
    var propertyPrefix := Prefix(name, isRequired);
    var hasProperties := |s.properties| > 0;
    var hasAdditionalProperties := s.additional.Values?;
    if !hasProperties && !hasAdditionalProperties {
      var basicTypeString := WrapNullable(UnknownRecord, s.nullable);
      return Indented(propertyPrefix + basicTypeString, level, unnamed);
    }

    var indentedPropertyPrefix := Indented(propertyPrefix, level, unnamed);
    var propertiesTypeString := "";
    if hasProperties {
      propertiesTypeString := "{\n";
      var lines := GeneratePropertyLines(s, level + 1);
      propertiesTypeString := propertiesTypeString + lines;
    }

    if !hasAdditionalProperties {
      propertiesTypeString := propertiesTypeString + Indented("}", level, false);
      return indentedPropertyPrefix + WrapNullable(propertiesTypeString, s.nullable);
    }

    var valuesType := GenerateCodeForProperty(None, s.additional.values, false, level);
    var additionalPropertiesTypeString := "Record<string, " + OrNull(valuesType) + ">";
    if hasProperties {
      propertiesTypeString := propertiesTypeString + Indented("}", level, false);
      return indentedPropertyPrefix + WrapNullable(propertiesTypeString, s.nullable) + " & " + additionalPropertiesTypeString;
    }
    return Indented(propertyPrefix + additionalPropertiesTypeString, level, false);
  }

  /** The `forEach` over the properties of an object, appending one line per property rendered. */
  method GeneratePropertyLines(s: Schema, level: nat) returns (lines: string)
    ensures lines == PropertyLines(s, |s.properties|, level)
    decreases s, 0
  {
    lines := "";
    var i := 0;
    while i < |s.properties|
      invariant 0 <= i <= |s.properties|
      invariant lines == PropertyLines(s, i, level)
    {
      var (propName, prop) := s.properties[i];
      var innerIsRequired := propName in s.required;
      var propTypeString := GenerateCodeForProperty(Some(propName), prop, innerIsRequired, level);
      if propTypeString.Some? {
        lines := lines + (propTypeString.value + ";\n");
      }
      i := i + 1;
    }
  }

  // ---------------------------------------------------------------------------
  // Declarations: generateTypesForMap and buildTypes
  // ---------------------------------------------------------------------------

  /** The default of `typeNameFormat`. */
  const DefaultTypeNameFormat := "{name}"

  /** `typeNameFormat.replace('{name}', schemaName)`: the first `{name}` only. */
  function TypeName(typeNameFormat: string, schemaName: string): string {
    ReplaceFirst(typeNameFormat, "{name}", schemaName)
  }

  /**
   * The declaration generateTypesForMap emits for one entry: the header, the
   * root's properties rendered at level 1 (required when listed in the root's
   * `required`), and the closing line.
   */
  function Declaration(typeNameFormat: string, schemaName: string, s: Schema): string {
    "export type " + TypeName(typeNameFormat, schemaName) + " = {\n"
      + PropertyLines(s, |s.properties|, 1) + "};\n"
  }

  /** The declarations of the first `n` entries of a map, in order. */
  function Declarations(propertiesMap: Entries<Schema>, typeNameFormat: string, n: nat): (types: seq<string>)
    requires n <= |propertiesMap|
    ensures |types| == n
    ensures forall i :: 0 <= i < n ==> types[i] == Declaration(typeNameFormat, propertiesMap[i].0, propertiesMap[i].1)
  {
    if n == 0 then []
    else Declarations(propertiesMap, typeNameFormat, n - 1)
         + [Declaration(typeNameFormat, propertiesMap[n - 1].0, propertiesMap[n - 1].1)]
  }

  /** `generateTypesForMap(propertiesMap, typeNameFormat)`: one declaration per entry, in order. */
  method GenerateTypesForMap(propertiesMap: Entries<Schema>, typeNameFormat: string)
    returns (generatedTypesArray: seq<string>)
    ensures generatedTypesArray == Declarations(propertiesMap, typeNameFormat, |propertiesMap|)
  {
    generatedTypesArray := [];
    var k := 0;
    while k < |propertiesMap|
      invariant 0 <= k <= |propertiesMap|
      invariant generatedTypesArray == Declarations(propertiesMap, typeNameFormat, k)
    {
      var (schemaName, schemaDefinition) := propertiesMap[k];
      var typeName := TypeName(typeNameFormat, schemaName);
      var generatedTypeCode := "export type " + typeName + " = {\n";
      var lines := GeneratePropertyLines(schemaDefinition, 1);
      generatedTypeCode := generatedTypeCode + lines;
      generatedTypeCode := generatedTypeCode + "};\n";
      generatedTypesArray := generatedTypesArray + [generatedTypeCode];
      k := k + 1;
    }
  }

  /** `document.components?.schemas ?? {}` */
  function ComponentSchemas(document: Document): Entries<Schema> {
    match document.components
    case None => []
    case Some(components) => components.schemas.GetOr([])
  }

  /**
   * What buildTypes returns: the declarations of the component schemas when
   * schemas are generated, then those of the paths map when paths are.
   */
  function AllDeclarations(document: Document, options: ProgramOptions, matches: Matcher): seq<string> {
    var typeNameFormat := options.typeNameFormat.GetOr(DefaultTypeNameFormat);
    var schemas := ComponentSchemas(document);
    var pathsMap := BuildPathsPropertyMap(document, options, matches);
    (if options.schemas.generate then Declarations(schemas, typeNameFormat, |schemas|) else [])
      + (if options.paths.generate then Declarations(pathsMap, typeNameFormat, |pathsMap|) else [])
  }

  /** `buildTypes(document, options)`; the glob matcher is a parameter. */
  method BuildTypes(document: Document, options: ProgramOptions, matches: Matcher)
    returns (allGeneratedTypes: seq<string>)
    ensures allGeneratedTypes == AllDeclarations(document, options, matches)
  {
    var typeNameFormat := options.typeNameFormat.GetOr(DefaultTypeNameFormat);
    allGeneratedTypes := [];
    if options.schemas.generate {
      var schemas := ComponentSchemas(document);
      var schemaTypes := GenerateTypesForMap(schemas, typeNameFormat);
      allGeneratedTypes := allGeneratedTypes + schemaTypes;
    }
    if options.paths.generate {
      var pathComponentsMap := BuildPathsPropertyMap(document, options, matches);
      var pathResponseTypes := GenerateTypesForMap(pathComponentsMap, typeNameFormat);
      allGeneratedTypes := allGeneratedTypes + pathResponseTypes;
    }
  }

  // ---------------------------------------------------------------------------
  // What the renderer promises
  // ---------------------------------------------------------------------------

  /** No combinator list applies and there is no enum: the `type` decides. */
  predicate ByType(s: Schema) {
    !HasBranches(s) && |s.enumValues| == 0
  }

  /**
   * A primitive renders to its TypeScript name (`integer` as `number`),
   * wrapped in `Nullable<...>` exactly when the schema is nullable.
   */
  lemma PrimitiveRendering(s: Schema, isRequired: bool, level: nat)
    requires ByType(s) && s.kind.Some? && s.kind.value in Primitives
    ensures Render(None, s, isRequired, level)
            == Some(WrapNullable(if s.kind.value == "integer" then "number" else s.kind.value, s.nullable))
  {
    var ts := ToTypeScriptType(s.kind.value).value;
    assert Prefix(None, isRequired) == "";
    assert "" + WrapNullable(ts, s.nullable) == WrapNullable(ts, s.nullable);
  }

  /** `integer` and `number` render alike. */
  lemma IntegerIsNumber(name: Option<string>, s: Schema, isRequired: bool, level: nat)
    requires ByType(s)
    ensures Render(name, s.(kind := Some("integer")), isRequired, level)
            == Render(name, s.(kind := Some("number")), isRequired, level)
  {
  }

  /**
   * An enum renders the same whatever the schema's type and nullability: only
   * its values, the name, the required flag and the level matter.
   */
  lemma EnumDependsOnlyOnValues(name: Option<string>, s: Schema, t: Schema, isRequired: bool, level: nat)
    requires !HasBranches(s) && !HasBranches(t)
    requires |s.enumValues| > 0 && s.enumValues == t.enumValues
    ensures Render(name, s, isRequired, level) == Render(name, t, isRequired, level)
  {
  }

  /**
   * Without a combinator, a non-empty enum renders as the union of its quoted
   * values after the prefix, indented when named, and never in `Nullable`.
   */
  lemma EnumRendering(name: Option<string>, s: Schema, isRequired: bool, level: nat)
    requires !HasBranches(s) && |s.enumValues| > 0
    ensures Render(name, s, isRequired, level)
            == Some(Indented(Prefix(name, isRequired) + EnumUnion(s.enumValues), level, name.None?))
    ensures Render(name, s, isRequired, level) == Render(name, s.(nullable := !s.nullable), isRequired, level)
  {
  }

  /** Any `type` other than the primitives, `object` and `array`, or none at all, renders nothing. */
  lemma UnsupportedTypeRendersNull(name: Option<string>, s: Schema, isRequired: bool, level: nat)
    requires ByType(s)
    requires s.kind.None? || s.kind.value !in Primitives + {"object", "array"}
    ensures Render(name, s, isRequired, level) == None
  {
  }

  /** The enum values, single-quoted and separated by ` | `, in their order. */
  lemma EnumUnionOfTwo(a: string, b: string)
    ensures EnumUnion([a, b]) == ("'" + a + "'") + " | " + ("'" + b + "'")
  {
    var quoted := seq(2, i requires 0 <= i < 2 => "'" + [a, b][i] + "'");
    assert quoted == ["'" + a + "'", "'" + b + "'"];
    assert quoted[1..] == ["'" + b + "'"];
    assert Join(quoted[1..], " | ") == "'" + b + "'";
  }

  /**
   * The lines of the first `n` properties depend only on those properties and
   * the `required` list: neither the type, the nullability, the later
   * properties nor anything else of the schema matters.
   */
  lemma {:induction false} PropertyLinesDependOnlyOnFields(s: Schema, t: Schema, n: nat, level: nat)
    requires n <= |s.properties| && n <= |t.properties|
    requires s.properties[..n] == t.properties[..n] && s.required == t.required
    ensures PropertyLines(s, n, level) == PropertyLines(t, n, level)
  {
    if n > 0 {
      assert s.properties[n - 1] == s.properties[..n][n - 1];
      assert t.properties[n - 1] == t.properties[..n][n - 1];
      assert s.properties[..n - 1] == s.properties[..n][..n - 1];
      assert t.properties[..n - 1] == t.properties[..n][..n - 1];
      PropertyLinesDependOnlyOnFields(s, t, n - 1, level);
    }
  }

  /** The branch texts of two schemas with the same chosen list are the same. */
  lemma {:induction false} BranchTextsDependOnlyOnList(s: Schema, t: Schema, n: nat, level: nat)
    requires ChosenBranches(s) == ChosenBranches(t) && ChosenBranches(s).Present?
    requires n <= |ChosenBranches(s).schemas|
    ensures BranchTexts(s, n, level) == BranchTexts(t, n, level)
  {
    if n > 0 {
      BranchTextsDependOnlyOnList(s, t, n - 1, level);
    }
  }

  /**
   * Combinators come first: once a combinator list with branches is chosen,
   * neither the type, the enum nor the nullability changes the rendering.
   */
  lemma CombinatorsFirst(name: Option<string>, s: Schema, t: Schema, isRequired: bool, level: nat)
    requires HasBranches(s)
    requires s.oneOf == t.oneOf && s.anyOf == t.anyOf && s.allOf == t.allOf
    ensures Render(name, s, isRequired, level) == Render(name, t, isRequired, level)
  {
    BranchTextsDependOnlyOnList(s, t, |ChosenBranches(s).schemas|, level);
  }

  /**
   * A chosen combinator list that is present but empty falls through to the
   * later rules, exactly as if no combinator list were given; a later
   * non-empty list is not consulted.
   */
  lemma EmptyListFallsThrough(name: Option<string>, s: Schema, isRequired: bool, level: nat)
    requires ChosenBranches(s) == Present([])
    ensures Render(name, s, isRequired, level)
            == Render(name, s.(oneOf := Absent, anyOf := Absent, allOf := Absent), isRequired, level)
  {
    var t := s.(oneOf := Absent, anyOf := Absent, allOf := Absent);
    PropertyLinesDependOnlyOnFields(s, t, |s.properties|, level + 1);
  }

  /** An unnamed combination is its branch texts joined by the combinator, in parentheses. */
  lemma UnnamedCombination(s: Schema, isRequired: bool, level: nat)
    requires HasBranches(s)
    ensures Render(None, s, isRequired, level)
            == Some("(" + Join(BranchTexts(s, |ChosenBranches(s).schemas|, level), Combinator(s)) + ")")
  {
    var joined := Join(BranchTexts(s, |ChosenBranches(s).schemas|, level), Combinator(s));
    assert Prefix(None, isRequired) + "(" + joined + ")" == "(" + joined + ")";
  }

  /** Two branches that render are joined by the combinator between parentheses. */
  lemma TwoBranches(s: Schema, level: nat)
    requires HasBranches(s) && |ChosenBranches(s).schemas| == 2
    requires Render(None, ChosenBranches(s).schemas[0], false, level).Some?
    requires Render(None, ChosenBranches(s).schemas[1], false, level).Some?
    ensures Render(None, s, false, level)
            == Some("(" + Render(None, ChosenBranches(s).schemas[0], false, level).value + Combinator(s)
                    + Render(None, ChosenBranches(s).schemas[1], false, level).value + ")")
  {
    var a := Render(None, ChosenBranches(s).schemas[0], false, level).value;
    var b := Render(None, ChosenBranches(s).schemas[1], false, level).value;
    assert BranchTexts(s, 1, level) == [a];
    assert BranchTexts(s, 2, level) == [a, b];
    assert Join([a, b], Combinator(s)) == a + Combinator(s) + b;
    UnnamedCombination(s, false, level);
    Assoc("(", a + Combinator(s), b);
    Assoc("(", a, Combinator(s));
  }

  /** `oneOf [string, integer]`, unnamed, renders `(string | number)`. */
  lemma OneOfExample(level: nat)
    ensures Render(None, Bare.(oneOf := Present([Bare.(kind := Some("string")), Bare.(kind := Some("integer"))])), false, level)
            == Some("(string | number)")
  {
    var first, second := Bare.(kind := Some("string")), Bare.(kind := Some("integer"));
    var s := Bare.(oneOf := Present([first, second]));
    PrimitiveRendering(first, false, level);
    PrimitiveRendering(second, false, level);
    TwoBranches(s, level);
    assert "(" + "string" + " | " + "number" + ")" == "(string | number)";
  }

  /** An `allOf` list is an intersection: `(string & number)`. */
  lemma AllOfExample(level: nat)
    ensures Render(None, Bare.(allOf := Present([Bare.(kind := Some("string")), Bare.(kind := Some("number"))])), false, level)
            == Some("(string & number)")
  {
    var first, second := Bare.(kind := Some("string")), Bare.(kind := Some("number"));
    var s := Bare.(allOf := Present([first, second]));
    PrimitiveRendering(first, false, level);
    PrimitiveRendering(second, false, level);
    TwoBranches(s, level);
    assert "(" + "string" + " & " + "number" + ")" == "(string & number)";
  }

  /** An optional property renders like a required one whose name ends in `?`. */
  lemma {:induction false} OptionalMarker(n: string, s: Schema, level: nat)
    ensures Render(Some(n), s, false, level) == Render(Some(n + "?"), s, true, level)
    decreases s
  {
    assert Prefix(Some(n), false) == Prefix(Some(n + "?"), true);
    if s.items.Some? {
      OptionalMarker(n, s.items.value, level);
    }
  }

  /** Without a name, the required flag changes nothing. */
  lemma {:induction false} UnnamedIgnoresRequired(s: Schema, level: nat)
    ensures Render(None, s, true, level) == Render(None, s, false, level)
    decreases s
  {
    if s.items.Some? {
      UnnamedIgnoresRequired(s.items.value, level);
    }
  }

  /**
   * The schemas for which the name only adds the indentation and the prefix:
   * no object made of `additionalProperties` alone and no nullable array
   * along the `items` chain.
   */
  predicate PrefixOnlyChanges(s: Schema) {
    && (s.kind == Some("object") && |s.properties| == 0 ==> s.additional.Unset?)
    && (s.kind == Some("array") ==> !s.nullable && (s.items.Some? ==> PrefixOnlyChanges(s.items.value)))
  }

  /**
   * A named rendering is the indentation, the prefix (`name: ` or `name?: `)
   * and the unnamed rendering; naming never turns a rendering into `null` or back.
   */
  lemma {:induction false} NamedIsPrefixedUnnamed(n: string, s: Schema, isRequired: bool, level: nat)
    requires PrefixOnlyChanges(s)
    ensures Render(Some(n), s, isRequired, level).Some? <==> Render(None, s, isRequired, level).Some?
    ensures Render(Some(n), s, isRequired, level).Some? ==>
              Render(Some(n), s, isRequired, level).value
              == Indent(level) + Prefix(Some(n), isRequired) + Render(None, s, isRequired, level).value
    decreases s
  {
    var prefix := Prefix(Some(n), isRequired);
    var named, unnamed := Render(Some(n), s, isRequired, level), Render(None, s, isRequired, level);
    assert Prefix(None, isRequired) == "";
    if HasBranches(s) {
      var rest := "(" + Join(BranchTexts(s, |ChosenBranches(s).schemas|, level), Combinator(s)) + ")";
      assert unnamed.value == rest;
      assert named.value == Indent(level) + (prefix + rest);
      Assoc(Indent(level), prefix, rest);
    } else if |s.enumValues| > 0 {
      var rest := EnumUnion(s.enumValues);
      assert unnamed.value == rest;
      assert named.value == Indent(level) + (prefix + rest);
      Assoc(Indent(level), prefix, rest);
    } else if s.kind.Some? && s.kind.value in Primitives {
      var rest := WrapNullable(ToTypeScriptType(s.kind.value).value, s.nullable);
      assert unnamed.value == rest;
      assert named.value == Indent(level) + (prefix + rest);
      Assoc(Indent(level), prefix, rest);
    } else if s.kind == Some("object") {
      ObjectIsPrefixedUnnamed(n, s, isRequired, level);
    } else if s.kind == Some("array") && s.items.Some? {
      NamedIsPrefixedUnnamed(n, s.items.value, isRequired, level);
      var item := Render(None, s.items.value, isRequired, level);
      if item.Some? {
        var head := Indent(level) + prefix;
        assert named.value == (head + item.value) + "[]";
        assert unnamed.value == item.value + "[]";
        Assoc(head, item.value, "[]");
      }
    }
  }

  /** The object case of NamedIsPrefixedUnnamed. */
  lemma ObjectIsPrefixedUnnamed(n: string, s: Schema, isRequired: bool, level: nat)
    requires s.kind == Some("object") && PrefixOnlyChanges(s)
    ensures RenderObject(Some(n), s, isRequired, level)
            == Indent(level) + Prefix(Some(n), isRequired) + RenderObject(None, s, isRequired, level)
  {
    var prefix := Prefix(Some(n), isRequired);
    var head := Indent(level) + prefix;
    assert Prefix(None, isRequired) == "";
    if |s.properties| == 0 {
      var rest := WrapNullable(UnknownRecord, s.nullable);
      assert RenderObject(None, s, isRequired, level) == rest;
      assert RenderObject(Some(n), s, isRequired, level) == Indent(level) + (prefix + rest);
      Assoc(Indent(level), prefix, rest);
    } else {
      var block := "{\n" + PropertyLines(s, |s.properties|, level + 1) + Indented("}", level, false);
      var wrapped := WrapNullable(block, s.nullable);
      assert Indented(Prefix(None, isRequired), level, true) == "";
      assert Indented(prefix, level, false) == head;
      match s.additional
      case Unset =>
        assert RenderObject(None, s, isRequired, level) == "" + wrapped;
        assert "" + wrapped == wrapped;
      case Values(values) =>
        var record := "Record<string, " + OrNull(Render(None, values, false, level)) + ">";
        assert RenderObject(None, s, isRequired, level) == "" + wrapped + " & " + record;
        assert "" + wrapped == wrapped;
        assert RenderObject(Some(n), s, isRequired, level) == head + wrapped + " & " + record;
        Assoc(head, wrapped, " & ");
        Assoc(head, wrapped + " & ", record);
    }
  }

  /**
   * A nullable array wraps the whole rendering of its items, the indentation
   * and the name included: the required property `ids`, a nullable array of
   * numbers, renders `Nullable<  ids: number[]>` at level 1.
   */
  lemma NullableNamedArray()
    ensures Render(Some("ids"), Bare.(kind := Some("array"), nullable := true, items := Some(Bare.(kind := Some("number")))), true, 1)
            == Some("Nullable<  ids: number[]>")
  {
    var item := Bare.(kind := Some("number"));
    var s := Bare.(kind := Some("array"), nullable := true, items := Some(item));
    assert Indent(1) == "  ";
    calc {
      Render(Some("ids"), item, true, 1);
      Some(Indented(Prefix(Some("ids"), true) + WrapNullable("number", false), 1, false));
      { assert Prefix(Some("ids"), true) == "ids: "; }
      Some("  " + ("ids: " + "number"));
      { assert "  " + ("ids: " + "number") == "  ids: number"; }
      Some("  ids: number");
    }
    assert Render(Some("ids"), s, true, 1) == Some("Nullable<" + ("  ids: number" + "[]") + ">");
    assert "Nullable<" + ("  ids: number" + "[]") + ">" == "Nullable<  ids: number[]>";
  }

  /**
   * An object without properties and without `additionalProperties` is an
   * open record, wrapped in `Nullable` exactly when nullable, at any level.
   */
  lemma EmptyObjectIsOpenRecord(s: Schema, isRequired: bool, level: nat)
    requires ByType(s) && s.kind == Some("object")
    requires |s.properties| == 0 && s.additional.Unset?
    ensures Render(None, s, isRequired, level)
            == Some(if s.nullable then "Nullable<" + UnknownRecord + ">" else UnknownRecord)
  {
    var rest := WrapNullable(UnknownRecord, s.nullable);
    assert Prefix(None, isRequired) == "";
    assert RenderObject(None, s, isRequired, level) == "" + rest;
    assert "" + rest == rest;
  }

  /**
   * A nullable object with properties wraps its brace block, not the name:
   * named, it is the indentation, the prefix and `Nullable<...>` around the
   * unnamed, non-nullable rendering.
   */
  lemma ObjectNullableWrapsBlock(n: string, s: Schema, isRequired: bool, level: nat)
    requires ByType(s) && s.kind == Some("object")
    requires |s.properties| > 0 && s.additional.Unset?
    ensures Render(Some(n), s.(nullable := true), isRequired, level)
            == Some(Indent(level) + Prefix(Some(n), isRequired)
                    + "Nullable<" + Render(None, s.(nullable := false), isRequired, level).value + ">")
  {
    var t, u := s.(nullable := true), s.(nullable := false);
    PropertyLinesDependOnlyOnFields(t, u, |s.properties|, level + 1);
    var block := "{\n" + PropertyLines(t, |s.properties|, level + 1) + Indented("}", level, false);
    assert Indented(Prefix(None, isRequired), level, true) == "";
    assert RenderObject(None, u, isRequired, level) == "" + block;
    assert "" + block == block;
    assert RenderObject(Some(n), t, isRequired, level)
           == Indent(level) + Prefix(Some(n), isRequired) + ("Nullable<" + block + ">");
    Assoc(Indent(level) + Prefix(Some(n), isRequired), "Nullable<" + block, ">");
    Assoc(Indent(level) + Prefix(Some(n), isRequired), "Nullable<", block);
  }

  /**
   * `additionalProperties` next to properties appends ` & Record<string, V>`
   * to what the object renders without it, outside any `Nullable` wrapper;
   * `V` is the unnamed rendering of the values' schema, `null` when that is null.
   */
  lemma AdditionalIntersection(name: Option<string>, s: Schema, isRequired: bool, level: nat)
    requires ByType(s) && s.kind == Some("object")
    requires |s.properties| > 0 && s.additional.Values?
    ensures Render(name, s, isRequired, level)
            == Some(Render(name, s.(additional := Unset), isRequired, level).value
                    + " & " + ("Record<string, " + OrNull(Render(None, s.additional.values, false, level)) + ">"))
  {
    var u := s.(additional := Unset);
    PropertyLinesDependOnlyOnFields(s, u, |s.properties|, level + 1);
    assert Render(name, u, isRequired, level) == Some(RenderObject(name, u, isRequired, level));
    assert Render(name, s, isRequired, level) == Some(RenderObject(name, s, isRequired, level));
  }

  /**
   * An object made of `additionalProperties` alone is `Record<string, V>`
   * after the prefix, indented even when unnamed and never wrapped in
   * `Nullable`, whatever its nullability.
   */
  lemma AdditionalOnly(name: Option<string>, s: Schema, isRequired: bool, level: nat)
    requires ByType(s) && s.kind == Some("object")
    requires |s.properties| == 0 && s.additional.Values?
    ensures Render(name, s, isRequired, level)
            == Some(Indent(level) + Prefix(name, isRequired)
                    + ("Record<string, " + OrNull(Render(None, s.additional.values, false, level)) + ">"))
  {
    var record := "Record<string, " + OrNull(Render(None, s.additional.values, false, level)) + ">";
    assert RenderObject(name, s, isRequired, level) == Indent(level) + (Prefix(name, isRequired) + record);
    Assoc(Indent(level), Prefix(name, isRequired), record);
  }

  /** A schema with no field set renders `null`: so `additionalProperties: true` gives `Record<string, null>`. */
  lemma BareRendersNull(name: Option<string>, isRequired: bool, level: nat)
    ensures Render(name, Bare, isRequired, level) == None
  {
    assert !HasBranches(Bare);
  }

  /**
   * `additionalProperties: true` on an object without properties: its values
   * render `null`, so the object is `Record<string, null>` after the prefix.
   */
  lemma AdditionalTrueIsNullRecord(name: Option<string>, s: Schema, isRequired: bool, level: nat)
    requires ByType(s) && s.kind == Some("object")
    requires |s.properties| == 0 && s.additional == FromFlag(true)
    ensures Render(name, s, isRequired, level) == Some(Indent(level) + Prefix(name, isRequired) + "Record<string, null>")
  {
    AdditionalOnly(name, s, isRequired, level);
    BareRendersNull(None, false, level);
    assert s.additional.values == Bare;
    assert "Record<string, " + OrNull(None) + ">" == "Record<string, null>";
  }

  /**
   * An array renders exactly when it has `items` and they render; the
   * rendering is theirs (same name, required flag and level) followed by
   * `[]`, wrapped in `Nullable` exactly when the array is nullable.
   */
  lemma ArrayRendersItems(name: Option<string>, s: Schema, isRequired: bool, level: nat)
    requires ByType(s) && s.kind == Some("array")
    ensures Render(name, s, isRequired, level).Some?
            <==> s.items.Some? && Render(name, s.items.value, isRequired, level).Some?
    ensures Render(name, s, isRequired, level).Some? ==>
              Render(name, s, isRequired, level).value
              == WrapNullable(Render(name, s.items.value, isRequired, level).value + "[]", s.nullable)
  {
    assert "array" !in Primitives;
  }

  /** The schema `s` with its `i`-th property removed. */
  function WithoutProperty(s: Schema, i: nat): (t: Schema)
    requires i < |s.properties|
    ensures |t.properties| == |s.properties| - 1
  {
    s.(properties := s.properties[..i] + s.properties[i + 1..])
  }

  /** Equal lines before the same property stay equal after it. */
  lemma PropertyLinesStep(s: Schema, t: Schema, n: nat, m: nat, level: nat)
    requires 0 < n <= |s.properties| && 0 < m <= |t.properties|
    requires s.properties[n - 1] == t.properties[m - 1] && s.required == t.required
    requires PropertyLines(s, n - 1, level) == PropertyLines(t, m - 1, level)
    ensures PropertyLines(s, n, level) == PropertyLines(t, m, level)
  {
  }

  /** The lines up to and including a property that renders `null` are those before it. */
  lemma NullPropertyAtEnd(s: Schema, i: nat, level: nat)
    requires i < |s.properties|
    requires Render(Some(s.properties[i].0), s.properties[i].1, s.properties[i].0 in s.required, level) == None
    ensures PropertyLines(s, i + 1, level) == PropertyLines(WithoutProperty(s, i), i, level)
  {
    var t := WithoutProperty(s, i);
    assert t.properties[..i] == s.properties[..i];
    PropertyLinesDependOnlyOnFields(s, t, i, level);
    assert PropertyLines(s, i + 1, level) == PropertyLines(s, i, level) + "";
    assert PropertyLines(s, i, level) + "" == PropertyLines(s, i, level);
  }

  /** A property that renders `null` adds no line: removing it leaves the lines unchanged. */
  lemma {:induction false} NullPropertyOmitted(s: Schema, i: nat, n: nat, level: nat)
    requires i < n <= |s.properties|
    requires Render(Some(s.properties[i].0), s.properties[i].1, s.properties[i].0 in s.required, level) == None
    ensures PropertyLines(s, n, level) == PropertyLines(WithoutProperty(s, i), n - 1, level)
  {
    if n == i + 1 {
      NullPropertyAtEnd(s, i, level);
    } else {
      var t := WithoutProperty(s, i);
      NullPropertyOmitted(s, i, n - 1, level);
      assert t.properties[n - 2] == s.properties[i + 1..][n - 2 - i] == s.properties[n - 1];
      PropertyLinesStep(s, t, n, n - 1, level);
    }
  }

  /** With the default format the type name is the schema's name. */
  lemma DefaultTypeName(schemaName: string)
    ensures TypeName(DefaultTypeNameFormat, schemaName) == schemaName
  {
    ReplaceFirstOccurrence("", "{name}", "", schemaName);
    assert "" + "{name}" + "" == DefaultTypeNameFormat;
    assert "" + schemaName + "" == schemaName;
  }

  /** A format such as `I{name}Type` puts the name in place of its first `{name}`. */
  lemma FormattedTypeName(before: string, after: string, schemaName: string)
    requires forall i: nat :: i < |before| ==> !OccursAt(before + "{name}" + after, "{name}", i)
    ensures TypeName(before + "{name}" + after, schemaName) == before + schemaName + after
  {
    ReplaceFirstOccurrence(before, "{name}", after, schemaName);
  }

  /**
   * A declaration is always an object type: the root's type, nullability,
   * combinators, enum, items and `additionalProperties` are ignored, only its
   * properties and `required` list are read.
   */
  lemma DeclarationIgnoresRootShape(typeNameFormat: string, schemaName: string, s: Schema, t: Schema)
    requires s.properties == t.properties && s.required == t.required
    ensures Declaration(typeNameFormat, schemaName, s) == Declaration(typeNameFormat, schemaName, t)
  {
    PropertyLinesDependOnlyOnFields(s, t, |s.properties|, 1);
  }

  /** A root without properties, a string schema for one, declares an empty object type. */
  lemma EmptyDeclaration(schemaName: string, s: Schema)
    requires |s.properties| == 0
    ensures Declaration(DefaultTypeNameFormat, schemaName, s) == "export type " + schemaName + " = {\n};\n"
  {
    DefaultTypeName(schemaName);
    assert "export type " + schemaName + " = {\n" + "" + "};\n" == "export type " + schemaName + " = {\n};\n";
  }

  /** Every declaration opens with `export type ` and closes with `};` and a newline. */
  lemma DeclarationShape(typeNameFormat: string, schemaName: string, s: Schema)
    ensures StartsWith(Declaration(typeNameFormat, schemaName, s), "export type ")
    ensures EndsWith(Declaration(typeNameFormat, schemaName, s), "};\n")
  {
    Affixes("export type ", TypeName(typeNameFormat, schemaName) + " = {\n" + PropertyLines(s, |s.properties|, 1), "};\n");
    assert Declaration(typeNameFormat, schemaName, s)
           == "export type " + (TypeName(typeNameFormat, schemaName) + " = {\n" + PropertyLines(s, |s.properties|, 1)) + "};\n";
  }

  /**
   * buildTypes returns one declaration per component schema when schemas are
   * generated, in the map's order, then one per entry of the paths map when
   * paths are; with neither flag it returns nothing.
   */
  lemma BuildTypesSections(document: Document, options: ProgramOptions, matches: Matcher)
    ensures var schemas := if options.schemas.generate then |ComponentSchemas(document)| else 0;
            var paths := if options.paths.generate then |BuildPathsPropertyMap(document, options, matches)| else 0;
            var all := AllDeclarations(document, options, matches);
            var typeNameFormat := options.typeNameFormat.GetOr(DefaultTypeNameFormat);
            && |all| == schemas + paths
            && (forall i :: 0 <= i < schemas ==>
                  all[i] == Declaration(typeNameFormat, ComponentSchemas(document)[i].0, ComponentSchemas(document)[i].1))
            && (forall i :: schemas <= i < |all| ==>
                  all[i] == Declaration(typeNameFormat, BuildPathsPropertyMap(document, options, matches)[i - schemas].0,
                                        BuildPathsPropertyMap(document, options, matches)[i - schemas].1))
  {
  }
}
