/**
 * The first renderer of the repository, kept beside the current one: it reads
 * only a schema's `type`, `properties` and `items`, writes every property as
 * required and generates no path types.
 *
 * `LegacyRender` specifies its `generateCodeForProperty`; the method of the
 * same name follows the source, the `forEach` over properties as a loop.
 * The two renderers are proved to agree on the schemas both understand alike.
 */
module LegacyTypeBuilder {
  import opened Wrappers
  import opened Strings
  import opened OrderedMaps
  import opened Schemas
  import opened Utils
  import opened TypeBuilder

  // ---------------------------------------------------------------------------
  // generateCodeForProperty
  // ---------------------------------------------------------------------------

  /**
   * `generateCodeForProperty(propertyName, propertyDefinition, level)`, `None`
   * standing for `null`: a primitive as `name: type`, an object as a brace
   * block of its property lines (even when it has none), an array as its
   * items' rendering followed by `[]`, anything else as nothing. A rendering
   * always opens with the indentation and `name: `.
   */
  function LegacyRender(name: string, s: Schema, level: nat): (code: Option<string>)
    ensures code.Some? ==> StartsWith(code.value, Indent(level) + name + ": ")
    decreases s, 1, 0
  {
    var head := Indent(level) + name + ": ";
    if s.kind.Some? && s.kind.value in Primitives then
      var ts := ToTypeScriptType(s.kind.value).value;
      StartsWithGrouped(Indent(level), name + ": ", ts);
      Some(Indent(level) + (name + ": " + ts))
    else if s.kind == Some("object") then
      var lines := LegacyLines(s, |s.properties|, level + 1);
      var opening := Indent(level) + (name + ": " + "{\n");
      StartsWithGrouped(Indent(level), name + ": ", "{\n");
      StartsWithAppend(opening, head, lines);
      StartsWithAppend(opening + lines, head, Indent(level) + "}");
      Some(opening + lines + (Indent(level) + "}"))
    else if s.kind == Some("array") && s.items.Some? then
      match LegacyRender(name, s.items.value, level)
      case Some(item) =>
        StartsWithAppend(item, head, "[]");
        Some(item + "[]")
      case None => None
    else
      None
  }

  /** The lines of the first `n` properties of `s`, each rendered at `level` and followed by `;` and a newline. */
  function LegacyLines(s: Schema, n: nat, level: nat): string
    requires n <= |s.properties|
    decreases s, 0, n
  {
    if n == 0 then ""
    else
      var (propName, prop) := s.properties[n - 1];
      var line := LegacyRender(propName, prop, level);
      LegacyLines(s, n - 1, level) + (if line.Some? then line.value + ";\n" else "")
  }

  /** `generateCodeForProperty` as the source computes it; it computes exactly `LegacyRender`. */
  method GenerateCodeForProperty(propertyName: string, s: Schema, level: nat) returns (code: Option<string>)
    ensures code == LegacyRender(propertyName, s, level)
    decreases s, 1
  {
    if s.kind.Some? && s.kind.value in Primitives {
      var ts := ToTypeScriptType(s.kind.value).value;
      return Some(Indent(level) + (propertyName + ": " + ts));
    }
    if s.kind == Some("object") {
      var stringRep := Indent(level) + (propertyName + ": " + "{\n");
      var lines := "";
      var i := 0;
      while i < |s.properties|
        invariant 0 <= i <= |s.properties|
        invariant lines == LegacyLines(s, i, level + 1)
      {
        var (propName, prop) := s.properties[i];
        var propTypeString := GenerateCodeForProperty(propName, prop, level + 1);
        if propTypeString.Some? {
          lines := lines + (propTypeString.value + ";\n");
        }
        i := i + 1;
      }
      stringRep := stringRep + lines;
      stringRep := stringRep + (Indent(level) + "}");
      return Some(stringRep);
    }
    if s.kind == Some("array") {
      if s.items.None? {
        return None;
      }
      var propTypeString := GenerateCodeForProperty(propertyName, s.items.value, level);
      if propTypeString.Some? {
        return Some(propTypeString.value + "[]");
      }
    }
    return None;
  }

  // ---------------------------------------------------------------------------
  // generateTypesForMap and generateTypes
  // ---------------------------------------------------------------------------

  /** One entry's declaration: the header, the root's property lines at level 1 and the closing line. */
  function LegacyDeclaration(typeNameFormat: string, schemaName: string, s: Schema): string {
    "export type " + TypeName(typeNameFormat, schemaName) + " = {\n"
      + LegacyLines(s, |s.properties|, 1) + "};\n"
  }

  /** The declarations of the first `n` entries of a map, in order. */
  function LegacyDeclarations(propertiesMap: Entries<Schema>, typeNameFormat: string, n: nat): (types: seq<string>)
    requires n <= |propertiesMap|
    ensures |types| == n
    ensures forall i :: 0 <= i < n ==> types[i] == LegacyDeclaration(typeNameFormat, propertiesMap[i].0, propertiesMap[i].1)
  {
    if n == 0 then []
    else LegacyDeclarations(propertiesMap, typeNameFormat, n - 1)
         + [LegacyDeclaration(typeNameFormat, propertiesMap[n - 1].0, propertiesMap[n - 1].1)]
  }

  /** `generateTypesForMap(propertiesMap, typeNameFormat)`: one declaration per entry, in order. */
  method GenerateTypesForMap(propertiesMap: Entries<Schema>, typeNameFormat: string)
    returns (generatedTypesArray: seq<string>)
    ensures generatedTypesArray == LegacyDeclarations(propertiesMap, typeNameFormat, |propertiesMap|)
  {
    generatedTypesArray := [];
    var k := 0;
    while k < |propertiesMap|
      invariant 0 <= k <= |propertiesMap|
      invariant generatedTypesArray == LegacyDeclarations(propertiesMap, typeNameFormat, k)
    {
      var (schemaName, schemaDefinition) := propertiesMap[k];
      var typeName := TypeName(typeNameFormat, schemaName);
      var generatedTypeCode := "export type " + typeName + " = {\n";
      var lines := "";
      var i := 0;
      while i < |schemaDefinition.properties|
        invariant 0 <= i <= |schemaDefinition.properties|
        invariant lines == LegacyLines(schemaDefinition, i, 1)
      {
        var (propertyName, propertyDefinition) := schemaDefinition.properties[i];
        var generatedPropertyCode := GenerateCodeForProperty(propertyName, propertyDefinition, 1);
        if generatedPropertyCode.Some? {
          lines := lines + (generatedPropertyCode.value + ";\n");
        }
        i := i + 1;
      }
      generatedTypeCode := generatedTypeCode + lines;
      generatedTypeCode := generatedTypeCode + "};\n";
      generatedTypesArray := generatedTypesArray + [generatedTypeCode];
      k := k + 1;
    }
  }

  /** What generateTypes returns: the component schemas' declarations when schemas are generated. */
  function LegacyTypes(document: Document, options: ProgramOptions): seq<string> {
    var typeNameFormat := options.typeNameFormat.GetOr(DefaultTypeNameFormat);
    var schemas := ComponentSchemas(document);
    if options.schemas.generate then LegacyDeclarations(schemas, typeNameFormat, |schemas|) else []
  }

  /** `generateTypes(document, options)` */
  method GenerateTypes(document: Document, options: ProgramOptions) returns (allGeneratedTypes: seq<string>)
    ensures allGeneratedTypes == LegacyTypes(document, options)
  {
    var typeNameFormat := options.typeNameFormat.GetOr(DefaultTypeNameFormat);
    allGeneratedTypes := [];
    if options.schemas.generate {
      var schemas := ComponentSchemas(document);
      var schemaTypes := GenerateTypesForMap(schemas, typeNameFormat);
      allGeneratedTypes := allGeneratedTypes + schemaTypes;
    }
  }

  // ---------------------------------------------------------------------------
  // What the legacy renderer promises, and how it relates to the current one
  // ---------------------------------------------------------------------------

  /** The lines of two schemas with the same first `n` properties are the same. */
  lemma {:induction false} LegacyLinesDependOnlyOnProperties(s: Schema, t: Schema, n: nat, level: nat)
    requires n <= |s.properties| && n <= |t.properties| && s.properties[..n] == t.properties[..n]
    ensures LegacyLines(s, n, level) == LegacyLines(t, n, level)
  {
    if n > 0 {
      assert s.properties[n - 1] == s.properties[..n][n - 1];
      assert t.properties[n - 1] == t.properties[..n][n - 1];
      assert s.properties[..n - 1] == s.properties[..n][..n - 1];
      assert t.properties[..n - 1] == t.properties[..n][..n - 1];
      LegacyLinesDependOnlyOnProperties(s, t, n - 1, level);
    }
  }

  /**
   * Only `type`, `properties` and `items` are read: nullability, enums,
   * combinators, `required` and `additionalProperties` change nothing.
   */
  lemma LegacyReadsOnlyShape(name: string, s: Schema, t: Schema, level: nat)
    requires s.kind == t.kind && s.properties == t.properties && s.items == t.items
    ensures LegacyRender(name, s, level) == LegacyRender(name, t, level)
  {
    LegacyLinesDependOnlyOnProperties(s, t, |s.properties|, level + 1);
  }

  /** An object without properties is still a brace block: `name: {`, a newline, the closing brace. */
  lemma LegacyEmptyObject(name: string, s: Schema, level: nat)
    requires s.kind == Some("object") && |s.properties| == 0
    ensures LegacyRender(name, s, level) == Some(Indent(level) + (name + ": " + "{\n") + (Indent(level) + "}"))
  {
    var opening := Indent(level) + (name + ": " + "{\n");
    assert opening + "" == opening;
  }

  /** Any `type` other than the primitives, `object` and `array`, or none at all, renders nothing. */
  lemma LegacyUnsupportedType(name: string, s: Schema, level: nat)
    requires s.kind.None? || s.kind.value !in Primitives + {"object", "array"}
    ensures LegacyRender(name, s, level) == None
  {
  }

  /** An array renders exactly when its items render, as their rendering followed by `[]`. */
  lemma LegacyArray(name: string, s: Schema, level: nat)
    requires s.kind == Some("array")
    ensures LegacyRender(name, s, level).Some? <==> s.items.Some? && LegacyRender(name, s.items.value, level).Some?
    ensures LegacyRender(name, s, level).Some? ==>
              LegacyRender(name, s, level).value == LegacyRender(name, s.items.value, level).value + "[]"
  {
    assert "array" !in Primitives;
  }

  /**
   * The schemas on which both renderers behave alike: no combinator, enum,
   * nullability or `additionalProperties`; objects have properties, all of
   * them required and themselves alike, and array items are alike.
   */
  predicate Simple(s: Schema)
    decreases s, 1
  {
    && ByType(s) && !s.nullable && s.additional.Unset?
    && (s.kind == Some("object") ==> |s.properties| > 0)
    && SimpleProperties(s)
    && (s.items.Some? ==> Simple(s.items.value))
  }

  /** Every property of `s` is required and `Simple`. */
  predicate SimpleProperties(s: Schema)
    decreases s, 0
  {
    forall k :: 0 <= k < |s.properties| ==> s.properties[k].0 in s.required && Simple(s.properties[k].1)
  }

  /**
   * On `Simple` schemas the legacy renderer and the current one, for a
   * required property, produce the same text or both nothing.
   */
  lemma {:induction false} LegacyAgreesWithCurrent(name: string, s: Schema, level: nat)
    requires Simple(s)
    ensures LegacyRender(name, s, level) == Render(Some(name), s, true, level)
    decreases s, 1
  {
    var head := Indent(level);
    if s.kind.Some? && s.kind.value in Primitives {
      var ts := ToTypeScriptType(s.kind.value).value;
      assert Render(Some(name), s, true, level) == Some(head + (name + ": " + ts));
    } else if s.kind == Some("object") {
      LegacyLinesAgree(s, |s.properties|, level + 1);
      var lines := PropertyLines(s, |s.properties|, level + 1);
      assert RenderObject(Some(name), s, true, level)
             == head + (name + ": ") + ("{\n" + lines + (head + "}"));
      ObjectTextsAgree(head, name + ": ", lines, head + "}");
    } else if s.kind == Some("array") && s.items.Some? {
      LegacyAgreesWithCurrent(name, s.items.value, level);
    }
  }

  /** The regrouping that makes the two object renderings the same text. */
  lemma ObjectTextsAgree(head: string, prefix: string, lines: string, closing: string)
    ensures head + (prefix + "{\n") + lines + closing == head + prefix + ("{\n" + lines + closing)
  {
    Assoc(head, prefix, "{\n");
    Assoc(head + prefix, "{\n" + lines, closing);
    Assoc(head + prefix, "{\n", lines);
  }

  /** The property lines of both renderers agree on a schema whose properties are `SimpleProperties`. */
  lemma {:induction false} LegacyLinesAgree(s: Schema, n: nat, level: nat)
    requires SimpleProperties(s) && n <= |s.properties|
    ensures LegacyLines(s, n, level) == PropertyLines(s, n, level)
    decreases s, 0, n
  {
    if n > 0 {
      var (propName, prop) := s.properties[n - 1];
      assert propName in s.required && Simple(prop);
      LegacyLinesAgree(s, n - 1, level);
      LegacyAgreesWithCurrent(propName, prop, level);
    }
  }

  /** A declaration whose root has only simple, required properties is the same in both renderers. */
  lemma LegacyDeclarationAgrees(typeNameFormat: string, schemaName: string, s: Schema)
    requires SimpleProperties(s)
    ensures LegacyDeclaration(typeNameFormat, schemaName, s) == Declaration(typeNameFormat, schemaName, s)
  {
    LegacyLinesAgree(s, |s.properties|, 1);
  }

  /**
   * generateTypes ignores the paths flag, and with paths off it returns what
   * buildTypes returns when every component schema's properties are simple.
   */
  lemma LegacyTypesAgree(document: Document, options: ProgramOptions, matches: Matcher)
    requires forall i :: 0 <= i < |ComponentSchemas(document)| ==> SimpleProperties(ComponentSchemas(document)[i].1)
    ensures LegacyTypes(document, options) == LegacyTypes(document, options.(paths := options.paths.(generate := false)))
    ensures !options.paths.generate ==> LegacyTypes(document, options) == AllDeclarations(document, options, matches)
  {
    var typeNameFormat := options.typeNameFormat.GetOr(DefaultTypeNameFormat);
    var schemas := ComponentSchemas(document);
    forall i | 0 <= i < |schemas|
      ensures LegacyDeclaration(typeNameFormat, schemas[i].0, schemas[i].1) == Declaration(typeNameFormat, schemas[i].0, schemas[i].1)
    {
      LegacyDeclarationAgrees(typeNameFormat, schemas[i].0, schemas[i].1);
    }
    if options.schemas.generate && !options.paths.generate {
      var legacy := LegacyDeclarations(schemas, typeNameFormat, |schemas|);
      var current := Declarations(schemas, typeNameFormat, |schemas|);
      assert legacy == current;
      assert AllDeclarations(document, options, matches) == current + [];
    }
  }
}
