# openapi-typescript-types, modelled in Dafny

openapi-typescript-types reads a parsed, dereferenced OpenAPI 3 document. It
writes TypeScript `export type` declarations for two things:

- the document's component schemas;
- the successful JSON responses of its paths, chosen by include and exclude globs.

This project models the generator's core and proves properties about it:

- `TypeBuilder`: the current renderer `generateCodeForProperty` and the
  declaration assembly `generateTypesForMap` / `buildTypes`.
- `PathBuilder`: path selection and naming.
- `Utils`: the string helpers.
- `LegacyTypeBuilder`: the first, smaller renderer, which is still in the repository.

The source is mixed. The renderers and the declaration builders append to
strings and arrays in loops. The path builder and the helpers are
expressions, `reduce`s and `switch`es. The model follows that split:

- Every looping operation is a `method` with its `while` loops, proved to
  compute a specification function (`Render`, `LegacyRender`,
  `Declarations`, `AllDeclarations`, `LegacyTypes`).
- The properties are proved as lemmas about those functions.
- The pure parts are functions and lemmas.

Supporting modules:

- `Schemas`: the schema tree, the document and the options. The schema holds
  every field the renderer reads, which is more than the source's declared
  type lists.
- `OrderedMaps`: a JavaScript object used as a dictionary. It is the list of
  its entries in `Object.entries` order. Spreading into it keeps the position
  of an existing key and lets the last write win.
- `Strings`: the `split`, `join`, `repeat` and `replace` behaviour the
  generator relies on.
- `Wrappers`: `Option` and `Result`.

Points where the model follows the code as written:

- lib/builder/type-builder.ts:8 imports `buildPathsComponentsMap`, but
  lib/builder/path-builder-utils.ts:96 exports `buildPathsPropertyMap`. Both
  are `PathBuilder.BuildPathsPropertyMap`.
- An empty array is truthy in JavaScript. So a present but empty `oneOf`
  still selects the combinator list and shadows `anyOf`/`allOf`. The
  rendering then falls through to the enum and type rules.
- A present but empty `include` list keeps no path at all
  (lib/builder/path-builder-utils.ts:104): an empty array is truthy, and
  `matchesAny` of an empty list is false.
- A nullable array wraps the whole rendering of its items, the property's
  indentation and name included (`Nullable<  ids: number[]>`).
- An object made only of `additionalProperties` is indented even where it is
  unnamed, and it is never wrapped in `Nullable`.
- `additionalProperties: true` is read like a schema with no fields, which
  renders `null`. The result is `Record<string, null>`.
- In a combination, a branch that renders `null` joins as the empty string.
  As the values of `additionalProperties`, it prints as `null`.

## Model

| member | source | states |
|---|---|---|
| Utils.MatchesAny | lib/utils.ts:7-9 | definition, no contract: `globPatterns.some(...)` with the glob matcher as a parameter; MatchesAnyIsSome states what it means |
| Utils.MatchesAnyIsSome | lib/utils.ts:7-9 | matchesAny is true exactly when some pattern of the list matches the text; an empty list matches nothing |
| Utils.UpperCaseFirstLetter | lib/utils.ts:14-16 | the empty string stays empty; otherwise the length is kept, the first character is upper-cased and the rest is unchanged |
| Utils.UpperCaseFirstLetterIdempotent | lib/utils.ts:14-16 | capitalising twice is capitalising once |
| Utils.TextForStatus | lib/utils.ts:21-30 | `200` gives `Ok`, `201` gives `Created`, and every other status is returned unchanged |
| Utils.IsSuccessStatus | lib/builder/path-builder-utils.ts:43 | definition, no contract: a status is successful when its code text starts with `2` |
| Utils.TextForStatusInjective | lib/utils.ts:21-30 | two successful (2xx) statuses with the same status word are the same status |
| Strings.Spaces | lib/builder/type-builder.ts:12 | `' '.repeat(n)` is n characters, all spaces |
| Strings.JoinSplit | lib/builder/path-builder-utils.ts:19-28 | joining the parts of a split with the separator gives the string back |
| Strings.SplitJoin | lib/builder/path-builder-utils.ts:19-20 | splitting the join of separator-free parts gives the parts back |
| Strings.SplitAround | lib/builder/path-builder-utils.ts:19-20 | splitting at a separator splits the two sides independently |
| Strings.SplitWithoutSeparator | lib/builder/path-builder-utils.ts:19-20 | a string without a `/` is one part |
| Strings.ReplaceFirstOccurrence | lib/builder/type-builder.ts:247 | `replace` with a string pattern substitutes its first occurrence and only that one |
| Strings.ReplaceFirstAbsent | lib/builder/type-builder.ts:247 | a format without `{name}` is left unchanged |
| OrderedMaps.Lookup | lib/builder/path-builder-utils.ts:47-48 | a key is found exactly when it is one of the object's keys, and what is found is that key's entry |
| OrderedMaps.Put | lib/builder/path-builder-utils.ts:55-58 | `{...m, [k]: v}` keeps the keys of m and appends k only when it is new; keys stay unique |
| OrderedMaps.PutLookup | lib/builder/path-builder-utils.ts:55-58 | after the write, k maps to v and every other key keeps its value |
| OrderedMaps.PutKeys | lib/builder/path-builder-utils.ts:76-80 | the keys after a write are the keys before it plus the written key |
| OrderedMaps.PutEntry | lib/builder/path-builder-utils.ts:76-80 | every entry after a write is an old entry or the written one |
| OrderedMaps.Merge | lib/builder/path-builder-utils.ts:84-87 | `{...m, ...more}` keeps keys unique |
| OrderedMaps.MergeKeys | lib/builder/path-builder-utils.ts:84-87 | the keys of a merge are exactly the keys of either side |
| OrderedMaps.MergeEntry | lib/builder/path-builder-utils.ts:110-113 | every entry of a merge comes from one of its sides |
| OrderedMaps.MergeLookup | lib/builder/path-builder-utils.ts:110-113 | last write wins: a key of `more` takes its value from `more`, and any other key keeps its value |
| OrderedMaps.LookupLast | lib/builder/path-builder-utils.ts:40-61 | in an object with unique keys, the last entry is found under its own key, and any other key is found in the earlier entries |
| PathBuilder.Unbraced | lib/builder/path-builder-utils.ts:24 | definition, no contract: `slice(1, -1)`, the part without its first and last characters |
| PathBuilder.TransformSegment | lib/builder/path-builder-utils.ts:21-27 | definition, no contract: a `{x}` part becomes `By` and the capitalised x, any other part is capitalised; ParameterSegment and EmptySegment state its cases |
| PathBuilder.TransformSegments | lib/builder/path-builder-utils.ts:19-28 | definition, no contract: the fragments of the parts concatenated in order; TransformSegmentsAppend and PathFragmentAround state how it composes |
| PathBuilder.BuildPathName | lib/builder/path-builder-utils.ts:13-31 | the name starts with the capitalised method and ends with the status word followed by `Response` |
| PathBuilder.ParameterSegment | lib/builder/path-builder-utils.ts:22-26 | a segment `{x}` becomes `By` followed by the capitalised x |
| PathBuilder.EmptySegment | lib/builder/path-builder-utils.ts:19-28 | an empty segment contributes nothing |
| PathBuilder.TransformSegmentsAppend | lib/builder/path-builder-utils.ts:21-28 | the fragments of consecutive segment lists concatenate |
| PathBuilder.PathFragmentAround | lib/builder/path-builder-utils.ts:19-28 | the name fragment of `a/b` is the fragment of a followed by that of b |
| PathBuilder.BuildPathNameOfSegments | lib/builder/path-builder-utils.ts:13-31 | the name of a path given by its segments is the method, then each segment's fragment in order, then the status word and `Response` |
| PathBuilder.PetByIdFragment | lib/builder/path-builder-utils.ts:19-28 | the segments of `/pets/{petId}` give `PetsByPetId` |
| PathBuilder.PetByIdName | lib/builder/path-builder-utils.ts:13-31 | `/pets/{petId}`, `get`, `200` is named `GetPetsByPetIdOkResponse` |
| PathBuilder.NamesCollide | lib/builder/path-builder-utils.ts:13-31 | `/a/b` and `/A/B` get the same name, `GetABOkResponse` |
| PathBuilder.LowerABFragment | lib/builder/path-builder-utils.ts:19-28 | the parts of `/a/b` give the fragment `AB` |
| PathBuilder.UpperABFragment | lib/builder/path-builder-utils.ts:19-28 | the parts of `/A/B` give the fragment `AB` |
| PathBuilder.LowerABName | lib/builder/path-builder-utils.ts:13-31 | `/a/b`, `get`, `200` is named `GetABOkResponse` |
| PathBuilder.UpperABName | lib/builder/path-builder-utils.ts:13-31 | `/A/B`, `get`, `200` is named `GetABOkResponse` |
| PathBuilder.JsonSchema | lib/builder/path-builder-utils.ts:47-53 | definition, no contract: `responseInfo.content?.['application/json']?.schema`, none when any step is missing |
| PathBuilder.SuccessfulJsonSchemas | lib/builder/path-builder-utils.ts:40-61 | the reduce yields an object (unique status keys) |
| PathBuilder.GetPropertiesMapsFromMethodInfo | lib/builder/path-builder-utils.ts:37-62 | definition, no contract: the 2xx JSON schemas of the operation's responses, none when it has no responses; SuccessfulJsonSchemasLookup, -Sound and -Complete state what it holds |
| PathBuilder.SuccessfulJsonSchemasLookup | lib/builder/path-builder-utils.ts:37-62 | a status maps to a schema exactly when it starts with `2` and its response has an `application/json` body with a schema, and the schema is that body's |
| PathBuilder.SuccessfulJsonSchemasSound | lib/builder/path-builder-utils.ts:43-57 | every selected entry is a 2xx code whose response's JSON body has that schema |
| PathBuilder.SuccessfulJsonSchemasComplete | lib/builder/path-builder-utils.ts:43-57 | every 2xx response with a JSON schema is selected |
| PathBuilder.NamedByStatus | lib/builder/path-builder-utils.ts:75-83 | renaming the statuses by buildPathName yields an object |
| PathBuilder.NamedByStatusSound | lib/builder/path-builder-utils.ts:75-83 | every renamed entry is buildPathName of some status together with that status's schema |
| PathBuilder.NamedByStatusComplete | lib/builder/path-builder-utils.ts:75-83 | the name of every status is a key of the renamed object |
| PathBuilder.BuildPathPropertyEntries | lib/builder/path-builder-utils.ts:69-89 | the entries of one path form an object |
| PathBuilder.PathPropertyEntriesSound | lib/builder/path-builder-utils.ts:69-89 | every entry of a path comes from one of its methods |
| PathBuilder.PathPropertyEntriesComplete | lib/builder/path-builder-utils.ts:69-89 | every name produced for one of its methods is a key of the path's entries |
| PathBuilder.Selected | lib/builder/path-builder-utils.ts:104-107 | definition, no contract: the include test, then the exclude test; SelectedIff states it as an if-and-only-if |
| PathBuilder.SelectedIff | lib/builder/path-builder-utils.ts:104-107 | a path is kept exactly when any include list has a matching pattern and no pattern of any exclude list matches |
| PathBuilder.EmptyIncludeSelectsNothing | lib/builder/path-builder-utils.ts:104-105 | a present but empty include list keeps no path |
| PathBuilder.EmptyExcludeIsNoFilter | lib/builder/path-builder-utils.ts:106-107 | a present but empty exclude list is the same as none |
| PathBuilder.SelectedPathEntries | lib/builder/path-builder-utils.ts:103-114 | the merged map of the kept paths is an object |
| PathBuilder.SelectedPathEntriesSound | lib/builder/path-builder-utils.ts:103-114 | every entry comes from a kept path |
| PathBuilder.SelectedPathEntriesComplete | lib/builder/path-builder-utils.ts:103-114 | every name produced by a kept path is a key of the map |
| PathBuilder.BuildPathsPropertyMap | lib/builder/path-builder-utils.ts:96-115 | the paths map is an object, and it is empty when the document has no paths |
| PathBuilder.PathsMapSound | lib/builder/path-builder-utils.ts:96-115 | every entry is named by buildPathName after a successful JSON response of an operation of a kept path, and holds that response's schema |
| PathBuilder.PathEntryDerived | lib/builder/path-builder-utils.ts:69-89 | every entry of one path is named after a 2xx JSON response of one of its operations and holds that response's schema |
| PathBuilder.PathsMapComplete | lib/builder/path-builder-utils.ts:96-115 | every such response of a kept path has its name in the map |
| PathBuilder.LastPathWins | lib/builder/path-builder-utils.ts:103-115 | a name the last path produces maps to that path's schema when the path is kept; any other name keeps what the earlier paths gave it |
| PathBuilder.JsonOkStatuses | lib/builder/path-builder-utils.ts:37-62 | an operation answering `200` with a JSON schema selects exactly the status `200` with that schema |
| PathBuilder.NamedSingle | lib/builder/path-builder-utils.ts:76-82 | a single status is renamed to its buildPathName name, keeping its schema |
| PathBuilder.JsonOkPathEntries | lib/builder/path-builder-utils.ts:40-91 | a path with one `get` answering `200` with a JSON schema contributes exactly one entry, its buildPathName name holding that schema |
| PathBuilder.KeptLastPath | lib/builder/path-builder-utils.ts:103-115 | when the last path is kept, the map is the earlier paths' map with its entries spread over it |
| PathBuilder.SingleKeptPath | lib/builder/path-builder-utils.ts:103-115 | one kept path contributing one entry gives a map of exactly that entry |
| PathBuilder.MergeOverSingle | lib/builder/path-builder-utils.ts:110-113 | spreading an entry over an object holding only that key replaces its value |
| PathBuilder.LaterCollidingPathWins | lib/builder/path-builder-utils.ts:103-115 | two kept paths contributing the same single name leave one entry, holding the later path's schema |
| PathBuilder.CollidingPathsKeepLast | lib/builder/path-builder-utils.ts:96-115 | in a document with `/a/b` then `/A/B`, the paths map is the one entry `GetABOkResponse` holding the schema of `/A/B` |
| PathBuilder.PathNamesEndInResponse | lib/builder/path-builder-utils.ts:96-115 | every key of the paths map ends in `Response` |
| PathBuilder.NameEndsInResponse | lib/builder/path-builder-utils.ts:29-30 | every name buildPathName gives ends in `Response` |
| TypeBuilder.Indent | lib/builder/type-builder.ts:11-12 | definition, no contract: `getIndents(level)`, two spaces per level |
| TypeBuilder.Indented | lib/builder/type-builder.ts:13-14 | definition, no contract: the text after the indentation, or the text alone when `noIndent` |
| TypeBuilder.WrapNullable | lib/builder/type-builder.ts:19-21 | definition, no contract: `Nullable<T>` when nullable, T otherwise |
| TypeBuilder.Prefix | lib/builder/type-builder.ts:67-69 | definition, no contract: `name: ` when required, `name?: ` when optional, empty when unnamed; OptionalMarker and UnnamedIgnoresRequired state its effect |
| TypeBuilder.ChosenBranches | lib/builder/type-builder.ts:82 | definition, no contract: the first of `oneOf`, `anyOf`, `allOf` that is present, even when empty; CombinatorsFirst and EmptyListFallsThrough state its effect |
| TypeBuilder.Combinator | lib/builder/type-builder.ts:83 | definition, no contract: the spaced bar when `oneOf` or `anyOf` is present, the spaced ampersand otherwise |
| TypeBuilder.EnumUnion | lib/builder/type-builder.ts:105 | definition, no contract: each value single-quoted, joined by a spaced bar; EnumUnionOfTwo shows it |
| TypeBuilder.ToTypeScriptType | lib/builder/type-builder.ts:30-41 | exactly the four primitives convert: `integer` becomes `number` and the others keep their name; any other type is the error with the source's message |
| TypeBuilder.Render | lib/builder/type-builder.ts:55-198 | a rendering is never empty, so truthy and non-null agree on it |
| TypeBuilder.BranchTexts | lib/builder/type-builder.ts:84-93 | one text per branch of the chosen list, text i being branch i rendered unnamed and optional at the same level, with `null` as the empty string |
| TypeBuilder.RenderObject | lib/builder/type-builder.ts:118-175 | definition, no contract: the object branch, the open record, the brace block and both additional-properties paths; EmptyObjectIsOpenRecord, ObjectNullableWrapsBlock, AdditionalIntersection and AdditionalOnly state its cases |
| TypeBuilder.PropertyLines | lib/builder/type-builder.ts:133-147 | definition, no contract: the lines of the first n properties, each rendered one level deeper, required when listed, followed by `;` and a newline, a null rendering adding nothing; NullPropertyOmitted and PropertyLinesDependOnlyOnFields state its properties |
| TypeBuilder.GenerateCodeForProperty | lib/builder/type-builder.ts:55-198 | the step-by-step procedure computes `Render` |
| TypeBuilder.GenerateBranchCodes | lib/builder/type-builder.ts:81-93 | the map over the branches computes their unnamed, optional renderings at the same level |
| TypeBuilder.GenerateCodeForObject | lib/builder/type-builder.ts:118-175 | the object branch computes the object rendering |
| TypeBuilder.GeneratePropertyLines | lib/builder/type-builder.ts:133-147 | the forEach over the properties appends one line per property that renders, in order |
| TypeBuilder.PrimitiveRendering | lib/builder/type-builder.ts:111-117 | an unnamed primitive is its TypeScript name, wrapped in `Nullable` exactly when it is nullable |
| TypeBuilder.IntegerIsNumber | lib/builder/type-builder.ts:30-33 | `integer` and `number` render alike |
| TypeBuilder.EnumRendering | lib/builder/type-builder.ts:104-109 | a non-empty enum is the quoted-values union after the prefix, and nullability does not change it |
| TypeBuilder.EnumDependsOnlyOnValues | lib/builder/type-builder.ts:104-109 | an enum's rendering ignores the schema's type and nullability |
| TypeBuilder.EnumUnionOfTwo | lib/builder/type-builder.ts:105 | the values are single-quoted and joined, in order, by a bar with a space on each side |
| TypeBuilder.UnsupportedTypeRendersNull | lib/builder/type-builder.ts:195-197 | any other type, or no type, renders null |
| TypeBuilder.PropertyLinesDependOnlyOnFields | lib/builder/type-builder.ts:134-147 | the lines depend only on the properties and the `required` list |
| TypeBuilder.BranchTextsDependOnlyOnList | lib/builder/type-builder.ts:84-93 | the branch texts depend only on the chosen list |
| TypeBuilder.CombinatorsFirst | lib/builder/type-builder.ts:81-101 | once a non-empty combinator list is chosen, the type, enum and nullability change nothing |
| TypeBuilder.EmptyListFallsThrough | lib/builder/type-builder.ts:81-101 | a present but empty chosen list renders as if no list were given, and later lists are ignored |
| TypeBuilder.UnnamedCombination | lib/builder/type-builder.ts:94-99 | an unnamed combination is the branch texts joined by the combinator, in parentheses |
| TypeBuilder.TwoBranches | lib/builder/type-builder.ts:94-99 | two branches are joined by the combinator between parentheses |
| TypeBuilder.OneOfExample | lib/builder/type-builder.ts:81-99 | `oneOf [string, integer]` renders string and number joined by a spaced bar, in parentheses |
| TypeBuilder.AllOfExample | lib/builder/type-builder.ts:83 | `allOf [string, number]` renders `(string & number)` |
| TypeBuilder.OptionalMarker | lib/builder/type-builder.ts:67-69 | an optional property renders like a required one whose name ends in `?` |
| TypeBuilder.UnnamedIgnoresRequired | lib/builder/type-builder.ts:65-69 | an unnamed rendering does not depend on the required flag |
| TypeBuilder.NamedIsPrefixedUnnamed | lib/builder/type-builder.ts:11-14 | where only the prefix differs, the named rendering exists exactly when the unnamed one does, and is the indentation (2 spaces per level), the prefix and the unnamed rendering |
| TypeBuilder.ObjectIsPrefixedUnnamed | lib/builder/type-builder.ts:132-153 | an object with properties, named, is the indented prefix followed by its unnamed rendering |
| TypeBuilder.NullableNamedArray | lib/builder/type-builder.ts:185-192 | a nullable array wraps the indentation and name of its items' rendering |
| TypeBuilder.EmptyObjectIsOpenRecord | lib/builder/type-builder.ts:127-130 | an object with neither properties nor additionalProperties is `Record<string, unknown>`, wrapped in `Nullable` exactly when nullable, at any level |
| TypeBuilder.ObjectNullableWrapsBlock | lib/builder/type-builder.ts:150-153 | a nullable object with properties wraps its brace block, not its name |
| TypeBuilder.AdditionalIntersection | lib/builder/type-builder.ts:157-169 | additionalProperties next to properties appends ` & Record<string, V>` outside the `Nullable` wrapper, with V the unnamed rendering of the values or `null` |
| TypeBuilder.AdditionalOnly | lib/builder/type-builder.ts:171-174 | additionalProperties alone is `Record<string, V>` after the prefix, always indented and never `Nullable` |
| TypeBuilder.BareRendersNull | lib/builder/type-builder.ts:157-163 | a schema with no fields renders null |
| TypeBuilder.AdditionalTrueIsNullRecord | lib/builder/type-builder.ts:157-174 | an object with no properties and `additionalProperties: true` renders `Record<string, null>` after the prefix |
| TypeBuilder.ArrayRendersItems | lib/builder/type-builder.ts:177-193 | an array renders exactly when it has items that render; the result is the items' rendering followed by `[]`, wrapped in `Nullable` exactly when nullable |
| TypeBuilder.NullPropertyOmitted | lib/builder/type-builder.ts:146 | a property that renders null adds no line: removing it leaves the lines unchanged |
| TypeBuilder.NullPropertyAtEnd | lib/builder/type-builder.ts:146 | the lines up to a property that renders null are those before it |
| TypeBuilder.TypeName | lib/builder/type-builder.ts:247 | definition, no contract: the format with its first `{name}` replaced by the schema name; DefaultTypeName and FormattedTypeName state it |
| TypeBuilder.Declaration | lib/builder/type-builder.ts:246-266 | definition, no contract: one entry's `export type` header, its root property lines at level 1 and `};`; DeclarationShape, EmptyDeclaration and DeclarationIgnoresRootShape state its properties |
| TypeBuilder.Declarations | lib/builder/type-builder.ts:246-266 | one declaration per entry, in order |
| TypeBuilder.GenerateTypesForMap | lib/builder/type-builder.ts:240-269 | the loop computes the declarations of the map |
| TypeBuilder.ComponentSchemas | lib/builder/type-builder.ts:219 | definition, no contract: `document.components?.schemas ?? {}` |
| TypeBuilder.AllDeclarations | lib/builder/type-builder.ts:203-238 | definition, no contract: the schema declarations when schemas are generated, then the path declarations when paths are; BuildTypesSections states its content |
| TypeBuilder.BuildTypes | lib/builder/type-builder.ts:203-238 | buildTypes computes the schema declarations followed by the path declarations, each only when its section is generated |
| TypeBuilder.DefaultTypeName | lib/builder/type-builder.ts:209 | with the default format the type name is the schema's name |
| TypeBuilder.FormattedTypeName | lib/builder/type-builder.ts:247 | the name replaces the first `{name}` of the format |
| TypeBuilder.DeclarationIgnoresRootShape | lib/builder/type-builder.ts:246-266 | a declaration reads only the root's properties and `required` list |
| TypeBuilder.EmptyDeclaration | lib/builder/type-builder.ts:248-264 | a root without properties declares an empty object type |
| TypeBuilder.DeclarationShape | lib/builder/type-builder.ts:248-264 | every declaration opens with `export type ` and closes with `};` and a newline |
| TypeBuilder.BuildTypesSections | lib/builder/type-builder.ts:214-234 | the output has one declaration per schema when schemas are generated, then one per path-map entry when paths are, in map order |
| LegacyTypeBuilder.LegacyRender | lib/type-builder.ts:37-74 | every rendering opens with the indentation (2 spaces per level) and `name: `, so there is no optional marker |
| LegacyTypeBuilder.LegacyLines | lib/type-builder.ts:51-54 | definition, no contract: the legacy lines of the first n properties, one level deeper, every property written as required; LegacyLinesDependOnlyOnProperties and LegacyLinesAgree state its properties |
| LegacyTypeBuilder.GenerateCodeForProperty | lib/type-builder.ts:37-74 | the step-by-step procedure computes `LegacyRender` |
| LegacyTypeBuilder.LegacyDeclaration | lib/type-builder.ts:111-128 | definition, no contract: one entry's header, its legacy property lines at level 1 and `};`; LegacyDeclarationAgrees relates it to the current one |
| LegacyTypeBuilder.LegacyDeclarations | lib/type-builder.ts:105-131 | one declaration per entry, in order |
| LegacyTypeBuilder.GenerateTypesForMap | lib/type-builder.ts:105-131 | the nested loops compute the declarations of the map |
| LegacyTypeBuilder.LegacyTypes | lib/type-builder.ts:79-103 | definition, no contract: the component schemas' legacy declarations when schemas are generated, nothing for paths; LegacyTypesAgree relates it to the current builder |
| LegacyTypeBuilder.GenerateTypes | lib/type-builder.ts:79-103 | generateTypes computes the schema declarations when schemas are generated |
| LegacyTypeBuilder.LegacyLinesDependOnlyOnProperties | lib/type-builder.ts:51-54 | the lines depend only on the properties |
| LegacyTypeBuilder.LegacyReadsOnlyShape | lib/type-builder.ts:42 | only `type`, `properties` and `items` are read |
| LegacyTypeBuilder.LegacyEmptyObject | lib/type-builder.ts:49-57 | an object without properties is still a brace block |
| LegacyTypeBuilder.LegacyUnsupportedType | lib/type-builder.ts:70-73 | any other type, or no type, renders null |
| LegacyTypeBuilder.LegacyArray | lib/type-builder.ts:59-68 | an array renders exactly when its items render, as their rendering followed by `[]` |
| LegacyTypeBuilder.LegacyAgreesWithCurrent | lib/type-builder.ts:37-74 | on schemas without combinators, enums, nullability or additionalProperties, where every object has properties and all of them are required, the legacy rendering equals the current one for a required property |
| LegacyTypeBuilder.LegacyLinesAgree | lib/type-builder.ts:51-54 | the two renderers' property lines agree on such schemas |
| LegacyTypeBuilder.LegacyDeclarationAgrees | lib/type-builder.ts:111-128 | such a declaration is the same in both renderers |
| LegacyTypeBuilder.LegacyTypesAgree | lib/type-builder.ts:79-103 | generateTypes ignores the paths flag; with paths off and such schemas it returns what buildTypes returns |

## Left out

- Logging: `logger.warn`/`logger.debug` (winston), `console.warn`, and the
  `currentPath` strings built only for those messages. They do not affect any
  result.
- Glob matching: minimatch's semantics are not modelled. The matcher is a
  parameter of every member that filters paths.
- Command-line parsing (lib/options.ts), document parsing and validation
  (lib/openapi-parser.ts), error reporting (lib/error.ts) and the program's
  entry point (main.ts): these are I/O and process control.
- `$ref` resolution and cyclic schemas: the document is resolved upstream,
  and a schema here is a finite tree.
- Key order of JavaScript objects: integer-like keys such as `"200"`
  iterate first, in numeric order. Entries are kept in their given order
  instead.
- Utils.UpperCaseFirstLetter: upper-cases ASCII letters only. The full
  Unicode case mapping of `toUpperCase` (including characters that upper-case
  to two) is not modelled.
- TypeBuilder.TypeName: the `$` replacement patterns of `String.prototype.replace`
  (`$&`, `$$`, ...) in a schema name are not interpreted.
- TypeBuilder.ToTypeScriptType: the throw is an `Err` value. The renderers
  only call it on the four primitives, so it never fails there.
- Values of `enum` are the texts a template literal prints for them. Non-string
  enum values are not modelled separately.
- The legacy renderer has its own copy of `openApiTypeToTypeScriptType`
  (lib/type-builder.ts:20-31), identical to the current one. Both renderers
  use TypeBuilder.ToTypeScriptType.
