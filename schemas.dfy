/**
 * The parsed, fully dereferenced OpenAPI document the generator reads, and
 * its options.  Every object the source iterates with `Object.entries` is an
 * `Entries` list in iteration order.
 */
module Schemas {
  import opened Wrappers
  import opened OrderedMaps

  /**
   * One schema node.  The declared type of the source lists only `type`,
   * `properties` and `items`; the renderer also reads every other field here.
   *  - kind: `type`, absent for a pure combinator node; any string may appear.
   *  - nullable: `nullable`, absent meaning false.
   *  - enumValues: `enum`, each value as the text a template literal prints for it;
   *    an absent list is the empty one.
   *  - properties: `properties`, absent meaning no entries.
   *  - required: `required`, absent meaning the empty list.
   *  - additional: `additionalProperties`.
   *  - items: `items`.
   *  - oneOf, anyOf, allOf: the combinator lists; a present but empty list is
   *    still present (an empty array is truthy in JavaScript).
   */
  datatype Schema = Schema(
    kind: Option<string>,
    nullable: bool,
    enumValues: seq<string>,
    properties: Entries<Schema>,
    required: seq<string>,
    additional: Additional,
    items: Option<Schema>,
    oneOf: Branches,
    anyOf: Branches,
    allOf: Branches)

  /** A combinator list (`oneOf`, `anyOf` or `allOf`): absent, or present with its branches. */
  datatype Branches = Absent | Present(schemas: seq<Schema>)

  /**
   * `additionalProperties`.  Unset stands for an absent or `false` value.  The
   * value `true` is read by the renderer like a schema with no fields at all
   * (destructuring `true` finds none), so it is `Values(Bare)`: see FromFlag.
   */
  datatype Additional = Unset | Values(values: Schema)

  /** A schema node none of whose fields is present. */
  const Bare := Schema(None, false, [], [], [], Unset, None, Absent, Absent, Absent)

  /** `additionalProperties: true` or `false`. */
  function FromFlag(flag: bool): Additional {
    if flag then Values(Bare) else Unset
  }

  /** One media type of a response's `content`: only its `schema` is read. */
  datatype MediaType = MediaType(schema: Option<Schema>)

  /** One response of an operation: only its `content` map is read. */
  datatype Response = Response(content: Option<Entries<MediaType>>)

  /**
   * One entry of a path item.  For the HTTP methods this is the operation;
   * any other key of the path item (`parameters`, `summary`, ...) is an entry
   * without `responses`, since that is all the generator can find in it.
   */
  datatype Operation = Operation(responses: Option<Entries<Response>>)

  /** A path item: its method keys with their operations. */
  type PathItem = Entries<Operation>

  datatype Components = Components(schemas: Option<Entries<Schema>>)

  datatype Document = Document(components: Option<Components>, paths: Option<Entries<PathItem>>)

  /** Options of one section (`paths` or `schemas`): `generate`, `include` and `exclude`. */
  datatype GenerateOption = GenerateOption(generate: bool, includePatterns: Option<seq<string>>, excludePatterns: Option<seq<string>>)

  /** The program options the generator reads (input and output file names are not). */
  datatype ProgramOptions = ProgramOptions(paths: GenerateOption, schemas: GenerateOption, typeNameFormat: Option<string>)
}
