/** Drafts, patches, stored rows, decoded records and the library's errors. */
module Entities {
  import opened Values
  import opened Schemas

  type Actor = string

  datatype Error =
    | UnknownType(name: string)
    | KindMismatch
    | UnsupportedDriver
    | InvalidPayload
    | InvalidDriverOptions
    | NotAMapping              // dict(None), a TypeError
    | NotDriverOptions         // the column type's TypeError
    | AlreadyRegistered(name: string)
    | UnknownKind(name: string)
    | UndeclaredDefault
    | NotFound(id: string)
    | LimitExceeded(limit: int)
    | AccessDenied
    | RepairRequired
    | DuplicateKey(id: string)
    | NoConnector

  /** Driver options as a draft or record carries them. */
  datatype Options = NoOptions | RawOptions(json: Json) | TypedOptions(model: Model)

  datatype Draft = Draft(
    name: string,
    kind: string,
    typ: string,
    driver: Option<string>,
    options: Options,
    properties: Json,
    secrets: Json,
    labels: Option<Mapping>,
    metadata: Option<Mapping>,
    extra: Option<Mapping>)

  // ---------- patches ----------

  /** A patch field is unset, or set to a value that may itself be a null. */
  datatype Field<+T> = Unset | Set(value: T)

  datatype Patch = Patch(
    name: Field<string>,
    driver: Field<Option<string>>,
    options: Field<Options>,
    properties: Field<Json>,
    secrets: Field<Json>,
    labels: Field<Option<Mapping>>,
    metadata: Field<Option<Mapping>>,
    extra: Field<Option<Mapping>>)

  datatype PatchField =
    NameField | DriverField | OptionsField | PropertiesField | SecretsField | LabelsField | MetadataField | ExtraField

  predicate IsSet(p: Patch, f: PatchField) {
    match f
    case NameField => p.name.Set?
    case DriverField => p.driver.Set?
    case OptionsField => p.options.Set?
    case PropertiesField => p.properties.Set?
    case SecretsField => p.secrets.Set?
    case LabelsField => p.labels.Set?
    case MetadataField => p.metadata.Set?
    case ExtraField => p.extra.Set?
  }

  /** `patch_fields_set`. */
  function FieldsSet(p: Patch): set<PatchField> {
    set f: PatchField | IsSet(p, f)
  }

  function Choose<T>(f: Field<T>, fallback: T): T {
    if f.Set? then f.value else fallback
  }

  function Over<T>(earlier: Field<T>, later: Field<T>): Field<T> {
    if later.Set? then later else earlier
  }

  /** One patch that says what `p` and then `q` say: the later one wins where both speak. */
  function Combine(p: Patch, q: Patch): Patch {
    Patch(Over(p.name, q.name), Over(p.driver, q.driver), Over(p.options, q.options),
          Over(p.properties, q.properties), Over(p.secrets, q.secrets), Over(p.labels, q.labels),
          Over(p.metadata, q.metadata), Over(p.extra, q.extra))
  }

  // ---------- rows and records ----------

  /** The columns an update rewrites. */
  datatype Columns = Columns(
    name: string,
    kind: string,
    typ: string,
    driver: Option<string>,
    options: Json,
    properties: Json,
    ciphertext: Option<string>,
    labels: Json,
    metadata: Json,
    extra: Json)

  datatype Row = Row(cols: Columns, createdAt: int, updatedAt: int, deletedAt: Option<int>)

  /** The table: rows by primary key. */
  type Table = map<string, Row>

  /** The fields a read issue can blame, and its codes. */
  datatype Part =
    TypePart | KindPart | PropertiesPart | OptionsPart | SecretsPart | LabelsPart | MetadataPart | ExtraPart

  datatype Code =
    | UnregisteredType     // unknown_type
    | WrongKind            // kind_mismatch
    | BadProperties        // invalid_properties
    | BadOptions           // invalid_driver_options
    | UnreadableSecrets    // unreadable_secrets
    | BadSecrets           // invalid_secrets
    | BadLabels            // invalid_labels
    | BadMetadata          // invalid_metadata
    | BadExtra             // invalid_extra

  datatype Issue = Issue(field: Part, code: Code)

  datatype Record = Record(
    id: string,
    name: string,
    kind: string,
    typ: string,
    driver: Option<string>,
    options: Options,
    properties: Mapping,
    secrets: Mapping,
    labels: Mapping,
    metadata: Mapping,
    extra: Mapping,
    createdAt: int,
    updatedAt: int,
    deletedAt: Option<int>,
    readIssues: seq<Issue>,
    rawProperties: Json,
    rawOptions: Json,
    rawSecrets: Json)
  {
    /** `has_read_issue(code, field_name=field)`. */
    predicate HasReadIssue(code: Code, field: Part) {
      Issue(field, code) in readIssues
    }

    predicate Unreadable() {
      HasReadIssue(UnreadableSecrets, SecretsPart)
    }

    /** The record read as a draft, as validation does. */
    function AsDraft(): Draft {
      Draft(name, kind, typ, driver, options, Dict(properties), Dict(secrets),
            Some(labels), Some(metadata), Some(extra))
    }
  }

  /** A validated connection, as connectors and the repository are handed it. */
  datatype Validated = Validated(
    name: string,
    kind: string,
    typ: string,
    driver: Option<string>,
    options: Option<Model>,
    properties: Model,
    secrets: Option<Model>,
    labels: Mapping,
    metadata: Mapping,
    extra: Mapping)

  datatype Query = Query(
    kind: Option<string>,
    typ: Option<string>,
    name: Option<string>,
    includeDeleted: bool,
    labelFilters: Mapping,
    metadataFilters: Mapping,
    extraFilters: Mapping)

  const ALL_ACTIVE := Query(None, None, None, false, map[], map[], map[])
}
