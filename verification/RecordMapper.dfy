/** Decoding a stored row into a record, collecting what cannot be read, and the encodings whose
    results it reads back. */
module RecordMapper {
  import opened Values
  import opened ModelRefs
  import opened Schemas
  import opened Entities

  // ---------- the driver-options column ----------

  /** `process_bind_param`. */
  function BindOptions(py: Pydantic, options: Option<Model>): Result<Json, Error> {
    if options.None? then Ok(Null)
    else if !py.isDriverOptions(options.value.cls) then Err(NotDriverOptions)
    else Ok(Dict(map["model_ref" := Str(Printed(options.value.cls)), "data" := py.dumpJson(options.value)]))
  }

  /** `process_result_value`; None stands for any exception it raises. */
  function LoadOptions(py: Pydantic, stored: Json): Option<Options> {
    match stored
    case Null => Some(NoOptions)
    case Dict(entries) =>
      var ref := Lookup(entries, "model_ref");
      if !ref.Str? then None
      else
        var cls := Resolved(py.modules, ref.s);
        if cls.None? || !py.isDriverOptions(cls.value) then None
        else
          var m := py.validate(cls.value, FromJson(Lookup(entries, "data")));
          if m.None? then None else Some(TypedOptions(m.value))
    case _ => None
  }

  /** Which columns load, and as what: a null as no options, and an object whose reference resolves to a
      driver-options class as what that class makes of its data. */
  lemma LoadIff(py: Pydantic, stored: Json, options: Options)
    ensures LoadOptions(py, stored) == Some(options) <==>
            if stored == Null then options == NoOptions
            else
              && stored.Dict? && options.TypedOptions?
              && (var ref := Lookup(stored.entries, "model_ref");
                  ref.Str? && exists cls ::
                    Resolved(py.modules, ref.s) == Some(cls) && py.isDriverOptions(cls)
                    && py.validate(cls, FromJson(Lookup(stored.entries, "data"))) == Some(options.model))
  {
    if stored.Dict? && Lookup(stored.entries, "model_ref").Str? {
      var cls := Resolved(py.modules, Lookup(stored.entries, "model_ref").s);
      if cls.Some? {
        assert Resolved(py.modules, Lookup(stored.entries, "model_ref").s) == Some(cls.value);
      }
    }
  }

  function AsOptions(options: Option<Model>): Options {
    if options.None? then NoOptions else TypedOptions(options.value)
  }

  /** Typed options survive the column: the class is found again by its printed name and rebuilds
      the same instance. */
  lemma OptionsRoundTrip(py: Pydantic, c: ClassRef, options: Option<Model>)
    requires options.Some? ==> StorableModel(py, c, options.value)
    ensures BindOptions(py, options).Ok?
    ensures LoadOptions(py, BindOptions(py, options).value) == Some(AsOptions(options))
  {
    if options.Some? {
      ResolvePrinted(py.modules, options.value.cls);
    }
  }

  // ---------- decoding ----------

  /** A decoded field, the raw payload kept for it (Null when none), and the issues found. */
  datatype Decoded<T> = Decoded(value: T, raw: Json, issues: seq<Issue>)

  function DecodeOptions(py: Pydantic, stored: Json): Decoded<Options> {
    var loaded := LoadOptions(py, stored);
    if loaded.Some? then Decoded(loaded.value, Null, [])
    else Decoded(NoOptions, stored, [Issue(OptionsPart, BadOptions)])
  }

  function DecodeSecrets(provider: Provider, ciphertext: Option<string>): Decoded<Mapping> {
    var plain := provider.decrypt(ciphertext);
    if plain.None? then Decoded(map[], Null, [Issue(SecretsPart, UnreadableSecrets)])
    else if plain.value.Dict? then Decoded(plain.value.entries, Null, [])
    else Decoded(map[], plain.value, [Issue(SecretsPart, BadSecrets)])
  }

  predicate GoodMapping(stored: Json, stringsOnly: bool) {
    stored.Dict? && (stringsOnly ==> AllStrings(stored.entries))
  }

  function CoerceMapping(stored: Json, field: Part, code: Code, stringsOnly: bool): Decoded<Mapping> {
    if GoodMapping(stored, stringsOnly) then Decoded(stored.entries, Null, [])
    else Decoded(map[], stored, [Issue(field, code)])
  }

  /** The record a row decodes to. */
  function ToRecord(py: Pydantic, provider: Provider, id: string, row: Row): Record {
    var c := row.cols;
    var options := DecodeOptions(py, c.options);
    var properties := CoerceMapping(c.properties, PropertiesPart, BadProperties, false);
    var secrets := DecodeSecrets(provider, c.ciphertext);
    var labels := CoerceMapping(c.labels, LabelsPart, BadLabels, true);
    var metadata := CoerceMapping(c.metadata, MetadataPart, BadMetadata, false);
    var extra := CoerceMapping(c.extra, ExtraPart, BadExtra, false);
    Record(id, c.name, c.kind, c.typ, c.driver, options.value, properties.value, secrets.value, labels.value,
           metadata.value, extra.value, row.createdAt, row.updatedAt, row.deletedAt,
           options.issues + properties.issues + secrets.issues + labels.issues + metadata.issues + extra.issues,
           properties.raw, options.raw, secrets.raw)
  }

  /** The issues list one decoding threads through its helpers. */
  class IssueLog {
    var items: seq<Issue>

    constructor ()
      ensures items == []
    {
      items := [];
    }

    method Append(issue: Issue)
      modifies this
      ensures items == old(items) + [issue]
    {
      items := items + [issue];
    }
  }

  class StoredConnectionRecordMapper {
    const py: Pydantic
    const provider: Provider

    constructor (py: Pydantic, provider: Provider)
      ensures this.py == py && this.provider == provider
    {
      this.py := py;
      this.provider := provider;
    }

    method DecodeDriverOptions(stored: Json, issues: IssueLog) returns (options: Options, raw: Json)
      modifies issues
      ensures var d := DecodeOptions(py, stored);
              options == d.value && raw == d.raw && issues.items == old(issues.items) + d.issues
    {
      if stored == Null {
        return NoOptions, Null;
      }
      var loaded := LoadOptions(py, stored);
      if loaded.Some? {
        return loaded.value, Null;
      }
      issues.Append(Issue(OptionsPart, BadOptions));
      return NoOptions, stored;
    }

    method DecodeSecretsInto(ciphertext: Option<string>, issues: IssueLog) returns (secrets: Mapping, raw: Json)
      modifies issues
      ensures var d := DecodeSecrets(provider, ciphertext);
              secrets == d.value && raw == d.raw && issues.items == old(issues.items) + d.issues
    {
      var decoded := provider.decrypt(ciphertext);
      if decoded.None? {
        issues.Append(Issue(SecretsPart, UnreadableSecrets));
        return map[], Null;
      }
      if decoded.value.Dict? {
        return decoded.value.entries, Null;
      }
      issues.Append(Issue(SecretsPart, BadSecrets));
      return map[], decoded.value;
    }

    method CoerceMappingInto(stored: Json, field: Part, code: Code, stringsOnly: bool, issues: IssueLog)
      returns (mapping: Mapping, raw: Json)
      modifies issues
      ensures var d := CoerceMapping(stored, field, code, stringsOnly);
              mapping == d.value && raw == d.raw && issues.items == old(issues.items) + d.issues
    {
      if stored.Dict? {
        if stringsOnly && !AllStrings(stored.entries) {
          issues.Append(Issue(field, code));
          return map[], stored;
        }
        return stored.entries, Null;
      }
      issues.Append(Issue(field, code));
      return map[], stored;
    }

    method Decode(id: string, row: Row) returns (record: Record)
      ensures record == ToRecord(py, provider, id, row)
    {
      var c := row.cols;
      var issues := new IssueLog();
      var options, rawOptions := DecodeDriverOptions(c.options, issues);
      var properties, rawProperties := CoerceMappingInto(c.properties, PropertiesPart, BadProperties, false, issues);
      var secrets, rawSecrets := DecodeSecretsInto(c.ciphertext, issues);
      var labels, _ := CoerceMappingInto(c.labels, LabelsPart, BadLabels, true, issues);
      var metadata, _ := CoerceMappingInto(c.metadata, MetadataPart, BadMetadata, false, issues);
      var extra, _ := CoerceMappingInto(c.extra, ExtraPart, BadExtra, false, issues);
      record := Record(id, c.name, c.kind, c.typ, c.driver, options, properties, secrets, labels, metadata, extra,
                       row.createdAt, row.updatedAt, row.deletedAt, issues.items,
                       rawProperties, rawOptions, rawSecrets);
    }
  }

  // ---------- what the mapper blames ----------

  predicate Blames(issues: seq<Issue>, field: Part) {
    exists i | 0 <= i < |issues| :: issues[i].field == field
  }

  predicate BlamesOnce(issues: seq<Issue>) {
    forall i, j | 0 <= i < j < |issues| :: issues[i].field != issues[j].field
  }

  /** Whether the stored payload of a field cannot be decoded. */
  predicate Undecodable(py: Pydantic, provider: Provider, row: Row, field: Part) {
    var c := row.cols;
    match field
    case OptionsPart => LoadOptions(py, c.options).None?
    case PropertiesPart => !c.properties.Dict?
    case SecretsPart => provider.decrypt(c.ciphertext).None? || !provider.decrypt(c.ciphertext).value.Dict?
    case LabelsPart => !GoodMapping(c.labels, true)
    case MetadataPart => !c.metadata.Dict?
    case ExtraPart => !c.extra.Dict?
    case _ => false
  }

  ghost predicate Within(issues: seq<Issue>, fields: set<Part>) {
    forall x | x in issues :: x.field in fields
  }

  lemma OnceAppend(a: seq<Issue>, fields: set<Part>, b: seq<Issue>, field: Part)
    requires BlamesOnce(a) && Within(a, fields)
    requires |b| <= 1 && Within(b, {field}) && field !in fields
    ensures BlamesOnce(a + b) && Within(a + b, fields + {field})
  {
    if b != [] {
      assert b[0] in b;
      assert forall i | 0 <= i < |a| :: a[i] in a;
    }
  }

  /** The issues one decoding can raise, and when it raises each. */
  predicate Found(py: Pydantic, provider: Provider, row: Row, issue: Issue) {
    var c := row.cols;
    var plain := provider.decrypt(c.ciphertext);
    match issue.code
    case BadOptions => issue.field == OptionsPart && LoadOptions(py, c.options).None?
    case BadProperties => issue.field == PropertiesPart && !c.properties.Dict?
    case UnreadableSecrets => issue.field == SecretsPart && plain.None?
    case BadSecrets => issue.field == SecretsPart && plain.Some? && !plain.value.Dict?
    case BadLabels => issue.field == LabelsPart && !GoodMapping(c.labels, true)
    case BadMetadata => issue.field == MetadataPart && !c.metadata.Dict?
    case BadExtra => issue.field == ExtraPart && !c.extra.Dict?
    case _ => false
  }

  lemma InOneOfSix<T>(x: T, a: seq<T>, b: seq<T>, c: seq<T>, d: seq<T>, e: seq<T>, f: seq<T>)
    ensures x in a + b + c + d + e + f <==> x in a || x in b || x in c || x in d || x in e || x in f
  {
  }

  /** What each guard on a record's read issues tests about the stored row. */
  lemma IssueIff(py: Pydantic, provider: Provider, id: string, row: Row, issue: Issue)
    ensures issue in ToRecord(py, provider, id, row).readIssues <==> Found(py, provider, row, issue)
  {
    var c := row.cols;
    InOneOfSix(issue, DecodeOptions(py, c.options).issues,
               CoerceMapping(c.properties, PropertiesPart, BadProperties, false).issues,
               DecodeSecrets(provider, c.ciphertext).issues,
               CoerceMapping(c.labels, LabelsPart, BadLabels, true).issues,
               CoerceMapping(c.metadata, MetadataPart, BadMetadata, false).issues,
               CoerceMapping(c.extra, ExtraPart, BadExtra, false).issues);
  }

  /** Decoding blames a field exactly when its payload is undecodable, and then once. */
  lemma MapperBlame(py: Pydantic, provider: Provider, id: string, row: Row)
    ensures BlamesOnce(ToRecord(py, provider, id, row).readIssues)
    ensures forall field ::
              Blames(ToRecord(py, provider, id, row).readIssues, field) <==> Undecodable(py, provider, row, field)
  {
    var c := row.cols;
    var issues := ToRecord(py, provider, id, row).readIssues;
    var one := DecodeOptions(py, c.options).issues;
    var two := one + CoerceMapping(c.properties, PropertiesPart, BadProperties, false).issues;
    var three := two + DecodeSecrets(provider, c.ciphertext).issues;
    var four := three + CoerceMapping(c.labels, LabelsPart, BadLabels, true).issues;
    var five := four + CoerceMapping(c.metadata, MetadataPart, BadMetadata, false).issues;
    OnceAppend([], {}, one, OptionsPart);
    assert [] + one == one;
    OnceAppend(one, {OptionsPart}, CoerceMapping(c.properties, PropertiesPart, BadProperties, false).issues,
               PropertiesPart);
    OnceAppend(two, {OptionsPart, PropertiesPart}, DecodeSecrets(provider, c.ciphertext).issues, SecretsPart);
    OnceAppend(three, {OptionsPart, PropertiesPart, SecretsPart},
               CoerceMapping(c.labels, LabelsPart, BadLabels, true).issues, LabelsPart);
    OnceAppend(four, {OptionsPart, PropertiesPart, SecretsPart, LabelsPart},
               CoerceMapping(c.metadata, MetadataPart, BadMetadata, false).issues, MetadataPart);
    OnceAppend(five, {OptionsPart, PropertiesPart, SecretsPart, LabelsPart, MetadataPart},
               CoerceMapping(c.extra, ExtraPart, BadExtra, false).issues, ExtraPart);
    forall x ensures x in issues <==> Found(py, provider, row, x) {
      IssueIff(py, provider, id, row, x);
    }
    forall field ensures Blames(issues, field) <==> Undecodable(py, provider, row, field) {
      BlameMeansUndecodable(py, provider, row, issues, field);
    }
  }

  /** The one code under which an undecodable field is reported. */
  function DecodeCode(provider: Provider, row: Row, field: Part): Code {
    match field
    case OptionsPart => BadOptions
    case PropertiesPart => BadProperties
    case SecretsPart => if provider.decrypt(row.cols.ciphertext).None? then UnreadableSecrets else BadSecrets
    case LabelsPart => BadLabels
    case MetadataPart => BadMetadata
    case ExtraPart => BadExtra
    case TypePart => UnregisteredType
    case KindPart => WrongKind
  }

  lemma BlameMeansUndecodable(py: Pydantic, provider: Provider, row: Row, issues: seq<Issue>, field: Part)
    requires forall x :: x in issues <==> Found(py, provider, row, x)
    ensures Blames(issues, field) <==> Undecodable(py, provider, row, field)
  {
    if Blames(issues, field) {
      var i :| 0 <= i < |issues| && issues[i].field == field;
      assert Found(py, provider, row, issues[i]);
    }
    if Undecodable(py, provider, row, field) {
      assert Found(py, provider, row, Issue(field, DecodeCode(provider, row, field)));
    }
  }

  /** A blamed payload is kept beside the record for properties, options and secrets that decrypt, and an
      accepted one is the field itself. */
  lemma MapperKeepsPayload(py: Pydantic, provider: Provider, id: string, row: Row)
    ensures var c, r := row.cols, ToRecord(py, provider, id, row);
            var plain := provider.decrypt(c.ciphertext);
            && (if Blames(r.readIssues, PropertiesPart) then r.rawProperties == c.properties && r.properties == map[]
                else r.rawProperties == Null && Dict(r.properties) == c.properties)
            && (if Blames(r.readIssues, OptionsPart) then r.rawOptions == c.options && r.options.NoOptions?
                else r.rawOptions == Null && Some(r.options) == LoadOptions(py, c.options))
            && (if Blames(r.readIssues, SecretsPart)
                then r.rawSecrets == (if plain.Some? then plain.value else Null) && r.secrets == map[]
                else r.rawSecrets == Null && Some(Dict(r.secrets)) == plain)
  {
    MapperBlame(py, provider, id, row);
  }

  /** Blamed labels, metadata and extra leave no trace but the issue: putting other payloads in their place
      that are blamed as well decodes to the same record. */
  lemma MapperDropsPayload(py: Pydantic, provider: Provider, id: string, row: Row, labels: Json, metadata: Json,
                           extra: Json)
    ensures var c := row.cols;
            var other := row.(cols := c.(labels := labels, metadata := metadata, extra := extra));
            var r, s := ToRecord(py, provider, id, row), ToRecord(py, provider, id, other);
            (labels == c.labels || (Blames(r.readIssues, LabelsPart) && Blames(s.readIssues, LabelsPart)))
            && (metadata == c.metadata || (Blames(r.readIssues, MetadataPart) && Blames(s.readIssues, MetadataPart)))
            && (extra == c.extra || (Blames(r.readIssues, ExtraPart) && Blames(s.readIssues, ExtraPart)))
            ==> r == s
  {
    MapperBlame(py, provider, id, row);
    MapperBlame(py, provider, id, row.(cols := row.cols.(labels := labels, metadata := metadata, extra := extra)));
  }

  /** What a record shows of its row, column by column: every field its own, decodable payloads as they are
      and undecodable ones as empty. */
  lemma RecordShowsColumns(py: Pydantic, provider: Provider, id: string, row: Row)
    ensures var c, r := row.cols, ToRecord(py, provider, id, row);
            && r.id == id && r.name == c.name && r.kind == c.kind && r.typ == c.typ && r.driver == c.driver
            && r.createdAt == row.createdAt && r.updatedAt == row.updatedAt && r.deletedAt == row.deletedAt
            && Dict(r.properties) == (if c.properties.Dict? then c.properties else Dict(map[]))
            && Dict(r.metadata) == (if c.metadata.Dict? then c.metadata else Dict(map[]))
            && Dict(r.extra) == (if c.extra.Dict? then c.extra else Dict(map[]))
            && Dict(r.labels) == (if c.labels.Dict? && forall k | k in c.labels.entries :: c.labels.entries[k].Str?
                                  then c.labels else Dict(map[]))
    ensures var plain, r := provider.decrypt(row.cols.ciphertext), ToRecord(py, provider, id, row);
            && Dict(r.secrets) == (if plain.Some? && plain.value.Dict? then plain.value else Dict(map[]))
            && (r.Unreadable() <==> plain.None?)
  {
    IssueIff(py, provider, id, row, Issue(SecretsPart, UnreadableSecrets));
  }

  /** Where a field stands among the read issues. */
  function Place(field: Part): nat {
    match field
    case OptionsPart => 0
    case PropertiesPart => 1
    case SecretsPart => 2
    case LabelsPart => 3
    case MetadataPart => 4
    case ExtraPart => 5
    case _ => 6
  }

  ghost predicate InPlaces(issues: seq<Issue>, bound: nat) {
    && (forall i | 0 <= i < |issues| :: Place(issues[i].field) < bound)
    && (forall i, j | 0 <= i < j < |issues| :: Place(issues[i].field) < Place(issues[j].field))
  }

  predicate AtPlace(issues: seq<Issue>, place: nat) {
    issues == [] || (|issues| == 1 && Place(issues[0].field) == place)
  }

  lemma PlaceNext(a: seq<Issue>, b: seq<Issue>, bound: nat)
    requires InPlaces(a, bound) && AtPlace(b, bound)
    ensures InPlaces(a + b, bound + 1)
  {
  }

  lemma SixInPlaces(a: seq<Issue>, b: seq<Issue>, c: seq<Issue>, d: seq<Issue>, e: seq<Issue>, f: seq<Issue>)
    requires AtPlace(a, 0) && AtPlace(b, 1) && AtPlace(c, 2) && AtPlace(d, 3) && AtPlace(e, 4) && AtPlace(f, 5)
    ensures InPlaces(a + b + c + d + e + f, 6)
  {
    assert [] + a == a;
    PlaceNext([], a, 0);
    PlaceNext(a, b, 1);
    PlaceNext(a + b, c, 2);
    PlaceNext(a + b + c, d, 3);
    PlaceNext(a + b + c + d, e, 4);
    PlaceNext(a + b + c + d + e, f, 5);
  }

  lemma CoercedAtPlace(stored: Json, field: Part, code: Code, stringsOnly: bool)
    ensures AtPlace(CoerceMapping(stored, field, code, stringsOnly).issues, Place(field))
  {
  }

  lemma DecodedAtPlace(py: Pydantic, provider: Provider, c: Columns)
    ensures AtPlace(DecodeOptions(py, c.options).issues, 0) && AtPlace(DecodeSecrets(provider, c.ciphertext).issues, 2)
  {
  }

  /** Issues come in the order options, properties, secrets, labels, metadata, extra. */
  lemma IssuesInOrder(py: Pydantic, provider: Provider, id: string, row: Row)
    ensures InPlaces(ToRecord(py, provider, id, row).readIssues, 6)
  {
    var c := row.cols;
    DecodedAtPlace(py, provider, c);
    CoercedAtPlace(c.properties, PropertiesPart, BadProperties, false);
    CoercedAtPlace(c.labels, LabelsPart, BadLabels, true);
    CoercedAtPlace(c.metadata, MetadataPart, BadMetadata, false);
    CoercedAtPlace(c.extra, ExtraPart, BadExtra, false);
    SixInPlaces(DecodeOptions(py, c.options).issues,
                CoerceMapping(c.properties, PropertiesPart, BadProperties, false).issues,
                DecodeSecrets(provider, c.ciphertext).issues,
                CoerceMapping(c.labels, LabelsPart, BadLabels, true).issues,
                CoerceMapping(c.metadata, MetadataPart, BadMetadata, false).issues,
                CoerceMapping(c.extra, ExtraPart, BadExtra, false).issues);
  }
}
