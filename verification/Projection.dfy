/** Read views of a record: the strict public view, and the tolerant view that reports what is wrong
    with a stored connection instead of failing. */
module Projection {
  import opened Values
  import opened Schemas
  import opened Entities
  import opened Registries
  import opened Validation
  import opened RecordMapper

  /** The fields both views copy from the record. */
  datatype Head = Head(id: string, name: string, kind: string, typ: string, driver: Option<string>, labels: Mapping,
                       metadata: Mapping, createdAt: int, updatedAt: int, deletedAt: Option<int>, extra: Mapping)

  datatype PublicView = PublicView(head: Head, options: Option<Model>, properties: Model)

  datatype RawOptionsView = RawJson(json: Json) | RawDump(dump: Python)

  datatype BrokenView = BrokenView(head: Head, issues: seq<Issue>, rawProperties: Json, rawOptions: RawOptionsView,
                                   rawSecrets: Json)

  datatype View = Healthy(public: PublicView) | Broken(broken: BrokenView)

  function HeadOf(r: Record): Head {
    Head(r.id, r.name, r.kind, r.typ, r.driver, r.labels, r.metadata, r.createdAt, r.updatedAt, r.deletedAt, r.extra)
  }

  /** Properties as the public model shows them; None is a validation error of either model. */
  function PublicProperties(py: Pydantic, spec: TypeSpec, properties: Mapping): Option<Model> {
    var validated := py.validate(spec.propertiesModel, FromJson(Dict(properties)));
    if validated.None? then None
    else
      var publicModel := if spec.publicModel.Some? then spec.publicModel.value else spec.propertiesModel;
      py.validate(publicModel, FromPython(py.dumpPython(validated.value)))
  }

  function PublicOptions(py: Pydantic, spec: TypeSpec, r: Record): Result<Option<Model>, Error> {
    BuildPublicDriverOptions(py, spec, EffectiveDriver(r.driver, spec), r.options)
  }

  /** `build`. */
  function Build(py: Pydantic, types: Types, r: Record): Result<PublicView, Error> {
    if r.typ !in types then Err(UnknownType(r.typ))
    else
      var properties := PublicProperties(py, types[r.typ], r.properties);
      if properties.None? then Err(InvalidPayload)
      else
        var options :- PublicOptions(py, types[r.typ], r);
        Ok(PublicView(HeadOf(r), options, properties.value))
  }

  // ---------- the tolerant view ----------

  function RawPropertiesOf(r: Record): Json {
    if r.rawProperties != Null then r.rawProperties else Dict(r.properties)
  }

  function RawOptionsOf(py: Pydantic, r: Record): RawOptionsView {
    if r.rawOptions != Null then RawJson(r.rawOptions)
    else
      match r.options
      case NoOptions => RawJson(Null)
      case RawOptions(json) => RawJson(json)
      case TypedOptions(model) => RawDump(py.dumpPython(model))
  }

  /** A defect the projection itself finds, once the record's own read issues are known. */
  predicate Defect(py: Pydantic, types: Types, r: Record, issue: Issue) {
    match issue.field
    case TypePart => issue.code == UnregisteredType && r.typ !in types
    case KindPart => issue.code == WrongKind && r.typ in types && r.kind != types[r.typ].kind
    case PropertiesPart =>
      && issue.code == BadProperties && r.typ in types && !r.HasReadIssue(BadProperties, PropertiesPart)
      && PublicProperties(py, types[r.typ], r.properties).None?
    case OptionsPart =>
      && issue.code == BadOptions && r.typ in types && !r.HasReadIssue(BadOptions, OptionsPart)
      && PublicOptions(py, types[r.typ], r).Err?
    case SecretsPart =>
      && issue.code == BadSecrets && r.typ in types && types[r.typ].secretsModel.Some?
      && !r.Unreadable() && !r.HasReadIssue(BadSecrets, SecretsPart)
      && py.validate(types[r.typ].secretsModel.value, FromJson(Dict(r.secrets))).None?
    case _ => false
  }

  function When(found: bool, issue: Issue): seq<Issue> {
    if found then [issue] else []
  }

  function Defects(py: Pydantic, types: Types, r: Record): seq<Issue> {
    When(Defect(py, types, r, Issue(TypePart, UnregisteredType)), Issue(TypePart, UnregisteredType)) +
    When(Defect(py, types, r, Issue(KindPart, WrongKind)), Issue(KindPart, WrongKind)) +
    When(Defect(py, types, r, Issue(PropertiesPart, BadProperties)), Issue(PropertiesPart, BadProperties)) +
    When(Defect(py, types, r, Issue(OptionsPart, BadOptions)), Issue(OptionsPart, BadOptions)) +
    When(Defect(py, types, r, Issue(SecretsPart, BadSecrets)), Issue(SecretsPart, BadSecrets))
  }

  /** The view `build_any` returns. */
  function ViewOf(py: Pydantic, types: Types, r: Record): View {
    var issues := r.readIssues + Defects(py, types, r);
    if issues == [] then
      var spec := types[r.typ];
      Healthy(PublicView(HeadOf(r), PublicOptions(py, spec, r).value, PublicProperties(py, spec, r.properties).value))
    else
      var rejected := Defect(py, types, r, Issue(SecretsPart, BadSecrets));
      Broken(BrokenView(HeadOf(r), issues, RawPropertiesOf(r), RawOptionsOf(py, r),
                        if rejected then Dict(r.secrets) else r.rawSecrets))
  }

  lemma UnknownTypeDefects(py: Pydantic, types: Types, r: Record)
    requires r.typ !in types
    ensures Defects(py, types, r) == [Issue(TypePart, UnregisteredType)]
  {
  }

  lemma KnownTypeDefects(py: Pydantic, types: Types, r: Record)
    requires r.typ in types
    ensures r.readIssues
            + When(Defect(py, types, r, Issue(KindPart, WrongKind)), Issue(KindPart, WrongKind))
            + When(Defect(py, types, r, Issue(PropertiesPart, BadProperties)), Issue(PropertiesPart, BadProperties))
            + When(Defect(py, types, r, Issue(OptionsPart, BadOptions)), Issue(OptionsPart, BadOptions))
            + When(Defect(py, types, r, Issue(SecretsPart, BadSecrets)), Issue(SecretsPart, BadSecrets))
         == r.readIssues + Defects(py, types, r)
  {
    Regroup(r.readIssues,
            When(Defect(py, types, r, Issue(TypePart, UnregisteredType)), Issue(TypePart, UnregisteredType)),
            When(Defect(py, types, r, Issue(KindPart, WrongKind)), Issue(KindPart, WrongKind)),
            When(Defect(py, types, r, Issue(PropertiesPart, BadProperties)), Issue(PropertiesPart, BadProperties)),
            When(Defect(py, types, r, Issue(OptionsPart, BadOptions)), Issue(OptionsPart, BadOptions)),
            When(Defect(py, types, r, Issue(SecretsPart, BadSecrets)), Issue(SecretsPart, BadSecrets)));
  }

  lemma Regroup<T>(a: seq<T>, none: seq<T>, b: seq<T>, c: seq<T>, d: seq<T>, e: seq<T>)
    requires none == []
    ensures a + b + c + d + e == a + (none + b + c + d + e)
  {
  }

  method ProjectProperties(py: Pydantic, types: Types, record: Record, issues: seq<Issue>)
    returns (public: Option<Model>, found: seq<Issue>)
    requires record.typ in types
    ensures var x := Issue(PropertiesPart, BadProperties); found == issues + When(Defect(py, types, record, x), x)
    ensures public.None? ==> record.HasReadIssue(BadProperties, PropertiesPart) || found != issues
    ensures public.Some? ==> public == PublicProperties(py, types[record.typ], record.properties)
  {
    public, found := None, issues;
    if !record.HasReadIssue(BadProperties, PropertiesPart) {
      public := PublicProperties(py, types[record.typ], record.properties);
      if public.None? {
        found := found + [Issue(PropertiesPart, BadProperties)];
        assert |found| > |issues|;
      }
    }
  }

  method ProjectOptions(py: Pydantic, types: Types, record: Record, issues: seq<Issue>)
    returns (public: Option<Model>, found: seq<Issue>)
    requires record.typ in types
    ensures var x := Issue(OptionsPart, BadOptions); found == issues + When(Defect(py, types, record, x), x)
    ensures found == issues && !record.HasReadIssue(BadOptions, OptionsPart) ==>
              PublicOptions(py, types[record.typ], record) == Ok(public)
  {
    public, found := None, issues;
    if !record.HasReadIssue(BadOptions, OptionsPart) {
      var built := PublicOptions(py, types[record.typ], record);
      if built.Ok? {
        public := built.value;
      } else {
        found := found + [Issue(OptionsPart, BadOptions)];
        assert |found| > |issues|;
      }
    }
  }

  method ProjectSecrets(py: Pydantic, types: Types, record: Record, issues: seq<Issue>)
    returns (raw: Json, found: seq<Issue>)
    requires record.typ in types
    ensures var x := Issue(SecretsPart, BadSecrets); found == issues + When(Defect(py, types, record, x), x)
    ensures raw == if Defect(py, types, record, Issue(SecretsPart, BadSecrets)) then Dict(record.secrets)
                   else record.rawSecrets
  {
    raw, found := record.rawSecrets, issues;
    var spec := types[record.typ];
    if spec.secretsModel.Some? && !record.HasReadIssue(UnreadableSecrets, SecretsPart)
      && !record.HasReadIssue(BadSecrets, SecretsPart)
    {
      if py.validate(spec.secretsModel.value, FromJson(Dict(record.secrets))).None? {
        found := found + [Issue(SecretsPart, BadSecrets)];
        raw := Dict(record.secrets);
      }
    }
  }

  /** `build_any`, step by step; its final assertion on the public properties cannot fail. */
  method BuildAny(py: Pydantic, types: Types, record: Record) returns (view: View)
    ensures view == ViewOf(py, types, record)
  {
    var issues := record.readIssues;
    var rawProperties := RawPropertiesOf(record);
    var rawOptions := RawOptionsOf(py, record);
    var rawSecrets := record.rawSecrets;

    if record.typ !in types {
      UnknownTypeDefects(py, types, record);
      issues := issues + [Issue(TypePart, UnregisteredType)];
      return Broken(BrokenView(HeadOf(record), issues, rawProperties, rawOptions, rawSecrets));
    }
    KnownTypeDefects(py, types, record);
    issues := issues + When(record.kind != types[record.typ].kind, Issue(KindPart, WrongKind));
    var publicProperties, publicOptions;
    publicProperties, issues := ProjectProperties(py, types, record, issues);
    publicOptions, issues := ProjectOptions(py, types, record, issues);
    rawSecrets, issues := ProjectSecrets(py, types, record, issues);

    if issues != [] {
      return Broken(BrokenView(HeadOf(record), issues, rawProperties, rawOptions, rawSecrets));
    }

    assert publicProperties.Some?;
    return Healthy(PublicView(HeadOf(record), publicOptions, publicProperties.value));
  }

  // ---------- agreement of the three deciders ----------

  /** The public models accept the dumps of what validation produced. */
  ghost predicate PublicAccepts(py: Pydantic, types: Types, draft: Draft)
    requires Validate(py, types, draft).Ok?
  {
    var spec := types[draft.typ];
    var v := Validate(py, types, draft).value;
    var publicModel := if spec.publicModel.Some? then spec.publicModel.value else spec.propertiesModel;
    && py.validate(publicModel, FromPython(py.dumpPython(v.properties))).Some?
    && (v.options.Some? ==>
          var driver := ResolveDriver(spec.driverSpecs, v.driver.value);
          driver.Some? ==>
            py.validate(driver.value.publicOptionsModel, FromPython(py.dumpPython(v.options.value))).Some?)
  }

  lemma NoDefects(py: Pydantic, types: Types, r: Record)
    requires r.readIssues == []
    ensures Defects(py, types, r) == [] <==>
            && r.typ in types
            && r.kind == types[r.typ].kind
            && PublicProperties(py, types[r.typ], r.properties).Some?
            && PublicOptions(py, types[r.typ], r).Ok?
            && (types[r.typ].secretsModel.Some? ==>
                  py.validate(types[r.typ].secretsModel.value, FromJson(Dict(r.secrets))).Some?)
  {
  }

  /** A record reads back healthy exactly when decoding found nothing, validation accepts it, and the
      public models accept the dumps; the strict view then equals the tolerant one. */
  lemma HealthyIff(py: Pydantic, types: Types, r: Record)
    requires forall n | n in types :: NormalForm(types[n])
    ensures ViewOf(py, types, r).Healthy? <==>
            && r.readIssues == []
            && Validate(py, types, r.AsDraft()).Ok?
            && PublicAccepts(py, types, r.AsDraft())
    ensures ViewOf(py, types, r).Healthy? ==> Build(py, types, r) == Ok(ViewOf(py, types, r).public)
  {
    ValidateIff(py, types, r.AsDraft());
    if r.readIssues == [] {
      NoDefects(py, types, r);
      if Validate(py, types, r.AsDraft()).Ok? {
        OptionsAgree(py, types, r);
      }
    }
  }

  lemma OptionsAgree(py: Pydantic, types: Types, r: Record)
    requires Validate(py, types, r.AsDraft()).Ok?
    ensures PublicAccepts(py, types, r.AsDraft()) <==>
            PublicProperties(py, types[r.typ], r.properties).Some? && PublicOptions(py, types[r.typ], r).Ok?
  {
  }

  // ---------- who is blamed, and what is shown raw ----------

  /** Whether the projection rejects the decoded payload of a field. */
  predicate Rejected(py: Pydantic, provider: Provider, types: Types, id: string, row: Row, field: Part) {
    var r := ToRecord(py, provider, id, row);
    match field
    case TypePart => r.typ !in types
    case KindPart => r.typ in types && r.kind != types[r.typ].kind
    case PropertiesPart => r.typ in types && PublicProperties(py, types[r.typ], r.properties).None?
    case OptionsPart => r.typ in types && PublicOptions(py, types[r.typ], r).Err?
    case SecretsPart =>
      r.typ in types && types[r.typ].secretsModel.Some?
        && py.validate(types[r.typ].secretsModel.value, FromJson(Dict(r.secrets))).None?
    case _ => false
  }

  lemma DefectsOnce(py: Pydantic, types: Types, r: Record, issue: Issue)
    ensures BlamesOnce(Defects(py, types, r))
    ensures issue in Defects(py, types, r) <==> Defect(py, types, r, issue)
  {
    var a := When(Defect(py, types, r, Issue(TypePart, UnregisteredType)), Issue(TypePart, UnregisteredType));
    var b := When(Defect(py, types, r, Issue(KindPart, WrongKind)), Issue(KindPart, WrongKind));
    var c := When(Defect(py, types, r, Issue(PropertiesPart, BadProperties)), Issue(PropertiesPart, BadProperties));
    var d := When(Defect(py, types, r, Issue(OptionsPart, BadOptions)), Issue(OptionsPart, BadOptions));
    var e := When(Defect(py, types, r, Issue(SecretsPart, BadSecrets)), Issue(SecretsPart, BadSecrets));
    InOneOfSix(issue, [], a, b, c, d, e);
    assert [] + a == a;
    OnceAppend(a, {TypePart}, b, KindPart);
    OnceAppend(a + b, {TypePart, KindPart}, c, PropertiesPart);
    OnceAppend(a + b + c, {TypePart, KindPart, PropertiesPart}, d, OptionsPart);
    OnceAppend(a + b + c + d, {TypePart, KindPart, PropertiesPart, OptionsPart}, e, SecretsPart);
  }

  lemma OnceTogether(a: seq<Issue>, b: seq<Issue>)
    requires BlamesOnce(a) && BlamesOnce(b)
    requires forall x, y | x in a && y in b :: x.field != y.field
    ensures BlamesOnce(a + b)
  {
    assert forall i | 0 <= i < |a| :: a[i] in a;
    assert forall i | 0 <= i < |b| :: b[i] in b;
  }

  ghost function IssuesOf(py: Pydantic, provider: Provider, types: Types, id: string, row: Row): seq<Issue> {
    var view := ViewOf(py, types, ToRecord(py, provider, id, row));
    if view.Healthy? then [] else view.broken.issues
  }

  /** Across decoding and projection each field is blamed at most once, exactly when its stored
      payload is undecodable or its decoded payload is rejected. */
  lemma BlameIsExact(py: Pydantic, provider: Provider, types: Types, id: string, row: Row, field: Part)
    ensures BlamesOnce(IssuesOf(py, provider, types, id, row))
    ensures Blames(IssuesOf(py, provider, types, id, row), field) <==>
            Undecodable(py, provider, row, field) || Rejected(py, provider, types, id, row, field)
  {
    var r := ToRecord(py, provider, id, row);
    var issues := r.readIssues + Defects(py, types, r);
    assert IssuesOf(py, provider, types, id, row) == issues;
    MapperBlame(py, provider, id, row);
    DefectsOnce(py, types, r, Issue(field, WrongKind));
    forall x, y | x in r.readIssues && y in Defects(py, types, r) ensures x.field != y.field {
      IssueIff(py, provider, id, row, x);
      DefectsOnce(py, types, r, y);
      assert Found(py, provider, row, x) && Defect(py, types, r, y);
      DefectSkipsFound(py, provider, types, id, row, x, y);
    }
    OnceTogether(r.readIssues, Defects(py, types, r));
    BlamesConcat(r.readIssues, Defects(py, types, r), field);
    DefectsBlame(py, provider, types, id, row, field);
  }

  lemma BlamesConcat(a: seq<Issue>, b: seq<Issue>, field: Part)
    ensures Blames(a + b, field) <==> Blames(a, field) || Blames(b, field)
  {
    if Blames(a, field) {
      var i :| 0 <= i < |a| && a[i].field == field;
      assert (a + b)[i].field == field;
    }
    if Blames(b, field) {
      var i :| 0 <= i < |b| && b[i].field == field;
      assert (a + b)[|a| + i].field == field;
    }
  }

  lemma DefectSkipsFound(py: Pydantic, provider: Provider, types: Types, id: string, row: Row, x: Issue, y: Issue)
    requires Found(py, provider, row, x)
    requires Defect(py, types, ToRecord(py, provider, id, row), y)
    ensures x.field != y.field
  {
    IssueIff(py, provider, id, row, x);
  }

  /** The code a defect of the field carries. */
  function DefectCode(field: Part): Code {
    match field
    case TypePart => UnregisteredType
    case KindPart => WrongKind
    case PropertiesPart => BadProperties
    case OptionsPart => BadOptions
    case _ => BadSecrets
  }

  lemma DefectMeansRejected(py: Pydantic, provider: Provider, types: Types, id: string, row: Row, field: Part)
    requires !Undecodable(py, provider, row, field)
    ensures Defect(py, types, ToRecord(py, provider, id, row), Issue(field, DefectCode(field))) <==>
            Rejected(py, provider, types, id, row, field)
  {
    IssueIff(py, provider, id, row, Issue(field, DefectCode(field)));
    IssueIff(py, provider, id, row, Issue(SecretsPart, UnreadableSecrets));
  }

  lemma DefectsBlameOne(py: Pydantic, types: Types, r: Record, field: Part)
    ensures Blames(Defects(py, types, r), field) <==> Defect(py, types, r, Issue(field, DefectCode(field)))
  {
    var defects := Defects(py, types, r);
    var x := Issue(field, DefectCode(field));
    DefectsOnce(py, types, r, x);
    if Defect(py, types, r, x) {
      var i :| 0 <= i < |defects| && defects[i] == x;
      assert defects[i].field == field;
    }
    if Blames(defects, field) {
      var i :| 0 <= i < |defects| && defects[i].field == field;
      DefectsOnce(py, types, r, defects[i]);
    }
  }

  lemma DefectsBlame(py: Pydantic, provider: Provider, types: Types, id: string, row: Row, field: Part)
    ensures Undecodable(py, provider, row, field)
            || Blames(Defects(py, types, ToRecord(py, provider, id, row)), field) <==>
            Undecodable(py, provider, row, field) || Rejected(py, provider, types, id, row, field)
  {
    DefectsBlameOne(py, types, ToRecord(py, provider, id, row), field);
    if !Undecodable(py, provider, row, field) {
      DefectMeansRejected(py, provider, types, id, row, field);
    }
  }

  /** The broken view shows the stored payload itself for blamed properties that are not null, and for
      blamed secrets that can be decrypted. */
  lemma BrokenViewShowsPayload(py: Pydantic, provider: Provider, types: Types, id: string, row: Row)
    requires ViewOf(py, types, ToRecord(py, provider, id, row)).Broken?
    ensures var shown := ViewOf(py, types, ToRecord(py, provider, id, row)).broken;
            && (row.cols.properties != Null && Blames(shown.issues, PropertiesPart) ==>
                  shown.rawProperties == row.cols.properties)
            && (provider.decrypt(row.cols.ciphertext).Some? && Blames(shown.issues, SecretsPart) ==>
                  shown.rawSecrets == provider.decrypt(row.cols.ciphertext).value)
  {
    var r := ToRecord(py, provider, id, row);
    IssueIff(py, provider, id, row, Issue(SecretsPart, BadSecrets));
    IssueIff(py, provider, id, row, Issue(SecretsPart, UnreadableSecrets));
    BlameIsExact(py, provider, types, id, row, PropertiesPart);
    BlameIsExact(py, provider, types, id, row, SecretsPart);
  }
}
