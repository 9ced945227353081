/** What the read views show, told from the record and from the stored row. */
module Views {
  import opened Values
  import opened Schemas
  import opened Entities
  import opened Registries
  import opened Validation
  import opened RecordMapper
  import opened Projection
  import opened Acceptance

  /** The fields every view copies, each under its own name. */
  predicate Copies(h: Head, r: Record) {
    && h.id == r.id && h.name == r.name && h.kind == r.kind && h.typ == r.typ && h.driver == r.driver
    && h.labels == r.labels && h.metadata == r.metadata && h.extra == r.extra
    && h.createdAt == r.createdAt && h.updatedAt == r.updatedAt && h.deletedAt == r.deletedAt
  }

  function HeadShown(view: View): Head {
    match view
    case Healthy(public) => public.head
    case Broken(broken) => broken.head
  }

  lemma ViewCopies(py: Pydantic, types: Types, r: Record)
    ensures Copies(HeadShown(ViewOf(py, types, r)), r)
    ensures Build(py, types, r).Ok? ==> Copies(Build(py, types, r).value.head, r)
  {
  }

  /** A mapping column as a view shows it: itself when it is good, and nothing otherwise. */
  predicate ShownMapping(column: Json, good: bool, shown: Mapping) {
    if good then column == Dict(shown) else shown == map[]
  }

  /** From the stored row: every column under its own name, and a mapping empty exactly when it is blamed. */
  lemma ViewShowsRow(py: Pydantic, provider: Provider, types: Types, id: string, row: Row)
    ensures var h, c := HeadShown(ViewOf(py, types, ToRecord(py, provider, id, row))), row.cols;
            && h.id == id && h.name == c.name && h.kind == c.kind && h.typ == c.typ && h.driver == c.driver
            && h.createdAt == row.createdAt && h.updatedAt == row.updatedAt && h.deletedAt == row.deletedAt
    ensures var h, c := HeadShown(ViewOf(py, types, ToRecord(py, provider, id, row))), row.cols;
            var issues := IssuesOf(py, provider, types, id, row);
            && ShownMapping(c.labels, !Blames(issues, LabelsPart), h.labels)
            && ShownMapping(c.metadata, !Blames(issues, MetadataPart), h.metadata)
            && ShownMapping(c.extra, !Blames(issues, ExtraPart), h.extra)
  {
    ViewCopies(py, types, ToRecord(py, provider, id, row));
    RecordShowsColumns(py, provider, id, row);
    BlameIsExact(py, provider, types, id, row, LabelsPart);
    BlameIsExact(py, provider, types, id, row, MetadataPart);
    BlameIsExact(py, provider, types, id, row, ExtraPart);
  }

  /** A broken view shows the stored properties, a null as an empty object; the stored options, rebuilt and
      dumped where they can be; and of the secrets that decrypt those that are blamed. */
  lemma BrokenShowsRow(py: Pydantic, provider: Provider, types: Types, id: string, row: Row)
    requires ViewOf(py, types, ToRecord(py, provider, id, row)).Broken?
    ensures var shown, c := ViewOf(py, types, ToRecord(py, provider, id, row)).broken, row.cols;
            && shown.rawProperties == (if c.properties == Null then Dict(map[]) else c.properties)
            && shown.rawOptions == (match LoadOptions(py, c.options)
                                    case Some(TypedOptions(m)) => RawDump(py.dumpPython(m))
                                    case _ => RawJson(c.options))
    ensures var shown := ViewOf(py, types, ToRecord(py, provider, id, row)).broken;
            var plain := provider.decrypt(row.cols.ciphertext);
            shown.rawSecrets == if plain.Some? && Blames(shown.issues, SecretsPart) then plain.value else Null
  {
    IssueIff(py, provider, id, row, Issue(SecretsPart, BadSecrets));
    IssueIff(py, provider, id, row, Issue(SecretsPart, UnreadableSecrets));
    BlameIsExact(py, provider, types, id, row, SecretsPart);
  }

  /** The options a healthy view shows: none where the connection has none, and else what the public class of
      its driver makes of the validated ones. */
  ghost predicate ShownOptions(py: Pydantic, spec: TypeSpec, driver: Option<string>, options: Option<Model>,
                               shown: Option<Model>)
  {
    if options.None? then shown.None?
    else
      driver.Some? && shown.Some? && exists i ::
        DeclaredAt(spec, driver.value, i)
        && shown == py.validate(spec.driverSpecs[i].publicOptionsModel, FromPython(py.dumpPython(options.value)))
  }

  /** The public view of a record: what the type's public class, or else its own, makes of the validated
      properties, and the options. */
  ghost predicate Presents(py: Pydantic, types: Types, r: Record, public: PublicView) {
    && r.typ in types
    && var spec := types[r.typ];
    && (exists m ::
          && py.validate(spec.propertiesModel, FromJson(Dict(r.properties))) == Some(m)
          && py.validate(if spec.publicModel.Some? then spec.publicModel.value else spec.propertiesModel,
                         FromPython(py.dumpPython(m))) == Some(public.properties))
    && exists driver, options ::
         RunsOn(spec, r.driver, driver) && Carries(py, spec, driver, r.options, options)
         && ShownOptions(py, spec, driver, options, public.options)
  }

  lemma OptionsPresented(py: Pydantic, spec: TypeSpec, r: Record, shown: Option<Model>)
    requires PublicOptions(py, spec, r) == Ok(shown)
    ensures exists driver, options ::
              RunsOn(spec, r.driver, driver) && Carries(py, spec, driver, r.options, options)
              && ShownOptions(py, spec, driver, options, shown)
  {
    var driver := EffectiveDriver(r.driver, spec);
    DriverRuns(spec, r.driver, driver);
    var options := ValidateDriverOptions(py, spec, driver, r.options).value;
    OptionsFound(py, spec, driver, r.options);
    if options.Some? {
      var i := FirstDeclared(spec.driverSpecs, driver.value);
      assert DeclaredAt(spec, driver.value, i);
    }
    assert ShownOptions(py, spec, driver, options, shown);
  }

  /** What a healthy view and a successful `build` show of the payloads. */
  lemma PublicPresents(py: Pydantic, types: Types, r: Record)
    ensures ViewOf(py, types, r).Healthy? ==> Presents(py, types, r, ViewOf(py, types, r).public)
    ensures Build(py, types, r).Ok? ==> Presents(py, types, r, Build(py, types, r).value)
  {
    if Build(py, types, r).Ok? {
      OptionsPresented(py, types[r.typ], r, Build(py, types, r).value.options);
    }
    if ViewOf(py, types, r).Healthy? {
      assert r.readIssues == [] && Defects(py, types, r) == [];
      NoDefects(py, types, r);
      OptionsPresented(py, types[r.typ], r, ViewOf(py, types, r).public.options);
    }
  }
}
