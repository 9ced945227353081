/** The general theorems on the built-in installation, with no premise about its classes left. */
module BuiltinInstallation {
  import opened Values
  import opened ModelRefs
  import opened Schemas
  import opened Entities
  import opened Registries
  import opened Validation
  import opened RecordMapper
  import opened Projection
  import opened ConnectionTypes
  import opened DefaultRegistry
  import opened Store
  import opened ReadBack
  import opened PatchAlgebra
  import opened Builtins
  import ConnectorSchemas
  import Interleaving
  import ContentRuns

  /** Any store over the built-in classes and types. */
  ghost predicate IsBuiltin(env: Env, isFile: string -> bool) {
    env.py == Builtin(isFile) && HoldsDefaults(env.types, BUILT_IN) && Faithful(env.provider)
  }

  function PropertiesClass(t: ConnectionType): Class
    requires !t.Custom?
  {
    match t
    case Ftp => FtpProperties
    case Sftp => SftpProperties
    case S3 => S3Properties
    case Kafka => KafkaProperties
    case MsSql => MsSqlProperties
    case _ => SqlProperties
  }

  function SecretsClass(t: ConnectionType): Class
    requires !t.Custom?
  {
    match t
    case Ftp => FtpSecrets
    case Sftp => SftpSecrets
    case S3 => S3Secrets
    case Kafka => KafkaSecrets
    case _ => SqlSecrets
  }

  lemma ClassesOf(t: ConnectionType)
    requires !t.Custom?
    ensures RefOf(PropertiesClass(t)) == PropertiesOf(t) && RefOf(SecretsClass(t)) == SecretsOf(t)
  {
  }

  /** All drivers of a type take the same options: ODBC ones for MSSQL, none for the others. */
  lemma OneOptionsClass(t: ConnectionType, i: nat)
    requires i < |DriversOf(t)|
    ensures DriversOf(t)[i].optionsModel == DriversOf(t)[i].publicOptionsModel
    ensures DriversOf(t)[i].optionsModel == if t.MsSql? then ODBC_OPTIONS else NO_OPTIONS
  {
  }

  lemma TypeSound(isFile: string -> bool, t: ConnectionType)
    requires !t.Custom?
    ensures SoundType(Builtin(isFile), Constructed(t))
  {
    DeclaredConstructs(t);
    NormalisedIsNormal(Declared(t));
    ClassesOf(t);
    BuiltinSound(isFile, PropertiesClass(t));
    BuiltinSound(isFile, SecretsClass(t));
    OdbcStorable(isFile);
    forall i | 0 <= i < |DriversOf(t)|
      ensures DriversOf(t)[i].optionsModel == NO_OPTIONS || StorableClass(Builtin(isFile), DriversOf(t)[i].optionsModel)
    {
      OneOptionsClass(t, i);
    }
  }

  /** What the store's theorems ask for in order to read back holds. */
  lemma BuiltinIsSound(env: Env, isFile: string -> bool)
    requires IsBuiltin(env, isFile)
    ensures Sound(env)
  {
    forall n | n in env.types ensures SoundType(env.py, env.types[n]) {
      var t := DefaultTypeOf(env.types, n);
      TypeSound(isFile, t);
    }
  }

  // ---------- updates compose ----------

  /** The options class of a type, whichever of its drivers is chosen. */
  function OptionsOf(t: ConnectionType): ClassRef {
    if t.MsSql? then ODBC_OPTIONS else NO_OPTIONS
  }

  lemma ResolvedOptions(t: ConnectionType, name: string)
    ensures var driver := Validation.ResolveDriver(DriversOf(t), name);
            driver.Some? ==>
              driver.value.optionsModel == OptionsOf(t) && driver.value.publicOptionsModel == OptionsOf(t)
  {
    var driver := Validation.ResolveDriver(DriversOf(t), name);
    if driver.Some? {
      var i :| 0 <= i < |DriversOf(t)| && DriversOf(t)[i] == driver.value;
      OneOptionsClass(t, i);
    }
  }

  lemma DriverClass(t: ConnectionType, effective: Option<string>)
    ensures effective.Some? && OptionsClass(Constructed(t), effective).Some? ==>
            OptionsClass(Constructed(t), effective) == Some(OptionsOf(t))
  {
    if effective.Some? {
      ResolvedOptions(t, effective.value);
    }
  }

  /** No choice of driver changes which class judges the options, once some driver was accepted. */
  lemma BuiltinKeepsDriver(t: ConnectionType, inEffect: Option<string>, q: Patch)
    requires !t.Custom?
    requires OptionsClass(Constructed(t), EffectiveDriver(inEffect, Constructed(t))).Some?
    ensures KeepsDriver(Constructed(t), inEffect, q)
  {
    var spec := Constructed(t);
    DriverClass(t, EffectiveDriver(inEffect, spec));
    if q.driver.Set? {
      DriverClass(t, EffectiveDriver(q.driver.value, spec));
    }
  }

  lemma AcceptedDriverHasClass(env: Env, id: string, row: Row, p: Patch, now: int, nonce: int)
    requires Updated(env, id, row, p, now, nonce).Ok?
    ensures row.cols.typ in env.types
    ensures OptionsClass(env.types[row.cols.typ],
                         EffectiveDriver(Choose(p.driver, row.cols.driver), env.types[row.cols.typ])).Some?
  {
    var d := Merge(ToRecord(env.py, env.provider, id, row), p);
    Accepted(env.py, env.types, d);
  }

  /** Nothing of the stored properties is left to normalise: only an S3 prefix ever is. */
  predicate SettledProperties(typ: string, stored: Json) {
    typ == "s3" ==> stored.Dict? && ConnectorSchemas.SettledPrefix(Lookup(stored.entries, "prefix"))
  }

  lemma DumpIsStable(isFile: string -> bool, k: Class, v: Input)
    requires BuiltinValidate(isFile, RefOf(k), v).Some?
    ensures var d := BuiltinValidate(isFile, RefOf(k), v).value.state;
            PayloadStable(Builtin(isFile), RefOf(k), d) <==> SettledDump(k, d)
  {
    KnownRef(k);
    MadeTakesDump(isFile, k, v);
  }

  /** Of all the payloads the built-in types store, only S3 properties may be unstable. */
  lemma TypeStable(isFile: string -> bool, t: ConnectionType, properties: Input, secrets: Input)
    requires !t.Custom?
    ensures var m := BuiltinValidate(isFile, PropertiesOf(t), properties);
            m.Some? ==>
              (PayloadStable(Builtin(isFile), PropertiesOf(t), m.value.state) <==>
               SettledProperties(TypeValue(t), m.value.state))
    ensures var m := BuiltinValidate(isFile, SecretsOf(t), secrets);
            m.Some? ==> PayloadStable(Builtin(isFile), SecretsOf(t), m.value.state)
  {
    TypeValuesDiffer(t, ConnectionType.S3);
    ClassesOf(t);
    if BuiltinValidate(isFile, PropertiesOf(t), properties).Some? {
      DumpIsStable(isFile, PropertiesClass(t), properties);
    }
    if BuiltinValidate(isFile, SecretsOf(t), secrets).Some? {
      DumpIsStable(isFile, SecretsClass(t), secrets);
    }
  }

  /** The payloads in an updated row are the dumps of what was validated. */
  lemma StoredDumps(env: Env, id: string, row: Row, p: Patch, now: int, nonce: int)
    requires Sound(env) && Updated(env, id, row, p, now, nonce).Ok?
    ensures var d := Merge(ToRecord(env.py, env.provider, id, row), p);
            var first := Updated(env, id, row, p, now, nonce).value;
            var r := ToRecord(env.py, env.provider, id, first);
            && r.typ == row.cols.typ && r.typ in env.types
            && var spec := env.types[r.typ];
            && Dict(r.properties) == first.cols.properties
            && (var m := env.py.validate(spec.propertiesModel, FromJson(d.properties));
                m.Some? && Dict(r.properties) == env.py.dumpJson(m.value))
            && (spec.secretsModel.Some? ==>
                  var m := env.py.validate(spec.secretsModel.value, FromJson(d.secrets));
                  m.Some? && Dict(r.secrets) == env.py.dumpJson(m.value))
  {
    var d := Merge(ToRecord(env.py, env.provider, id, row), p);
    DecodesToPersisted(env, nonce, d, id, Updated(env, id, row, p, now, nonce).value);
    ModelsTakeDumps(env, d);
  }

  /** What an update stores is stable exactly when its S3 prefix, if it has one, is settled. */
  lemma StoredIsStable(env: Env, isFile: string -> bool, id: string, row: Row, p: Patch, q: Patch, now: int, nonce: int)
    requires IsBuiltin(env, isFile) && Updated(env, id, row, p, now, nonce).Ok?
    ensures var first := Updated(env, id, row, p, now, nonce).value;
            CarriesStable(env, id, first, q) <==>
              q.properties.Set? || SettledProperties(row.cols.typ, first.cols.properties)
  {
    BuiltinIsSound(env, isFile);
    StoredDumps(env, id, row, p, now, nonce);
    var d := Merge(ToRecord(env.py, env.provider, id, row), p);
    var t := DefaultTypeOf(env.types, row.cols.typ);
    TypeStable(isFile, t, FromJson(d.properties), FromJson(d.secrets));
  }

  /** In the built-in installation two updates compose whatever the patches do to the driver. What keeps
      them apart is exactly labels that are not strings, and an S3 prefix that is taken over unsettled. */
  lemma BuiltinUpdatesCompose(env: Env, isFile: string -> bool, id: string, row: Row, p: Patch, q: Patch,
                              now1: int, nonce1: int, now2: int, nonce2: int)
    requires IsBuiltin(env, isFile)
    ensures var first := Updated(env, id, row, p, now1, nonce1);
            var one := Updated(env, id, row, Combine(p, q), now2, nonce2);
            first.Ok? ==>
              var settled := q.properties.Set? || SettledProperties(row.cols.typ, first.value.cols.properties);
              && (LabelsSurvive(p, q) && settled ==> one == Updated(env, id, first.value, q, now2, nonce2))
              && (!(LabelsSurvive(p, q) && settled) && one.Ok? ==>
                    one != Updated(env, id, first.value, q, now2, nonce2))
  {
    if Updated(env, id, row, p, now1, nonce1).Ok? {
      BuiltinIsSound(env, isFile);
      StoredIsStable(env, isFile, id, row, p, q, now1, nonce1);
      AcceptedDriverHasClass(env, id, row, p, now1, nonce1);
      var t := DefaultTypeOf(env.types, row.cols.typ);
      BuiltinKeepsDriver(t, Choose(p.driver, row.cols.driver), q);
      ComposeExactly(env, id, row, p, q, now1, nonce1, now2, nonce2);
      if LabelsSurvive(p, q) {
        StableUpdatesCompose(env, id, row, p, q, now1, nonce1, now2, nonce2);
      }
    }
  }

  // ---------- everything written is shown ----------

  lemma PublicTakesDump(isFile: string -> bool, k: Class, v: Input)
    requires BuiltinValidate(isFile, RefOf(k), v).Some?
    ensures BuiltinValidate(isFile, RefOf(k),
                            FromPython(PyJson(BuiltinValidate(isFile, RefOf(k), v).value.state))).Some?
  {
    KnownRef(k);
    MadeTakesDump(isFile, k, v);
  }

  lemma PublicPropertiesTaken(isFile: string -> bool, t: ConnectionType, v: Input)
    requires !t.Custom? && BuiltinValidate(isFile, PropertiesOf(t), v).Some?
    ensures var m := BuiltinValidate(isFile, PropertiesOf(t), v).value;
            BuiltinValidate(isFile, PropertiesOf(t), FromPython(PyJson(m.state))).Some?
  {
    ClassesOf(t);
    PublicTakesDump(isFile, PropertiesClass(t), v);
  }

  lemma OptionsComeFrom(py: Pydantic, spec: TypeSpec, name: string, raw: Options)
    ensures var v := ValidateDriverOptions(py, spec, Some(name), raw);
            v.Ok? && v.value.Some? ==>
              var driver := Validation.ResolveDriver(spec.driverSpecs, name);
              && driver.Some? && driver.value.optionsModel != NO_OPTIONS
              && v.value == py.validate(driver.value.optionsModel, OptionsInput(raw))
  {
  }

  lemma PublicOptionsTaken(isFile: string -> bool, t: ConnectionType, name: string, raw: Options)
    ensures var v := ValidateDriverOptions(Builtin(isFile), Constructed(t), Some(name), raw);
            v.Ok? && v.value.Some? ==>
              var driver := Validation.ResolveDriver(DriversOf(t), name);
              && driver.Some?
              && BuiltinValidate(isFile, driver.value.publicOptionsModel, FromPython(PyJson(v.value.value.state))).Some?
  {
    OptionsComeFrom(Builtin(isFile), Constructed(t), name, raw);
    ResolvedOptions(t, name);
    assert RefOf(OdbcOptions) == ODBC_OPTIONS;
    if BuiltinValidate(isFile, ODBC_OPTIONS, OptionsInput(raw)).Some? {
      PublicTakesDump(isFile, OdbcOptions, OptionsInput(raw));
    }
  }

  /** The public models are the models themselves, which accept what they dumped. */
  lemma BuiltinPublicAccepts(env: Env, isFile: string -> bool, d: Draft)
    requires IsBuiltin(env, isFile)
    ensures Validate(env.py, env.types, d).Ok? ==> PublicAccepts(env.py, env.types, d)
  {
    if Validate(env.py, env.types, d).Ok? {
      Accepted(env.py, env.types, d);
      var t := DefaultTypeOf(env.types, d.typ);
      var v := Validate(env.py, env.types, d).value;
      PublicPropertiesTaken(isFile, t, FromJson(d.properties));
      if v.options.Some? {
        PublicOptionsTaken(isFile, t, v.driver.value, d.options);
      }
    }
  }

  /** In every state of every run over the built-in installation, a row inserted or replaced on the way is
      shown healthy exactly when its labels are strings. */
  lemma BuiltinWritesReadBack(env: Env, isFile: string -> bool, states: seq<Interleaving.State>,
                              steps: seq<Interleaving.Step>, n: nat, id: string)
    requires IsBuiltin(env, isFile)
    requires Interleaving.IsRun(env, states, steps) && n < |states|
    requires id in states[n].rows && ContentRuns.WrittenDuring(states, steps, n, id)
    ensures var row := states[n].rows[id];
            && row.cols.labels.Dict?
            && (ViewOf(env.py, env.types, Read(env, states[n].rows, id)).Healthy? <==>
                  AllStrings(row.cols.labels.entries))
  {
    BuiltinIsSound(env, isFile);
    ContentRuns.EveryWriteReadsBack(env, states, steps, n, id);
    BuiltinPublicAccepts(env, isFile, Read(env, states[n].rows, id).AsDraft());
  }
}
