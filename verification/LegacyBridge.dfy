/** The legacy bridge from end to end: a legacy payload is split, made a draft, validated and connected. */
module LegacyBridge {
  import opened Values
  import opened Schemas
  import opened Entities
  import opened Registries
  import opened Validation
  import opened ConnectionTypes
  import opened DefaultRegistry
  import opened Builtins
  import opened BuiltinInstallation
  import opened DraftUrls
  import opened LegacySplit
  import ConnectorSchemas
  import SqlUrls

  /** `to_runtime_draft`. */
  function ToDraft(name: string, t: ConnectionType, p: Parts): Draft {
    var options := if p.odbc.None? then NoOptions
                   else TypedOptions(Model(ODBC_OPTIONS, Dict(map["odbc_driver_name" := Str(p.odbc.value)])));
    Draft(name, KindOf(t), TypeValue(t), p.driver, options, Dict(p.properties), Dict(p.secrets),
          Some(map[]), Some(map[]), Some(map[]))
  }

  // ---------- the secrets split off are the fields of the secrets class ----------

  lemma SecretFields(isFile: string -> bool, t: ConnectionType, v: Json)
    requires !t.Custom?
    ensures var d := Taken(isFile, SecretsClass(t), v);
            d.Some? ==> d.value.Dict? && d.value.entries.Keys == KeySet(SecretKeys(t))
  {
    var d := Taken(isFile, SecretsClass(t), v);
    if d.Some? {
      forall k ensures k in d.value.entries <==> k in SecretKeys(t) {
      }
    }
  }

  // ---------- which payloads are accepted ----------

  lemma PropertiesTaken(isFile: string -> bool, t: ConnectionType, e: Mapping)
    requires Sql(t)
    ensures BuiltinValidate(isFile, PropertiesOf(t), FromJson(Dict(e))).Some? <==> ReadSql(t, e).Some?
  {
    ClassesOf(t);
    KnownRef(PropertiesClass(t));
  }

  lemma SecretsTaken(isFile: string -> bool, t: ConnectionType, e: Mapping)
    requires Sql(t)
    ensures BuiltinValidate(isFile, SecretsOf(t), FromJson(Dict(e))).Some? <==> TextOrNull(Lookup(e, "password"))
  {
    ClassesOf(t);
    KnownRef(SqlSecrets);
  }

  lemma OdbcByName(name: string)
    ensures var v := Dict(map["odbc_driver_name" := Str(name)]); ConnectorSchemas.ValidateOdbc(v) == Some(v)
  {
    var e := map["odbc_driver_name" := Str(name)];
    assert |"driver_name"| == 11 && |"odbc_driver_name"| == 16;
    assert e.Keys == {"odbc_driver_name"};
    assert "odbc_driver_name" in e.Keys && "odbc_driver_name" !in {"driver_name"};
  }

  lemma OdbcTaken(isFile: string -> bool, name: string)
    ensures var m := Model(ODBC_OPTIONS, Dict(map["odbc_driver_name" := Str(name)]));
            BuiltinValidate(isFile, ODBC_OPTIONS, FromModel(m)) == Some(m)
  {
    assert RefOf(OdbcOptions) == ODBC_OPTIONS;
    KnownRef(OdbcOptions);
    OdbcByName(name);
  }

  /** The driver a split names is one the type runs on, or none. */
  predicate Runnable(t: ConnectionType, driver: Option<string>) {
    driver == None || driver == Some("") || (!t.MongoDb? && SqlUrls.Runs(t, driver.value))
  }

  lemma DefaultRunnable(t: ConnectionType, driver: Option<string>)
    requires Sql(t) && !t.MongoDb?
    ensures var effective := EffectiveDriver(driver, Constructed(t));
            && effective.Some? && (SqlUrls.Runs(t, effective.value) <==> Runnable(t, driver))
  {
  }

  /** Options fit the driver in effect: an ODBC name for MSSQL, none for any other type. */
  lemma OptionsTaken(isFile: string -> bool, t: ConnectionType, p: Parts)
    requires Sql(t) && (p.odbc.Some? <==> t.MsSql?)
    ensures var effective := EffectiveDriver(p.driver, Constructed(t));
            ValidateDriverOptions(Builtin(isFile), Constructed(t), effective, ToDraft("", t, p).options).Ok? <==>
            Runnable(t, p.driver)
  {
    if t.MongoDb? {
      assert DriversOf(t) == [] && DriverNames([]) == {};
    } else {
      DefaultRunnable(t, p.driver);
      var name := EffectiveDriver(p.driver, Constructed(t)).value;
      DeclaredRuns(t, name);
      ResolvedOptions(t, name);
      assert ODBC_OPTIONS != NO_OPTIONS by { assert ODBC_OPTIONS.path[0][0] != NO_OPTIONS.path[0][0]; }
      if t.MsSql? {
        OdbcTaken(isFile, p.odbc.value);
      }
    }
  }

  lemma AcceptsWhen(py: Pydantic, types: Types, d: Draft, spec: TypeSpec)
    requires d.typ in types && types[d.typ] == spec && NormalForm(spec)
    requires d.kind == spec.kind && d.labels.Some? && d.metadata.Some? && d.extra.Some? && spec.secretsModel.Some?
    ensures Validate(py, types, d).Ok? <==>
            && py.validate(spec.propertiesModel, FromJson(d.properties)).Some?
            && py.validate(spec.secretsModel.value, FromJson(d.secrets)).Some?
            && ValidateDriverOptions(py, spec, EffectiveDriver(d.driver, spec), d.options).Ok?
  {
  }

  /** A split payload is accepted exactly when its properties fit the type's class, its password is a text or
      null, and its driver is one the type runs on. */
  lemma BridgeAccepts(isFile: string -> bool, types: Types, name: string, t: ConnectionType, p: Parts)
    requires HoldsDefaults(types, BUILT_IN)
    requires Sql(t) && (p.odbc.Some? <==> t.MsSql?)
    ensures Validate(Builtin(isFile), types, ToDraft(name, t, p)).Ok? <==>
            ReadSql(t, p.properties).Some? && TextOrNull(Lookup(p.secrets, "password")) && Runnable(t, p.driver)
  {
    BuiltInHeld(types, t);
    DeclaredConstructs(t);
    NormalisedIsNormal(Declared(t));
    AcceptsWhen(Builtin(isFile), types, ToDraft(name, t, p), Constructed(t));
    PropertiesTaken(isFile, t, p.properties);
    SecretsTaken(isFile, t, p.secrets);
    OptionsTaken(isFile, t, p);
  }

  // ---------- and what they connect with ----------

  /** An accepted legacy payload connects in the bridge's own mode unless it is synchronous and names a driver
      that only runs asynchronously; a payload that names none, or is for MSSQL, always does. */
  lemma BridgeConnects(isFile: string -> bool, types: Types, name: string, t: ConnectionType, raw: Mapping, mode: Mode,
                       psycopgInstalled: bool)
    requires HoldsDefaults(types, BUILT_IN)
    requires Sql(t) && TextOrNull(Lookup(raw, "driver_name"))
    requires Split(t, raw, mode).Ok?
    requires Validate(Builtin(isFile), types, ToDraft(name, t, Split(t, raw, mode).value)).Ok?
    ensures var v := Validate(Builtin(isFile), types, ToDraft(name, t, Split(t, raw, mode).value)).value;
            var named := Lookup(raw, "driver_name");
            SqlUrls.UrlFailure(mode, t, v.driver, psycopgInstalled, SqlView(v.properties), OdbcIn(v, OdbcName)) == None
            <==>
            !(mode.Sync? && !t.MsSql?
              && (named == Str("asyncpg") || named == Str("aiomysql") || named == Str("aioodbc")))
  {
    var p := Split(t, raw, mode).value;
    var d := ToDraft(name, t, p);
    var v := Validate(Builtin(isFile), types, d).value;
    BuiltInHeld(types, t);
    Accepted(Builtin(isFile), types, d);
    BuiltinSqlClasses(isFile);
    EverySqlDraftConnects(Builtin(isFile), SqlView, OdbcName, types, d, t, psycopgInstalled);
    SplitDriver(t, raw, mode);
    DriverTextsDiffer(NameOf(v.driver));
  }
}
