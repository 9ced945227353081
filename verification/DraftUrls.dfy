/** From a draft of the built-in registry to its SQL URL, with no premise about classes left. */
module DraftUrls {
  import opened Values
  import opened Schemas
  import opened Entities
  import opened Registries
  import opened Validation
  import opened ConnectionTypes
  import opened DefaultRegistry
  import opened Acceptance
  import opened Builtins
  import opened BuiltinInstallation
  import ConnectorSchemas
  import DraftQueries
  import LegacyAdapters
  import SqlSchemas
  import SqlUrls

  const NO_PROPS := SqlUrls.SqlProps("", None, None, "", "", None, None, None, None, None, None)

  /** The properties a SQL or MSSQL instance holds. */
  function SqlView(m: Model): SqlUrls.SqlProps {
    if !m.state.Dict? then NO_PROPS
    else
      var p := SqlSchemas.ParseMsSql(m.state.entries);
      var q := SqlSchemas.ParseSql(m.state.entries);
      if m.cls == MSSQL_PROPERTIES && p.Some? then p.value
      else if m.cls == SQL_PROPERTIES && q.Some? then q.value
      else NO_PROPS
  }

  /** The name ODBC options hold; None for any other instance. */
  function OdbcName(m: Model): Option<string> {
    if m.cls == ODBC_OPTIONS && m.state.Dict? && Lookup(m.state.entries, "odbc_driver_name").Str?
    then Some(Lookup(m.state.entries, "odbc_driver_name").s)
    else None
  }

  lemma SqlInstance(isFile: string -> bool, v: Input)
    requires BuiltinValidate(isFile, SQL_PROPERTIES, v).Some?
    ensures TcpForm(SqlView(BuiltinValidate(isFile, SQL_PROPERTIES, v).value))
  {
    assert RefOf(SqlProperties) == SQL_PROPERTIES;
    RefsDiffer(SqlProperties, MsSqlProperties);
    var m := BuiltinValidate(isFile, SQL_PROPERTIES, v).value;
    MadeTakesDump(isFile, SqlProperties, v);
    SqlSchemas.ParsedForms(m.state.entries);
  }

  lemma MsSqlInstance(isFile: string -> bool, v: Input)
    requires BuiltinValidate(isFile, MSSQL_PROPERTIES, v).Some?
    ensures var p := SqlView(BuiltinValidate(isFile, MSSQL_PROPERTIES, v).value); TcpForm(p) || NamedInstanceForm(p)
  {
    assert RefOf(MsSqlProperties) == MSSQL_PROPERTIES;
    var m := BuiltinValidate(isFile, MSSQL_PROPERTIES, v).value;
    MadeTakesDump(isFile, MsSqlProperties, v);
    SqlSchemas.ParsedForms(m.state.entries);
  }

  lemma OdbcInstance(isFile: string -> bool, v: Input)
    ensures BuiltinValidate(isFile, ODBC_OPTIONS, v).Some? ==>
              OdbcName(BuiltinValidate(isFile, ODBC_OPTIONS, v).value).Some?
  {
    assert RefOf(OdbcOptions) == ODBC_OPTIONS;
    if BuiltinValidate(isFile, ODBC_OPTIONS, v).Some? {
      var m := BuiltinValidate(isFile, ODBC_OPTIONS, v).value;
      MadeTakesDump(isFile, OdbcOptions, v);
      assert Taken(isFile, OdbcOptions, m.state) == Some(m.state);
    }
  }

  /** What the SQL theorems assume of the property and options classes holds of the built-in ones. */
  lemma BuiltinSqlClasses(isFile: string -> bool)
    ensures SqlClasses(Builtin(isFile), SqlView, OdbcName)
  {
    var py := Builtin(isFile);
    forall v: Input | py.validate(SQL_PROPERTIES, v).Some?
      ensures TcpForm(SqlView(py.validate(SQL_PROPERTIES, v).value))
    {
      SqlInstance(isFile, v);
    }
    forall v: Input | py.validate(MSSQL_PROPERTIES, v).Some?
      ensures var p := SqlView(py.validate(MSSQL_PROPERTIES, v).value); TcpForm(p) || NamedInstanceForm(p)
    {
      MsSqlInstance(isFile, v);
    }
    forall v: Input | py.validate(ODBC_OPTIONS, v).Some? ensures OdbcName(py.validate(ODBC_OPTIONS, v).value).Some? {
      OdbcInstance(isFile, v);
    }
  }

  /** The properties a type reads from a JSON object. */
  function ReadSql(t: ConnectionType, e: Mapping): Option<SqlUrls.SqlProps> {
    if t.MsSql? then SqlSchemas.ParseMsSql(e) else SqlSchemas.ParseSql(e)
  }

  /** The view of an accepted instance is what was read. */
  lemma ViewIsRead(isFile: string -> bool, t: ConnectionType, properties: Json)
    requires Sql(t) && BuiltinValidate(isFile, PropertiesOf(t), FromJson(properties)).Some?
    ensures properties.Dict? && ReadSql(t, properties.entries).Some?
    ensures SqlView(BuiltinValidate(isFile, PropertiesOf(t), FromJson(properties)).value) ==
            ReadSql(t, properties.entries).value
  {
    ClassesOf(t);
    KnownRef(PropertiesClass(t));
    RefsDiffer(SqlProperties, MsSqlProperties);
    SqlSchemas.ParsedForms(properties.entries);
    var p := ReadSql(t, properties.entries).value;
    if p.port.Some? {
      SqlSchemas.TcpRoundTrip(p);
    } else {
      SqlSchemas.NamedInstanceRoundTrip(p);
    }
  }

  /** The part of a host that names a draft's MSSQL instance. */
  function InstancePart(t: ConnectionType, e: Mapping): string {
    var name := Lookup(e, "instance_name");
    if t.MsSql? && name.Str? && name.s != "" then "\\" + name.s else ""
  }

  /** What the properties of a type show of the JSON they were read from. */
  predicate ShowsDraft(t: ConnectionType, e: Mapping, p: SqlUrls.SqlProps) {
    && Lookup(e, "username") == Str(p.username) && Lookup(e, "database") == Str(p.database)
    && Lookup(e, "host") == Str(p.host) && SqlUrls.HostOf(t, p) == p.host + InstancePart(t, e)
    && (p.port.None? <==> t.MsSql? && "instance_name" in e)
    && (p.port.Some? ==> Lookup(e, "port") == Int(p.port.value))
    && (TcpForm(p) || NamedInstanceForm(p))
  }

  lemma ReadSqlShows(t: ConnectionType, e: Mapping)
    requires Sql(t) && ReadSql(t, e).Some?
    ensures ShowsDraft(t, e, ReadSql(t, e).value)
  {
    SqlSchemas.MsSqlFormsExclude(e);
    SqlSchemas.ParsedForms(e);
  }

  lemma AcceptedProperties(isFile: string -> bool, types: Types, draft: Draft, t: ConnectionType)
    requires HoldsDefaults(types, BUILT_IN)
    requires Sql(t) && draft.typ == TypeValue(t)
    requires Validate(Builtin(isFile), types, draft).Ok?
    ensures draft.properties.Dict? && ReadSql(t, draft.properties.entries).Some?
    ensures var p := SqlView(Validate(Builtin(isFile), types, draft).value.properties);
            p == ReadSql(t, draft.properties.entries).value && ShowsDraft(t, draft.properties.entries, p)
  {
    BuiltInHeld(types, t);
    ValidatedDriver(Builtin(isFile), types, draft, t);
    ViewIsRead(isFile, t, draft.properties);
    ReadSqlShows(t, draft.properties.entries);
  }

  /** The ODBC driver that options name, under the alias or the name of the field. */
  function NamedOdbc(options: Options): Json {
    var held := match options case NoOptions => Null case RawOptions(json) => json case TypedOptions(m) => m.state;
    if !held.Dict? then Null else FieldOr(held.entries, "driver_name", Lookup(held.entries, "odbc_driver_name"))
  }

  lemma OdbcIsRead(v: Json)
    requires ConnectorSchemas.ValidateOdbc(v).Some?
    ensures var d := ConnectorSchemas.ValidateOdbc(v).value;
            && v.Dict? && d.Dict?
            && Lookup(d.entries, "odbc_driver_name") ==
               FieldOr(v.entries, "driver_name", Lookup(v.entries, "odbc_driver_name"))
  {
    assert |"driver_name"| == 11 && |"odbc_driver_name"| == 16;
  }

  lemma OdbcNamed(isFile: string -> bool, options: Options)
    requires BuiltinValidate(isFile, ODBC_OPTIONS, OptionsInput(options)).Some?
    ensures var m := BuiltinValidate(isFile, ODBC_OPTIONS, OptionsInput(options)).value;
            OdbcName(m).Some? && NamedOdbc(options) == Str(OdbcName(m).value)
  {
    OdbcInstance(isFile, OptionsInput(options));
    assert RefOf(OdbcOptions) == ODBC_OPTIONS;
    KnownRef(OdbcOptions);
    match options
    case NoOptions => OdbcIsRead(Null);
    case RawOptions(json) => OdbcIsRead(json);
    case TypedOptions(m) => OdbcIsRead(m.state);
  }

  /** An accepted MSSQL draft names its ODBC driver, and that name is the one the connector finds. */
  lemma AcceptedOdbc(isFile: string -> bool, types: Types, draft: Draft, t: ConnectionType)
    requires HoldsDefaults(types, BUILT_IN)
    requires t.MsSql? && draft.typ == TypeValue(t)
    requires Validate(Builtin(isFile), types, draft).Ok?
    ensures var found := OdbcIn(Validate(Builtin(isFile), types, draft).value, OdbcName);
            found.Some? && NamedOdbc(draft.options) == Str(found.value)
  {
    BuiltInHeld(types, t);
    ValidatedDriver(Builtin(isFile), types, draft, t);
    OdbcNamed(isFile, draft.options);
  }

  /** The driver an accepted draft runs on; MongoDB has none. */
  function NameOf(driver: Option<string>): string {
    if driver.Some? then driver.value else ""
  }

  predicate RunsAsync(prefer: Mode, t: ConnectionType, name: string) {
    prefer.Async? && (SqlUrls.RunsOnlyAsync(t, name) || (t.Postgres? && name == "psycopg"))
  }

  /** The dialect and the query of a draft's URL, told from its JSON. */
  ghost predicate QueryOfDraft(url: SqlUrls.Url, prefer: Mode, t: ConnectionType, name: string, e: Mapping,
                               odbc: Option<string>)
  {
    && url.dialect == (if t.MongoDb? then SqlUrls.Family(t) else SqlUrls.Family(t) + "+" + name)
    && forall key ::
         SqlUrls.TextAt(url.query, key) ==
         DraftQueries.DraftParam(t, name, RunsAsync(prefer, t, name), e, NameOf(odbc), key)
  }

  lemma UrlShowsDraft(url: SqlUrls.Url, prefer: Mode, t: ConnectionType, driver: Option<string>, psycopgInstalled: bool,
                      e: Mapping, odbc: Option<string>, password: Option<string>)
    requires Sql(t) && ReadSql(t, e).Some?
    requires if t.MongoDb? then driver == None else driver.Some? && driver.value != ""
    requires UrlShows(url, prefer, t, driver, psycopgInstalled, ReadSql(t, e).value, odbc, password)
    ensures QueryOfDraft(url, prefer, t, NameOf(driver), e, odbc)
  {
    var name := NameOf(driver);
    SqlUrls.RuntimeIff(prefer, t, driver, psycopgInstalled);
    assert SqlUrls.ResolveDriver(t, driver, psycopgInstalled) == name;
    forall key
      ensures SqlUrls.TextAt(url.query, key) ==
              DraftQueries.DraftParam(t, name, RunsAsync(prefer, t, name), e, NameOf(odbc), key)
    {
      DraftQueries.QueryShowsDraft(t, name, RunsAsync(prefer, t, name), e, odbc, key);
    }
  }

  lemma AcceptedDriver(isFile: string -> bool, types: Types, draft: Draft, t: ConnectionType)
    requires HoldsDefaults(types, BUILT_IN)
    requires Sql(t) && draft.typ == TypeValue(t)
    requires Validate(Builtin(isFile), types, draft).Ok?
    ensures var driver := Validate(Builtin(isFile), types, draft).value.driver;
            if t.MongoDb? then driver == None else driver.Some? && driver.value != ""
  {
    BuiltInHeld(types, t);
    ValidatedDriver(Builtin(isFile), types, draft, t);
    if !t.MongoDb? {
      DriverCases(t, Validate(Builtin(isFile), types, draft).value.driver.value);
    }
  }

  /** The password among the fields of a secrets payload. */
  function PasswordIn(secrets: Json): Option<string> {
    if secrets.Dict? && Lookup(secrets.entries, "password").Str? then Some(Lookup(secrets.entries, "password").s)
    else None
  }

  lemma PasswordKept(isFile: string -> bool, v: Json)
    ensures var m := BuiltinValidate(isFile, SQL_SECRETS, FromJson(v));
            m.Some? ==> PasswordIn(m.value.state) == PasswordIn(v)
  {
    assert RefOf(SqlSecrets) == SQL_SECRETS;
    KnownRef(SqlSecrets);
  }

  /** The connector finds the draft's own password. */
  lemma AcceptedPassword(isFile: string -> bool, types: Types, draft: Draft, t: ConnectionType)
    requires HoldsDefaults(types, BUILT_IN)
    requires Sql(t) && draft.typ == TypeValue(t)
    requires Validate(Builtin(isFile), types, draft).Ok?
    ensures var v := Validate(Builtin(isFile), types, draft).value;
            v.secrets.Some? && PasswordIn(v.secrets.value.state) == PasswordIn(draft.secrets)
  {
    BuiltInHeld(types, t);
    AcceptedIff(Builtin(isFile), types, draft, Validate(Builtin(isFile), types, draft).value);
    PasswordKept(isFile, draft.secrets);
  }

  /** A draft without a driver runs on its type's default, which connects in either mode. */
  lemma DefaultConnects(isFile: string -> bool, types: Types, draft: Draft, t: ConnectionType, prefer: Mode,
                        psycopgInstalled: bool)
    requires HoldsDefaults(types, BUILT_IN)
    requires Sql(t) && draft.typ == TypeValue(t) && (draft.driver == None || draft.driver == Some(""))
    requires Validate(Builtin(isFile), types, draft).Ok?
    ensures var v := Validate(Builtin(isFile), types, draft).value;
            && (t.Postgres? ==> v.driver == Some("psycopg")) && (t.MySql? ==> v.driver == Some("pymysql"))
            && (t.ClickHouse? ==> v.driver == Some("native")) && (t.MsSql? ==> v.driver == Some("pyodbc"))
            && (t.Oracle? ==> v.driver == Some("oracledb")) && (t.MongoDb? ==> v.driver == None)
            && SqlUrls.UrlFailure(prefer, t, v.driver, psycopgInstalled, SqlView(v.properties),
                                  OdbcIn(v, OdbcName)) == None
  {
    BuiltInHeld(types, t);
    Accepted(Builtin(isFile), types, draft);
    BuiltinSqlClasses(isFile);
    EverySqlDraftConnects(Builtin(isFile), SqlView, OdbcName, types, draft, t, psycopgInstalled);
    var name := NameOf(Constructed(t).defaultDriver);
    DriverTextsDiffer(name);
  }

  /** From a draft to its URL: over the built-in registry every accepted SQL draft gets one on an
      async-preferring connector, and on a sync one exactly when its driver is not async-only. The outer
      error is validation's. The URL shows the draft's own fields: host, user, database and password as given, a
      non-empty MSSQL instance name behind the host, no port exactly when an MSSQL draft names an
      instance, and a query that is told key by key from the draft's fields and the ODBC driver named. */
  method DraftUrl(isFile: string -> bool, types: Types, draft: Draft, t: ConnectionType, prefer: Mode,
                  psycopgInstalled: bool)
    returns (r: Result<Result<SqlUrls.Url, SqlUrls.SqlError>, Error>)
    requires HoldsDefaults(types, BUILT_IN)
    requires Sql(t) && draft.typ == TypeValue(t)
    ensures var v := Validate(Builtin(isFile), types, draft);
            && (v.Err? ==> r == Err(v.error))
            && (v.Ok? ==> r.Ok? && draft.properties.Dict? && ReadSql(t, draft.properties.entries).Some?)
            && (v.Ok? && prefer.Async? ==> r.value.Ok?)
            && (v.Ok? && prefer.Sync? ==> (r.value.Ok? <==> !AsyncOnly(v.value.driver)))
    ensures r.Ok? && r.value.Ok? ==>
              var e, url := draft.properties.entries, r.value.value;
              && (url.port.None? <==> t.MsSql? && "instance_name" in e)
              && (url.port.Some? ==> Lookup(e, "port") == Int(url.port.value))
              && Lookup(e, "host").Str? && url.host == Lookup(e, "host").s + InstancePart(t, e)
              && Lookup(e, "username") == Str(url.username) && url.password == PasswordIn(draft.secrets)
              && (if t.Oracle? then url.database.None?
                  else url.database.Some? && Lookup(e, "database") == Str(url.database.value))
    ensures r.Ok? && r.value.Ok? ==>
              var v := Validate(Builtin(isFile), types, draft).value;
              var odbc := OdbcIn(v, OdbcName);
              && UrlShows(r.value.value, prefer, t, v.driver, psycopgInstalled,
                          ReadSql(t, draft.properties.entries).value, odbc, PasswordIn(draft.secrets))
              && QueryOfDraft(r.value.value, prefer, t, NameOf(v.driver), draft.properties.entries, odbc)
              && (t.MsSql? ==> odbc.Some? && NamedOdbc(draft.options) == Str(odbc.value))
  {
    var v := Validate(Builtin(isFile), types, draft);
    if v.Err? {
      return Err(v.error);
    }
    BuiltinSqlClasses(isFile);
    AcceptedProperties(isFile, types, draft, t);
    if t.MsSql? {
      AcceptedOdbc(isFile, types, draft, t);
    }
    AcceptedDriver(isFile, types, draft, t);
    AcceptedPassword(isFile, types, draft, t);
    var password := PasswordIn(v.value.secrets.value.state);
    var url := ConnectionUrl(Builtin(isFile), SqlView, OdbcName, types, draft, t, prefer, psycopgInstalled, password);
    if url.Ok? {
      UrlShowsDraft(url.value, prefer, t, v.value.driver, psycopgInstalled, draft.properties.entries,
                    OdbcIn(v.value, OdbcName), password);
    }
    return Ok(url);
  }

  /** And on an accepted draft the runtime query is the legacy one, asyncpg's timeout aside, unless the
      ODBC driver name is empty. */
  lemma DraftMatchesLegacy(isFile: string -> bool, types: Types, draft: Draft, t: ConnectionType, prefer: Mode,
                           psycopgInstalled: bool)
    requires HoldsDefaults(types, BUILT_IN)
    requires Sql(t) && draft.typ == TypeValue(t)
    ensures var accepted := Validate(Builtin(isFile), types, draft);
            accepted.Ok? ==>
              var v := accepted.value;
              var resolved := SqlUrls.ResolveRuntime(prefer, t, v.driver, psycopgInstalled);
              resolved.Ok? ==>
                var legacy := LegacyAdapters.Dialects(t, resolved.value.driver);
                && legacy.Some? && legacy.value.name == resolved.value.dialect
                && (LegacyAdapters.Agrees(t, resolved.value, legacy.value.adapter, SqlView(v.properties),
                                          OdbcIn(v, OdbcName)) <==>
                    (t.MsSql? ==> OdbcIn(v, OdbcName) != Some("")))
  {
    if Validate(Builtin(isFile), types, draft).Ok? {
      BuiltinSqlClasses(isFile);
      ValidatedMatchesLegacy(Builtin(isFile), SqlView, OdbcName, types, draft, t, prefer, psycopgInstalled);
    }
  }
}
