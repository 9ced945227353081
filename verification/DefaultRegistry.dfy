/** The built-in registry, and its fit with the SQL connector. */
module DefaultRegistry {
  import opened Values
  import opened ModelRefs
  import opened Schemas
  import opened Entities
  import opened Registries
  import opened Validation
  import opened ConnectionTypes
  import SqlUrls
  import LegacyAdapters

  const SQL_PROPERTIES := ClassRef("db_connection.connectors.sql", ["SQLProperties"])
  const MSSQL_PROPERTIES := ClassRef("db_connection.connectors.sql", ["MSSQLProperties"])
  const SQL_SECRETS := ClassRef("db_connection.connectors.sql", ["SQLSecrets"])

  function KindOf(t: ConnectionType): string {
    match t
    case Kafka => "queue"
    case S3 => "file"
    case Ftp => "file"
    case Sftp => "file"
    case _ => "sql"
  }

  function PropertiesOf(t: ConnectionType): ClassRef {
    match t
    case MsSql => MSSQL_PROPERTIES
    case Kafka => ClassRef("db_connection.connectors.kafka", ["KafkaProperties"])
    case S3 => ClassRef("db_connection.connectors.s3", ["S3Properties"])
    case Ftp => ClassRef("db_connection.connectors.ftp", ["FTPProperties"])
    case Sftp => ClassRef("db_connection.connectors.ftp", ["SFTPProperties"])
    case _ => SQL_PROPERTIES
  }

  function SecretsOf(t: ConnectionType): ClassRef {
    match t
    case Kafka => ClassRef("db_connection.connectors.kafka", ["KafkaSecrets"])
    case S3 => ClassRef("db_connection.connectors.s3", ["S3Secrets"])
    case Ftp => ClassRef("db_connection.connectors.ftp", ["FTPSecrets"])
    case Sftp => ClassRef("db_connection.connectors.ftp", ["SFTPSecrets"])
    case _ => SQL_SECRETS
  }

  function OdbcDriver(name: string): DriverSpec {
    DriverSpec(name, ODBC_OPTIONS, ODBC_OPTIONS)
  }

  function DriversOf(t: ConnectionType): seq<DriverSpec> {
    match t
    case Postgres => [PlainDriver("psycopg"), PlainDriver("psycopg2"), PlainDriver("asyncpg")]
    case MySql => [PlainDriver("pymysql"), PlainDriver("aiomysql")]
    case ClickHouse => [PlainDriver("native"), PlainDriver("http")]
    case MsSql => [OdbcDriver("pyodbc"), OdbcDriver("aioodbc")]
    case Oracle => [PlainDriver("oracledb")]
    case _ => []
  }

  function DefaultDriverOf(t: ConnectionType): Option<string> {
    match t
    case Postgres => Some("psycopg")
    case MySql => Some("pymysql")
    case ClickHouse => Some("native")
    case MsSql => Some("pyodbc")
    case Oracle => Some("oracledb")
    case _ => None
  }

  /** The specification as the builder writes it down; construction fills in the supported drivers. */
  function Declared(t: ConnectionType): TypeSpec {
    TypeSpec(TypeValue(t), KindOf(t), PropertiesOf(t), Some(SecretsOf(t)), Some(PropertiesOf(t)), true,
             DefaultDriverOf(t), DriversOf(t), {})
  }

  function Constructed(t: ConnectionType): TypeSpec {
    Declared(t).(supportedDrivers := DriverNames(DriversOf(t)))
  }

  /** The order in which the builder registers the types; `Custom` comes after all of them. */
  function Order(t: ConnectionType): nat {
    match t
    case Postgres => 0
    case MySql => 1
    case ClickHouse => 2
    case MsSql => 3
    case Oracle => 4
    case MongoDb => 5
    case Kafka => 6
    case S3 => 7
    case Ftp => 8
    case Sftp => 9
    case Custom => 10
  }

  /** The type the builder registers in its `i`-th step. */
  function AtStep(i: nat): (t: ConnectionType)
    requires i < BUILT_IN
    ensures Order(t) == i
  {
    if i == 0 then Postgres
    else if i == 1 then MySql
    else if i == 2 then ClickHouse
    else if i == 3 then MsSql
    else if i == 4 then Oracle
    else if i == 5 then MongoDb
    else if i == 6 then Kafka
    else if i == 7 then S3
    else if i == 8 then Ftp
    else Sftp
  }

  const BUILT_IN := 10

  /** `types` holds exactly the specifications of the keys below `count`, under their names. */
  ghost predicate HoldsBelow<K(!new)>(types: Types, count: nat, rank: K -> nat, nameOf: K -> string,
                                      specOf: K -> TypeSpec)
  {
    && (forall t: K | rank(t) < count :: nameOf(t) in types && types[nameOf(t)] == specOf(t))
    && (forall n | n in types :: exists t: K :: rank(t) < count && nameOf(t) == n)
  }

  ghost predicate HoldsDefaults(types: Types, count: nat) {
    HoldsBelow(types, count, Order, TypeValue, Constructed)
  }

  ghost predicate HasKinds(kinds: map<string, KindSpec>) {
    "sql" in kinds && "queue" in kinds && "file" in kinds
  }

  lemma DeclaredConstructs(t: ConnectionType)
    ensures Normalised(Declared(t)) == Ok(Constructed(t))
  {
    var d := Declared(t);
    if d.driverSpecs == [] {
      assert LegacyDrivers(d) == {};
      assert EffectiveSpecs(d) == [];
    } else {
      assert d.defaultDriver.value == d.driverSpecs[0].name;
    }
  }

  lemma OneMore<K(!new)>(types: Types, t: K, rank: K -> nat, nameOf: K -> string, specOf: K -> TypeSpec)
    requires forall u :: nameOf(u) == nameOf(t) ==> u == t
    requires forall u :: rank(u) == rank(t) ==> u == t
    requires HoldsBelow(types, rank(t), rank, nameOf, specOf)
    ensures nameOf(t) !in types
    ensures HoldsBelow(types[nameOf(t) := specOf(t)], rank(t) + 1, rank, nameOf, specOf)
  {
    forall n | n in types ensures n != nameOf(t) {
      var u: K :| rank(u) < rank(t) && nameOf(u) == n;
    }
    var next := types[nameOf(t) := specOf(t)];
    forall n | n in next ensures exists u: K :: rank(u) < rank(t) + 1 && nameOf(u) == n {
      if n in types {
        var u: K :| rank(u) < rank(t) && nameOf(u) == n;
        assert rank(u) < rank(t) + 1;
      } else {
        assert rank(t) < rank(t) + 1 && nameOf(t) == n;
      }
    }
  }

  lemma BelowHas<K(!new)>(types: Types, count: nat, rank: K -> nat, nameOf: K -> string, specOf: K -> TypeSpec,
                          n: string) returns (t: K)
    requires HoldsBelow(types, count, rank, nameOf, specOf) && n in types
    ensures rank(t) < count && nameOf(t) == n && types[n] == specOf(t)
  {
    t :| rank(t) < count && nameOf(t) == n;
  }

  /** The built-in type registered under a name. */
  lemma DefaultTypeOf(types: Types, n: string) returns (t: ConnectionType)
    requires HoldsDefaults(types, BUILT_IN) && n in types
    ensures !t.Custom? && TypeValue(t) == n && types[n] == Constructed(t)
  {
    t := BelowHas(types, BUILT_IN, Order, TypeValue, Constructed, n);
  }

  lemma OneDefaultMore(types: Types, t: ConnectionType)
    requires HoldsDefaults(types, Order(t))
    ensures TypeValue(t) !in types
    ensures HoldsDefaults(types[TypeValue(t) := Constructed(t)], Order(t) + 1)
  {
    forall u ensures TypeValue(u) == TypeValue(t) ==> u == t {
      TypeValuesDiffer(t, u);
    }
    OneMore(types, t, Order, TypeValue, Constructed);
  }

  /** The builder's `i`-th registration of a type. */
  method Register(registry: ConnectionRegistry, i: nat)
    requires i < BUILT_IN
    requires HasKinds(registry.kinds) && HoldsDefaults(registry.types, i)
    modifies registry
    ensures registry.kinds == old(registry.kinds)
    ensures HoldsDefaults(registry.types, i + 1)
  {
    var t := AtStep(i);
    DeclaredConstructs(t);
    OneDefaultMore(registry.types, t);
    var spec := PostInit(Declared(t));
    var registered := registry.RegisterType(spec.value, false);
  }

  method RegisterKinds(registry: ConnectionRegistry)
    requires registry.Contents() == NO_ENTRIES
    modifies registry
    ensures registry.types == map[] && registry.kinds.Keys == {"sql", "queue", "file"}
    ensures forall n | n in registry.kinds :: registry.kinds[n].name == n
  {
    assert |"sql"| == 3 && |"queue"| == 5 && |"file"| == 4;
    var r := registry.RegisterKind(KindSpec("sql", "", {"check", "client", "query"}), false);
    r := registry.RegisterKind(KindSpec("queue", "", {"check", "client", "publish"}), false);
    r := registry.RegisterKind(KindSpec("file", "", {"check", "client", "list_objects"}), false);
  }

  /** `build_default_registry`: no registration fails, and the ten built-in types are what it holds. */
  method BuildDefaultRegistry() returns (registry: ConnectionRegistry)
    ensures fresh(registry)
    ensures HoldsDefaults(registry.types, BUILT_IN)
    ensures registry.kinds.Keys == {"sql", "queue", "file"}
    ensures Consistent(registry.Contents())
  {
    registry := new ConnectionRegistry();
    RegisterKinds(registry);
    Register(registry, 0);  // postgres
    Register(registry, 1);  // mysql
    Register(registry, 2);  // clickhouse
    Register(registry, 3);  // mssql
    Register(registry, 4);  // oracle
    Register(registry, 5);  // mongodb
    Register(registry, 6);  // kafka
    Register(registry, 7);  // s3
    Register(registry, 8);  // ftp
    Register(registry, 9);  // sftp
    DefaultsAreConsistent(registry.kinds, registry.types);
  }

  lemma DefaultsAreConsistent(kinds: map<string, KindSpec>, types: Types)
    requires HasKinds(kinds) && forall n | n in kinds :: kinds[n].name == n
    requires HoldsDefaults(types, BUILT_IN)
    ensures Consistent(Entries(kinds, types))
  {
    forall n | n in types ensures types[n].name == n && NormalForm(types[n]) && types[n].kind in kinds {
      var t := DefaultTypeOf(types, n);
      DeclaredConstructs(t);
      NormalisedIsNormal(Declared(t));
    }
  }

  // ---------- the SQL connector covers the built-in types ----------

  /** What the SQL property classes and the ODBC options class declare about their instances. */
  ghost predicate SqlClasses(py: Pydantic, view: Model -> SqlUrls.SqlProps, odbcName: Model -> Option<string>) {
    && (forall v: Input :: py.validate(SQL_PROPERTIES, v).Some? ==> TcpForm(view(py.validate(SQL_PROPERTIES, v).value)))
    && (forall v: Input :: py.validate(MSSQL_PROPERTIES, v).Some? ==>
          var p := view(py.validate(MSSQL_PROPERTIES, v).value);
          TcpForm(p) || NamedInstanceForm(p))
    && (forall v: Input :: py.validate(ODBC_OPTIONS, v).Some? ==> odbcName(py.validate(ODBC_OPTIONS, v).value).Some?)
  }

  predicate TcpForm(p: SqlUrls.SqlProps) {
    p.port.Some? && p.instance.None? && p.secure.Some? && p.verify.Some?
  }

  predicate NamedInstanceForm(p: SqlUrls.SqlProps) {
    p.port.None? && p.instance.Some? && p.secure.Some? && p.verify.Some?
  }

  predicate AsyncOnly(driver: Option<string>) {
    driver == Some("asyncpg") || driver == Some("aiomysql") || driver == Some("aioodbc")
  }

  /** The ODBC name the connector finds in the validated options. */
  function OdbcIn(v: Validated, odbcName: Model -> Option<string>): Option<string> {
    if v.options.None? then None else odbcName(v.options.value)
  }

  lemma BuiltInHeld(types: Types, t: ConnectionType)
    requires HoldsDefaults(types, BUILT_IN) && !t.Custom?
    ensures TypeValue(t) in types && types[TypeValue(t)] == Constructed(t)
  {
    assert Order(t) < BUILT_IN;
  }

  lemma Accepted(py: Pydantic, types: Types, draft: Draft)
    requires Validate(py, types, draft).Ok?
    ensures draft.typ in types
    ensures var v := Validate(py, types, draft).value;
            var spec := types[draft.typ];
            && v.driver == EffectiveDriver(draft.driver, spec)
            && Some(v.properties) == py.validate(spec.propertiesModel, FromJson(draft.properties))
            && ValidateDriverOptions(py, spec, v.driver, draft.options) == Ok(v.options)
  {
  }

  lemma OdbcIsSome(py: Pydantic, driver: Option<string>, raw: Options, options: Option<Model>)
    requires ValidateDriverOptions(py, Constructed(MsSql), driver, raw) == Ok(options) && driver.Some?
    ensures options.Some? && options == py.validate(ODBC_OPTIONS, OptionsInput(raw))
  {
    assert ODBC_OPTIONS != NO_OPTIONS by { assert ODBC_OPTIONS.path[0][0] != NO_OPTIONS.path[0][0]; }
    var spec := ResolveDriver(DriversOf(MsSql), driver.value);
    assert spec.Some? ==> spec.value.optionsModel == ODBC_OPTIONS;
  }

  /** A validated SQL connection names a declared driver, or is MongoDB without one. */
  lemma ValidatedDriver(py: Pydantic, types: Types, draft: Draft, t: ConnectionType)
    requires draft.typ in types && types[draft.typ] == Constructed(t)
    requires Sql(t)
    requires Validate(py, types, draft).Ok?
    ensures var v := Validate(py, types, draft).value;
            && (t.MongoDb? ==> v.driver.None?)
            && (!t.MongoDb? ==> v.driver.Some? && v.driver.value in DriverNames(DriversOf(t)))
            && Some(v.properties) == py.validate(PropertiesOf(t), FromJson(draft.properties))
            && (t.MsSql? ==> v.options.Some? && v.options == py.validate(ODBC_OPTIONS, OptionsInput(draft.options)))
  {
    Accepted(py, types, draft);
    var v := Validate(py, types, draft).value;
    if t.MongoDb? {
      assert DriverNames(DriversOf(t)) == {};
    } else {
      assert v.driver.Some?;
      assert ResolveDriver(DriversOf(t), v.driver.value).Some?;
    }
    if t.MsSql? {
      OdbcIsSome(py, v.driver, draft.options, v.options);
    }
  }

  /** The declared drivers of a type, one by one. */
  lemma DriverCases(t: ConnectionType, name: string)
    requires Sql(t) && name in DriverNames(DriversOf(t))
    ensures t.Postgres? ==> name == "psycopg" || name == "psycopg2" || name == "asyncpg"
    ensures t.MySql? ==> name == "pymysql" || name == "aiomysql"
    ensures t.ClickHouse? ==> name == "native" || name == "http"
    ensures t.MsSql? ==> name == "pyodbc" || name == "aioodbc"
    ensures t.Oracle? ==> name == "oracledb"
    ensures !t.MongoDb?
  {
    var i :| 0 <= i < |DriversOf(t)| && DriversOf(t)[i].name == name;
  }

  /** The declared drivers of a type are those its connector runs on. */
  lemma DeclaredRuns(t: ConnectionType, name: string)
    requires !t.Custom? && !t.MongoDb?
    ensures name in DriverNames(DriversOf(t)) <==> SqlUrls.Runs(t, name)
  {
    if name in DriverNames(DriversOf(t)) {
      var i :| 0 <= i < |DriversOf(t)| && DriversOf(t)[i].name == name;
    }
    if SqlUrls.Runs(t, name) {
      var drivers := DriversOf(t);
      var i := if name == drivers[0].name then 0 else if |drivers| > 1 && name == drivers[1].name then 1 else 2;
      assert drivers[i].name == name;
    }
  }

  /** What is registered for a type: its kind, a connector, the drivers its connector runs on, and a default
      driver exactly for the types that have drivers. */
  lemma RegisteredAs(types: Types, t: ConnectionType, name: string)
    requires HoldsDefaults(types, BUILT_IN) && !t.Custom?
    ensures TypeValue(t) in types
    ensures var spec := types[TypeValue(t)];
            && spec.name == TypeValue(t) && spec.hasConnector && spec.secretsModel.Some?
            && spec.publicModel == Some(spec.propertiesModel)
            && spec.kind == (if Sql(t) then "sql" else if t.Kafka? then "queue" else "file")
            && (name in spec.supportedDrivers <==> !t.MongoDb? && SqlUrls.Runs(t, name))
            && (spec.defaultDriver.Some? <==> Sql(t) && !t.MongoDb?)
            && (spec.defaultDriver.Some? ==>
                  spec.defaultDriver.value in spec.supportedDrivers && !AsyncOnly(spec.defaultDriver))
  {
    BuiltInHeld(types, t);
    DeclaredConstructs(t);
    NormalisedIsNormal(Declared(t));
    if t.MongoDb? {
      assert DriversOf(t) == [] && DriverNames([]) == {};
    } else {
      DeclaredRuns(t, name);
    }
    if DefaultDriverOf(t).Some? {
      DriverTextsDiffer(DefaultDriverOf(t).value);
    }
  }

  lemma DriverTextsDiffer(name: string)
    ensures name == "psycopg" || name == "psycopg2" || name == "pymysql" || name == "pyodbc" || name == "native"
            || name == "http" || name == "oracledb"
            ==> !AsyncOnly(Some(name))
  {
    if |name| > 0 && AsyncOnly(Some(name)) {
      assert name[0] == 'a';
      assert "psycopg"[0] == 'p' && "psycopg2"[0] == 'p' && "pymysql"[0] == 'p' && "pyodbc"[0] == 'p';
      assert "native"[0] == 'n' && "http"[0] == 'h' && "oracledb"[0] == 'o';
    }
  }

  lemma DeclaredDriversResolve(t: ConnectionType, name: string, psycopgInstalled: bool)
    requires Sql(t) && name in DriverNames(DriversOf(t))
    ensures SqlUrls.ResolveRuntime(Async, t, Some(name), psycopgInstalled).Ok?
    ensures SqlUrls.ResolveRuntime(Sync, t, Some(name), psycopgInstalled).Ok? <==> !AsyncOnly(Some(name))
  {
    DriverCases(t, name);
    DriverTextsDiffer(name);
    assert name != "";
  }

  /** The forms the SQL classes promise of validated properties and options. */
  lemma ValidatedForms(py: Pydantic, view: Model -> SqlUrls.SqlProps, odbcName: Model -> Option<string>,
      types: Types, draft: Draft, t: ConnectionType)
    requires draft.typ in types && types[draft.typ] == Constructed(t)
    requires SqlClasses(py, view, odbcName)
    requires Sql(t)
    requires Validate(py, types, draft).Ok?
    ensures var v := Validate(py, types, draft).value;
            && (TcpForm(view(v.properties)) || (t.MsSql? && NamedInstanceForm(view(v.properties))))
            && !SqlUrls.LacksOptions(t, OdbcIn(v, odbcName))
  {
    ValidatedDriver(py, types, draft, t);
  }

  /** Every SQL draft the built-in registry accepts gets a URL from an async-preferring connector, and
      from a sync one exactly when its driver is not async-only. The URL has no port exactly for the
      named-instance form of MSSQL. */
  lemma EverySqlDraftConnects(py: Pydantic, view: Model -> SqlUrls.SqlProps, odbcName: Model -> Option<string>,
      types: Types, draft: Draft, t: ConnectionType, psycopgInstalled: bool)
    requires HoldsDefaults(types, BUILT_IN)
    requires SqlClasses(py, view, odbcName)
    requires Sql(t) && draft.typ == TypeValue(t)
    requires Validate(py, types, draft).Ok?
    ensures var v := Validate(py, types, draft).value;
            var p := view(v.properties);
            && SqlUrls.UrlFailure(Async, t, v.driver, psycopgInstalled, p, OdbcIn(v, odbcName)).None?
            && (SqlUrls.UrlFailure(Sync, t, v.driver, psycopgInstalled, p, OdbcIn(v, odbcName)).None? <==>
                  !AsyncOnly(v.driver))
            && (TcpForm(p) || (t.MsSql? && NamedInstanceForm(p)))
  {
    BuiltInHeld(types, t);
    ValidatedForms(py, view, odbcName, types, draft, t);
    ValidatedDriver(py, types, draft, t);
    var v := Validate(py, types, draft).value;
    if !t.MongoDb? {
      DeclaredDriversResolve(t, v.driver.value, psycopgInstalled);
    }
  }

  /** The parts of a connection's URL, its query key by key. */
  ghost predicate UrlShows(url: SqlUrls.Url, prefer: Mode, t: ConnectionType, driver: Option<string>,
                           psycopgInstalled: bool, p: SqlUrls.SqlProps, odbc: Option<string>, password: Option<string>)
  {
    var resolved := SqlUrls.ResolveRuntime(prefer, t, driver, psycopgInstalled);
    && resolved.Ok? && url.dialect == resolved.value.dialect
    && url.host == SqlUrls.HostOf(t, p)
    && url.port == (if t.MsSql? && SqlUrls.NamesInstance(p) then None else p.port)
    && url.username == p.username && url.password == password
    && url.database == (if t.Oracle? then None else Some(p.database))
    && !SqlUrls.LacksOptions(t, odbc)
    && forall key ::
         SqlUrls.TextAt(url.query, key) ==
         SqlUrls.ShownAt(SqlUrls.RuntimeParam(t, resolved.value.driver, p, odbc, resolved.value.useAsync, key))
  }

  /** Validation followed by the connector: the whole way from a draft to its URL. */
  method ConnectionUrl(py: Pydantic, view: Model -> SqlUrls.SqlProps, odbcName: Model -> Option<string>, types: Types,
      draft: Draft, t: ConnectionType, prefer: Mode, psycopgInstalled: bool, password: Option<string>)
    returns (r: Result<SqlUrls.Url, SqlUrls.SqlError>)
    requires HoldsDefaults(types, BUILT_IN)
    requires SqlClasses(py, view, odbcName)
    requires Sql(t) && draft.typ == TypeValue(t)
    requires Validate(py, types, draft).Ok?
    ensures prefer.Async? ==> r.Ok?
    ensures prefer.Sync? ==> (r.Ok? <==> !AsyncOnly(Validate(py, types, draft).value.driver))
    ensures r.Ok? ==>
              var v := Validate(py, types, draft).value;
              UrlShows(r.value, prefer, t, v.driver, psycopgInstalled, view(v.properties), OdbcIn(v, odbcName),
                       password)
    ensures r.Ok? ==> (r.value.port.None? <==> NamedInstanceForm(view(Validate(py, types, draft).value.properties)))
  {
    EverySqlDraftConnects(py, view, odbcName, types, draft, t, psycopgInstalled);
    var v := Validate(py, types, draft).value;
    r := SqlUrls.BuildConnectionUrl(prefer, t, v.driver, psycopgInstalled, view(v.properties), password,
                                    OdbcIn(v, odbcName));
  }

  /** On validated connections the runtime query is always the legacy one, asyncpg's timeout aside,
      unless the ODBC driver name is empty. */
  lemma ValidatedMatchesLegacy(py: Pydantic, view: Model -> SqlUrls.SqlProps, odbcName: Model -> Option<string>,
      types: Types, draft: Draft, t: ConnectionType, prefer: Mode, psycopgInstalled: bool)
    requires HoldsDefaults(types, BUILT_IN)
    requires SqlClasses(py, view, odbcName)
    requires Sql(t) && draft.typ == TypeValue(t)
    requires Validate(py, types, draft).Ok?
    ensures var v := Validate(py, types, draft).value;
            var resolved := SqlUrls.ResolveRuntime(prefer, t, v.driver, psycopgInstalled);
            resolved.Ok? ==>
              var runtime := resolved.value;
              var legacy := LegacyAdapters.Dialects(t, runtime.driver);
              && legacy.Some? && legacy.value.name == runtime.dialect
              && (LegacyAdapters.Agrees(t, runtime, legacy.value.adapter, view(v.properties), OdbcIn(v, odbcName)) <==>
                  (t.MsSql? ==> OdbcIn(v, odbcName) != Some("")))
  {
    EverySqlDraftConnects(py, view, odbcName, types, draft, t, psycopgInstalled);
    BuiltInHeld(types, t);
    ValidatedDriver(py, types, draft, t);
    var v := Validate(py, types, draft).value;
    if SqlUrls.ResolveRuntime(prefer, t, v.driver, psycopgInstalled).Ok? {
      LegacyAdapters.RuntimeMatchesLegacy(prefer, t, v.driver, psycopgInstalled, view(v.properties),
                                          OdbcIn(v, odbcName));
    }
  }
}
