/** SQL connection URLs: the runtime connector's dialect and query against the legacy adapters'. */
module SqlUrls {
  import opened Values
  import opened ConnectionTypes

  datatype SqlError = NotSupported | OptionsRequired | DriverNotSpecified

  /** The dumped properties of a SQL connection; None stands for an absent key or a null. */
  datatype SqlProps = SqlProps(
    host: string,
    port: Option<int>,
    instance: Option<string>,
    username: string,
    database: string,
    secure: Option<bool>,
    verify: Option<bool>,
    connectTimeout: Option<int>,
    sendReceiveTimeout: Option<int>,
    syncRequestTimeout: Option<int>,
    caCert: Option<string>)
  {
    predicate Secure() { secure == Some(true) }

    predicate Verify() { verify == Some(true) }

    predicate HasCert() { caCert.Some? && caCert.value != "" }
  }

  /** A query value before it is turned into text. */
  datatype Value = Text(s: string) | Number(n: int) | Flag(b: bool) | Nothing

  type Query = map<string, Value>

  function Digits(n: nat): string {
    if n < 10 then [('0' as int + n) as char] else Digits(n / 10) + [('0' as int + n % 10) as char]
  }

  /** Python's `str`. */
  function Shown(v: Value): string {
    match v
    case Text(s) => s
    case Number(n) => if n < 0 then "-" + Digits(-n) else Digits(n)
    case Flag(b) => if b then "True" else "False"
    case Nothing => "None"
  }

  // ---------- queries by key ----------

  function At(q: Query, key: string): Option<Value> {
    if key in q then Some(q[key]) else None
  }

  function TextAt(q: map<string, string>, key: string): Option<string> {
    if key in q then Some(q[key]) else None
  }

  function ShownAt(v: Option<Value>): Option<string> {
    if v.Some? then Some(Shown(v.value)) else None
  }

  function Only(c: bool, v: Value): Option<Value> {
    if c then Some(v) else None
  }

  function Seconds(n: Option<int>): Option<Value> {
    if n.Some? then Some(Number(n.value)) else None
  }

  function Millis(n: Option<int>): Option<Value> {
    if n.Some? then Some(Number(n.value * 1000)) else None
  }

  /** The certificate, when there is one and it is not empty. */
  function CertOf(p: SqlProps): Option<Value> {
    if p.HasCert() then Some(Text(p.caCert.value)) else None
  }

  function SslMode(p: SqlProps): Value {
    Text(if p.Verify() then "verify-full" else "require")
  }

  // ---------- the runtime connector ----------

  datatype DriverSupport = DriverSupport(syncDialect: Option<string>, asyncDialect: Option<string>)

  datatype Runtime = Runtime(driver: string, dialect: string, useAsync: bool)

  /** `_resolve_driver`; which psycopg is installed decides the default for PostgreSQL. */
  function ResolveDriver(t: ConnectionType, driver: Option<string>, psycopgInstalled: bool): string {
    if driver.Some? && driver.value != "" then driver.value
    else match t
      case Postgres => if psycopgInstalled then "psycopg" else "psycopg2"
      case ClickHouse => "native"
      case MySql => "pymysql"
      case MsSql => "pyodbc"
      case Oracle => "oracledb"
      case _ => ""
  }

  /** `_resolve_driver_spec`; None is the unsupported-type error. */
  function Support(t: ConnectionType, driver: string): Option<DriverSupport> {
    match t
    case Postgres =>
      if driver == "psycopg" then Some(DriverSupport(Some("postgresql+psycopg"), Some("postgresql+psycopg")))
      else if driver == "psycopg2" then Some(DriverSupport(Some("postgresql+psycopg2"), None))
      else if driver == "asyncpg" then Some(DriverSupport(None, Some("postgresql+asyncpg")))
      else None
    case ClickHouse =>
      if driver == "native" then Some(DriverSupport(Some("clickhouse+native"), None))
      else if driver == "http" then Some(DriverSupport(Some("clickhouse+http"), None))
      else None
    case MySql =>
      if driver == "pymysql" then Some(DriverSupport(Some("mysql+pymysql"), None))
      else if driver == "aiomysql" then Some(DriverSupport(None, Some("mysql+aiomysql")))
      else None
    case MsSql =>
      if driver == "pyodbc" then Some(DriverSupport(Some("mssql+pyodbc"), None))
      else if driver == "aioodbc" then Some(DriverSupport(None, Some("mssql+aioodbc")))
      else None
    case Oracle => if driver == "oracledb" then Some(DriverSupport(Some("oracle+oracledb"), None)) else None
    case MongoDb => if driver == "" then Some(DriverSupport(Some("mongodb"), None)) else None
    case _ => None
  }

  /** `_resolve_runtime_driver`. */
  function ResolveRuntime(prefer: Mode, t: ConnectionType, driver: Option<string>,
                          psycopgInstalled: bool): Result<Runtime, SqlError>
  {
    var name := ResolveDriver(t, driver, psycopgInstalled);
    var support := Support(t, name);
    if support.None? then Err(NotSupported)
    else if prefer.Async? && support.value.asyncDialect.Some? then
      Ok(Runtime(name, support.value.asyncDialect.value, true))
    else if support.value.syncDialect.Some? then Ok(Runtime(name, support.value.syncDialect.value, false))
    else Err(NotSupported)
  }

  /** The drivers a type runs on. */
  predicate Runs(t: ConnectionType, driver: string) {
    match t
    case Postgres => driver == "psycopg" || driver == "psycopg2" || driver == "asyncpg"
    case MySql => driver == "pymysql" || driver == "aiomysql"
    case ClickHouse => driver == "native" || driver == "http"
    case MsSql => driver == "pyodbc" || driver == "aioodbc"
    case Oracle => driver == "oracledb"
    case MongoDb => driver == ""
    case _ => false
  }

  predicate RunsOnlyAsync(t: ConnectionType, driver: string) {
    (t.Postgres? && driver == "asyncpg") || (t.MySql? && driver == "aiomysql") || (t.MsSql? && driver == "aioodbc")
  }

  /** The first part of a dialect, which SQLAlchemy knows the database by. */
  function Family(t: ConnectionType): string {
    match t
    case Postgres => "postgresql"
    case MySql => "mysql"
    case ClickHouse => "clickhouse"
    case MsSql => "mssql"
    case Oracle => "oracle"
    case MongoDb => "mongodb"
    case _ => ""
  }

  /** A dialect family is the name of its type, except that PostgreSQL's is longer. */
  lemma FamilyOfType(t: ConnectionType)
    requires Sql(t)
    ensures TypeValue(t) <= Family(t) && (TypeValue(t) == Family(t) <==> !t.Postgres?)
  {
  }

  lemma SupportIff(t: ConnectionType, driver: string)
    ensures Support(t, driver).Some? <==> Runs(t, driver)
    ensures Support(t, driver).Some? ==>
              var dialect := if t.MongoDb? then Family(t) else Family(t) + "+" + driver;
              var s := Support(t, driver).value;
              && s.syncDialect == (if RunsOnlyAsync(t, driver) then None else Some(dialect))
              && s.asyncDialect ==
                 if RunsOnlyAsync(t, driver) || (t.Postgres? && driver == "psycopg") then Some(dialect) else None
  {
    assert "psycopg"[0] != "asyncpg"[0] && |"psycopg"| != |"psycopg2"|;
    assert "pymysql"[0] != "aiomysql"[0] && "pyodbc"[0] != "aioodbc"[0];
    match t
    case Postgres =>
      assert "postgresql" + "+" + "psycopg" == "postgresql+psycopg";
      assert "postgresql" + "+" + "psycopg2" == "postgresql+psycopg2";
      assert "postgresql" + "+" + "asyncpg" == "postgresql+asyncpg";
    case ClickHouse =>
      assert "clickhouse" + "+" + "native" == "clickhouse+native" && "clickhouse" + "+" + "http" == "clickhouse+http";
    case MySql =>
      assert "mysql" + "+" + "pymysql" == "mysql+pymysql" && "mysql" + "+" + "aiomysql" == "mysql+aiomysql";
    case MsSql =>
      assert "mssql" + "+" + "pyodbc" == "mssql+pyodbc" && "mssql" + "+" + "aioodbc" == "mssql+aioodbc";
    case Oracle => assert "oracle" + "+" + "oracledb" == "oracle+oracledb";
    case _ =>
  }

  /** A driver resolves exactly when the type runs on it and, if it only runs asynchronously, that is
      preferred. Its dialect is the family and the driver; it runs asynchronously when it can and should. */
  lemma RuntimeIff(prefer: Mode, t: ConnectionType, driver: Option<string>, psycopgInstalled: bool)
    ensures var r := ResolveRuntime(prefer, t, driver, psycopgInstalled);
            var name := ResolveDriver(t, driver, psycopgInstalled);
            && (r.Ok? <==> Runs(t, name) && (RunsOnlyAsync(t, name) ==> prefer.Async?))
            && (r.Err? ==> r.error == NotSupported)
            && (r.Ok? ==>
                  && r.value.driver == name
                  && r.value.dialect == (if t.MongoDb? then Family(t) else Family(t) + "+" + name)
                  && (r.value.useAsync <==>
                      prefer.Async? && (RunsOnlyAsync(t, name) || (t.Postgres? && name == "psycopg"))))
    ensures driver.Some? && driver.value != "" ==> ResolveDriver(t, driver, psycopgInstalled) == driver.value
  {
    SupportIff(t, ResolveDriver(t, driver, psycopgInstalled));
  }

  /** Without a driver every SQL type runs, in either mode; PostgreSQL on the psycopg that is installed. */
  lemma DefaultRuns(prefer: Mode, t: ConnectionType, driver: Option<string>, psycopgInstalled: bool)
    requires Sql(t) && (driver == None || driver == Some(""))
    ensures var r := ResolveRuntime(prefer, t, driver, psycopgInstalled);
            && r.Ok? && !RunsOnlyAsync(t, r.value.driver)
            && (t.Postgres? ==> (r.value.driver == "psycopg" <==> psycopgInstalled))
            && (t.ClickHouse? ==> r.value.driver == "native")
  {
    SupportIff(t, ResolveDriver(t, driver, psycopgInstalled));
    assert |"psycopg"| != |"psycopg2"|;
    assert "psycopg"[0] != "asyncpg"[0] && "pymysql"[0] != "aiomysql"[0] && "pyodbc"[0] != "aioodbc"[0];
    assert "psycopg2"[0] != "asyncpg"[0];
  }

  // ---------- what each parameter of a runtime query is ----------

  function PostgresParam(driver: string, p: SqlProps, useAsync: bool, key: string): Option<Value> {
    if key == "connect_timeout" then Seconds(p.connectTimeout)
    else if key == "sslmode" then Only(p.Secure(), SslMode(p))
    else if key == "ssl" then Only(p.Secure() && useAsync && driver == "asyncpg", Flag(true))
    else if key == "sslrootcert" then if p.Secure() then CertOf(p) else None
    else None
  }

  function MySqlParam(p: SqlProps, useAsync: bool, key: string): Option<Value> {
    if key == "connect_timeout" then Seconds(p.connectTimeout)
    else if key == "read_timeout" || key == "write_timeout" then
      if useAsync then None else Seconds(p.sendReceiveTimeout)
    else if key == "ssl_ca" then if p.Secure() then CertOf(p) else None
    else None
  }

  function MongoDbParam(p: SqlProps, key: string): Option<Value> {
    if key == "connectTimeoutMS" then Millis(p.connectTimeout)
    else if key == "socketTimeoutMS" then Millis(p.sendReceiveTimeout)
    else if key == "tls" then Only(p.Secure(), Flag(true))
    else if key == "tlsAllowInvalidCertificates" then Only(p.Secure(), Flag(!p.Verify()))
    else if key == "tlsCAFile" then if p.Secure() then CertOf(p) else None
    else None
  }

  /** The native driver with TLS parameters only when secure; HTTP, for any other, with its protocol. */
  function ClickHouseParam(native: bool, p: SqlProps, key: string): Option<Value> {
    if native then
      if key == "secure" then Only(p.Secure(), Flag(true))
      else if key == "verify" then Only(p.Secure(), Flag(p.Verify()))
      else if key == "ca_certs" then if p.Secure() then CertOf(p) else None
      else if key == "connect_timeout" then Seconds(p.connectTimeout)
      else if key == "sync_request_timeout" then Seconds(p.syncRequestTimeout)
      else None
    else
      if key == "protocol" then Some(Text(if p.Secure() then "https" else "http"))
      else if key == "verify" then Some(Flag(p.Verify()))
      else if key == "ca_certs" then CertOf(p)
      else if key == "timeout" then Seconds(p.connectTimeout)
      else None
  }

  function MsSqlParam(p: SqlProps, odbc: string, key: string): Option<Value> {
    if key == "driver" then Some(Text(odbc))
    else if key == "Connect Timeout" then
      if p.connectTimeout.Some? then Some(Text(Shown(Number(p.connectTimeout.value)))) else None
    else if key == "Encrypt" then Some(Text(if p.Secure() then "yes" else "no"))
    else if key == "TrustServerCertificate" then Only(p.Secure(), Text(if p.Verify() then "no" else "yes"))
    else None
  }

  function OracleParam(p: SqlProps, key: string): Option<Value> {
    if key == "tcp_connect_timeout" then Seconds(p.connectTimeout)
    else if key == "ssl_server_dn_match" then Only(p.Secure(), Flag(p.Verify()))
    else if key == "ssl_cert" then if p.Secure() && p.Verify() then CertOf(p) else None
    else if key == "service_name" then Some(Text(p.database))
    else None
  }

  /** The one type whose query needs driver options. */
  predicate LacksOptions(t: ConnectionType, odbc: Option<string>) {
    t.MsSql? && odbc.None?
  }

  function RuntimeParam(t: ConnectionType, driver: string, p: SqlProps, odbc: Option<string>, useAsync: bool,
                        key: string): Option<Value>
    requires !LacksOptions(t, odbc)
  {
    match t
    case Postgres => PostgresParam(driver, p, useAsync, key)
    case MySql => MySqlParam(p, useAsync, key)
    case MongoDb => MongoDbParam(p, key)
    case ClickHouse => ClickHouseParam(driver == "native", p, key)
    case MsSql => MsSqlParam(p, odbc.value, key)
    case Oracle => OracleParam(p, key)
    case _ => None
  }

  /** `_build_mssql_query`. */
  method BuildMsSqlQuery(p: SqlProps, odbc: Option<string>) returns (r: Result<Query, SqlError>)
    ensures odbc.None? ==> r == Err(OptionsRequired)
    ensures odbc.Some? ==> r.Ok? && forall key :: At(r.value, key) == MsSqlParam(p, odbc.value, key)
  {
    if odbc.None? {
      return Err(OptionsRequired);
    }
    var query: Query := map["driver" := Text(odbc.value)];
    if p.connectTimeout.Some? {
      query := query["Connect Timeout" := Text(Shown(Number(p.connectTimeout.value)))];
    }
    query := query["Encrypt" := Text(if p.Secure() then "yes" else "no")];
    if p.Secure() {
      query := query["TrustServerCertificate" := Text(if p.Verify() then "no" else "yes")];
    }
    return Ok(query);
  }

  /** The PostgreSQL branch of `_build_query`; the other branches follow. */
  method FillPostgres(driver: string, p: SqlProps, useAsync: bool) returns (query: Query)
    ensures forall key :: At(query, key) == PostgresParam(driver, p, useAsync, key)
  {
    query := map[];
    if p.connectTimeout.Some? {
      query := query["connect_timeout" := Number(p.connectTimeout.value)];
    }
    if p.Secure() {
      query := query["sslmode" := Text(if p.Verify() then "verify-full" else "require")];
      if useAsync && driver == "asyncpg" {
        query := query["ssl" := Flag(true)];
      }
      if p.HasCert() {
        query := query["sslrootcert" := Text(p.caCert.value)];
      }
    }
  }

  /** MySQL. */
  method FillMySql(p: SqlProps, useAsync: bool) returns (query: Query)
    ensures forall key :: At(query, key) == MySqlParam(p, useAsync, key)
  {
    query := map[];
    if p.connectTimeout.Some? {
      query := query["connect_timeout" := Number(p.connectTimeout.value)];
    }
    if !useAsync && p.sendReceiveTimeout.Some? {
      query := query["read_timeout" := Number(p.sendReceiveTimeout.value)];
      query := query["write_timeout" := Number(p.sendReceiveTimeout.value)];
    }
    if p.Secure() && p.HasCert() {
      query := query["ssl_ca" := Text(p.caCert.value)];
    }
  }

  /** MongoDB, in milliseconds. */
  method FillMongoDb(p: SqlProps) returns (query: Query)
    ensures forall key :: At(query, key) == MongoDbParam(p, key)
  {
    query := map[];
    if p.connectTimeout.Some? {
      query := query["connectTimeoutMS" := Number(p.connectTimeout.value * 1000)];
    }
    if p.sendReceiveTimeout.Some? {
      query := query["socketTimeoutMS" := Number(p.sendReceiveTimeout.value * 1000)];
    }
    if p.Secure() {
      query := query["tls" := Flag(true)];
      query := query["tlsAllowInvalidCertificates" := Flag(!p.Verify())];
      if p.HasCert() {
        query := query["tlsCAFile" := Text(p.caCert.value)];
      }
    }
  }

  /** ClickHouse: the native driver, or HTTP for any other. */
  method FillClickHouse(driver: string, p: SqlProps) returns (query: Query)
    ensures forall key :: At(query, key) == ClickHouseParam(driver == "native", p, key)
  {
    query := map[];
    if driver == "native" {
      if p.Secure() {
        query := query["secure" := Flag(true)];
        query := query["verify" := Flag(p.Verify())];
        if p.HasCert() {
          query := query["ca_certs" := Text(p.caCert.value)];
        }
      }
      if p.connectTimeout.Some? {
        query := query["connect_timeout" := Number(p.connectTimeout.value)];
      }
      if p.syncRequestTimeout.Some? {
        query := query["sync_request_timeout" := Number(p.syncRequestTimeout.value)];
      }
    } else {
      query := query["protocol" := Text(if p.Secure() then "https" else "http")];
      query := query["verify" := Flag(p.Verify())];
      if p.HasCert() {
        query := query["ca_certs" := Text(p.caCert.value)];
      }
      if p.connectTimeout.Some? {
        query := query["timeout" := Number(p.connectTimeout.value)];
      }
    }
  }

  /** Oracle. */
  method FillOracle(p: SqlProps) returns (query: Query)
    ensures forall key :: At(query, key) == OracleParam(p, key)
  {
    query := map[];
    if p.connectTimeout.Some? {
      query := query["tcp_connect_timeout" := Number(p.connectTimeout.value)];
    }
    if p.Secure() {
      query := query["ssl_server_dn_match" := Flag(p.Verify())];
      if p.Verify() && p.HasCert() {
        query := query["ssl_cert" := Text(p.caCert.value)];
      }
    }
    query := query["service_name" := Text(p.database)];
  }

  /** `_build_query`: the parameters, as text. */
  method BuildQuery(t: ConnectionType, driver: string, p: SqlProps, odbc: Option<string>, useAsync: bool)
    returns (r: Result<map<string, string>, SqlError>)
    ensures LacksOptions(t, odbc) ==> r == Err(OptionsRequired)
    ensures !LacksOptions(t, odbc) ==>
              r.Ok? && forall key :: TextAt(r.value, key) == ShownAt(RuntimeParam(t, driver, p, odbc, useAsync, key))
  {
    var query: Query := map[];
    if t.Postgres? {
      query := FillPostgres(driver, p, useAsync);
    } else if t.MySql? {
      query := FillMySql(p, useAsync);
    } else if t.MongoDb? {
      query := FillMongoDb(p);
    } else if t.ClickHouse? {
      query := FillClickHouse(driver, p);
    } else if t.MsSql? {
      var options := BuildMsSqlQuery(p, odbc);
      if options.Err? {
        return Err(options.error);
      }
      query := query + options.value;
      assert query == options.value;
    } else if t.Oracle? {
      query := FillOracle(p);
    }
    assert !LacksOptions(t, odbc);
    assert forall key :: At(query, key) == RuntimeParam(t, driver, p, odbc, useAsync, key);
    var text := map k | k in query :: Shown(query[k]);
    forall key ensures TextAt(text, key) == ShownAt(RuntimeParam(t, driver, p, odbc, useAsync, key)) {
      assert TextAt(text, key) == ShownAt(At(query, key));
    }
    return Ok(text);
  }

  // ---------- URLs ----------

  datatype Url = Url(
    dialect: string,
    username: string,
    password: Option<string>,
    host: string,
    port: Option<int>,
    database: Option<string>,
    query: map<string, string>)

  predicate NamesInstance(p: SqlProps) {
    p.instance.Some? && p.instance.value != ""
  }

  /** The host of a URL: for MSSQL a named instance is part of it. */
  function HostOf(t: ConnectionType, p: SqlProps): string {
    if t.MsSql? && NamesInstance(p) then p.host + "\\" + p.instance.value else p.host
  }

  /** `_build_mssql_url`: a non-empty instance name moves into the host and drops the port. */
  method BuildMsSqlUrl(dialect: string, p: SqlProps, password: Option<string>, query: map<string, string>)
    returns (url: Url)
    ensures url.port == if NamesInstance(p) then None else p.port
    ensures url.host == HostOf(MsSql, p)
    ensures url.dialect == dialect && url.username == p.username && url.password == password
    ensures url.database == Some(p.database) && url.query == query
  {
    var host := p.host;
    var port := p.port;
    if p.instance.Some? && p.instance.value != "" {
      host := host + "\\" + p.instance.value;
      port := None;
    }
    return Url(dialect, p.username, password, host, port, Some(p.database), query);
  }

  /** Why `build_connection_url` fails, if it does. */
  function UrlFailure(prefer: Mode, t: ConnectionType, driver: Option<string>, psycopgInstalled: bool, p: SqlProps,
                      odbc: Option<string>): Option<SqlError>
  {
    if !Sql(t) then Some(NotSupported)
    else
      var runtime := ResolveRuntime(prefer, t, driver, psycopgInstalled);
      if runtime.Err? then Some(runtime.error)
      else if LacksOptions(t, odbc) then Some(OptionsRequired)
      else None
  }

  /** `build_connection_url`. Every type but MSSQL has a port; Oracle's database is in the query. */
  method BuildConnectionUrl(prefer: Mode, t: ConnectionType, driver: Option<string>, psycopgInstalled: bool,
                            p: SqlProps,
      password: Option<string>, odbc: Option<string>) returns (r: Result<Url, SqlError>)
    requires t.MsSql? || p.port.Some?
    ensures r.Err? <==> UrlFailure(prefer, t, driver, psycopgInstalled, p, odbc).Some?
    ensures r.Err? ==> UrlFailure(prefer, t, driver, psycopgInstalled, p, odbc) == Some(r.error)
    ensures r.Ok? ==>
              var runtime := ResolveRuntime(prefer, t, driver, psycopgInstalled).value;
              && r.value.dialect == runtime.dialect
              && r.value.username == p.username && r.value.password == password
              && r.value.database == (if t.Oracle? then None else Some(p.database))
              && !LacksOptions(t, odbc)
              && forall key ::
                   TextAt(r.value.query, key) ==
                     ShownAt(RuntimeParam(t, runtime.driver, p, odbc, runtime.useAsync, key))
    ensures r.Ok? ==> r.value.host == HostOf(t, p)
    ensures r.Ok? ==> r.value.port == if t.MsSql? && NamesInstance(p) then None else p.port
  {
    if !Sql(t) {
      return Err(NotSupported);
    }
    var resolved := ResolveRuntime(prefer, t, driver, psycopgInstalled);
    if resolved.Err? {
      return Err(resolved.error);
    }
    var runtime := resolved.value;
    var query := BuildQuery(t, runtime.driver, p, odbc, runtime.useAsync);
    if query.Err? {
      return Err(query.error);
    }
    if t.MsSql? {
      var url := BuildMsSqlUrl(runtime.dialect, p, password, query.value);
      return Ok(url);
    }
    var database := if t.Oracle? then None else Some(p.database);
    return Ok(Url(runtime.dialect, p.username, password, p.host, p.port, database, query.value));
  }
}
