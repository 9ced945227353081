/** The legacy query adapters, and their agreement with the runtime connector's query. */
module LegacyAdapters {
  import opened Values
  import opened ConnectionTypes
  import opened SqlUrls

  datatype Adapter =
    | PostgresAdapter
    | AsyncpgAdapter
    | PyMySqlAdapter
    | AioSqlAdapter
    | MongoAdapter
    | NativeAdapter
    | HttpAdapter
    | OdbcAdapter          // the pyodbc and the aioodbc adapter are the same code
    | OracleAdapter

  datatype Dialect = Dialect(name: string, adapter: Adapter)

  /** `DIALECTS`; MongoDB is keyed by the type alone. */
  function Dialects(t: ConnectionType, driver: string): Option<Dialect> {
    match t
    case Postgres =>
      if driver == "psycopg" then Some(Dialect("postgresql+psycopg", PostgresAdapter))
      else if driver == "psycopg2" then Some(Dialect("postgresql+psycopg2", PostgresAdapter))
      else if driver == "asyncpg" then Some(Dialect("postgresql+asyncpg", AsyncpgAdapter))
      else None
    case ClickHouse =>
      if driver == "native" then Some(Dialect("clickhouse+native", NativeAdapter))
      else if driver == "http" then Some(Dialect("clickhouse+http", HttpAdapter))
      else None
    case MySql =>
      if driver == "pymysql" then Some(Dialect("mysql+pymysql", PyMySqlAdapter))
      else if driver == "aiomysql" then Some(Dialect("mysql+aiomysql", AioSqlAdapter))
      else None
    case MsSql =>
      if driver == "pyodbc" then Some(Dialect("mssql+pyodbc", OdbcAdapter))
      else if driver == "aioodbc" then Some(Dialect("mssql+aioodbc", OdbcAdapter))
      else None
    case Oracle => if driver == "oracledb" then Some(Dialect("oracle+oracledb", OracleAdapter)) else None
    case MongoDb => Some(Dialect("mongodb", MongoAdapter))
    case _ => None
  }

  /** The legacy `verify` goes into the query as it is, null included. */
  function VerifyValue(p: SqlProps): Value {
    if p.verify.Some? then Flag(p.verify.value) else Nothing
  }

  // ---------- what each parameter of a legacy query is ----------

  /** PostgreSQL; only asyncpg leaves out the timeout and has a parameter for TLS of its own. */
  function PostgresLegacy(asyncpg: bool, p: SqlProps, key: string): Option<Value> {
    if key == "connect_timeout" then if asyncpg then None else Seconds(p.connectTimeout)
    else if key == "sslmode" then Only(p.Secure(), SslMode(p))
    else if key == "sslrootcert" then if p.Secure() then CertOf(p) else None
    else if key == "ssl" then Only(p.Secure() && asyncpg, Flag(true))
    else None
  }

  /** MySQL; only the blocking driver bounds reads and writes. */
  function MySqlLegacy(blocking: bool, p: SqlProps, key: string): Option<Value> {
    if key == "connect_timeout" then Seconds(p.connectTimeout)
    else if key == "ssl_ca" then if p.Secure() then CertOf(p) else None
    else if key == "read_timeout" || key == "write_timeout" then
      if blocking then Seconds(p.sendReceiveTimeout) else None
    else None
  }

  function MongoLegacy(p: SqlProps, key: string): Option<Value> {
    if key == "connectTimeoutMS" then Millis(p.connectTimeout)
    else if key == "socketTimeoutMS" then Millis(p.sendReceiveTimeout)
    else if key == "tls" then Only(p.Secure(), Flag(true))
    else if key == "tlsAllowInvalidCertificates" then Only(p.Secure(), Flag(!p.Verify()))
    else if key == "tlsCAFile" then if p.Secure() then CertOf(p) else None
    else None
  }

  function NativeLegacy(p: SqlProps, key: string): Option<Value> {
    if key == "secure" then Only(p.Secure(), Flag(true))
    else if key == "ca_certs" then if p.Secure() then CertOf(p) else None
    else if key == "verify" then Only(p.Secure(), VerifyValue(p))
    else if key == "connect_timeout" then Seconds(p.connectTimeout)
    else if key == "sync_request_timeout" then Seconds(p.syncRequestTimeout)
    else None
  }

  function HttpLegacy(p: SqlProps, key: string): Option<Value> {
    if key == "protocol" then Some(Text(if p.Secure() then "https" else "http"))
    else if key == "verify" then Some(VerifyValue(p))
    else if key == "ca_certs" then CertOf(p)
    else if key == "timeout" then Seconds(p.connectTimeout)
    else None
  }

  function OdbcLegacy(p: SqlProps, name: string, key: string): Option<Value> {
    if key == "driver" then Some(Text(name))
    else if key == "Connect Timeout" then
      if p.connectTimeout.Some? then Some(Text(Shown(Number(p.connectTimeout.value)))) else None
    else if key == "Encrypt" then Some(Text(if p.Secure() then "yes" else "no"))
    else if key == "TrustServerCertificate" then Only(p.Secure(), Text(if p.Verify() then "no" else "yes"))
    else None
  }

  function OracleLegacy(p: SqlProps, key: string): Option<Value> {
    if key == "tcp_connect_timeout" then Seconds(p.connectTimeout)
    else if key == "ssl_server_dn_match" then Only(p.Secure(), VerifyValue(p))
    else if key == "ssl_cert" then if p.Secure() && p.Verify() then CertOf(p) else None
    else if key == "service_name" then Some(Text(p.database))
    else None
  }

  /** An ODBC adapter needs the legacy driver name. */
  predicate LacksName(a: Adapter, driverName: Option<string>) {
    a.OdbcAdapter? && (driverName.None? || driverName.value == "")
  }

  function LegacyParam(a: Adapter, p: SqlProps, driverName: Option<string>, key: string): Option<Value>
    requires !LacksName(a, driverName)
  {
    match a
    case PostgresAdapter => PostgresLegacy(false, p, key)
    case AsyncpgAdapter => PostgresLegacy(true, p, key)
    case PyMySqlAdapter => MySqlLegacy(true, p, key)
    case AioSqlAdapter => MySqlLegacy(false, p, key)
    case MongoAdapter => MongoLegacy(p, key)
    case NativeAdapter => NativeLegacy(p, key)
    case HttpAdapter => HttpLegacy(p, key)
    case OdbcAdapter => OdbcLegacy(p, driverName.value, key)
    case OracleAdapter => OracleLegacy(p, key)
  }

  // ---------- the adapters ----------

  method PostgresToQuery(props: Option<SqlProps>) returns (q: Query)
    ensures props.None? ==> q == map[]
    ensures props.Some? ==> forall key :: At(q, key) == LegacyParam(PostgresAdapter, props.value, None, key)
  {
    q := map[];
    if props.None? {
      return;
    }
    var p := props.value;
    if p.connectTimeout.Some? {
      q := q["connect_timeout" := Number(p.connectTimeout.value)];
    }
    if p.Secure() {
      q := q["sslmode" := Text(if p.Verify() then "verify-full" else "require")];
      if p.HasCert() {
        q := q["sslrootcert" := Text(p.caCert.value)];
      }
    }
  }

  method AsyncpgToQuery(props: Option<SqlProps>) returns (q: Query)
    ensures props.None? ==> q == map[]
    ensures props.Some? ==> forall key :: At(q, key) == LegacyParam(AsyncpgAdapter, props.value, None, key)
  {
    q := map[];
    if props.None? {
      return;
    }
    var p := props.value;
    if p.Secure() {
      q := q["sslmode" := Text(if p.Verify() then "verify-full" else "require")];
      if p.HasCert() {
        q := q["sslrootcert" := Text(p.caCert.value)];
      }
      q := q["ssl" := Flag(true)];
    }
  }

  method PyMySqlToQuery(props: Option<SqlProps>) returns (q: Query)
    ensures props.None? ==> q == map[]
    ensures props.Some? ==> forall key :: At(q, key) == LegacyParam(PyMySqlAdapter, props.value, None, key)
  {
    q := map[];
    if props.None? {
      return;
    }
    var p := props.value;
    if p.connectTimeout.Some? {
      q := q["connect_timeout" := Number(p.connectTimeout.value)];
    }
    if p.Secure() && p.HasCert() {
      q := q["ssl_ca" := Text(p.caCert.value)];
    }
    if p.sendReceiveTimeout.Some? {
      q := q["read_timeout" := Number(p.sendReceiveTimeout.value)];
      q := q["write_timeout" := Number(p.sendReceiveTimeout.value)];
    }
  }

  method AioSqlToQuery(props: Option<SqlProps>) returns (q: Query)
    ensures props.None? ==> q == map[]
    ensures props.Some? ==> forall key :: At(q, key) == LegacyParam(AioSqlAdapter, props.value, None, key)
  {
    q := map[];
    if props.None? {
      return;
    }
    var p := props.value;
    if p.connectTimeout.Some? {
      q := q["connect_timeout" := Number(p.connectTimeout.value)];
    }
    if p.Secure() && p.HasCert() {
      q := q["ssl_ca" := Text(p.caCert.value)];
    }
  }

  method MongoToQuery(props: Option<SqlProps>) returns (q: Query)
    ensures props.None? ==> q == map[]
    ensures props.Some? ==> forall key :: At(q, key) == LegacyParam(MongoAdapter, props.value, None, key)
  {
    q := map[];
    if props.None? {
      return;
    }
    var p := props.value;
    if p.connectTimeout.Some? {
      q := q["connectTimeoutMS" := Number(p.connectTimeout.value * 1000)];
    }
    if p.sendReceiveTimeout.Some? {
      q := q["socketTimeoutMS" := Number(p.sendReceiveTimeout.value * 1000)];
    }
    if p.Secure() {
      q := q["tls" := Flag(true)];
      q := q["tlsAllowInvalidCertificates" := Flag(!p.Verify())];
      if p.HasCert() {
        q := q["tlsCAFile" := Text(p.caCert.value)];
      }
    }
  }

  method NativeToQuery(props: Option<SqlProps>) returns (q: Query)
    ensures props.None? ==> q == map[]
    ensures props.Some? ==> forall key :: At(q, key) == LegacyParam(NativeAdapter, props.value, None, key)
  {
    q := map[];
    if props.None? {
      return;
    }
    var p := props.value;
    if p.Secure() {
      q := q["secure" := Flag(true)];
      if p.HasCert() {
        q := q["ca_certs" := Text(p.caCert.value)];
      }
      q := q["verify" := VerifyValue(p)];
    }
    if p.connectTimeout.Some? {
      q := q["connect_timeout" := Number(p.connectTimeout.value)];
    }
    if p.syncRequestTimeout.Some? {
      q := q["sync_request_timeout" := Number(p.syncRequestTimeout.value)];
    }
  }

  method HttpToQuery(props: Option<SqlProps>) returns (q: Query)
    ensures props.None? ==> q == map[]
    ensures props.Some? ==> forall key :: At(q, key) == LegacyParam(HttpAdapter, props.value, None, key)
  {
    q := map[];
    if props.None? {
      return;
    }
    var p := props.value;
    q := q["protocol" := Text(if p.Secure() then "https" else "http")];
    q := q["verify" := VerifyValue(p)];
    if p.HasCert() {
      q := q["ca_certs" := Text(p.caCert.value)];
    }
    if p.connectTimeout.Some? {
      q := q["timeout" := Number(p.connectTimeout.value)];
    }
  }

  method OdbcToQuery(props: Option<SqlProps>, driverName: Option<string>) returns (r: Result<Query, SqlError>)
    ensures props.None? ==> r == Ok(map[])
    ensures props.Some? && LacksName(OdbcAdapter, driverName) ==> r == Err(DriverNotSpecified)
    ensures props.Some? && !LacksName(OdbcAdapter, driverName) ==>
              r.Ok? && forall key :: At(r.value, key) == LegacyParam(OdbcAdapter, props.value, driverName, key)
  {
    var q: Query := map[];
    if props.None? {
      return Ok(q);
    }
    var p := props.value;
    if driverName.None? || driverName.value == "" {
      return Err(DriverNotSpecified);
    }
    q := q["driver" := Text(driverName.value)];
    if p.connectTimeout.Some? {
      q := q["Connect Timeout" := Text(Shown(Number(p.connectTimeout.value)))];
    }
    if p.Secure() {
      q := q["Encrypt" := Text("yes")];
      q := q["TrustServerCertificate" := Text(if p.Verify() then "no" else "yes")];
    } else {
      q := q["Encrypt" := Text("no")];
    }
    return Ok(q);
  }

  method OracleToQuery(props: Option<SqlProps>) returns (q: Query)
    ensures props.None? ==> q == map[]
    ensures props.Some? ==> forall key :: At(q, key) == LegacyParam(OracleAdapter, props.value, None, key)
  {
    q := map[];
    if props.None? {
      return;
    }
    var p := props.value;
    if p.connectTimeout.Some? {
      q := q["tcp_connect_timeout" := Number(p.connectTimeout.value)];
    }
    if p.Secure() {
      q := q["ssl_server_dn_match" := VerifyValue(p)];
      if p.Verify() && p.HasCert() {
        q := q["ssl_cert" := Text(p.caCert.value)];
      }
    }
    q := q["service_name" := Text(p.database)];
  }

  // ---------- agreement ----------

  /** Whether a driver's query carries the `verify` setting itself. */
  predicate ShowsVerify(t: ConnectionType, driver: string, p: SqlProps) {
    || (t.ClickHouse? && (driver == "http" || p.Secure()))
    || (t.Oracle? && p.Secure())
  }

  /** The one parameter the runtime has beyond the legacy query: asyncpg's connection timeout. */
  predicate Extra(t: ConnectionType, driver: string, key: string) {
    t.Postgres? && driver == "asyncpg" && key == "connect_timeout"
  }

  predicate AgreesAt(t: ConnectionType, r: Runtime, a: Adapter, p: SqlProps, odbc: Option<string>, key: string)
    requires !LacksOptions(t, odbc) && !LacksName(a, odbc)
  {
    var runtime := RuntimeParam(t, r.driver, p, odbc, r.useAsync, key);
    var legacy := LegacyParam(a, p, odbc, key);
    if Extra(t, r.driver, key) then runtime == Seconds(p.connectTimeout) && legacy.None?
    else ShownAt(runtime) == ShownAt(legacy)
  }

  /** Both builders succeed, and key by key the runtime's text is the legacy one's, `Extra` aside. */
  ghost predicate Agrees(t: ConnectionType, r: Runtime, a: Adapter, p: SqlProps, odbc: Option<string>) {
    && !LacksOptions(t, odbc) && !LacksName(a, odbc)
    && forall key :: AgreesAt(t, r, a, p, odbc, key)
  }

  /** When the two queries agree. */
  predicate Comparable(t: ConnectionType, driver: string, p: SqlProps, odbc: Option<string>) {
    && (t.MsSql? ==> odbc.Some? && odbc.value != "")
    && (ShowsVerify(t, driver, p) ==> p.verify.Some?)
  }

  /** A null `verify` is shown as False by the runtime and as None by the legacy adapters. */
  lemma VerifyShown(p: SqlProps)
    ensures Shown(Flag(p.Verify())) == Shown(VerifyValue(p)) <==> p.verify.Some?
  {
    assert Shown(Flag(false)) != Shown(Nothing);
  }

  lemma ClickHouseAgrees(r: Runtime, a: Adapter, p: SqlProps, odbc: Option<string>)
    requires a == if r.driver == "native" then NativeAdapter else HttpAdapter
    ensures Agrees(ClickHouse, r, a, p, odbc) <==> ((a.HttpAdapter? || p.Secure()) ==> p.verify.Some?)
  {
    VerifyShown(p);
    assert AgreesAt(ClickHouse, r, a, p, odbc, "verify") <==> ((a.HttpAdapter? || p.Secure()) ==> p.verify.Some?);
    forall key | key != "verify" ensures AgreesAt(ClickHouse, r, a, p, odbc, key) {
    }
  }

  lemma OracleAgreesBeside(r: Runtime, p: SqlProps, odbc: Option<string>, key: string)
    ensures key != "ssl_server_dn_match" ==> AgreesAt(Oracle, r, OracleAdapter, p, odbc, key)
  {
  }

  lemma OracleAgrees(r: Runtime, p: SqlProps, odbc: Option<string>)
    ensures Agrees(Oracle, r, OracleAdapter, p, odbc) <==> (p.Secure() ==> p.verify.Some?)
  {
    VerifyShown(p);
    assert AgreesAt(Oracle, r, OracleAdapter, p, odbc, "ssl_server_dn_match") <==> (p.Secure() ==> p.verify.Some?);
    forall key | key != "ssl_server_dn_match" ensures AgreesAt(Oracle, r, OracleAdapter, p, odbc, key) {
      OracleAgreesBeside(r, p, odbc, key);
    }
  }

  /** Every driver the runtime resolves is in the legacy table, under the same dialect. */
  lemma SameDialect(prefer: Mode, t: ConnectionType, driver: Option<string>, psycopgInstalled: bool)
    requires ResolveRuntime(prefer, t, driver, psycopgInstalled).Ok?
    ensures var r := ResolveRuntime(prefer, t, driver, psycopgInstalled).value;
            var d := Dialects(t, r.driver);
            && d.Some? && d.value.name == r.dialect
            && (d.value.adapter.AsyncpgAdapter? <==> t.Postgres? && r.driver == "asyncpg")
            && (d.value.adapter.AsyncpgAdapter? ==> r.useAsync)
            && (t.MySql? ==> (r.useAsync <==> d.value.adapter.AioSqlAdapter?))
  {
    assert "psycopg"[0] != "asyncpg"[0] && "pyodbc"[0] != "aioodbc"[0];
  }

  /** And the two queries agree exactly when, for MSSQL, an ODBC driver is named, and a `verify` that
      is shown is not null; asyncpg alone also carries the connection timeout. */
  lemma RuntimeMatchesLegacy(prefer: Mode, t: ConnectionType, driver: Option<string>, psycopgInstalled: bool,
                             p: SqlProps, odbc: Option<string>)
    requires ResolveRuntime(prefer, t, driver, psycopgInstalled).Ok?
    ensures var r := ResolveRuntime(prefer, t, driver, psycopgInstalled).value;
            var d := Dialects(t, r.driver);
            && d.Some? && d.value.name == r.dialect
            && (Agrees(t, r, d.value.adapter, p, odbc) <==> Comparable(t, r.driver, p, odbc))
  {
    SameDialect(prefer, t, driver, psycopgInstalled);
    var r := ResolveRuntime(prefer, t, driver, psycopgInstalled).value;
    var a := Dialects(t, r.driver).value.adapter;
    if t.ClickHouse? {
      assert "http" != "native";
      ClickHouseAgrees(r, a, p, odbc);
    } else if t.Oracle? {
      OracleAgrees(r, p, odbc);
    } else if Comparable(t, r.driver, p, odbc) {
      forall key ensures AgreesAt(t, r, a, p, odbc, key) {
      }
    }
  }

  /** Conversely, every entry of the legacy table resolves on an async-preferring connector. */
  lemma LegacyEntriesResolve(t: ConnectionType, driver: string, psycopgInstalled: bool)
    requires Dialects(t, driver).Some? && (t.MongoDb? <==> driver == "")
    ensures ResolveRuntime(Async, t, Some(driver), psycopgInstalled).Ok?
    ensures ResolveRuntime(Async, t, Some(driver), psycopgInstalled).value.dialect == Dialects(t, driver).value.name
  {
    assert "psycopg"[0] != "asyncpg"[0] && "pyodbc"[0] != "aioodbc"[0];
  }
}
