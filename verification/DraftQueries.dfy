/** What the query of a SQL URL shows of a draft, key by key from the draft's own JSON: an independent
    reference for the property classes, their defaults, the query builders and the rendering as text. */
module DraftQueries {
  import opened Values
  import opened ConnectionTypes
  import opened SqlUrls
  import SqlSchemas

  // ---------- numbers as text ----------

  function ReadDigits(s: string): int {
    if s == "" then 0 else 10 * ReadDigits(s[..|s| - 1]) + (s[|s| - 1] as int - '0' as int)
  }

  /** A number is shown in decimal: digits only, no leading zero, and they read as the number. */
  lemma {:induction false} DigitsRead(n: nat)
    ensures var s := Digits(n);
            && s != "" && (forall c | c in s :: '0' <= c <= '9')
            && (s[0] == '0' ==> n == 0)
            && ReadDigits(s) == n
  {
    if n < 10 {
      assert Digits(n)[..0] == "";
    } else {
      DigitsRead(n / 10);
      assert Digits(n)[..|Digits(n)| - 1] == Digits(n / 10);
    }
  }

  lemma DefaultsAsText()
    ensures Shown(Number(30)) == "30" && Shown(Number(60)) == "60"
    ensures Shown(Number(30000)) == "30000" && Shown(Number(60000)) == "60000"
  {
    assert Digits(3) == "3" && Digits(30) == "30" && Digits(300) == "300" && Digits(3000) == "3000";
    assert Digits(6) == "6" && Digits(60) == "60" && Digits(600) == "600" && Digits(6000) == "6000";
  }

  // ---------- the reference ----------

  /** The flag is given and true; an omitted flag is false. */
  predicate Yes(e: Mapping, field: string) {
    field in e && e[field] == Bool(true)
  }

  /** A timeout in seconds, times the unit: omitted it is the default, and null it is not shown. */
  function Timeout(e: Mapping, field: string, default: int, unit: int): Option<string> {
    if field !in e then Some(Shown(Number(default * unit)))
    else if e[field].Int? then Some(Shown(Number(e[field].n * unit)))
    else None
  }

  /** A certificate that is given and not empty. */
  function Certificate(e: Mapping): Option<string> {
    if "ca_cert_string" in e && e["ca_cert_string"].Str? && e["ca_cert_string"].s != ""
    then Some(e["ca_cert_string"].s) else None
  }

  function When(shown: bool, text: string): Option<string> {
    if shown then Some(text) else None
  }

  function Unless(hidden: bool, text: Option<string>): Option<string> {
    if hidden then None else text
  }

  function TrueOrFalse(b: bool): string {
    if b then "True" else "False"
  }

  function PostgresText(driver: string, useAsync: bool, e: Mapping, key: string): Option<string> {
    match key
    case "connect_timeout" => Timeout(e, "connect_timeout", 30, 1)
    case "sslmode" => When(Yes(e, "secure"), if Yes(e, "verify") then "verify-full" else "require")
    case "ssl" => When(Yes(e, "secure") && useAsync && driver == "asyncpg", "True")
    case "sslrootcert" => Unless(!Yes(e, "secure"), Certificate(e))
    case _ => None
  }

  function MySqlText(useAsync: bool, e: Mapping, key: string): Option<string> {
    match key
    case "connect_timeout" => Timeout(e, "connect_timeout", 30, 1)
    case "read_timeout" => Unless(useAsync, Timeout(e, "send_receive_timeout", 60, 1))
    case "write_timeout" => Unless(useAsync, Timeout(e, "send_receive_timeout", 60, 1))
    case "ssl_ca" => Unless(!Yes(e, "secure"), Certificate(e))
    case _ => None
  }

  function MongoDbText(e: Mapping, key: string): Option<string> {
    match key
    case "connectTimeoutMS" => Timeout(e, "connect_timeout", 30, 1000)
    case "socketTimeoutMS" => Timeout(e, "send_receive_timeout", 60, 1000)
    case "tls" => When(Yes(e, "secure"), "True")
    case "tlsAllowInvalidCertificates" => When(Yes(e, "secure"), TrueOrFalse(!Yes(e, "verify")))
    case "tlsCAFile" => Unless(!Yes(e, "secure"), Certificate(e))
    case _ => None
  }

  function NativeText(e: Mapping, key: string): Option<string> {
    match key
    case "secure" => When(Yes(e, "secure"), "True")
    case "verify" => When(Yes(e, "secure"), TrueOrFalse(Yes(e, "verify")))
    case "ca_certs" => Unless(!Yes(e, "secure"), Certificate(e))
    case "connect_timeout" => Timeout(e, "connect_timeout", 30, 1)
    case "sync_request_timeout" => Timeout(e, "sync_request_timeout", 60, 1)
    case _ => None
  }

  function HttpText(e: Mapping, key: string): Option<string> {
    match key
    case "protocol" => Some(if Yes(e, "secure") then "https" else "http")
    case "verify" => Some(TrueOrFalse(Yes(e, "verify")))
    case "ca_certs" => Certificate(e)
    case "timeout" => Timeout(e, "connect_timeout", 30, 1)
    case _ => None
  }

  function MsSqlText(e: Mapping, odbc: string, key: string): Option<string> {
    match key
    case "driver" => Some(odbc)
    case "Connect Timeout" => Timeout(e, "connect_timeout", 30, 1)
    case "Encrypt" => Some(if Yes(e, "secure") then "yes" else "no")
    case "TrustServerCertificate" => When(Yes(e, "secure"), if Yes(e, "verify") then "no" else "yes")
    case _ => None
  }

  function OracleText(e: Mapping, key: string): Option<string> {
    match key
    case "tcp_connect_timeout" => Timeout(e, "connect_timeout", 30, 1)
    case "ssl_server_dn_match" => When(Yes(e, "secure"), TrueOrFalse(Yes(e, "verify")))
    case "ssl_cert" => Unless(!(Yes(e, "secure") && Yes(e, "verify")), Certificate(e))
    case "service_name" => if Lookup(e, "database").Str? then Some(Lookup(e, "database").s) else None
    case _ => None
  }

  /** The text of a query key for a draft of the type, whose ODBC driver is `odbc`. */
  function DraftParam(t: ConnectionType, driver: string, useAsync: bool, e: Mapping, odbc: string,
                      key: string): Option<string>
  {
    match t
    case Postgres => PostgresText(driver, useAsync, e, key)
    case MySql => MySqlText(useAsync, e, key)
    case MongoDb => MongoDbText(e, key)
    case ClickHouse => if driver == "native" then NativeText(e, key) else HttpText(e, key)
    case MsSql => MsSqlText(e, odbc, key)
    case Oracle => OracleText(e, key)
    case _ => None
  }

  // ---------- the proof, type by type ----------

  /** What the fields every property class has read from JSON. */
  ghost predicate ReadFrom(e: Mapping, p: SqlProps) {
    && (p.secure == Some(true) <==> Yes(e, "secure")) && (p.verify == Some(true) <==> Yes(e, "verify"))
    && p.connectTimeout == TimeoutValue(e, "connect_timeout", 30)
    && p.sendReceiveTimeout == TimeoutValue(e, "send_receive_timeout", 60)
    && p.syncRequestTimeout == TimeoutValue(e, "sync_request_timeout", 60)
    && (p.HasCert() <==> Certificate(e).Some?) && (p.HasCert() ==> p.caCert == Certificate(e))
    && Lookup(e, "database") == Str(p.database)
  }

  function TimeoutValue(e: Mapping, field: string, default: int): Option<int> {
    if field !in e then Some(default) else if e[field].Int? then Some(e[field].n) else None
  }

  lemma CommonReadFrom(e: Mapping)
    ensures SqlSchemas.ParseCommon(e).Some? ==> ReadFrom(e, SqlSchemas.ParseCommon(e).value)
  {
  }

  lemma SqlReadFrom(e: Mapping)
    ensures SqlSchemas.ParseSql(e).Some? ==> ReadFrom(e, SqlSchemas.ParseSql(e).value)
    ensures SqlSchemas.ParseMsSql(e).Some? ==> ReadFrom(e, SqlSchemas.ParseMsSql(e).value)
  {
    CommonReadFrom(e);
  }

  lemma SecondsShown(e: Mapping)
    ensures ShownAt(Seconds(TimeoutValue(e, "connect_timeout", 30))) == Timeout(e, "connect_timeout", 30, 1)
    ensures ShownAt(Seconds(TimeoutValue(e, "send_receive_timeout", 60))) == Timeout(e, "send_receive_timeout", 60, 1)
    ensures ShownAt(Seconds(TimeoutValue(e, "sync_request_timeout", 60))) == Timeout(e, "sync_request_timeout", 60, 1)
  {
  }

  lemma MillisShown(e: Mapping)
    ensures ShownAt(Millis(TimeoutValue(e, "connect_timeout", 30))) == Timeout(e, "connect_timeout", 30, 1000)
    ensures ShownAt(Millis(TimeoutValue(e, "send_receive_timeout", 60))) == Timeout(e, "send_receive_timeout", 60, 1000)
  {
  }

  lemma PostgresShown(driver: string, useAsync: bool, e: Mapping, p: SqlProps, key: string)
    requires ReadFrom(e, p)
    ensures ShownAt(PostgresParam(driver, p, useAsync, key)) == PostgresText(driver, useAsync, e, key)
  {
    SecondsShown(e);
  }

  lemma MySqlShown(useAsync: bool, e: Mapping, p: SqlProps, key: string)
    requires ReadFrom(e, p)
    ensures ShownAt(MySqlParam(p, useAsync, key)) == MySqlText(useAsync, e, key)
  {
    SecondsShown(e);
  }

  lemma MongoDbShown(e: Mapping, p: SqlProps, key: string)
    requires ReadFrom(e, p)
    ensures ShownAt(MongoDbParam(p, key)) == MongoDbText(e, key)
  {
    MillisShown(e);
  }

  lemma NativeShown(e: Mapping, p: SqlProps, key: string)
    requires ReadFrom(e, p)
    ensures ShownAt(ClickHouseParam(true, p, key)) == NativeText(e, key)
  {
    SecondsShown(e);
  }

  lemma HttpShown(e: Mapping, p: SqlProps, key: string)
    requires ReadFrom(e, p)
    ensures ShownAt(ClickHouseParam(false, p, key)) == HttpText(e, key)
  {
    SecondsShown(e);
  }

  lemma MsSqlShown(e: Mapping, p: SqlProps, odbc: string, key: string)
    requires ReadFrom(e, p)
    ensures ShownAt(MsSqlParam(p, odbc, key)) == MsSqlText(e, odbc, key)
  {
    SecondsShown(e);
  }

  lemma OracleShown(e: Mapping, p: SqlProps, key: string)
    requires ReadFrom(e, p)
    ensures ShownAt(OracleParam(p, key)) == OracleText(e, key)
  {
    SecondsShown(e);
  }

  /** The runtime query of any SQL draft is the reference's, key by key. */
  lemma QueryShowsDraft(t: ConnectionType, driver: string, useAsync: bool, e: Mapping, odbc: Option<string>,
                        key: string)
    requires Sql(t) && !LacksOptions(t, odbc)
    ensures var p := if t.MsSql? then SqlSchemas.ParseMsSql(e) else SqlSchemas.ParseSql(e);
            p.Some? ==>
              ShownAt(RuntimeParam(t, driver, p.value, odbc, useAsync, key)) ==
              DraftParam(t, driver, useAsync, e, if odbc.Some? then odbc.value else "", key)
  {
    SqlReadFrom(e);
    var name := if odbc.Some? then odbc.value else "";
    var read := if t.MsSql? then SqlSchemas.ParseMsSql(e) else SqlSchemas.ParseSql(e);
    if read.Some? {
      var p := read.value;
      match t
      case Postgres => PostgresShown(driver, useAsync, e, p, key);
      case MySql => MySqlShown(useAsync, e, p, key);
      case MongoDb => MongoDbShown(e, p, key);
      case ClickHouse =>
        NativeShown(e, p, key);
        HttpShown(e, p, key);
      case MsSql => MsSqlShown(e, p, name, key);
      case Oracle => OracleShown(e, p, key);
    }
  }
}
