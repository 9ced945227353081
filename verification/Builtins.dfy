/** The built-in classes as one Pydantic library over a file system, and the premises of the general
    theorems proved for it. All are stable but S3 properties, whose prefix may need a second pass. */
module Builtins {
  import opened Values
  import opened ModelRefs
  import opened Schemas
  import opened Registries
  import opened ConnectionTypes
  import opened ConnectorSchemas
  import opened DefaultRegistry
  import SqlSchemas
  import SqlUrls

  datatype Class =
    | FtpProperties | FtpSecrets
    | SftpProperties | SftpSecrets
    | S3Properties | S3Secrets
    | KafkaProperties | KafkaSecrets
    | SqlProperties | MsSqlProperties | SqlSecrets
    | OdbcOptions | NoOptionsAtAll

  function RefOf(k: Class): ClassRef {
    match k
    case FtpProperties => PropertiesOf(ConnectionType.Ftp)
    case FtpSecrets => SecretsOf(ConnectionType.Ftp)
    case SftpProperties => PropertiesOf(ConnectionType.Sftp)
    case SftpSecrets => SecretsOf(ConnectionType.Sftp)
    case S3Properties => PropertiesOf(ConnectionType.S3)
    case S3Secrets => SecretsOf(ConnectionType.S3)
    case KafkaProperties => PropertiesOf(Kafka)
    case KafkaSecrets => SecretsOf(Kafka)
    case SqlProperties => SQL_PROPERTIES
    case MsSqlProperties => MSSQL_PROPERTIES
    case SqlSecrets => SQL_SECRETS
    case OdbcOptions => ODBC_OPTIONS
    case NoOptionsAtAll => NO_OPTIONS
  }

  /** First letter and length tell the class names apart. */
  function Mark(k: Class): (char, nat) {
    match k
    case FtpProperties => ('F', 13)
    case FtpSecrets => ('F', 10)
    case SftpProperties => ('S', 14)
    case SftpSecrets => ('S', 11)
    case S3Properties => ('S', 12)
    case S3Secrets => ('S', 9)
    case KafkaProperties => ('K', 15)
    case KafkaSecrets => ('K', 12)
    case SqlProperties => ('S', 13)
    case MsSqlProperties => ('M', 15)
    case SqlSecrets => ('S', 10)
    case OdbcOptions => ('O', 17)
    case NoOptionsAtAll => ('N', 15)
  }

  lemma MarkOf(k: Class)
    ensures |RefOf(k).path| == 1 && |RefOf(k).path[0]| > 0 && (RefOf(k).path[0][0], |RefOf(k).path[0]|) == Mark(k)
  {
  }

  lemma RefsDiffer(k: Class, l: Class)
    ensures RefOf(k) == RefOf(l) <==> k == l
  {
    MarkOf(k);
    MarkOf(l);
  }

  function Known(c: ClassRef): Option<Class> {
    if c == RefOf(FtpProperties) then Some(FtpProperties)
    else if c == RefOf(FtpSecrets) then Some(FtpSecrets)
    else if c == RefOf(SftpProperties) then Some(SftpProperties)
    else if c == RefOf(SftpSecrets) then Some(SftpSecrets)
    else if c == RefOf(S3Properties) then Some(S3Properties)
    else if c == RefOf(S3Secrets) then Some(S3Secrets)
    else if c == RefOf(KafkaProperties) then Some(KafkaProperties)
    else if c == RefOf(KafkaSecrets) then Some(KafkaSecrets)
    else if c == RefOf(SqlProperties) then Some(SqlProperties)
    else if c == RefOf(MsSqlProperties) then Some(MsSqlProperties)
    else if c == RefOf(SqlSecrets) then Some(SqlSecrets)
    else if c == RefOf(OdbcOptions) then Some(OdbcOptions)
    else if c == RefOf(NoOptionsAtAll) then Some(NoOptionsAtAll)
    else None
  }

  lemma KnownRef(k: Class)
    ensures Known(RefOf(k)) == Some(k)
  {
    RefsDiffer(k, FtpProperties);
    RefsDiffer(k, FtpSecrets);
    RefsDiffer(k, SftpProperties);
    RefsDiffer(k, SftpSecrets);
    RefsDiffer(k, S3Properties);
    RefsDiffer(k, S3Secrets);
    RefsDiffer(k, KafkaProperties);
    RefsDiffer(k, KafkaSecrets);
    RefsDiffer(k, SqlProperties);
    RefsDiffer(k, MsSqlProperties);
    RefsDiffer(k, SqlSecrets);
    RefsDiffer(k, OdbcOptions);
    RefsDiffer(k, NoOptionsAtAll);
  }

  // ---------- one library ----------

  function DumpSql(p: Option<SqlUrls.SqlProps>): Option<Json> {
    if p.None? then None else Some(Dict(SqlSchemas.Dump(p.value)))
  }

  function StateOf(m: Option<Model>): Option<Json> {
    if m.None? then None else Some(m.value.state)
  }

  /** What a class accepts from JSON, as the dump of the instance it makes. */
  function Taken(isFile: string -> bool, k: Class, v: Json): Option<Json> {
    match k
    case FtpProperties => StateOf(ValidateFtp(v))
    case FtpSecrets => ValidateTexts({}, {"password"}, v)
    case SftpProperties => ValidateSftp(isFile, v)
    case SftpSecrets => ValidateTexts({}, {"password", "private_key_passphrase", "private_key_string"}, v)
    case S3Properties => ValidateS3(v)
    case S3Secrets => ValidateTexts({"access_token_id", "access_token_key"}, {"session_token"}, v)
    case KafkaProperties => StateOf(ValidateKafka(v))
    case KafkaSecrets => ValidateTexts({}, {"sasl_plain_password"}, v)
    case SqlProperties => if v.Dict? then DumpSql(SqlSchemas.ParseSql(v.entries)) else None
    case MsSqlProperties => if v.Dict? then DumpSql(SqlSchemas.ParseMsSql(v.entries)) else None
    case SqlSecrets => ValidateTexts({}, {"password"}, v)
    case OdbcOptions => ValidateOdbc(v)
    case NoOptionsAtAll => if v == Dict(map[]) then Some(v) else None
  }

  /** A dump with nothing left to normalise. */
  predicate SettledDump(k: Class, d: Json) {
    k.S3Properties? ==> d.Dict? && SettledPrefix(Lookup(d.entries, "prefix"))
  }

  lemma SqlTwice(v: Json)
    requires v.Dict?
    ensures var p := SqlSchemas.ParseSql(v.entries); p.Some? ==> SqlSchemas.ParseSql(SqlSchemas.Dump(p.value)) == p
    ensures var p := SqlSchemas.ParseMsSql(v.entries); p.Some? ==> SqlSchemas.ParseMsSql(SqlSchemas.Dump(p.value)) == p
  {
    SqlSchemas.ParsedForms(v.entries);
    var p, q := SqlSchemas.ParseSql(v.entries), SqlSchemas.ParseMsSql(v.entries);
    if p.Some? {
      SqlSchemas.TcpRoundTrip(p.value);
    }
    if q.Some? {
      if q.value.port.Some? {
        SqlSchemas.TcpRoundTrip(q.value);
      } else {
        SqlSchemas.NamedInstanceRoundTrip(q.value);
      }
    }
  }

  /** Every class takes its own dump, and as the same exactly when there is nothing left to normalise. */
  lemma TakenTwice(isFile: string -> bool, k: Class, v: Json)
    requires Taken(isFile, k, v).Some?
    ensures var d := Taken(isFile, k, v).value;
            && d.Dict? && Taken(isFile, k, d).Some?
            && (Taken(isFile, k, d) == Some(d) <==> SettledDump(k, d))
  {
    match k
    case FtpProperties => FtpStable(v);
    case FtpSecrets => TextsStable({}, {"password"}, v);
    case SftpProperties => SftpStable(isFile, v);
    case SftpSecrets => TextsStable({}, {"password", "private_key_passphrase", "private_key_string"}, v);
    case S3Properties => S3Twice(v);
    case S3Secrets => TextsStable({"access_token_id", "access_token_key"}, {"session_token"}, v);
    case KafkaProperties => KafkaStable(v);
    case KafkaSecrets => TextsStable({}, {"sasl_plain_password"}, v);
    case SqlProperties => SqlTwice(v);
    case MsSqlProperties => SqlTwice(v);
    case SqlSecrets => TextsStable({}, {"password"}, v);
    case OdbcOptions => OdbcStable(v);
    case NoOptionsAtAll =>
  }

  function Made(c: ClassRef, state: Option<Json>): Option<Model> {
    if state.None? then None else Some(Model(c, state.value))
  }

  /** Validation from JSON, from a dump, or from an instance of the class, judged by what it holds. */
  function BuiltinValidate(isFile: string -> bool, c: ClassRef, v: Input): Option<Model> {
    var k := Known(c);
    if k.None? then None
    else match v
      case FromJson(json) => Made(c, Taken(isFile, k.value, json))
      case FromPython(PyJson(json)) => Made(c, Taken(isFile, k.value, json))
      case FromPython(_) => None
      case FromModel(m) => if m.cls == c then Made(c, Taken(isFile, k.value, m.state)) else None
  }

  function DriverModules(): Modules {
    map["db_connection.domain.drivers" :=
          Namespace(map["ODBCDriverOptions" := Namespace(map[], Some(ODBC_OPTIONS)),
                        "NoDriverOptions" := Namespace(map[], Some(NO_OPTIONS))], None)]
  }

  function Builtin(isFile: string -> bool): Pydantic {
    Pydantic((c, v) => BuiltinValidate(isFile, c, v), (m: Model) => m.state, (m: Model) => PyJson(m.state),
             c => c == ODBC_OPTIONS || c == NO_OPTIONS, DriverModules())
  }

  /** Every instance holds its own dump, which its class takes again. */
  lemma MadeTakesDump(isFile: string -> bool, k: Class, v: Input)
    requires BuiltinValidate(isFile, RefOf(k), v).Some?
    ensures var m := BuiltinValidate(isFile, RefOf(k), v).value;
            && m.cls == RefOf(k) && m.state.Dict? && Taken(isFile, k, m.state).Some?
            && (Taken(isFile, k, m.state) == Some(m.state) <==> SettledDump(k, m.state))
  {
    KnownRef(k);
    match v
    case FromJson(json) => TakenTwice(isFile, k, json);
    case FromPython(py) => TakenTwice(isFile, k, py.json);
    case FromModel(m) => TakenTwice(isFile, k, m.state);
  }

  // ---------- the laws ----------

  lemma BuiltinSound(isFile: string -> bool, k: Class)
    ensures SoundClass(Builtin(isFile), RefOf(k))
  {
    KnownRef(k);
    var py := Builtin(isFile);
    forall v: Input | py.validate(RefOf(k), v).Some?
      ensures TakesOwnDump(py, RefOf(k), py.validate(RefOf(k), v).value)
    {
      MadeTakesDump(isFile, k, v);
    }
  }

  /** Every class is stable, except S3 properties on prefixes that are not settled. */
  lemma BuiltinStable(isFile: string -> bool, k: Class, v: Input)
    requires BuiltinValidate(isFile, RefOf(k), v).Some?
    ensures var m := BuiltinValidate(isFile, RefOf(k), v).value;
            StableModel(Builtin(isFile), RefOf(k), m) <==> SettledDump(k, m.state)
  {
    KnownRef(k);
    MadeTakesDump(isFile, k, v);
  }

  lemma NoColonInDriversModule()
    ensures ODBC_OPTIONS.mod != "" && ':' !in ODBC_OPTIONS.mod
  {
  }

  lemma OdbcWellNamed()
    ensures WellNamed(ODBC_OPTIONS)
  {
    NoColonInDriversModule();
    assert |ODBC_OPTIONS.path| == 1 && ODBC_OPTIONS.path[0] == "ODBCDriverOptions";
    assert '.' !in "ODBCDriverOptions";
  }

  lemma OdbcWalk()
    ensures ODBC_OPTIONS.mod in DriverModules()
    ensures Walk(DriverModules()[ODBC_OPTIONS.mod], ODBC_OPTIONS.path) == Some(Namespace(map[], Some(ODBC_OPTIONS)))
  {
    var top := DriverModules()[ODBC_OPTIONS.mod];
    assert |"ODBCDriverOptions"| == 17 && |"NoDriverOptions"| == 15;
    assert ODBC_OPTIONS.path[1..] == [];
    assert Walk(top.attrs["ODBCDriverOptions"], []) == Some(top.attrs["ODBCDriverOptions"]);
  }

  lemma OdbcImportable()
    ensures Importable(DriverModules(), ODBC_OPTIONS)
  {
    OdbcWellNamed();
    OdbcWalk();
  }

  lemma OdbcValidatesItself(isFile: string -> bool, v: Input)
    requires BuiltinValidate(isFile, ODBC_OPTIONS, v).Some?
    ensures var m := BuiltinValidate(isFile, ODBC_OPTIONS, v).value;
            && m.cls == ODBC_OPTIONS
            && BuiltinValidate(isFile, ODBC_OPTIONS, FromModel(m)) == Some(m)
            && BuiltinValidate(isFile, ODBC_OPTIONS, FromJson(m.state)) == Some(m)
  {
    assert RefOf(OdbcOptions) == ODBC_OPTIONS;
    KnownRef(OdbcOptions);
    MadeTakesDump(isFile, OdbcOptions, v);
  }

  /** The ODBC options can be stored under their class name and rebuilt from their dump. */
  lemma OdbcStorable(isFile: string -> bool)
    ensures StorableClass(Builtin(isFile), ODBC_OPTIONS)
  {
    OdbcImportable();
    var py := Builtin(isFile);
    forall v: Input | py.validate(ODBC_OPTIONS, v).Some?
      ensures StorableModel(py, ODBC_OPTIONS, py.validate(ODBC_OPTIONS, v).value)
    {
      OdbcValidatesItself(isFile, v);
    }
  }
}
