/** The SQL property classes read from JSON, and the two exclusive forms of MSSQL properties. */
module SqlSchemas {
  import opened Values
  import opened SqlUrls

  /** The fields both MSSQL forms have; neither form allows any other field besides its own one. */
  const COMMON_FIELDS := {"host", "username", "database", "secure", "connect_timeout", "send_receive_timeout",
                          "sync_request_timeout", "ca_cert_string", "verify"}

  function AsInt(v: Json): Option<int> {
    if v.Int? then Some(v.n) else None
  }

  predicate IntOrNull(v: Json) {
    v.Int? || v.Null?
  }

  /** The common fields, with their defaults. */
  function ParseCommon(e: Mapping): Option<SqlProps> {
    var host, username, database := Lookup(e, "host"), Lookup(e, "username"), Lookup(e, "database");
    var secure, verify := FieldOr(e, "secure", Bool(false)), FieldOr(e, "verify", Bool(false));
    var connect, exchange, request :=
      FieldOr(e, "connect_timeout", Int(30)), FieldOr(e, "send_receive_timeout", Int(60)),
      FieldOr(e, "sync_request_timeout", Int(60));
    var cert := Lookup(e, "ca_cert_string");
    if !host.Str? || !username.Str? || !database.Str? || !secure.Bool? || !verify.Bool? then None
    else if !IntOrNull(connect) || !IntOrNull(exchange) || !IntOrNull(request) || !(cert.Str? || cert.Null?) then None
    else Some(SqlProps(host.s, None, None, username.s, database.s, Some(secure.b), Some(verify.b),
                       AsInt(connect), AsInt(exchange), AsInt(request), if cert.Str? then Some(cert.s) else None))
  }

  /** `SQLProperties`: unknown fields are ignored. */
  function ParseSql(e: Mapping): Option<SqlProps> {
    var common := ParseCommon(e);
    var port := Lookup(e, "port");
    if common.None? || !port.Int? then None else Some(common.value.(port := Some(port.n)))
  }

  /** `MSSQLTCPProperties`: the same fields, and no others. */
  function ParseTcp(e: Mapping): Option<SqlProps> {
    if e.Keys <= COMMON_FIELDS + {"port"} then ParseSql(e) else None
  }

  /** `MSSQLNamedInstanceProperties`: an instance name in the place of the port. */
  function ParseNamedInstance(e: Mapping): Option<SqlProps> {
    var common := ParseCommon(e);
    var name := Lookup(e, "instance_name");
    if !(e.Keys <= COMMON_FIELDS + {"instance_name"}) || common.None? || !name.Str? then None
    else Some(common.value.(instance := Some(name.s)))
  }

  /** `MSSQLProperties`: the union of the two. */
  function ParseMsSql(e: Mapping): Option<SqlProps> {
    var tcp := ParseTcp(e);
    if tcp.Some? then tcp else ParseNamedInstance(e)
  }

  lemma NamesApart()
    ensures "port" !in COMMON_FIELDS + {"instance_name"} && "instance_name" !in COMMON_FIELDS + {"port"}
  {
    assert |"port"| == 4 && |"instance_name"| == 13;
    assert "host"[0] == 'h';
    assert |"username"| == 8 && |"database"| == 8 && |"secure"| == 6 && |"connect_timeout"| == 15;
    assert |"send_receive_timeout"| == 20 && |"sync_request_timeout"| == 20 && |"ca_cert_string"| == 14
           && |"verify"| == 6;
  }

  /** No payload fits both forms, so the order of the union does not matter; an accepted payload has a
      port or an instance name and not both, and which one is visible in its keys. */
  lemma MsSqlFormsExclude(e: Mapping)
    ensures ParseTcp(e).None? || ParseNamedInstance(e).None?
    ensures ParseMsSql(e).Some? ==>
              var p := ParseMsSql(e).value;
              && (p.port.Some? <==> "port" in e) && (p.instance.Some? <==> "instance_name" in e)
              && (p.port.Some? <==> p.instance.None?)
              && p.secure.Some? && p.verify.Some?
  {
    NamesApart();
  }

  // ---------- dumps ----------

  function IntOf(n: Option<int>): Json {
    if n.Some? then Int(n.value) else Null
  }

  function Common(p: SqlProps): Mapping {
    map["host" := Str(p.host), "username" := Str(p.username), "database" := Str(p.database),
        "secure" := Bool(p.Secure()), "verify" := Bool(p.Verify()),
        "connect_timeout" := IntOf(p.connectTimeout), "send_receive_timeout" := IntOf(p.sendReceiveTimeout),
        "sync_request_timeout" := IntOf(p.syncRequestTimeout),
        "ca_cert_string" := if p.caCert.Some? then Str(p.caCert.value) else Null]
  }

  /** `model_dump`: the common fields with the port or the instance name. */
  function Dump(p: SqlProps): Mapping {
    if p.port.Some? then Common(p)["port" := Int(p.port.value)]
    else if p.instance.Some? then Common(p)["instance_name" := Str(p.instance.value)]
    else Common(p)
  }

  lemma CommonTexts(p: SqlProps)
    ensures var c := Common(p);
            && c.Keys == COMMON_FIELDS
            && c["host"] == Str(p.host) && c["username"] == Str(p.username) && c["database"] == Str(p.database)
            && c["ca_cert_string"] == if p.caCert.Some? then Str(p.caCert.value) else Null
  {
    assert "username"[0] != "database"[0];
  }

  lemma CommonFlags(p: SqlProps)
    ensures var c := Common(p);
            c.Keys == COMMON_FIELDS && c["secure"] == Bool(p.Secure()) && c["verify"] == Bool(p.Verify())
  {
    assert "secure"[0] != "verify"[0];
  }

  lemma CommonTimeouts(p: SqlProps)
    ensures var c := Common(p);
            && c.Keys == COMMON_FIELDS
            && c["connect_timeout"] == IntOf(p.connectTimeout)
            && c["send_receive_timeout"] == IntOf(p.sendReceiveTimeout)
            && c["sync_request_timeout"] == IntOf(p.syncRequestTimeout)
  {
    assert "send_receive_timeout"[1] != "sync_request_timeout"[1];
  }

  /** What validation produces: both flags are set. */
  predicate Typed(p: SqlProps) {
    p.secure.Some? && p.verify.Some?
  }

  /** Parsing reads the common fields only. */
  lemma ParseCommonDump(p: SqlProps, e: Mapping)
    requires Typed(p)
    requires forall k | k in COMMON_FIELDS :: k in e && e[k] == Common(p)[k]
    ensures ParseCommon(e) == Some(p.(port := None, instance := None))
  {
    CommonTexts(p);
    CommonFlags(p);
    CommonTimeouts(p);
    assert e["host"] == Str(p.host) && e["username"] == Str(p.username) && e["database"] == Str(p.database);
    assert e["secure"] == Bool(p.Secure()) && e["verify"] == Bool(p.Verify());
    assert e["connect_timeout"] == IntOf(p.connectTimeout) && e["send_receive_timeout"] == IntOf(p.sendReceiveTimeout);
    assert e["sync_request_timeout"] == IntOf(p.syncRequestTimeout);
    assert e["ca_cert_string"] == if p.caCert.Some? then Str(p.caCert.value) else Null;
    assert FieldOr(e, "secure", Bool(false)) == Bool(p.Secure());
    assert FieldOr(e, "verify", Bool(false)) == Bool(p.Verify());
    assert FieldOr(e, "connect_timeout", Int(30)) == IntOf(p.connectTimeout);
    assert FieldOr(e, "send_receive_timeout", Int(60)) == IntOf(p.sendReceiveTimeout);
    assert FieldOr(e, "sync_request_timeout", Int(60)) == IntOf(p.syncRequestTimeout);
    FlagRoundTrip(p.secure);
    FlagRoundTrip(p.verify);
    IntRoundTrip(p.connectTimeout);
    IntRoundTrip(p.sendReceiveTimeout);
    IntRoundTrip(p.syncRequestTimeout);
  }

  lemma FlagRoundTrip(flag: Option<bool>)
    requires flag.Some?
    ensures Some(flag == Some(true)) == flag
  {
    if flag.value {
      assert flag == Some(true);
    } else {
      assert flag == Some(false);
    }
  }

  lemma IntRoundTrip(n: Option<int>)
    ensures IntOrNull(IntOf(n)) && AsInt(IntOf(n)) == n
  {
  }

  lemma DumpHasCommon(p: SqlProps)
    ensures forall k | k in COMMON_FIELDS :: k in Dump(p) && Dump(p)[k] == Common(p)[k]
  {
    CommonTexts(p);
    NamesApart();
  }

  /** Properties with a port survive the round trip through either class. */
  lemma TcpRoundTrip(p: SqlProps)
    requires Typed(p) && p.port.Some? && p.instance.None?
    ensures ParseSql(Dump(p)) == Some(p) && ParseMsSql(Dump(p)) == Some(p)
  {
    DumpHasCommon(p);
    ParseCommonDump(p, Dump(p));
    CommonTexts(p);
  }

  /** And so do those with an instance name, which only the second form of MSSQL accepts. */
  lemma NamedInstanceRoundTrip(p: SqlProps)
    requires Typed(p) && p.port.None? && p.instance.Some?
    ensures ParseMsSql(Dump(p)) == Some(p)
  {
    DumpHasCommon(p);
    ParseCommonDump(p, Dump(p));
    CommonTexts(p);
    assert "instance_name" in Dump(p);
    MsSqlFormsExclude(Dump(p));
  }

  lemma ParsedForms(e: Mapping)
    ensures ParseSql(e).Some? ==>
              Typed(ParseSql(e).value) && ParseSql(e).value.port.Some? && ParseSql(e).value.instance.None?
    ensures ParseMsSql(e).Some? ==>
              Typed(ParseMsSql(e).value) && (ParseMsSql(e).value.port.Some? <==> ParseMsSql(e).value.instance.None?)
  {
    MsSqlFormsExclude(e);
  }
}
