/** The FTP, SFTP, Kafka and S3 property schemas, the secrets classes and the ODBC options, read from JSON:
    what each makes of its own dump. Fields that are not normalised are carried as they are. */
module ConnectorSchemas {
  import opened Values
  import opened Text
  import opened ModelRefs
  import opened Schemas

  const FTP_CLASS := ClassRef("db_connection.connectors.ftp", ["FTPProperties"])
  const KAFKA_CLASS := ClassRef("db_connection.connectors.kafka", ["KafkaProperties"])

  // ---------- FTP ----------

  datatype FtpMode = Plain | Implicit | Explicit

  datatype Ftp = Ftp(host: string, port: int, mode: FtpMode, username: Option<string>, anonymous: bool, rest: Mapping)

  const FTP_REST := {"encoding", "initial_directory", "ssl_context", "verify_ssl", "certfile", "keyfile"}

  function ModeName(m: FtpMode): string {
    match m
    case Plain => "ftp"
    case Implicit => "ftps_implicit"
    case Explicit => "ftps_explicit"
  }

  function ParseMode(v: Json): Option<FtpMode> {
    if v == Str("ftp") then Some(Plain)
    else if v == Str("ftps_implicit") then Some(Implicit)
    else if v == Str("ftps_explicit") then Some(Explicit)
    else None
  }

  /** Field validation, including the port range and the anonymous-with-username check. */
  function ParseFtp(v: Json): Option<Ftp> {
    if !v.Dict? then None
    else
      var host := FieldOr(v.entries, "host", Null);
      var port := FieldOr(v.entries, "port", Int(21));
      var mode := ParseMode(FieldOr(v.entries, "mode", Str("ftp")));
      var username := FieldOr(v.entries, "username", Null);
      var anonymous := FieldOr(v.entries, "anonymous", Bool(false));
      if !host.Str? || !port.Int? || !(1 <= port.n <= 65535) || mode.None? || !(username.Null? || username.Str?)
        || !anonymous.Bool?
      then None
      else if anonymous.b && Truthy(username) then None
      else Some(Ftp(host.s, port.n, mode.value, if username.Str? then Some(username.s) else None, anonymous.b,
                    map k | k in v.entries && k in FTP_REST :: v.entries[k]))
  }

  /** `normalize_port_for_mode`: the default port of the other mode is moved to this mode's own. */
  function NormalizePort(f: Ftp): Ftp {
    if f.mode == Implicit && f.port == 21 then f.(port := 990)
    else if f.mode == Plain && f.port == 990 then f.(port := 21)
    else f
  }

  function DumpFtp(f: Ftp): Json {
    Dict(f.rest + map["host" := Str(f.host), "port" := Int(f.port), "mode" := Str(ModeName(f.mode)),
                      "username" := (if f.username.Some? then Str(f.username.value) else Null),
                      "anonymous" := Bool(f.anonymous)])
  }

  ghost predicate ValidFtp(f: Ftp) {
    && 1 <= f.port <= 65535
    && !(f.anonymous && f.username.Some? && f.username.value != "")
    && f.rest.Keys <= FTP_REST
  }

  lemma KeysDiffer()
    ensures "host" !in FTP_REST && "port" !in FTP_REST && "mode" !in FTP_REST && "username" !in FTP_REST
            && "anonymous" !in FTP_REST
  {
  }

  lemma DumpedFields(f: Ftp)
    requires ValidFtp(f)
    ensures var e := DumpFtp(f).entries;
            && FieldOr(e, "host", Null) == Str(f.host)
            && FieldOr(e, "port", Int(21)) == Int(f.port)
            && FieldOr(e, "mode", Str("ftp")) == Str(ModeName(f.mode))
            && FieldOr(e, "username", Null) == (if f.username.Some? then Str(f.username.value) else Null)
            && FieldOr(e, "anonymous", Bool(false)) == Bool(f.anonymous)
  {
  }

  lemma DumpedRest(f: Ftp)
    requires ValidFtp(f)
    ensures var e := DumpFtp(f).entries; (map k | k in e && k in FTP_REST :: e[k]) == f.rest
  {
    KeysDiffer();
  }

  /** Validated FTP properties dump to something that parses to exactly themselves. */
  lemma FtpRoundTrip(f: Ftp)
    requires ValidFtp(f)
    ensures ParseFtp(DumpFtp(f)) == Some(f)
  {
    DumpedFields(f);
    DumpedRest(f);
    assert ParseMode(Str(ModeName(f.mode))) == Some(f.mode);
  }

  lemma ParsedFtpValid(v: Json)
    ensures ParseFtp(v).Some? ==> ValidFtp(ParseFtp(v).value) && ValidFtp(NormalizePort(ParseFtp(v).value))
    ensures ParseFtp(v).Some? ==>
            NormalizePort(NormalizePort(ParseFtp(v).value)) == NormalizePort(ParseFtp(v).value)
  {
  }

  function ValidateFtp(v: Json): Option<Model> {
    var f := ParseFtp(v);
    if f.None? then None else Some(Model(FTP_CLASS, DumpFtp(NormalizePort(f.value))))
  }

  /** No value is given for the field. */
  predicate LeftOut(e: Mapping, field: string) {
    field !in e
  }

  /** FTP properties are accepted exactly on a host, a port in range, a known mode, and no user name for an
      anonymous login. */
  lemma FtpAccepts(e: Mapping)
    ensures ValidateFtp(Dict(e)).Some? <==>
            && "host" in e && e["host"].Str?
            && (LeftOut(e, "port") || (e["port"].Int? && 1 <= e["port"].n <= 65535))
            && (LeftOut(e, "mode") || e["mode"] == Str("ftp") || e["mode"] == Str("ftps_implicit")
                || e["mode"] == Str("ftps_explicit"))
            && (LeftOut(e, "username") || e["username"].Str? || e["username"].Null?)
            && (LeftOut(e, "anonymous") || e["anonymous"].Bool?)
            && !("anonymous" in e && e["anonymous"] == Bool(true)
                 && "username" in e && e["username"].Str? && e["username"].s != "")
  {
  }

  /** The port that is stored: 990 for implicit TLS on port 21 or on none given, 21 for plain FTP on port 990 or
      on none given, and otherwise the one given, or 21. */
  lemma FtpStoresPort(e: Mapping)
    requires ValidateFtp(Dict(e)).Some?
    ensures var state := ValidateFtp(Dict(e)).value.state;
            state.Dict? && Lookup(state.entries, "host") == Lookup(e, "host") &&
            var port := Lookup(state.entries, "port");
            if Lookup(e, "mode") == Str("ftps_implicit") && (LeftOut(e, "port") || e["port"] == Int(21)) then
              port == Int(990)
            else if LeftOut(e, "port") then port == Int(21)
            else if (LeftOut(e, "mode") || e["mode"] == Str("ftp")) && e["port"] == Int(990) then port == Int(21)
            else port == e["port"]
  {
    assert |"ftp"| == 3 && |"ftps_implicit"| == 13 && "ftps_implicit"[5] != "ftps_explicit"[5];
    assert |"host"| == 4 && |"port"| == 4 && "host"[0] != "port"[0];
    assert |"username"| == 8 && |"anonymous"| == 9 && |"mode"| == 4 && "mode"[0] == 'm';
  }

  // ---------- Kafka ----------

  /** `[item.strip() for item in parts if item.strip()]`. */
  function Cleaned(parts: seq<string>): (r: seq<string>)
    ensures forall b | b in r :: b != "" && Strip(b) == b
    ensures forall b, c | b in r && c in b :: exists p | p in parts :: c in p
  {
    if parts == [] then []
    else if Strip(parts[0]) == "" then Cleaned(parts[1..])
    else
      StripIdempotent(parts[0]);
      [Strip(parts[0])] + Cleaned(parts[1..])
  }

  function Brokers(s: string): seq<string> {
    Cleaned(Split(s, ','))
  }

  lemma {:induction false} CleanedIdentity(parts: seq<string>)
    requires forall b | b in parts :: b != "" && Strip(b) == b
    ensures Cleaned(parts) == parts
  {
    if parts != [] {
      assert forall b | b in parts[1..] :: b in parts;
      CleanedIdentity(parts[1..]);
    }
  }

  /** A broker list entered as text and shown as text again is read as the same list. */
  lemma BrokersRoundTrip(s: string)
    ensures Brokers(Join(Brokers(s), ',')) == Brokers(s)
  {
    var bs := Brokers(s);
    if bs == [] {
      assert Split("", ',') == [""];
      assert Cleaned([""]) == [] by { assert [""][1..] == []; }
    } else {
      SplitJoin(bs, ',');
      CleanedIdentity(bs);
    }
  }

  const KAFKA_REST :=
    {"security_protocol", "ssl_ca_pem", "sasl_mechanism", "sasl_plain_username", "client_id", "request_timeout_ms"}

  /** `normalize_bootstrap_servers` followed by the list-of-strings check. */
  function ParseServers(v: Json): Option<seq<Json>> {
    match v
    case Str(s) => Some(AsStrings(Brokers(s)))
    case List(items) => if forall i | 0 <= i < |items| :: items[i].Str? then Some(items) else None
    case _ => None
  }

  function AsStrings(names: seq<string>): (r: seq<Json>)
    ensures |r| == |names| && forall i | 0 <= i < |r| :: r[i] == Str(names[i])
  {
    seq(|names|, i requires 0 <= i < |names| => Str(names[i]))
  }

  function ValidateKafka(v: Json): Option<Model> {
    if !v.Dict? then None
    else
      var servers := ParseServers(FieldOr(v.entries, "bootstrap_servers", Null));
      if servers.None? then None
      else
        var rest := map k | k in v.entries && k in KAFKA_REST :: v.entries[k];
        Some(Model(KAFKA_CLASS, Dict(rest["bootstrap_servers" := List(servers.value)])))
  }

  /** Validating Kafka properties again from their own dump changes nothing. */
  lemma KafkaStable(v: Json)
    requires ValidateKafka(v).Some?
    ensures ValidateKafka(ValidateKafka(v).value.state) == ValidateKafka(v)
  {
    var d := ValidateKafka(v).value.state;
    var servers := ParseServers(FieldOr(v.entries, "bootstrap_servers", Null)).value;
    assert FieldOr(d.entries, "bootstrap_servers", Null) == List(servers);
    assert "bootstrap_servers" !in KAFKA_REST;
    assert (map k | k in d.entries && k in KAFKA_REST :: d.entries[k]) ==
           (map k | k in v.entries && k in KAFKA_REST :: v.entries[k]);
  }

  /** Validating FTP properties again from their own dump changes nothing, port normalisation included. */
  lemma FtpStable(v: Json)
    requires ValidateFtp(v).Some?
    ensures ValidateFtp(ValidateFtp(v).value.state) == ValidateFtp(v)
  {
    ParsedFtpValid(v);
    FtpRoundTrip(NormalizePort(ParseFtp(v).value));
  }

  // ---------- SFTP ----------

  const SFTP_REST := {"initial_directory", "allow_agent"}

  /** `validate_private_key_path`: a blank path is none, and any other has to name a file. */
  function KeyPath(isFile: string -> bool, v: Json): Option<Json> {
    match v
    case Null => Some(Null)
    case Str(s) =>
      var path := Strip(s);
      if path == "" then Some(Null) else if isFile(path) then Some(Str(path)) else None
    case _ => None
  }

  lemma KeyPathStable(isFile: string -> bool, v: Json)
    requires KeyPath(isFile, v).Some?
    ensures KeyPath(isFile, KeyPath(isFile, v).value) == KeyPath(isFile, v)
  {
    if v.Str? {
      StripIdempotent(v.s);
    }
  }

  function ValidateSftp(isFile: string -> bool, v: Json): Option<Json> {
    if !v.Dict? then None
    else
      var host, username := Lookup(v.entries, "host"), Lookup(v.entries, "username");
      var port := FieldOr(v.entries, "port", Int(22));
      var path := KeyPath(isFile, Lookup(v.entries, "private_key_path"));
      if !host.Str? || !username.Str? || !port.Int? || !(1 <= port.n <= 65535) || path.None? then None
      else Some(Dict((map k | k in v.entries && k in SFTP_REST :: v.entries[k])
                     ["host" := host]["username" := username]["port" := port]["private_key_path" := path.value]))
  }

  /** Validating SFTP properties again from their own dump changes nothing, as long as the file is there. */
  lemma SftpStable(isFile: string -> bool, v: Json)
    requires ValidateSftp(isFile, v).Some?
    ensures ValidateSftp(isFile, ValidateSftp(isFile, v).value) == ValidateSftp(isFile, v)
  {
    var e, d := v.entries, ValidateSftp(isFile, v).value.entries;
    KeyPathStable(isFile, Lookup(e, "private_key_path"));
    assert "host" !in SFTP_REST && "username" !in SFTP_REST && "port" !in SFTP_REST && "private_key_path" !in SFTP_REST;
    assert |"host"| == 4 && |"username"| == 8 && |"private_key_path"| == 16 && "host"[0] != "port"[0];
    assert Lookup(d, "host") == Lookup(e, "host") && Lookup(d, "username") == Lookup(e, "username");
    assert FieldOr(d, "port", Int(22)) == FieldOr(e, "port", Int(22));
    assert Some(Lookup(d, "private_key_path")) == KeyPath(isFile, Lookup(e, "private_key_path"));
    assert (map k | k in d && k in SFTP_REST :: d[k]) == (map k | k in e && k in SFTP_REST :: e[k]);
  }

  /** The port of SFTP properties is in range, and 22 when none is given; the key file is one that exists. */
  lemma SftpStores(isFile: string -> bool, e: Mapping)
    requires ValidateSftp(isFile, Dict(e)).Some?
    ensures var d := ValidateSftp(isFile, Dict(e)).value;
            && d.Dict? && Lookup(d.entries, "host") == Lookup(e, "host")
            && Lookup(d.entries, "username") == Lookup(e, "username")
            && Lookup(d.entries, "port") == (if "port" in e then e["port"] else Int(22))
            && (var port := Lookup(d.entries, "port"); port.Int? && 1 <= port.n <= 65535)
            && (var path := Lookup(d.entries, "private_key_path");
                path.Null? || (path.Str? && path.s != "" && Strip(path.s) == path.s && isFile(path.s)))
  {
    var d := ValidateSftp(isFile, Dict(e)).value.entries;
    assert |"host"| == 4 && |"username"| == 8 && |"private_key_path"| == 16 && "host"[0] != "port"[0];
    if Lookup(e, "private_key_path").Str? {
      StripIdempotent(Lookup(e, "private_key_path").s);
    }
  }

  // ---------- S3 ----------

  const S3_REST := {"region_name", "endpoint_url", "use_ssl", "verify", "path_style", "signature_version"}

  /** `normalize_prefix`; None is the error. Blanks go before slashes, once. */
  function NormalizePrefix(v: Json): Option<Json> {
    if !Truthy(v) then Some(Null)
    else if !v.Str? then None
    else Some(Str(Trim(Strip(v.s), '/')))
  }

  /** A prefix that has nothing left to normalise. */
  predicate SettledPrefix(prefix: Json) {
    prefix.Null? || (prefix.Str? && prefix.s != "" && Strip(prefix.s) == prefix.s)
  }

  /** A normalised prefix is accepted again, and comes out the same exactly when it is settled: not empty,
      and without a blank that the slashes had hidden. */
  lemma PrefixTwice(v: Json)
    requires NormalizePrefix(v).Some?
    ensures NormalizePrefix(NormalizePrefix(v).value).Some?
    ensures NormalizePrefix(NormalizePrefix(v).value) == NormalizePrefix(v) <==> SettledPrefix(NormalizePrefix(v).value)
  {
    var p := NormalizePrefix(v).value;
    if p.Str? {
      StripShortens(p.s);
    }
  }

  function ValidateS3(v: Json): Option<Json> {
    if !v.Dict? then None
    else
      var bucket := Lookup(v.entries, "bucket");
      var prefix := NormalizePrefix(Lookup(v.entries, "prefix"));
      if !bucket.Str? || Strip(bucket.s) == "" || prefix.None? then None
      else Some(Dict((map k | k in v.entries && k in S3_REST :: v.entries[k])
                     ["bucket" := Str(Strip(bucket.s))]["prefix" := prefix.value]))
  }

  /** S3 properties are accepted again from their own dump, and unchanged exactly when the prefix is
      settled. */
  lemma S3Twice(v: Json)
    requires ValidateS3(v).Some?
    ensures var d := ValidateS3(v).value;
            && ValidateS3(d).Some?
            && (ValidateS3(d) == Some(d) <==> SettledPrefix(Lookup(d.entries, "prefix")))
  {
    var e, d := v.entries, ValidateS3(v).value.entries;
    PrefixTwice(Lookup(e, "prefix"));
    StripIdempotent(Lookup(e, "bucket").s);
    assert "bucket" !in S3_REST && "prefix" !in S3_REST;
    assert "bucket"[0] != "prefix"[0];
    assert Lookup(d, "bucket") == Str(Strip(Lookup(e, "bucket").s));
    assert Some(Lookup(d, "prefix")) == NormalizePrefix(Lookup(e, "prefix"));
    assert (map k | k in d && k in S3_REST :: d[k]) == (map k | k in e && k in S3_REST :: e[k]);
    var again := ValidateS3(Dict(d)).value.entries;
    assert Some(Lookup(again, "prefix")) == NormalizePrefix(Lookup(d, "prefix"));
    if NormalizePrefix(Lookup(d, "prefix")) == Some(Lookup(d, "prefix")) {
      assert again == d;
    }
  }

  // ---------- secrets ----------

  /** A class of texts, some of them optional: what it accepts, dumped. */
  function ValidateTexts(required: set<string>, optional: set<string>, v: Json): Option<Json> {
    if !v.Dict? then None
    else if (forall k | k in required :: Lookup(v.entries, k).Str?) &&
            (forall k | k in optional :: Lookup(v.entries, k).Str? || Lookup(v.entries, k).Null?)
    then Some(Dict(map k | k in required + optional :: Lookup(v.entries, k)))
    else None
  }

  lemma TextsStable(required: set<string>, optional: set<string>, v: Json)
    requires ValidateTexts(required, optional, v).Some?
    ensures ValidateTexts(required, optional, ValidateTexts(required, optional, v).value) ==
            ValidateTexts(required, optional, v)
  {
    var d := ValidateTexts(required, optional, v).value;
    forall k | k in required + optional ensures Lookup(d.entries, k) == Lookup(v.entries, k) {
    }
    assert forall k | k in required :: Lookup(v.entries, k).Str? && k in required + optional;
    assert forall k | k in optional :: k in required + optional;
    assert (map k | k in required + optional :: Lookup(d.entries, k)) == d.entries;
  }

  /** `ODBCDriverOptions`: one text, under its alias or its name and not both; no other field. */
  function ValidateOdbc(v: Json): Option<Json> {
    if !v.Dict? then None
    else if v.entries.Keys == {"driver_name"} && v.entries["driver_name"].Str?
    then Some(Dict(map["odbc_driver_name" := v.entries["driver_name"]]))
    else if v.entries.Keys == {"odbc_driver_name"} && v.entries["odbc_driver_name"].Str?
    then Some(v)
    else None
  }

  /** The dump is by name, which validation takes as well as the alias. */
  lemma OdbcStable(v: Json)
    requires ValidateOdbc(v).Some?
    ensures ValidateOdbc(ValidateOdbc(v).value) == ValidateOdbc(v)
  {
    assert |"driver_name"| == 11 && |"odbc_driver_name"| == 16;
    var d := ValidateOdbc(v).value;
    assert d.entries.Keys == {"odbc_driver_name"};
  }
}
