/** The legacy bridge: a flat legacy payload is split into properties, secrets, driver and options. */
module LegacySplit {
  import opened Values
  import opened ConnectionTypes

  datatype BridgeError = WrongType | DriverNotSpecified

  /** The four parts; `odbc` is the name inside the ODBC driver options. */
  datatype Parts = Parts(properties: Mapping, secrets: Mapping, driver: Option<string>, odbc: Option<string>)

  function SecretKeys(t: ConnectionType): seq<string> {
    match t
    case Kafka => ["sasl_plain_password"]
    case S3 => ["access_token_id", "access_token_key", "session_token"]
    case Sftp => ["password", "private_key_passphrase", "private_key_string"]
    case Custom => []
    case _ => ["password"]
  }

  /** `ASYNC_SQL_DRIVER_DEFAULTS`. */
  function AsyncDefault(t: ConnectionType): Option<string> {
    match t
    case Postgres => Some("asyncpg")
    case MySql => Some("aiomysql")
    case MsSql => Some("aioodbc")
    case _ => None
  }

  const NO_VALUES: Mapping := map[]
  const CH_DRIVER := "http"

  /** The declared type of a legacy `driver_name`. */
  predicate TextOrNull(v: Json) {
    v.Null? || v.Str?
  }

  function AsText(v: Json): Option<string> {
    if v.Str? then Some(v.s) else None
  }

  function FromText(v: Option<string>): Json {
    if v.Some? then Str(v.value) else Null
  }

  // ---------- specification ----------

  function KeySet(keys: seq<string>): set<string> {
    set k | k in keys
  }

  function Popped(t: ConnectionType): set<string> {
    if Sql(t) then KeySet(SecretKeys(t)) + {"driver_name"} else KeySet(SecretKeys(t))
  }

  function NonNull(values: Mapping): Mapping {
    map k | k in values && values[k] != Null :: values[k]
  }

  function Restrict(raw: Mapping, keys: seq<string>): Mapping {
    map k | k in keys && k in raw :: raw[k]
  }

  /** The driver that is filled in when the payload names none. */
  function DefaultDriver(t: ConnectionType, mode: Mode): Option<string> {
    if t.ClickHouse? then Some(CH_DRIVER)
    else if mode.Async? then AsyncDefault(t)
    else None
  }

  function DriverOf(t: ConnectionType, raw: Mapping, mode: Mode): Option<string> {
    if !Sql(t) then None
    else if t.MsSql? then Some(if mode.Async? then "aioodbc" else "pyodbc")
    else if Lookup(raw, "driver_name").Str? then AsText(Lookup(raw, "driver_name"))
    else DefaultDriver(t, mode)
  }

  function Split(t: ConnectionType, raw: Mapping, mode: Mode): Result<Parts, BridgeError> {
    if t.Custom? then Err(WrongType)
    else if t.MsSql? && Lookup(raw, "driver_name") == Null then Err(DriverNotSpecified)
    else Ok(Parts(raw - Popped(t), NonNull(Restrict(raw, SecretKeys(t))), DriverOf(t, raw, mode),
                  if t.MsSql? then AsText(Lookup(raw, "driver_name")) else None))
  }

  // ---------- the imperative split ----------

  /** The dumped dictionary the bridge pops keys from. */
  class Payload {
    var entries: Mapping

    constructor (dumped: Mapping)
      ensures entries == dumped
    {
      entries := dumped;
    }

    /** `raw.pop(key, None)`. */
    method Pop(key: string) returns (value: Json)
      modifies this
      ensures value == Lookup(old(entries), key)
      ensures entries == old(entries) - {key}
    {
      value := Lookup(entries, key);
      entries := entries - {key};
    }
  }

  /** The given values, and the current value of every other key asked for so far. */
  ghost function CollectedSoFar(entries: Mapping, asked: set<string>, values: Mapping): Mapping {
    (map k | k in asked :: Lookup(entries, k)) + values
  }

  ghost function Asked(keys: seq<string>, i: nat): set<string>
    requires i <= |keys|
  {
    if i == 0 then {} else Asked(keys, i - 1) + {keys[i - 1]}
  }

  lemma {:induction false} AskedAll(keys: seq<string>, i: nat)
    requires i <= |keys|
    ensures Asked(keys, i) == KeySet(keys[..i])
  {
    if i > 0 {
      AskedAll(keys, i - 1);
      assert keys[..i] == keys[..i - 1] + [keys[i - 1]];
    }
  }

  lemma RestStep(before: Mapping, asked: set<string>, values: Mapping, key: string)
    ensures var rest := before - (asked - values.Keys);
            before - (asked + {key} - values.Keys) ==
            if key in CollectedSoFar(before, asked, values) then rest else rest - {key}
  {
    assert key in CollectedSoFar(before, asked, values) <==> key in asked || key in values.Keys;
  }

  lemma CollectStep(before: Mapping, asked: set<string>, values: Mapping, key: string)
    ensures var c := CollectedSoFar(before, asked, values);
            var rest := before - (asked - values.Keys);
            CollectedSoFar(before, asked + {key}, values) == if key in c then c else c[key := Lookup(rest, key)]
  {
    var c := CollectedSoFar(before, asked, values);
    var next := CollectedSoFar(before, asked + {key}, values);
    assert c.Keys == asked + values.Keys;
    if key in c {
      assert next == c;
    } else {
      assert next == c[key := Lookup(before, key)];
    }
  }

  lemma CollectedInTheEnd(before: Mapping, keys: seq<string>, values: Mapping)
    ensures NonNull(CollectedSoFar(before, Asked(keys, |keys|), values)) == NonNull(Restrict(before, keys) + values)
    ensures Asked(keys, |keys|) == KeySet(keys)
  {
    AskedAll(keys, |keys|);
    assert keys[..|keys|] == keys;
    NullsDropped(CollectedSoFar(before, KeySet(keys), values), Restrict(before, keys) + values);
  }

  lemma NullsDropped(a: Mapping, b: Mapping)
    requires forall k | k in a.Keys + b.Keys :: Lookup(a, k) == Lookup(b, k)
    ensures NonNull(a) == NonNull(b)
  {
    forall k ensures k in NonNull(a) <==> k in NonNull(b) {
      assert k in a.Keys + b.Keys ==> Lookup(a, k) == Lookup(b, k);
    }
    forall k | k in NonNull(a) ensures NonNull(a)[k] == NonNull(b)[k] {
      assert Lookup(a, k) == Lookup(b, k);
    }
  }

  /** `_extract_secrets`: keys not among the given values are popped, and nulls are dropped. */
  method ExtractSecrets(raw: Payload, keys: seq<string>, values: Mapping) returns (secrets: Mapping)
    modifies raw
    ensures raw.entries == old(raw.entries) - (KeySet(keys) - values.Keys)
    ensures secrets == NonNull(Restrict(old(raw.entries), keys) + values)
  {
    var collected := values;
    ghost var before := raw.entries;
    assert collected == CollectedSoFar(before, {}, values);
    for i := 0 to |keys|
      invariant collected == CollectedSoFar(before, Asked(keys, i), values)
      invariant raw.entries == before - (Asked(keys, i) - values.Keys)
    {
      CollectStep(before, Asked(keys, i), values, keys[i]);
      RestStep(before, Asked(keys, i), values, keys[i]);
      if keys[i] !in collected {
        var value := raw.Pop(keys[i]);
        collected := collected[keys[i] := value];
      }
    }
    CollectedInTheEnd(before, keys, values);
    secrets := NonNull(collected);
  }

  /** `_split_connection_data`. */
  method SplitConnectionData(t: ConnectionType, properties: Mapping, mode: Mode) returns (r: Result<Parts, BridgeError>)
    requires Sql(t) ==> TextOrNull(Lookup(properties, "driver_name"))
    ensures r == Split(t, properties, mode)
  {
    var raw := new Payload(properties);
    var secrets: Mapping;
    if Sql(t) {
      var name := raw.Pop("driver_name");
      var password := raw.Pop("password");
      var driver: Option<string> := None;
      var odbc: Option<string> := None;
      if t.MsSql? {
        if name == Null {
          return Err(DriverNotSpecified);
        }
        odbc := AsText(name);
        driver := Some(if mode.Async? then "aioodbc" else "pyodbc");
      } else {
        driver := AsText(name);
        if mode.Async? && driver.None? {
          driver := AsyncDefault(t);
        }
        if t.ClickHouse? && driver.None? {
          driver := Some(CH_DRIVER);
        }
      }
      secrets := ExtractSecrets(raw, ["password"], map["password" := password]);
      TakenPassword(properties - {"driver_name"}, "password");
      TakenDriver(t, properties);
      return Ok(Parts(raw.entries, secrets, driver, odbc));
    }
    if t.Kafka? {
      var password := raw.Pop("sasl_plain_password");
      secrets := ExtractSecrets(raw, ["sasl_plain_password"], map["sasl_plain_password" := password]);
      TakenPassword(properties, "sasl_plain_password");
      return Ok(Parts(raw.entries, secrets, None, None));
    }
    if t.S3? {
      secrets := ExtractSecrets(raw, SecretKeys(t), NO_VALUES);
      TakenSecrets(properties, SecretKeys(t));
      return Ok(Parts(raw.entries, secrets, None, None));
    }
    if t.Ftp? {
      var password := raw.Pop("password");
      secrets := ExtractSecrets(raw, ["password"], map["password" := password]);
      TakenPassword(properties, "password");
      return Ok(Parts(raw.entries, secrets, None, None));
    }
    if t.Sftp? {
      secrets := ExtractSecrets(raw, SecretKeys(t), NO_VALUES);
      TakenSecrets(properties, SecretKeys(t));
      return Ok(Parts(raw.entries, secrets, None, None));
    }
    return Err(WrongType);
  }

  /** A password popped by hand and then extracted from given values is the same as one extracted. */
  lemma TakenPassword(properties: Mapping, key: string)
    ensures NonNull(Restrict(properties - {key}, [key]) + map[key := Lookup(properties, key)]) ==
            NonNull(Restrict(properties, [key]))
    ensures (properties - {key}) - (KeySet([key]) - map[key := Lookup(properties, key)].Keys) ==
            properties - KeySet([key])
  {
    assert KeySet([key]) == {key};
  }

  lemma TakenSecrets(properties: Mapping, keys: seq<string>)
    ensures NonNull(Restrict(properties, keys) + NO_VALUES) == NonNull(Restrict(properties, keys))
    ensures properties - (KeySet(keys) - NO_VALUES.Keys) == properties - KeySet(keys)
  {
    assert Restrict(properties, keys) + NO_VALUES == Restrict(properties, keys);
    assert KeySet(keys) - NO_VALUES.Keys == KeySet(keys);
  }

  lemma TakenDriver(t: ConnectionType, properties: Mapping)
    requires Sql(t)
    ensures (properties - {"driver_name"}) - KeySet(SecretKeys(t)) == properties - Popped(t)
    ensures Restrict(properties - {"driver_name"}, SecretKeys(t)) == Restrict(properties, SecretKeys(t))
    ensures Lookup(properties - {"driver_name"}, "password") == Lookup(properties, "password")
  {
  }

  // ---------- nothing is lost ----------

  /** The inverse: everything back under its legacy key. */
  function Rebuild(t: ConnectionType, p: Parts): Mapping {
    p.properties + p.secrets +
    if t.MsSql? then map["driver_name" := FromText(p.odbc)]
    else if Sql(t) then map["driver_name" := FromText(p.driver)]
    else map[]
  }

  /** The payload names no driver and the bridge fills one in. */
  predicate FillsDriver(t: ConnectionType, raw: Mapping, mode: Mode) {
    Sql(t) && !t.MsSql? && Lookup(raw, "driver_name") == Null && DefaultDriver(t, mode).Some?
  }

  lemma DriverNameIsNoSecret(t: ConnectionType)
    ensures "driver_name" !in SecretKeys(t)
  {
  }

  /** The split is a partition: no key on both sides, no secret key left among the properties, every
      other value kept, and exactly the non-null secrets taken out. */
  lemma SplitPartitions(t: ConnectionType, raw: Mapping, mode: Mode)
    requires Split(t, raw, mode).Ok?
    ensures var p := Split(t, raw, mode).value;
            && p.properties.Keys !! p.secrets.Keys
            && (forall k | k in SecretKeys(t) :: k !in p.properties)
            && (forall k | k in raw && k !in Popped(t) :: k in p.properties && p.properties[k] == raw[k])
            && p.properties.Keys + p.secrets.Keys <= raw.Keys
            && (forall k | k in SecretKeys(t) ::
                  Lookup(p.secrets, k) == Lookup(raw, k) && (k in p.secrets ==> p.secrets[k] != Null))
  {
  }

  /** Putting the parts back together gives every key its original value, an absent key counting as
      null; the one exception is a driver that was filled in. */
  lemma SplitThenRebuild(t: ConnectionType, raw: Mapping, mode: Mode, key: string)
    requires Sql(t) ==> TextOrNull(Lookup(raw, "driver_name"))
    requires Split(t, raw, mode).Ok?
    ensures Lookup(Rebuild(t, Split(t, raw, mode).value), key) == Lookup(raw, key) <==>
            !(key == "driver_name" && FillsDriver(t, raw, mode))
  {
    DriverNameIsNoSecret(t);
    var p := Split(t, raw, mode).value;
    if key == "driver_name" && Sql(t) {
      assert key in Rebuild(t, p);
    } else if key in SecretKeys(t) {
      assert key !in p.properties;
      assert Lookup(p.secrets, key) == Lookup(raw, key);
    } else {
      assert key !in p.secrets;
      assert key !in Popped(t);
    }
  }

  /** So two payloads with the same parts agree on every key, except that one may name the driver
      the other leaves to the default. */
  lemma SplitInjective(t: ConnectionType, a: Mapping, b: Mapping, mode: Mode, key: string)
    requires Sql(t) ==> TextOrNull(Lookup(a, "driver_name")) && TextOrNull(Lookup(b, "driver_name"))
    requires Split(t, a, mode).Ok? && Split(t, a, mode) == Split(t, b, mode)
    ensures Lookup(a, key) != Lookup(b, key) ==>
            && key == "driver_name" && Sql(t) && !t.MsSql? && DefaultDriver(t, mode).Some?
            && {Lookup(a, key), Lookup(b, key)} == {Null, Str(DefaultDriver(t, mode).value)}
  {
    SplitThenRebuild(t, a, mode, key);
    SplitThenRebuild(t, b, mode, key);
    if Lookup(a, key) != Lookup(b, key) {
      assert DriverOf(t, a, mode) == DriverOf(t, b, mode);
      if FillsDriver(t, a, mode) {
        assert Lookup(b, key) == Str(DefaultDriver(t, mode).value);
      } else {
        assert Lookup(a, key) == Str(DefaultDriver(t, mode).value);
      }
    }
  }

  // ---------- what is split off, key by key ----------

  /** The keys of a legacy payload that are secrets of its type. */
  predicate IsSecret(t: ConnectionType, key: string) {
    || (key == "password" && (Sql(t) || t.Ftp? || t.Sftp?))
    || (key == "sasl_plain_password" && t.Kafka?)
    || ((key == "access_token_id" || key == "access_token_key" || key == "session_token") && t.S3?)
    || ((key == "private_key_passphrase" || key == "private_key_string") && t.Sftp?)
  }

  /** Every key goes where it belongs: secrets that are not null to the secrets, the driver name of a SQL type
      to neither side, and every other key to the properties. */
  lemma SplitPlaces(t: ConnectionType, raw: Mapping, mode: Mode, key: string)
    requires Split(t, raw, mode).Ok?
    ensures var p := Split(t, raw, mode).value;
            && (key in p.secrets <==> IsSecret(t, key) && key in raw && raw[key] != Null)
            && (key in p.secrets ==> p.secrets[key] == raw[key])
            && (key in p.properties <==>
                key in raw && !IsSecret(t, key) && !(Sql(t) && key == "driver_name"))
            && (key in p.properties ==> p.properties[key] == raw[key])
  {
  }

  /** The driver: for MSSQL the one of the mode, with the driver name as the ODBC driver; for any other SQL type
      the name that is given, or HTTP for ClickHouse and the asynchronous driver of PostgreSQL and MySQL in that
      mode. A payload without a driver name is an error for MSSQL alone. */
  lemma SplitDriver(t: ConnectionType, raw: Mapping, mode: Mode)
    requires Sql(t) && TextOrNull(Lookup(raw, "driver_name"))
    ensures Split(t, raw, mode).Err? <==> t.MsSql? && Lookup(raw, "driver_name") == Null
    ensures Split(t, raw, mode).Ok? ==>
              var p, name := Split(t, raw, mode).value, Lookup(raw, "driver_name");
              if t.MsSql? then p.driver == Some(if mode.Async? then "aioodbc" else "pyodbc") && FromText(p.odbc) == name
              else
                && p.odbc == None
                && p.driver == match name
                               case Str(s) => Some(s)
                               case _ => if t.ClickHouse? then Some("http")
                                         else if t.Postgres? && mode.Async? then Some("asyncpg")
                                         else if t.MySql? && mode.Async? then Some("aiomysql")
                                         else None
  {
  }
}
