/** The legacy in-place encryption of sensitive fields: prefixed tokens inside a flat payload. */
module LegacyEncryption {
  import opened Values

  /** A Fernet key. Sealing is randomised, here by a nonce; opening fails on a foreign token. */
  datatype Fernet = Fernet(seal: (nat, string) -> string, open: string -> Option<string>)

  /** What was sealed opens to itself, and a token is longer than what it holds. */
  ghost predicate Genuine(f: Fernet) {
    && (forall n: nat, text: string :: f.open(f.seal(n, text)) == Some(text))
    && (forall token: string :: f.open(token).Some? ==> |f.open(token).value| < |token|)
  }

  const PREFIX := "fernet$"
  const SENSITIVE_FIELDS := {"password", "sasl_plain_password", "access_token_id", "access_token_key", "session_token"}

  predicate Prefixed(s: string) {
    PREFIX <= s
  }

  function Token(s: string): string
    requires Prefixed(s)
  {
    s[|PREFIX|..]
  }

  /** The key opens the value: it is prefixed, and its token is one of the key's. */
  predicate Opens(f: Fernet, v: Json) {
    v.Str? && Prefixed(v.s) && f.open(Token(v.s)).Some?
  }

  function EncryptValue(f: Fernet, nonce: nat, v: Json): Json {
    if !v.Str? || v.s == "" then v
    else if Prefixed(v.s) then v
    else Str(PREFIX + f.seal(nonce, v.s))
  }

  function DecryptValue(f: Fernet, v: Json): Json {
    if !v.Str? then v
    else if !Prefixed(v.s) then v
    else
      var plain := f.open(Token(v.s));
      if plain.None? then v else Str(plain.value)
  }

  function Encrypted(f: Fernet, nonces: string -> nat, p: Mapping): Mapping {
    map k | k in p :: if k in SENSITIVE_FIELDS then EncryptValue(f, nonces(k), p[k]) else p[k]
  }

  function Decrypted(f: Fernet, p: Mapping): Mapping {
    map k | k in p :: if k in SENSITIVE_FIELDS then DecryptValue(f, p[k]) else p[k]
  }

  /** `encrypt_sensitive_fields`: the fields are visited in any order. */
  method EncryptSensitiveFields(payload: Mapping, key: Option<Fernet>, nonces: string -> nat) returns (result: Mapping)
    ensures result == if key.None? then payload else Encrypted(key.value, nonces, payload)
  {
    result := payload;
    if key.None? {
      return;
    }
    var rest := SENSITIVE_FIELDS;
    while rest != {}
      invariant rest <= SENSITIVE_FIELDS
      invariant result.Keys == payload.Keys
      invariant forall k | k in payload ::
        result[k] == if k in SENSITIVE_FIELDS - rest then EncryptValue(key.value, nonces(k), payload[k]) else payload[k]
      decreases |rest|
    {
      var field :| field in rest;
      if field in result && result[field] != Null {
        result := result[field := EncryptValue(key.value, nonces(field), result[field])];
      }
      rest := rest - {field};
    }
  }

  /** `decrypt_sensitive_fields`, likewise. */
  method DecryptSensitiveFields(payload: Mapping, key: Option<Fernet>) returns (result: Mapping)
    ensures result == if key.None? then payload else Decrypted(key.value, payload)
  {
    result := payload;
    if key.None? {
      return;
    }
    var rest := SENSITIVE_FIELDS;
    while rest != {}
      invariant rest <= SENSITIVE_FIELDS
      invariant result.Keys == payload.Keys
      invariant forall k | k in payload ::
        result[k] == if k in SENSITIVE_FIELDS - rest then DecryptValue(key.value, payload[k]) else payload[k]
      decreases |rest|
    {
      var field :| field in rest;
      if field in result && result[field] != Null {
        result := result[field := DecryptValue(key.value, result[field])];
      }
      rest := rest - {field};
    }
  }

  lemma SealedToken(token: string)
    ensures Prefixed(PREFIX + token) && Token(PREFIX + token) == token
  {
  }

  lemma ValueRoundTrip(f: Fernet, nonce: nat, v: Json)
    requires Genuine(f)
    ensures DecryptValue(f, EncryptValue(f, nonce, v)) == v <==> !Opens(f, v)
  {
    if v.Str? && v.s != "" && !Prefixed(v.s) {
      SealedToken(f.seal(nonce, v.s));
      assert f.open(f.seal(nonce, v.s)) == Some(v.s);
    }
  }

  /** Decrypting what was encrypted gives the payload back exactly when no sensitive value was already
      a prefixed token the key opens. */
  lemma EncryptThenDecrypt(f: Fernet, nonces: string -> nat, p: Mapping)
    requires Genuine(f)
    ensures Decrypted(f, Encrypted(f, nonces, p)) == p <==>
            forall k | k in p && k in SENSITIVE_FIELDS :: !Opens(f, p[k])
  {
    var q := Decrypted(f, Encrypted(f, nonces, p));
    forall k | k in p && k in SENSITIVE_FIELDS ensures q[k] == p[k] <==> !Opens(f, p[k]) {
      ValueRoundTrip(f, nonces(k), p[k]);
    }
    assert q.Keys == p.Keys;
    assert forall k | k in p && k !in SENSITIVE_FIELDS :: q[k] == p[k];
  }

  /** Encrypting twice is encrypting once, whatever randomness the second pass draws. */
  lemma EncryptIdempotent(f: Fernet, first: string -> nat, second: string -> nat, p: Mapping)
    ensures Encrypted(f, second, Encrypted(f, first, p)) == Encrypted(f, first, p)
  {
    forall k | k in p && k in SENSITIVE_FIELDS
      ensures EncryptValue(f, second(k), EncryptValue(f, first(k), p[k])) == EncryptValue(f, first(k), p[k])
    {
      if p[k].Str? {
        SealedToken(f.seal(first(k), p[k].s));
      }
    }
  }

  /** Under a key that opens none of the values, loading and saving is lossless exactly when every
      sensitive non-empty text is prefixed already. */
  lemma LoadThenSave(f: Fernet, nonces: string -> nat, p: Mapping)
    requires Genuine(f)
    requires forall k | k in p && k in SENSITIVE_FIELDS :: !Opens(f, p[k])
    ensures Encrypted(f, nonces, Decrypted(f, p)) == p <==>
            forall k | k in p && k in SENSITIVE_FIELDS && p[k].Str? && p[k].s != "" :: Prefixed(p[k].s)
  {
    var q := Encrypted(f, nonces, Decrypted(f, p));
    forall k | k in p && k in SENSITIVE_FIELDS
      ensures q[k] == p[k] <==> (p[k].Str? && p[k].s != "" ==> Prefixed(p[k].s))
    {
      var v := p[k];
      assert DecryptValue(f, v) == v;
      if v.Str? && v.s != "" && !Prefixed(v.s) {
        SealedToken(f.seal(nonces(k), v.s));
        assert Prefixed(q[k].s);
      }
    }
    assert q.Keys == p.Keys;
    assert forall k | k in p && k !in SENSITIVE_FIELDS :: q[k] == p[k];
  }

  // ---------- what is stored, key by key ----------

  /** The keys whose values are encrypted. */
  predicate Covered(key: string) {
    key == "password" || key == "sasl_plain_password" || key == "access_token_id" || key == "access_token_key"
    || key == "session_token"
  }

  /** Nothing covered stays in clear: a text that is not empty and not prefixed is stored under the prefix, as a
      token the key opens to it. Every other value is stored as it is. */
  lemma StoredSealed(f: Fernet, nonces: string -> nat, p: Mapping, key: string)
    requires Genuine(f)
    ensures var q := Encrypted(f, nonces, p);
            && (key in q <==> key in p)
            && (key in p ==>
                  if Covered(key) && p[key].Str? && p[key].s != "" && !("fernet$" <= p[key].s)
                  then q[key].Str? && "fernet$" <= q[key].s && f.open(q[key].s[7..]) == Some(p[key].s)
                  else q[key] == p[key])
  {
    if key in p && Covered(key) && p[key].Str? {
      assert f.open(f.seal(nonces(key), p[key].s)) == Some(p[key].s);
      SealedToken(f.seal(nonces(key), p[key].s));
      assert |PREFIX| == 7;
    }
  }

  /** And loading opens exactly the covered texts under the prefix that the key opens. */
  lemma LoadedOpened(f: Fernet, p: Mapping, key: string)
    ensures var q := Decrypted(f, p);
            && (key in q <==> key in p)
            && (key in p ==>
                  if Covered(key) && p[key].Str? && "fernet$" <= p[key].s && f.open(p[key].s[7..]).Some?
                  then q[key] == Str(f.open(p[key].s[7..]).value)
                  else q[key] == p[key])
  {
    assert |PREFIX| == 7;
  }
}
