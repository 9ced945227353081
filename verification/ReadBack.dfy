/** What the service writes, it can read: rows written by create or update decode, validate and
    project, and writing them again gives the same columns. */
module ReadBack {
  import opened Values
  import opened Schemas
  import opened Entities
  import opened Registries
  import opened Validation
  import opened RecordMapper
  import opened Projection
  import opened Store

  // ---------- laws of one installation ----------

  /** What it takes to read back: classes accept their own dumps, and options can be stored. */
  ghost predicate SoundType(py: Pydantic, spec: TypeSpec) {
    && NormalForm(spec)
    && SoundClass(py, spec.propertiesModel)
    && (spec.secretsModel.Some? ==> SoundClass(py, spec.secretsModel.value))
    && forall i | 0 <= i < |spec.driverSpecs| ::
         spec.driverSpecs[i].optionsModel == NO_OPTIONS || StorableClass(py, spec.driverSpecs[i].optionsModel)
  }

  ghost predicate Sound(env: Env) {
    && Faithful(env.provider)
    && forall n | n in env.types :: SoundType(env.py, env.types[n])
  }

  /** And to read back the same. */
  ghost predicate StableType(py: Pydantic, spec: TypeSpec) {
    && StableClass(py, spec.propertiesModel)
    && (spec.secretsModel.Some? ==> StableClass(py, spec.secretsModel.value))
  }

  ghost predicate Lawful(env: Env) {
    Sound(env) && forall n | n in env.types :: StableType(env.py, env.types[n])
  }

  /** The columns come from a draft the service validated and persisted. */
  ghost predicate Written(env: Env, cols: Columns) {
    exists nonce: int, d: Draft :: Columnise(env, nonce, d) == Ok(cols)
  }

  // ---------- decoding what was encoded ----------

  lemma ValidatedOptionsStorable(env: Env, spec: TypeSpec, effective: Option<string>, raw: Options)
    requires SoundType(env.py, spec)
    requires ValidateDriverOptions(env.py, spec, effective, raw).Ok?
    ensures var v := ValidateDriverOptions(env.py, spec, effective, raw).value;
            v.Some? ==>
              && effective.Some?
              && ResolveDriver(spec.driverSpecs, effective.value).Some?
              && StorableModel(env.py, ResolveDriver(spec.driverSpecs, effective.value).value.optionsModel, v.value)
  {
    var v := ValidateDriverOptions(env.py, spec, effective, raw).value;
    if v.Some? {
      var driver := ResolveDriver(spec.driverSpecs, effective.value).value;
      assert driver in spec.driverSpecs;
      assert StorableClass(env.py, driver.optionsModel);
      assert env.py.validate(driver.optionsModel, OptionsInput(raw)).Some?;
    }
  }

  /** Validating the options a second time, as a typed instance read back, gives them again. */
  lemma OptionsStable(env: Env, spec: TypeSpec, effective: Option<string>, raw: Options)
    requires SoundType(env.py, spec)
    requires ValidateDriverOptions(env.py, spec, effective, raw).Ok?
    ensures var v := ValidateDriverOptions(env.py, spec, effective, raw).value;
            ValidateDriverOptions(env.py, spec, effective, AsOptions(v)) == Ok(v)
  {
    ValidatedOptionsStorable(env, spec, effective, raw);
  }

  ghost predicate SameContent(r: Record, d: Draft, v: Validated, py: Pydantic) {
    && r.name == d.name && r.kind == d.kind && r.typ == d.typ && r.driver == d.driver
    && r.options == AsOptions(v.options)
    && Dict(r.properties) == py.dumpJson(v.properties)
    && Dict(r.secrets) == (if v.secrets.None? then Dict(map[]) else py.dumpJson(v.secrets.value))
    && d.labels.Some? && r.labels == (if AllStrings(d.labels.value) then d.labels.value else map[])
    && d.metadata == Some(r.metadata) && d.extra == Some(r.extra)
  }

  lemma ModelsTakeDumps(env: Env, d: Draft)
    requires Sound(env)
    requires Validate(env.py, env.types, d).Ok?
    ensures var v := Validate(env.py, env.types, d).value;
            var spec := env.types[d.typ];
            && TakesOwnDump(env.py, spec.propertiesModel, v.properties)
            && (v.secrets.Some? <==> spec.secretsModel.Some?)
            && (v.secrets.Some? ==> TakesOwnDump(env.py, spec.secretsModel.value, v.secrets.value))
  {
    assert SoundType(env.py, env.types[d.typ]);
  }

  lemma ModelsStable(env: Env, d: Draft)
    requires Lawful(env)
    requires Validate(env.py, env.types, d).Ok?
    ensures var v := Validate(env.py, env.types, d).value;
            var spec := env.types[d.typ];
            && StableModel(env.py, spec.propertiesModel, v.properties)
            && (v.secrets.Some? <==> spec.secretsModel.Some?)
            && (v.secrets.Some? ==> StableModel(env.py, spec.secretsModel.value, v.secrets.value))
  {
    assert StableType(env.py, env.types[d.typ]);
  }

  /** A written row decodes to exactly what was persisted; the only possible complaint is about
      labels that are not strings. */
  lemma DecodesToPersisted(env: Env, nonce: int, d: Draft, id: string, row: Row)
    requires Sound(env)
    requires Columnise(env, nonce, d) == Ok(row.cols)
    ensures Validate(env.py, env.types, d).Ok?
    ensures var r := ToRecord(env.py, env.provider, id, row);
            && SameContent(r, d, Validate(env.py, env.types, d).value, env.py)
            && row.cols.labels == Dict(d.labels.value)
            && (r.readIssues == [] <==> AllStrings(d.labels.value))
            && !r.Unreadable()
  {
    var v := Validate(env.py, env.types, d).value;
    var spec := env.types[d.typ];
    ModelsTakeDumps(env, d);
    ValidatedOptionsStorable(env, spec, EffectiveDriver(d.driver, spec), d.options);
    if v.options.Some? {
      OptionsRoundTrip(env.py, ResolveDriver(spec.driverSpecs, v.driver.value).value.optionsModel, v.options);
    } else {
      OptionsRoundTrip(env.py, NO_OPTIONS, v.options);
    }
    var secrets := if v.secrets.None? then Dict(map[]) else env.py.dumpJson(v.secrets.value);
    assert env.provider.decrypt(Some(env.provider.encrypt(nonce, secrets))) == Some(secrets);
  }

  // ---------- reading back healthy ----------

  /** Validating the record again succeeds with the same driver and options, and dumps the same content
      as far as the models are stable. */
  lemma Revalidates(env: Env, nonce: int, d: Draft, id: string, row: Row)
    requires Sound(env)
    requires Columnise(env, nonce, d) == Ok(row.cols)
    ensures Validate(env.py, env.types, d).Ok?
    ensures var r := ToRecord(env.py, env.provider, id, row);
            var v := Validate(env.py, env.types, d).value;
            var spec := env.types[d.typ];
            var again := Validate(env.py, env.types, r.AsDraft());
            && again.Ok?
            && again.value.driver == v.driver && again.value.options == v.options
            && (again.value.secrets.Some? <==> v.secrets.Some?)
            && (StableModel(env.py, spec.propertiesModel, v.properties) ==>
                  env.py.dumpJson(again.value.properties) == env.py.dumpJson(v.properties))
            && (v.secrets.Some? && spec.secretsModel.Some? &&
                StableModel(env.py, spec.secretsModel.value, v.secrets.value) ==>
                  env.py.dumpJson(again.value.secrets.value) == env.py.dumpJson(v.secrets.value))
  {
    DecodesToPersisted(env, nonce, d, id, row);
    ModelsTakeDumps(env, d);
    var spec := env.types[d.typ];
    assert SoundType(env.py, spec);
    OptionsStable(env, spec, EffectiveDriver(d.driver, spec), d.options);
  }

  lemma WrittenRowValidates(env: Env, id: string, row: Row)
    requires Sound(env)
    requires Written(env, row.cols)
    ensures Validate(env.py, env.types, ToRecord(env.py, env.provider, id, row).AsDraft()).Ok?
  {
    var nonce: int, d: Draft :| Columnise(env, nonce, d) == Ok(row.cols);
    Revalidates(env, nonce, d, id, row);
  }

  lemma WrittenRowDecodes(env: Env, id: string, row: Row)
    requires Sound(env)
    requires Written(env, row.cols)
    ensures row.cols.labels.Dict?
    ensures ToRecord(env.py, env.provider, id, row).readIssues == [] <==> AllStrings(row.cols.labels.entries)
  {
    var nonce: int, d: Draft :| Columnise(env, nonce, d) == Ok(row.cols);
    DecodesToPersisted(env, nonce, d, id, row);
  }

  lemma WrittenRowReadable(env: Env, id: string, row: Row)
    requires Sound(env)
    requires Written(env, row.cols)
    ensures !ToRecord(env.py, env.provider, id, row).Unreadable()
  {
    var nonce: int, d: Draft :| Columnise(env, nonce, d) == Ok(row.cols);
    DecodesToPersisted(env, nonce, d, id, row);
  }

  /** Every written row reads back healthy, exactly when its labels are strings and the public models
      accept what validation makes of the record. */
  lemma WrittenRowsHealthy(env: Env, id: string, row: Row)
    requires Sound(env)
    requires Written(env, row.cols)
    ensures row.cols.labels.Dict?
    ensures var r := ToRecord(env.py, env.provider, id, row);
            && Validate(env.py, env.types, r.AsDraft()).Ok?
            && (r.readIssues == [] <==> AllStrings(row.cols.labels.entries))
            && (ViewOf(env.py, env.types, r).Healthy? <==>
                  AllStrings(row.cols.labels.entries) && PublicAccepts(env.py, env.types, r.AsDraft()))
  {
    WrittenRowValidates(env, id, row);
    WrittenRowDecodes(env, id, row);
    HealthyIff(env.py, env.types, ToRecord(env.py, env.provider, id, row));
  }

  /** Writing a record back unchanged is a fixed point: only the ciphertext's randomness is new. */
  lemma RewriteIsIdentity(env: Env, id: string, row: Row, nonce: int)
    requires Lawful(env)
    requires Written(env, row.cols)
    requires row.cols.labels.Dict? && AllStrings(row.cols.labels.entries)
    ensures var again := Columnise(env, nonce, ToRecord(env.py, env.provider, id, row).AsDraft());
            && again.Ok?
            && again.value.(ciphertext := row.cols.ciphertext) == row.cols
            && env.provider.decrypt(again.value.ciphertext) == env.provider.decrypt(row.cols.ciphertext)
  {
    var n: int, d: Draft :| Columnise(env, n, d) == Ok(row.cols);
    Revalidates(env, n, d, id, row);
    ModelsStable(env, d);
    DecodesToPersisted(env, n, d, id, row);
    var r := ToRecord(env.py, env.provider, id, row);
    var v := Validate(env.py, env.types, d).value;
    var again := Validate(env.py, env.types, r.AsDraft()).value;
    var secrets := if v.secrets.None? then Dict(map[]) else env.py.dumpJson(v.secrets.value);
    assert ToPersisted(env.py, r.AsDraft(), again) == ToPersisted(env.py, d, v);
    Resealed(env.provider, nonce, n, secrets);
  }

  lemma Resealed(p: Provider, first: int, second: int, payload: Json)
    requires Faithful(p)
    ensures p.decrypt(Some(p.encrypt(first, payload))) == p.decrypt(Some(p.encrypt(second, payload)))
  {
    assert p.decrypt(Some(p.encrypt(first, payload))) == Some(payload);
    assert p.decrypt(Some(p.encrypt(second, payload))) == Some(payload);
  }

  // ---------- repair ----------

  /** What is encrypted for a validated connection. */
  function SecretsDump(py: Pydantic, v: Validated): Json {
    if v.secrets.None? then Dict(map[]) else py.dumpJson(v.secrets.value)
  }

  /** An update that goes through leaves readable secrets: the dump of the validated payload, which is
      the patch's own replacement when it sets one. A row whose secrets cannot be read is only ever
      rewritten by a patch that sets them. */
  lemma RevisionIsReadable(env: Env, existing: Record, patch: Patch, nonce: int)
    requires Faithful(env.provider)
    requires Revise(env, existing, patch, nonce).Ok?
    ensures existing.Unreadable() ==> patch.secrets.Set?
    ensures var d := Merge(existing, patch);
            var v := Validate(env.py, env.types, d);
            && v.Ok?
            && d.secrets == (if patch.secrets.Set? then patch.secrets.value else Dict(existing.secrets))
            && v.value.secrets == (if env.types[d.typ].secretsModel.None? then None
                                   else env.py.validate(env.types[d.typ].secretsModel.value, FromJson(d.secrets)))
            && env.provider.decrypt(Revise(env, existing, patch, nonce).value.ciphertext) ==
               Some(SecretsDump(env.py, v.value))
  {
    var secrets := SecretsDump(env.py, Validate(env.py, env.types, Merge(existing, patch)).value);
    assert env.provider.decrypt(Some(env.provider.encrypt(nonce, secrets))) == Some(secrets);
  }
}
