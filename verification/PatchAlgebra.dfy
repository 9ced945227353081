/** Two updates in a row against one update with the combined patch. */
module PatchAlgebra {
  import opened Values
  import opened ModelRefs
  import opened Schemas
  import opened Entities
  import opened Registries
  import opened Validation
  import opened RecordMapper
  import opened Store
  import opened ReadBack

  /** The row an update with a resolved patch stores. */
  function Updated(env: Env, id: string, row: Row, patch: Patch, now: int, nonce: int): Result<Row, Error> {
    var cols :- Revise(env, ToRecord(env.py, env.provider, id, row), patch, nonce);
    Ok(Row(cols, row.createdAt, now, row.deletedAt))
  }

  /** The class that judges driver options under an effective driver; None for an undeclared one. No
      driver at all takes the same options as one that has none. */
  function OptionsClass(spec: TypeSpec, effective: Option<string>): Option<ClassRef> {
    if effective.None? then Some(NO_OPTIONS)
    else
      var driver := ResolveDriver(spec.driverSpecs, effective.value);
      if driver.None? then None else Some(driver.value.optionsModel)
  }

  /** The later patch brings options with a driver, or names one whose options the same class judges,
      such as the driver that is in effect already, or one that is refused anyway. */
  predicate KeepsDriver(spec: TypeSpec, inEffect: Option<string>, q: Patch) {
    q.driver.Set? ==>
      var after := OptionsClass(spec, EffectiveDriver(q.driver.value, spec));
      q.options.Set? || after.None? || after == OptionsClass(spec, EffectiveDriver(inEffect, spec))
  }

  lemma ClassDecides(py: Pydantic, spec: TypeSpec, a: Option<string>, b: Option<string>, raw: Options)
    requires OptionsClass(spec, a) == OptionsClass(spec, b)
    ensures ValidateDriverOptions(py, spec, a, raw) == ValidateDriverOptions(py, spec, b, raw)
  {
  }

  /** Labels the earlier patch leaves behind are strings, as the column requires. */
  predicate LabelsSurvive(p: Patch, q: Patch) {
    p.labels.Set? && p.labels.value.Some? && !q.labels.Set? ==> AllStrings(p.labels.value.value)
  }

  lemma DecodedLabelsAreStrings(env: Env, id: string, row: Row)
    ensures AllStrings(ToRecord(env.py, env.provider, id, row).labels)
  {
  }

  lemma FieldsOfCombined(p: Patch, q: Patch)
    ensures FieldsSet(Combine(p, q)) == FieldsSet(p) + FieldsSet(q)
  {
    assert forall f :: IsSet(Combine(p, q), f) <==> IsSet(p, f) || IsSet(q, f);
  }

  /** The options validated by the combined update are those of the second of two updates. */
  lemma OptionsCompose(env: Env, spec: TypeSpec, existing: Record, p: Patch, q: Patch, middle: Record, v: Option<Model>)
    requires SoundType(env.py, spec)
    requires KeepsDriver(spec, Merge(existing, p).driver, q)
    requires ValidateDriverOptions(env.py, spec, EffectiveDriver(Merge(existing, p).driver, spec),
                                   Merge(existing, p).options) == Ok(v)
    requires middle.options == AsOptions(v) && middle.driver == Merge(existing, p).driver
    ensures var one := Merge(existing, Combine(p, q));
            var two := Merge(middle, q);
            && one.driver == two.driver
            && ValidateDriverOptions(env.py, spec, EffectiveDriver(one.driver, spec), one.options) ==
               ValidateDriverOptions(env.py, spec, EffectiveDriver(two.driver, spec), two.options)
  {
    var before := EffectiveDriver(Merge(existing, p).driver, spec);
    OptionsStable(env, spec, before, Merge(existing, p).options);
    if q.driver.Set? && !q.options.Set? {
      var after := EffectiveDriver(q.driver.value, spec);
      if OptionsClass(spec, after).Some? {
        ClassDecides(env.py, spec, before, after, Merge(existing, p).options);
        ClassDecides(env.py, spec, before, after, AsOptions(v));
      }
    }
  }

  /** The driver the first of two updates leaves in effect is the one the second may keep. */
  predicate KeepsRowDriver(env: Env, row: Row, p: Patch, q: Patch) {
    row.cols.typ in env.types ==> KeepsDriver(env.types[row.cols.typ], Choose(p.driver, row.cols.driver), q)
  }

  /** A stored payload its class accepts as it is. */
  ghost predicate PayloadStable(py: Pydantic, c: ClassRef, stored: Json) {
    var m := py.validate(c, FromJson(stored));
    m.Some? && py.dumpJson(m.value) == stored
  }

  /** What the later patch takes over from the row is stable. */
  ghost predicate CarriesStable(env: Env, id: string, row: Row, q: Patch) {
    var r := ToRecord(env.py, env.provider, id, row);
    r.typ in env.types ==>
      var spec := env.types[r.typ];
      && (!q.properties.Set? ==> PayloadStable(env.py, spec.propertiesModel, Dict(r.properties)))
      && (!q.secrets.Set? && spec.secretsModel.Some? ==>
            PayloadStable(env.py, spec.secretsModel.value, Dict(r.secrets)))
  }

  /** After a successful update that leaves a stable row, a second one and one update with the combined
      patch come to the same: both fail, with the same error, or both store the same row, the second's
      timestamp and nonce included. */
  lemma StableUpdatesCompose(env: Env, id: string, row: Row, p: Patch, q: Patch, now1: int, nonce1: int, now2: int,
                             nonce2: int)
    requires Sound(env)
    requires KeepsRowDriver(env, row, p, q) && LabelsSurvive(p, q)
    ensures var first := Updated(env, id, row, p, now1, nonce1);
            first.Ok? && CarriesStable(env, id, first.value, q) ==>
              Updated(env, id, row, Combine(p, q), now2, nonce2) == Updated(env, id, first.value, q, now2, nonce2)
  {
    var first := Updated(env, id, row, p, now1, nonce1);
    if first.Ok? && CarriesStable(env, id, first.value, q) {
      var existing := ToRecord(env.py, env.provider, id, row);
      var middle := ToRecord(env.py, env.provider, id, first.value);
      var d1 := Merge(existing, p);
      DecodedLabelsAreStrings(env, id, row);
      DecodesToPersisted(env, nonce1, d1, id, first.value);
      var v1 := Validate(env.py, env.types, d1).value;
      var spec := env.types[d1.typ];
      assert SoundType(env.py, spec);
      ModelsTakeDumps(env, d1);
      FieldsOfCombined(p, q);
      OptionsCompose(env, spec, existing, p, q, middle, v1.options);
      var one := Merge(existing, Combine(p, q));
      var two := Merge(middle, q);
      assert one.name == two.name && one.kind == two.kind && one.typ == two.typ && one.driver == two.driver;
      assert one.labels == two.labels && one.metadata == two.metadata && one.extra == two.extra;
      SameDump(env, spec, existing, p, q, middle, v1);
      SameColumns(env, one, two, nonce2);
    }
  }

  /** In an installation whose classes are all stable that is always so. */
  lemma UpdatesCompose(env: Env, id: string, row: Row, p: Patch, q: Patch, now1: int, nonce1: int, now2: int,
                       nonce2: int)
    requires Lawful(env)
    requires KeepsRowDriver(env, row, p, q) && LabelsSurvive(p, q)
    ensures var first := Updated(env, id, row, p, now1, nonce1);
            first.Ok? ==>
              Updated(env, id, row, Combine(p, q), now2, nonce2) == Updated(env, id, first.value, q, now2, nonce2)
  {
    if Updated(env, id, row, p, now1, nonce1).Ok? {
      LawfulCarriesStable(env, id, row, p, q, now1, nonce1);
      StableUpdatesCompose(env, id, row, p, q, now1, nonce1, now2, nonce2);
    }
  }

  lemma LawfulCarriesStable(env: Env, id: string, row: Row, p: Patch, q: Patch, now: int, nonce: int)
    requires Lawful(env) && Updated(env, id, row, p, now, nonce).Ok?
    ensures CarriesStable(env, id, Updated(env, id, row, p, now, nonce).value, q)
  {
    var d1 := Merge(ToRecord(env.py, env.provider, id, row), p);
    DecodesToPersisted(env, nonce, d1, id, Updated(env, id, row, p, now, nonce).value);
    ModelsStable(env, d1);
  }

  /** Properties and secrets dump alike whether validated once or twice. */
  lemma SameDump(env: Env, spec: TypeSpec, existing: Record, p: Patch, q: Patch, middle: Record, v: Validated)
    requires env.py.validate(spec.propertiesModel, FromJson(Merge(existing, p).properties)) == Some(v.properties)
    requires spec.secretsModel.Some? ==>
             v.secrets.Some?
               && env.py.validate(spec.secretsModel.value, FromJson(Merge(existing, p).secrets)) == v.secrets
    requires Dict(middle.properties) == env.py.dumpJson(v.properties)
    requires v.secrets.Some? ==> Dict(middle.secrets) == env.py.dumpJson(v.secrets.value)
    requires !q.properties.Set? ==> PayloadStable(env.py, spec.propertiesModel, Dict(middle.properties))
    requires !q.secrets.Set? && spec.secretsModel.Some? ==>
             PayloadStable(env.py, spec.secretsModel.value, Dict(middle.secrets))
    ensures SameAccepted(env.py, spec.propertiesModel, Merge(existing, Combine(p, q)).properties,
                         Merge(middle, q).properties)
    ensures spec.secretsModel.Some? ==>
            SameAccepted(env.py, spec.secretsModel.value, Merge(existing, Combine(p, q)).secrets,
                         Merge(middle, q).secrets)
  {
  }

  ghost predicate SameAccepted(py: Pydantic, c: ClassRef, a: Json, b: Json) {
    var x := py.validate(c, FromJson(a));
    var y := py.validate(c, FromJson(b));
    && (x.Some? <==> y.Some?)
    && (x.Some? ==> py.dumpJson(x.value) == py.dumpJson(y.value))
  }

  /** Drafts that differ only in payloads dumping alike are stored alike. */
  lemma SameColumns(env: Env, a: Draft, b: Draft, nonce: int)
    requires a.typ in env.types
    requires a.name == b.name && a.kind == b.kind && a.typ == b.typ && a.driver == b.driver
    requires a.labels == b.labels && a.metadata == b.metadata && a.extra == b.extra
    requires var spec := env.types[a.typ];
             && SameAccepted(env.py, spec.propertiesModel, a.properties, b.properties)
             && (spec.secretsModel.Some? ==> SameAccepted(env.py, spec.secretsModel.value, a.secrets, b.secrets))
             && ValidateDriverOptions(env.py, spec, EffectiveDriver(a.driver, spec), a.options) ==
                ValidateDriverOptions(env.py, spec, EffectiveDriver(b.driver, spec), b.options)
    ensures Columnise(env, nonce, a) == Columnise(env, nonce, b)
  {
  }

  // ---------- what keeps two updates apart ----------

  lemma LabelsUpdated(env: Env, id: string, row: Row, x: Patch, now: int, nonce: int)
    ensures var labels :=
              if x.labels.Set? then x.labels.value else Some(ToRecord(env.py, env.provider, id, row).labels);
            var u := Updated(env, id, row, x, now, nonce);
            u.Ok? ==> labels.Some? && u.value.cols.labels == Dict(labels.value)
  {
  }

  /** Labels that do not survive are lost between two updates and kept by one, in every installation. */
  lemma LostLabelsDiffer(env: Env, id: string, row: Row, p: Patch, q: Patch, now1: int, nonce1: int, now2: int,
                         nonce2: int)
    requires !LabelsSurvive(p, q)
    requires Updated(env, id, row, p, now1, nonce1).Ok? && Updated(env, id, row, Combine(p, q), now2, nonce2).Ok?
    ensures Updated(env, id, row, Combine(p, q), now2, nonce2) !=
            Updated(env, id, Updated(env, id, row, p, now1, nonce1).value, q, now2, nonce2)
  {
    var first := Updated(env, id, row, p, now1, nonce1).value;
    LabelsUpdated(env, id, row, p, now1, nonce1);
    LabelsUpdated(env, id, row, Combine(p, q), now2, nonce2);
    LabelsUpdated(env, id, first, q, now2, nonce2);
    assert ToRecord(env.py, env.provider, id, first).labels == map[];
  }

  /** A payload validated once dumps as stored; validated twice, where that is not stable, it dumps otherwise. */
  lemma DumpsApart(env: Env, existing: Record, middle: Record, p: Patch, q: Patch, v1: Validated)
    requires Validate(env.py, env.types, Merge(existing, p)) == Ok(v1)
    requires middle.typ == existing.typ && Dict(middle.properties) == env.py.dumpJson(v1.properties)
    requires Dict(middle.secrets) == SecretsDump(env.py, v1)
    requires Validate(env.py, env.types, Merge(existing, Combine(p, q))).Ok?
    requires Validate(env.py, env.types, Merge(middle, q)).Ok?
    requires var spec := env.types[middle.typ];
             (!q.properties.Set? && !PayloadStable(env.py, spec.propertiesModel, Dict(middle.properties)))
             || (!q.secrets.Set? && spec.secretsModel.Some?
                 && !PayloadStable(env.py, spec.secretsModel.value, Dict(middle.secrets)))
    ensures var a := Validate(env.py, env.types, Merge(existing, Combine(p, q))).value;
            var b := Validate(env.py, env.types, Merge(middle, q)).value;
            env.py.dumpJson(a.properties) != env.py.dumpJson(b.properties)
            || SecretsDump(env.py, a) != SecretsDump(env.py, b)
  {
  }

  lemma DifferentDumps(env: Env, one: Draft, two: Draft, nonce: int)
    requires Faithful(env.provider)
    requires Columnise(env, nonce, one).Ok? && Columnise(env, nonce, two).Ok?
    requires Validate(env.py, env.types, one).Ok? && Validate(env.py, env.types, two).Ok?
    requires var a, b := Validate(env.py, env.types, one).value, Validate(env.py, env.types, two).value;
             env.py.dumpJson(a.properties) != env.py.dumpJson(b.properties)
             || SecretsDump(env.py, a) != SecretsDump(env.py, b)
    ensures Columnise(env, nonce, one) != Columnise(env, nonce, two)
  {
    StoredSecrets(env, one, nonce);
    StoredSecrets(env, two, nonce);
  }

  /** A payload that is taken over and not stable is validated once by one update and twice by two. */
  lemma UnstableDiffers(env: Env, id: string, row: Row, p: Patch, q: Patch, now1: int, nonce1: int, now2: int,
                        nonce2: int)
    requires Sound(env)
    requires Updated(env, id, row, p, now1, nonce1).Ok? && Updated(env, id, row, Combine(p, q), now2, nonce2).Ok?
    requires !CarriesStable(env, id, Updated(env, id, row, p, now1, nonce1).value, q)
    ensures Updated(env, id, row, Combine(p, q), now2, nonce2) !=
            Updated(env, id, Updated(env, id, row, p, now1, nonce1).value, q, now2, nonce2)
  {
    var first := Updated(env, id, row, p, now1, nonce1).value;
    if Updated(env, id, first, q, now2, nonce2).Ok? {
      var existing, middle := ToRecord(env.py, env.provider, id, row), ToRecord(env.py, env.provider, id, first);
      DecodesToPersisted(env, nonce1, Merge(existing, p), id, first);
      DumpsApart(env, existing, middle, p, q, Validate(env.py, env.types, Merge(existing, p)).value);
      DifferentDumps(env, Merge(existing, Combine(p, q)), Merge(middle, q), nonce2);
    }
  }

  lemma StoredSecrets(env: Env, d: Draft, nonce: int)
    requires Faithful(env.provider) && Columnise(env, nonce, d).Ok?
    ensures Validate(env.py, env.types, d).Ok?
    ensures env.provider.decrypt(Columnise(env, nonce, d).value.ciphertext) ==
            Some(SecretsDump(env.py, Validate(env.py, env.types, d).value))
  {
    var secrets := SecretsDump(env.py, Validate(env.py, env.types, d).value);
    assert env.provider.decrypt(Some(env.provider.encrypt(nonce, secrets))) == Some(secrets);
  }

  /** The exact condition on a row: where the driver is kept and the combined update goes through, two
      updates store the same exactly when the labels survive and what is taken over is stable. */
  lemma ComposeExactly(env: Env, id: string, row: Row, p: Patch, q: Patch, now1: int, nonce1: int, now2: int,
                       nonce2: int)
    requires Sound(env) && KeepsRowDriver(env, row, p, q)
    ensures var first := Updated(env, id, row, p, now1, nonce1);
            var one := Updated(env, id, row, Combine(p, q), now2, nonce2);
            first.Ok? && one.Ok? ==>
              (one == Updated(env, id, first.value, q, now2, nonce2) <==>
               LabelsSurvive(p, q) && CarriesStable(env, id, first.value, q))
  {
    var first := Updated(env, id, row, p, now1, nonce1);
    if first.Ok? && Updated(env, id, row, Combine(p, q), now2, nonce2).Ok? {
      if !LabelsSurvive(p, q) {
        LostLabelsDiffer(env, id, row, p, q, now1, nonce1, now2, nonce2);
      } else if !CarriesStable(env, id, first.value, q) {
        UnstableDiffers(env, id, row, p, q, now1, nonce1, now2, nonce2);
      } else {
        StableUpdatesCompose(env, id, row, p, q, now1, nonce1, now2, nonce2);
      }
    }
  }

  // ---------- pairs of patches ----------

  /** The two patches alone settle which driver's options apply: whatever the row and its type. */
  predicate DriverSettled(p: Patch, q: Patch) {
    q.driver.Set? ==> q.options.Set? || (p.driver.Set? && NamedDriver(p.driver.value) == NamedDriver(q.driver.value))
  }

  /** An empty driver name counts as none. */
  function NamedDriver(driver: Option<string>): Option<string> {
    if driver.Some? && driver.value != "" then driver else None
  }

  predicate Composable(p: Patch, q: Patch) {
    DriverSettled(p, q) && LabelsSurvive(p, q)
  }

  /** No mapping is set to null, which no update survives. */
  predicate Applicable(q: Patch) {
    && (q.labels.Set? ==> q.labels.value.Some?)
    && (q.metadata.Set? ==> q.metadata.value.Some?)
    && (q.extra.Set? ==> q.extra.value.Some?)
  }

  /** Both fail, or both store the same row. */
  predicate SameOutcome(a: Result<Row, Error>, b: Result<Row, Error>) {
    (a.Ok? <==> b.Ok?) && (a.Ok? ==> a == b)
  }

  lemma InapplicableFails(env: Env, id: string, row: Row, p: Patch, now: int, nonce: int)
    requires !Applicable(p)
    ensures Updated(env, id, row, p, now, nonce).Err?
  {
  }

  /** The general half of the exact condition: a composable pair composes in every lawful installation,
      on every row, and so does a pair in which one patch can never be applied. */
  lemma ComposablePairsCompose(env: Env, id: string, row: Row, p: Patch, q: Patch, now1: int, nonce1: int, now2: int,
                               nonce2: int)
    requires Lawful(env)
    requires Applicable(p) && Applicable(q) ==> Composable(p, q)
    ensures var first := Updated(env, id, row, p, now1, nonce1);
            first.Ok? ==>
              SameOutcome(Updated(env, id, row, Combine(p, q), now2, nonce2),
                          Updated(env, id, first.value, q, now2, nonce2))
  {
    var first := Updated(env, id, row, p, now1, nonce1);
    if !Applicable(p) {
      InapplicableFails(env, id, row, p, now1, nonce1);
    } else if !Applicable(q) {
      InapplicableFails(env, id, row, Combine(p, q), now2, nonce2);
      if first.Ok? {
        InapplicableFails(env, id, first.value, q, now2, nonce2);
      }
    } else {
      assert KeepsRowDriver(env, row, p, q);
      UpdatesCompose(env, id, row, p, q, now1, nonce1, now2, nonce2);
    }
  }
}
