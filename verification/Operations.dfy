/** What each operation of the service promises, told from the draft, the patch, the query and the stored
    row. The predicates are an independent reference: they use the policy, the resolver, the provider and the
    classes directly, and none of the functions that compute the decisions. */
module Operations {
  import opened Values
  import opened Text
  import opened Schemas
  import opened Entities
  import opened Validation
  import opened RecordMapper
  import opened Store
  import opened ReadBack
  import opened Acceptance

  // ---------- what is stored ----------

  /** The options column: nothing, or the class by module and attribute path with the instance's dump. */
  ghost predicate StoredOptions(py: Pydantic, options: Option<Model>, column: Json) {
    match options
    case None => column == Null
    case Some(m) =>
      && py.isDriverOptions(m.cls)
      && column == Dict(map["model_ref" := Str(m.cls.mod + ":" + Join(m.cls.path, '.')), "data" := py.dumpJson(m)])
  }

  /** The columns that hold a draft accepted as `v`: its own driver, and the dumps of what was validated. */
  ghost predicate StoredAs(env: Env, nonce: int, d: Draft, v: Validated, c: Columns) {
    && c.name == d.name && c.kind == d.kind && c.typ == d.typ && c.driver == d.driver
    && StoredOptions(env.py, v.options, c.options)
    && c.properties == env.py.dumpJson(v.properties)
    && c.ciphertext ==
       Some(env.provider.encrypt(nonce, if v.secrets.None? then Dict(map[]) else env.py.dumpJson(v.secrets.value)))
    && d.labels.Some? && c.labels == Dict(d.labels.value)
    && d.metadata.Some? && c.metadata == Dict(d.metadata.value)
    && d.extra.Some? && c.extra == Dict(d.extra.value)
  }

  lemma OptionsStored(py: Pydantic, options: Option<Model>, column: Json)
    ensures BindOptions(py, options) == Ok(column) <==> StoredOptions(py, options, column)
  {
  }

  lemma StoredIff(env: Env, nonce: int, d: Draft, v: Validated, c: Columns)
    requires AcceptedAs(env.py, env.types, d, v)
    ensures Columnise(env, nonce, d) == Ok(c) <==> StoredAs(env, nonce, d, v, c)
  {
    AcceptedIff(env.py, env.types, d, v);
    OptionsStored(env.py, v.options, c.options);
  }

  /** The draft is accepted and these are its columns. */
  ghost predicate Persists(env: Env, nonce: int, d: Draft, c: Columns) {
    exists v :: AcceptedAs(env.py, env.types, d, v) && StoredAs(env, nonce, d, v, c)
  }

  lemma PersistsIff(env: Env, nonce: int, d: Draft, c: Columns)
    ensures Columnise(env, nonce, d) == Ok(c) <==> Persists(env, nonce, d, c)
  {
    if Columnise(env, nonce, d) == Ok(c) {
      var v := Validate(env.py, env.types, d).value;
      AcceptedIff(env.py, env.types, d, v);
      StoredIff(env, nonce, d, v, c);
    }
    if v :| AcceptedAs(env.py, env.types, d, v) && StoredAs(env, nonce, d, v, c) {
      StoredIff(env, nonce, d, v, c);
    }
  }

  /** Why a draft is not stored: validation's own error, or options of a foreign class. */
  lemma NotPersisted(env: Env, nonce: int, d: Draft)
    requires Columnise(env, nonce, d).Err?
    ensures var v := Validate(env.py, env.types, d);
            Columnise(env, nonce, d).error == if v.Err? then v.error else NotDriverOptions
  {
  }

  // ---------- create ----------

  /** There is room for one more undeleted row. */
  ghost predicate HasRoom(limit: Option<int>, t: Table) {
    limit.Some? ==> |set id | id in t && t[id].deletedAt.None?| < limit.value
  }

  /** The create goes through with the statement `w`. */
  ghost predicate Creates(env: Env, limit: Option<int>, t: Table, actor: Actor, draft: Draft, id: string, now: int,
                          nonce: int, w: Write)
  {
    var d := env.resolver.draft(actor, draft);
    && env.policy.canCreate(actor, d)
    && HasRoom(limit, t)
    && id !in t
    && exists c :: Persists(env, nonce, d, c) && w == Insert(id, Row(c, now, now, None))
  }

  lemma NewRowIff(env: Env, t: Table, d: Draft, v: Validated, id: string, now: int, nonce: int)
    requires Validate(env.py, env.types, d) == Ok(v)
    ensures NewRow(env, t, d, v, id, now, nonce) ==
            var c := Columnise(env, nonce, d);
            if c.Err? then Err(c.error) else if id in t then Err(DuplicateKey(id))
            else Ok(Insert(id, Row(c.value, now, now, None)))
  {
  }

  /** The exact condition of success, and the row that is inserted. */
  lemma CreateIff(env: Env, limit: Option<int>, t: Table, actor: Actor, draft: Draft, id: string, now: int, nonce: int,
                  w: Write)
    ensures CreateDecision(env, limit, t, actor, draft, id, now, nonce) == Ok(w) <==>
            Creates(env, limit, t, actor, draft, id, now, nonce, w)
  {
    var d := env.resolver.draft(actor, draft);
    var v := Validate(env.py, env.types, d);
    assert Active(t) == set x | x in t && t[x].deletedAt.None?;
    if v.Ok? {
      NewRowIff(env, t, d, v.value, id, now, nonce);
    }
    forall c ensures Columnise(env, nonce, d) == Ok(c) <==> Persists(env, nonce, d, c) {
      PersistsIff(env, nonce, d, c);
    }
  }

  /** Which error, first failure first: the policy, validation, the limit, foreign options, a taken id. */
  lemma CreateErrors(env: Env, limit: Option<int>, t: Table, actor: Actor, draft: Draft, id: string, now: int,
                     nonce: int)
    ensures var d := env.resolver.draft(actor, draft);
            var r := CreateDecision(env, limit, t, actor, draft, id, now, nonce);
            var v := Validate(env.py, env.types, d);
            if !env.policy.canCreate(actor, d) then r == Err(AccessDenied)
            else if v.Err? then r == Err(v.error)
            else if !HasRoom(limit, t) then limit.Some? && r == Err(LimitExceeded(limit.value))
            else if !exists c :: Persists(env, nonce, d, c) then r == Err(NotDriverOptions)
            else if id in t then r == Err(DuplicateKey(id))
            else r.Ok?
  {
    var d := env.resolver.draft(actor, draft);
    var v := Validate(env.py, env.types, d);
    assert Active(t) == set x | x in t && t[x].deletedAt.None?;
    if v.Ok? {
      NewRowIff(env, t, d, v.value, id, now, nonce);
      if Columnise(env, nonce, d).Err? {
        NotPersisted(env, nonce, d);
      }
    }
    forall c ensures Columnise(env, nonce, d) == Ok(c) <==> Persists(env, nonce, d, c) {
      PersistsIff(env, nonce, d, c);
    }
    assert Columnise(env, nonce, d).Ok? ==> Persists(env, nonce, d, Columnise(env, nonce, d).value);
  }

  /** The record shows the draft it was stored for, and its validated payloads. */
  ghost predicate ShowsDraft(py: Pydantic, r: Record, d: Draft, v: Validated) {
    && r.name == d.name && r.kind == d.kind && r.typ == d.typ && r.driver == d.driver
    && r.options == (if v.options.None? then NoOptions else TypedOptions(v.options.value))
    && Dict(r.properties) == py.dumpJson(v.properties)
    && Dict(r.secrets) == (if v.secrets.None? then Dict(map[]) else py.dumpJson(v.secrets.value))
    && d.metadata == Some(r.metadata) && d.extra == Some(r.extra)
    && d.labels.Some?
    && r.labels == if forall k | k in d.labels.value :: d.labels.value[k].Str? then d.labels.value else map[]
  }

  /** The record reads as the draft, accepted. */
  ghost predicate ReadsAs(env: Env, d: Draft, r: Record) {
    exists v :: AcceptedAs(env.py, env.types, d, v) && ShowsDraft(env.py, r, d, v)
  }

  /** A successful create adds its one row, which reads back as the resolved draft. */
  lemma CreatedRowReads(env: Env, limit: Option<int>, t: Table, actor: Actor, draft: Draft, id: string, now: int,
                        nonce: int)
    requires Sound(env)
    requires CreateDecision(env, limit, t, actor, draft, id, now, nonce).Ok?
    ensures var d := env.resolver.draft(actor, draft);
            var after := Apply(t, CreateDecision(env, limit, t, actor, draft, id, now, nonce).value);
            && id !in t && id in after && after - {id} == t
            && ReadsAs(env, d, Read(env, after, id))
    ensures var after := Apply(t, CreateDecision(env, limit, t, actor, draft, id, now, nonce).value);
            id in after &&
            var r := Read(env, after, id);
            r.id == id && r.createdAt == now && r.updatedAt == now && r.deletedAt.None?
  {
    var d := env.resolver.draft(actor, draft);
    var w := CreateDecision(env, limit, t, actor, draft, id, now, nonce).value;
    CreateIff(env, limit, t, actor, draft, id, now, nonce, w);
    var c :| Persists(env, nonce, d, c) && w == Insert(id, Row(c, now, now, None));
    PersistedReads(env, nonce, d, id, Row(c, now, now, None));
    assert Apply(t, w) == t[id := Row(c, now, now, None)];
  }

  lemma PersistedReads(env: Env, nonce: int, d: Draft, id: string, row: Row)
    requires Sound(env) && Persists(env, nonce, d, row.cols)
    ensures ReadsAs(env, d, ToRecord(env.py, env.provider, id, row))
  {
    PersistsIff(env, nonce, d, row.cols);
    var v := Validate(env.py, env.types, d).value;
    AcceptedIff(env.py, env.types, d, v);
    DecodesToPersisted(env, nonce, d, id, row);
    assert ShowsDraft(env.py, ToRecord(env.py, env.provider, id, row), d, v);
  }

  // ---------- get ----------

  /** The actor is shown the live row. */
  ghost predicate Granted(env: Env, t: Table, actor: Actor, id: string) {
    id in t && t[id].deletedAt.None? && env.policy.canGet(actor, Read(env, t, id))
  }

  lemma GetIff(env: Env, t: Table, actor: Actor, id: string)
    ensures var r := GetDecision(env, t, actor, id);
            && (r.Ok? <==> Granted(env, t, actor, id))
            && (r.Ok? ==> id in t && r.value == Read(env, t, id))
            && (r.Err? ==> r.error == if id in t && t[id].deletedAt.None? then AccessDenied else NotFound(id))
  {
  }

  // ---------- update ----------

  /** The draft a patch makes of a record: what the patch sets, and the record's own for the rest; the kind and
      the type are always the record's. */
  ghost predicate Patched(r: Record, p: Patch, d: Draft) {
    && d.name == (if p.name.Set? then p.name.value else r.name)
    && d.kind == r.kind && d.typ == r.typ
    && d.driver == (if p.driver.Set? then p.driver.value else r.driver)
    && d.options == (if p.options.Set? then p.options.value else r.options)
    && d.properties == (if p.properties.Set? then p.properties.value else Dict(r.properties))
    && d.secrets == (if p.secrets.Set? then p.secrets.value else Dict(r.secrets))
    && d.labels == (if p.labels.Set? then p.labels.value else Some(r.labels))
    && d.metadata == (if p.metadata.Set? then p.metadata.value else Some(r.metadata))
    && d.extra == (if p.extra.Set? then p.extra.value else Some(r.extra))
  }

  lemma PatchedIff(r: Record, p: Patch, d: Draft)
    ensures Patched(r, p, d) <==> d == Merge(r, p)
  {
  }

  /** The update of a record in hand goes through with these columns: unreadable secrets have to be replaced,
      and the patched draft is accepted and stored. */
  ghost predicate Revises(env: Env, r: Record, p: Patch, nonce: int, c: Columns) {
    && (Issue(SecretsPart, UnreadableSecrets) in r.readIssues ==> p.secrets.Set?)
    && exists d :: Patched(r, p, d) && Persists(env, nonce, d, c)
  }

  lemma ReviseIff(env: Env, r: Record, p: Patch, nonce: int, c: Columns)
    ensures Revise(env, r, p, nonce) == Ok(c) <==> Revises(env, r, p, nonce, c)
  {
    PatchedIff(r, p, Merge(r, p));
    PersistsIff(env, nonce, Merge(r, p), c);
    forall d ensures Patched(r, p, d) ==> d == Merge(r, p) {
      PatchedIff(r, p, d);
    }
  }

  lemma RevisedDraft(env: Env, r: Record, p: Patch, nonce: int) returns (d: Draft, v: Validated)
    requires Revise(env, r, p, nonce).Ok?
    ensures Patched(r, p, d) && AcceptedAs(env.py, env.types, d, v)
    ensures StoredAs(env, nonce, d, v, Revise(env, r, p, nonce).value)
  {
    ReviseIff(env, r, p, nonce, Revise(env, r, p, nonce).value);
    d :| Patched(r, p, d) && Persists(env, nonce, d, Revise(env, r, p, nonce).value);
    v :| AcceptedAs(env.py, env.types, d, v) && StoredAs(env, nonce, d, v, Revise(env, r, p, nonce).value);
  }

  /** Field by field: the columns of an update hold what the patch sets, and the record's own for the rest. */
  lemma RevisedColumns(env: Env, r: Record, p: Patch, nonce: int)
    requires Revise(env, r, p, nonce).Ok?
    ensures var c := Revise(env, r, p, nonce).value;
            && c.name == (if p.name.Set? then p.name.value else r.name)
            && c.kind == r.kind && c.typ == r.typ
            && c.driver == (if p.driver.Set? then p.driver.value else r.driver)
            && (if p.labels.Set? then p.labels.value.Some? && c.labels == Dict(p.labels.value.value)
                else c.labels == Dict(r.labels))
            && (if p.metadata.Set? then p.metadata.value.Some? && c.metadata == Dict(p.metadata.value.value)
                else c.metadata == Dict(r.metadata))
            && (if p.extra.Set? then p.extra.value.Some? && c.extra == Dict(p.extra.value.value)
                else c.extra == Dict(r.extra))
  {
    var d, v := RevisedDraft(env, r, p, nonce);
  }

  /** The payload columns hold the dumps of what validation makes of the patch's payload where it sets one, and
      of the record's own otherwise. */
  lemma RevisedPayloads(env: Env, r: Record, p: Patch, nonce: int)
    requires Revise(env, r, p, nonce).Ok?
    ensures r.typ in env.types
    ensures var c, model := Revise(env, r, p, nonce).value, env.types[r.typ].propertiesModel;
            var properties := if p.properties.Set? then p.properties.value else Dict(r.properties);
            var m := env.py.validate(model, FromJson(properties));
            m.Some? && c.properties == env.py.dumpJson(m.value)
    ensures var c, model := Revise(env, r, p, nonce).value, env.types[r.typ].secretsModel;
            var secrets := if p.secrets.Set? then p.secrets.value else Dict(r.secrets);
            if model.None? then c.ciphertext == Some(env.provider.encrypt(nonce, Dict(map[])))
            else
              var m := env.py.validate(model.value, FromJson(secrets));
              m.Some? && c.ciphertext == Some(env.provider.encrypt(nonce, env.py.dumpJson(m.value)))
  {
    var d, v := RevisedDraft(env, r, p, nonce);
  }

  /** And the options column what the class of the driver then in effect makes of the options. */
  lemma RevisedOptions(env: Env, r: Record, p: Patch, nonce: int, driver: Option<string>)
    requires Revise(env, r, p, nonce).Ok?
    requires r.typ in env.types ==> RunsOn(env.types[r.typ], if p.driver.Set? then p.driver.value else r.driver, driver)
    ensures r.typ in env.types
    ensures var options := if p.options.Set? then p.options.value else r.options;
            exists o ::
              && Carries(env.py, env.types[r.typ], driver, options, o)
              && StoredOptions(env.py, o, Revise(env, r, p, nonce).value.options)
  {
    var d, v := RevisedDraft(env, r, p, nonce);
    assert Carries(env.py, env.types[r.typ], driver, d.options, v.options);
  }

  /** The update goes through with the statement `w`. */
  ghost predicate Updates(env: Env, t: Table, actor: Actor, id: string, patch: Patch, now: int, nonce: int, w: Write) {
    && Granted(env, t, actor, id)
    && var r := Read(env, t, id);
    && var p := env.resolver.patch(actor, ForUpdate, r, patch);
    && env.policy.canUpdate(actor, r, p)
    && exists c :: Revises(env, r, p, nonce, c) && w == Replace(id, c, now, p.secrets.Set?)
  }

  /** The exact condition of success, and the columns that are written. */
  lemma UpdateIff(env: Env, t: Table, actor: Actor, id: string, patch: Patch, now: int, nonce: int, w: Write)
    ensures UpdateDecision(env, t, actor, id, patch, now, nonce) == Ok(w) <==>
            Updates(env, t, actor, id, patch, now, nonce, w)
  {
    GetIff(env, t, actor, id);
    if Granted(env, t, actor, id) {
      var r := Read(env, t, id);
      var p := env.resolver.patch(actor, ForUpdate, r, patch);
      forall c ensures Revise(env, r, p, nonce) == Ok(c) <==> Revises(env, r, p, nonce, c) {
        ReviseIff(env, r, p, nonce, c);
      }
    }
  }

  /** Which error: those of get, the policy's, the repair guard's, and those of storing. */
  lemma UpdateErrors(env: Env, t: Table, actor: Actor, id: string, patch: Patch, now: int, nonce: int)
    requires Granted(env, t, actor, id)
    ensures var r := Read(env, t, id);
            var p := env.resolver.patch(actor, ForUpdate, r, patch);
            var answer := UpdateDecision(env, t, actor, id, patch, now, nonce);
            if !env.policy.canUpdate(actor, r, p) then answer == Err(AccessDenied)
            else if env.provider.decrypt(t[id].cols.ciphertext).None? && p.secrets.Unset? then
              answer == Err(RepairRequired)
            else
              forall d | Patched(r, p, d) ::
                var v := Validate(env.py, env.types, d);
                if v.Err? then answer == Err(v.error)
                else if !exists c :: Persists(env, nonce, d, c) then answer == Err(NotDriverOptions)
                else answer.Ok?
  {
    var r := Read(env, t, id);
    var p := env.resolver.patch(actor, ForUpdate, r, patch);
    RecordShowsColumns(env.py, env.provider, id, t[id]);
    forall d | Patched(r, p, d)
      ensures d == Merge(r, p)
      ensures forall c :: Columnise(env, nonce, d) == Ok(c) <==> Persists(env, nonce, d, c)
      ensures Columnise(env, nonce, d).Err? ==>
                var v := Validate(env.py, env.types, d);
                Columnise(env, nonce, d).error == if v.Err? then v.error else NotDriverOptions
    {
      PatchedIff(r, p, d);
      forall c ensures Columnise(env, nonce, d) == Ok(c) <==> Persists(env, nonce, d, c) {
        PersistsIff(env, nonce, d, c);
      }
      if Columnise(env, nonce, d).Err? {
        NotPersisted(env, nonce, d);
      }
    }
  }

  /** A successful update rewrites its own row and no other: the patched columns, the time of the update, the
      old creation time, and still no deletion mark. */
  lemma UpdateCommits(env: Env, t: Table, actor: Actor, id: string, patch: Patch, now: int, nonce: int)
    requires UpdateDecision(env, t, actor, id, patch, now, nonce).Ok?
    ensures Granted(env, t, actor, id)
    ensures var p := env.resolver.patch(actor, ForUpdate, Read(env, t, id), patch);
            && env.policy.canUpdate(actor, Read(env, t, id), p)
            && exists c :: Revises(env, Read(env, t, id), p, nonce, c)
                 && Apply(t, UpdateDecision(env, t, actor, id, patch, now, nonce).value) ==
                    t[id := Row(c, t[id].createdAt, now, None)]
  {
    UpdateIff(env, t, actor, id, patch, now, nonce, UpdateDecision(env, t, actor, id, patch, now, nonce).value);
  }

  // ---------- delete ----------

  /** A delete goes through exactly for a live row the actor may get and delete, and sets both timestamps of
      that row and nothing else. */
  lemma DeleteIff(env: Env, t: Table, actor: Actor, id: string, now: int)
    ensures var r := DeleteDecision(env, t, actor, id, now);
            && (r.Ok? <==> Granted(env, t, actor, id) && env.policy.canDelete(actor, Read(env, t, id)))
            && (r.Ok? ==> id in t && Apply(t, r.value) == t[id := Row(t[id].cols, t[id].createdAt, now, Some(now))])
            && (r.Err? ==> r.error == if id in t && t[id].deletedAt.None? then AccessDenied else NotFound(id))
  {
    GetIff(env, t, actor, id);
  }

  // ---------- check ----------

  /** What a check looks at: the record with the trial patch, or the record itself. */
  ghost predicate Trial(env: Env, actor: Actor, r: Record, patch: Option<Patch>, d: Draft) {
    match patch
    case Some(trial) => Patched(r, env.resolver.patch(actor, ForCheck, r, trial), d)
    case None =>
      && d.name == r.name && d.kind == r.kind && d.typ == r.typ && d.driver == r.driver && d.options == r.options
      && d.properties == Dict(r.properties) && d.secrets == Dict(r.secrets)
      && d.labels == Some(r.labels) && d.metadata == Some(r.metadata) && d.extra == Some(r.extra)
  }

  /** The trial brings secrets of its own. */
  ghost predicate BringsSecrets(env: Env, actor: Actor, r: Record, patch: Option<Patch>) {
    patch.Some? && env.resolver.patch(actor, ForCheck, r, patch.value).secrets.Set?
  }

  lemma TrialIff(env: Env, t: Table, actor: Actor, id: string, patch: Option<Patch>, d: Draft)
    requires Granted(env, t, actor, id)
    requires Trial(env, actor, Read(env, t, id), patch, d)
    ensures CheckDecision(env, t, actor, id, patch) ==
            if env.provider.decrypt(t[id].cols.ciphertext).None? && !BringsSecrets(env, actor, Read(env, t, id), patch)
            then Err(RepairRequired) else CheckDraft(env, d)
  {
    var r := Read(env, t, id);
    RecordShowsColumns(env.py, env.provider, id, t[id]);
    if patch.Some? {
      PatchedIff(r, env.resolver.patch(actor, ForCheck, r, patch.value), d);
    } else {
      assert d == r.AsDraft();
    }
  }

  lemma TrialExists(env: Env, actor: Actor, r: Record, patch: Option<Patch>) returns (d: Draft)
    ensures Trial(env, actor, r, patch, d)
  {
    d := if patch.Some? then Merge(r, env.resolver.patch(actor, ForCheck, r, patch.value)) else r.AsDraft();
  }

  /** The check connects with `v`. */
  ghost predicate Checks(env: Env, t: Table, actor: Actor, id: string, patch: Option<Patch>, v: Validated) {
    && Granted(env, t, actor, id)
    && var r := Read(env, t, id);
    && (env.provider.decrypt(t[id].cols.ciphertext).None? ==> BringsSecrets(env, actor, r, patch))
    && exists d ::
         Trial(env, actor, r, patch, d) && AcceptedAs(env.py, env.types, d, v) && env.types[d.typ].hasConnector
  }

  /** What a check connects with, and exactly when it gets there. */
  lemma CheckIff(env: Env, t: Table, actor: Actor, id: string, patch: Option<Patch>, v: Validated)
    ensures CheckDecision(env, t, actor, id, patch) == Ok(v) <==> Checks(env, t, actor, id, patch, v)
  {
    GetIff(env, t, actor, id);
    if Granted(env, t, actor, id) {
      var r := Read(env, t, id);
      var d := TrialExists(env, actor, r, patch);
      TrialIff(env, t, actor, id, patch, d);
      forall other | Trial(env, actor, r, patch, other) ensures other == d {
      }
      AcceptedIff(env.py, env.types, d, v);
    }
  }

  /** Which error: those of get, the repair guard's, validation's, and a type without connector. */
  lemma CheckErrors(env: Env, t: Table, actor: Actor, id: string, patch: Option<Patch>)
    ensures var answer := CheckDecision(env, t, actor, id, patch);
            if !(id in t && t[id].deletedAt.None?) then answer == Err(NotFound(id))
            else if !env.policy.canGet(actor, Read(env, t, id)) then answer == Err(AccessDenied)
            else if env.provider.decrypt(t[id].cols.ciphertext).None?
                 && !BringsSecrets(env, actor, Read(env, t, id), patch) then answer == Err(RepairRequired)
            else
              forall d | Trial(env, actor, Read(env, t, id), patch, d) ::
                var v := Validate(env.py, env.types, d);
                if v.Err? then answer == Err(v.error)
                else if !env.types[d.typ].hasConnector then answer == Err(NoConnector)
                else answer == v
  {
    GetIff(env, t, actor, id);
    if Granted(env, t, actor, id) {
      var some := TrialExists(env, actor, Read(env, t, id), patch);
      TrialIff(env, t, actor, id, patch, some);
      forall d | Trial(env, actor, Read(env, t, id), patch, d)
        ensures CheckDecision(env, t, actor, id, patch) ==
                if env.provider.decrypt(t[id].cols.ciphertext).None?
                   && !BringsSecrets(env, actor, Read(env, t, id), patch)
                then Err(RepairRequired) else CheckDraft(env, d)
      {
        TrialIff(env, t, actor, id, patch, d);
      }
    }
  }

  // ---------- list ----------

  /** The mapping has every key of the filter with its value; an absent key counts as null. */
  ghost predicate HasAll(values: Mapping, filter: Mapping) {
    forall k | k in filter :: (if k in values then values[k] else Null) == filter[k]
  }

  /** The list shows the row. */
  ghost predicate Lists(env: Env, t: Table, q: Query, id: string) {
    && id in t
    && (t[id].deletedAt.None? || q.includeDeleted)
    && q.kind in {None, Some(t[id].cols.kind)}
    && q.typ in {None, Some(t[id].cols.typ)}
    && (q.name.Some? ==> env.nameMatches(t[id].cols.name, q.name.value))
    && var r := Read(env, t, id);
    && HasAll(r.labels, q.labelFilters) && HasAll(r.metadata, q.metadataFilters) && HasAll(r.extra, q.extraFilters)
  }

  lemma ListedIff(env: Env, t: Table, q: Query)
    ensures forall id :: id in Listed(env, t, q) <==> Lists(env, t, q, id)
    ensures forall id | id in Listed(env, t, q) :: Listed(env, t, q)[id] == Read(env, t, id)
  {
  }
}
