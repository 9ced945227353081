/** The connection table, the statements the repository issues, and what each service operation
    decides to write given the rows it sees. */
module Store {
  import opened Values
  import opened Schemas
  import opened Entities
  import opened Validation
  import opened RecordMapper

  /** Access decisions are functions of the actor and what the service shows the policy. */
  datatype Policy = Policy(
    canCreate: (Actor, Draft) -> bool,
    canGet: (Actor, Record) -> bool,
    canUpdate: (Actor, Record, Patch) -> bool,
    canDelete: (Actor, Record) -> bool,
    scope: (Actor, Query) -> Query)

  datatype Purpose = ForUpdate | ForCheck

  datatype Resolver = Resolver(
    draft: (Actor, Draft) -> Draft,
    patch: (Actor, Purpose, Record, Patch) -> Patch)

  datatype Env = Env(
    py: Pydantic,
    provider: Provider,
    types: Types,
    policy: Policy,
    resolver: Resolver,
    nameMatches: (string, string) -> bool)

  // ---------- statements ----------

  /** A statement of the repository. `repairs` records whether the patch behind a Replace set the
      secrets; the database does not see it. */
  datatype Write =
    | Insert(id: string, row: Row)
    | Replace(id: string, cols: Columns, at: int, repairs: bool)
    | Tombstone(id: string, at: int)

  /** The effect of one statement. Updates name their columns: a replacement leaves `created_at` and
      `deleted_at` alone, a deletion touches only the two timestamps. An existing key is never
      overwritten by an insert. */
  function Apply(t: Table, w: Write): Table {
    match w
    case Insert(id, row) => if id in t then t else t[id := row]
    case Replace(id, cols, at, _) => if id in t then t[id := Row(cols, t[id].createdAt, at, t[id].deletedAt)] else t
    case Tombstone(id, at) => if id in t then t[id := t[id].(updatedAt := at, deletedAt := Some(at))] else t
  }

  function ApplyAll(t: Table, ws: seq<Write>): Table {
    if ws == [] then t else Apply(ApplyAll(t, ws[..|ws| - 1]), ws[|ws| - 1])
  }

  lemma ApplyAllOne(t: Table, ws: seq<Write>, w: Write)
    ensures ApplyAll(t, ws + [w]) == Apply(ApplyAll(t, ws), w)
  {
    assert (ws + [w])[..|ws|] == ws;
  }

  function Active(t: Table): set<string> {
    set id | id in t && t[id].deletedAt.None?
  }

  // ---------- reading ----------

  function Read(env: Env, t: Table, id: string): Record
    requires id in t
  {
    ToRecord(env.py, env.provider, id, t[id])
  }

  predicate MatchesMapping(values: Mapping, filters: Mapping) {
    forall k | k in filters :: Lookup(values, k) == filters[k]
  }

  predicate Selected(env: Env, id: string, row: Row, q: Query) {
    && (q.includeDeleted || row.deletedAt.None?)
    && (q.kind.Some? ==> row.cols.kind == q.kind.value)
    && (q.typ.Some? ==> row.cols.typ == q.typ.value)
    && (q.name.Some? ==> env.nameMatches(row.cols.name, q.name.value))
    && var r := ToRecord(env.py, env.provider, id, row);
    && MatchesMapping(r.labels, q.labelFilters)
    && MatchesMapping(r.metadata, q.metadataFilters)
    && MatchesMapping(r.extra, q.extraFilters)
  }

  /** The records a query returns, by id; SQL leaves their order open. */
  function Listed(env: Env, t: Table, q: Query): map<string, Record> {
    map id | id in t && Selected(env, id, t[id], q) :: Read(env, t, id)
  }

  lemma AllActiveListed(env: Env, t: Table)
    ensures Listed(env, t, ALL_ACTIVE).Keys == Active(t)
    ensures |Listed(env, t, ALL_ACTIVE)| == |Active(t)|
  {
    var m := Listed(env, t, ALL_ACTIVE);
    assert m.Keys == Active(t);
    assert |m| == |m.Keys|;
  }

  // ---------- writing ----------

  /** A draft as it is handed to the repository. */
  datatype Persisted = Persisted(name: string, kind: string, typ: string, driver: Option<string>,
                                 options: Option<Model>,
                                 properties: Json, secrets: Json, labels: Mapping, metadata: Mapping, extra: Mapping)

  /** `_to_persisted_draft`: the draft's own driver, the validated options, and the dumps. */
  function ToPersisted(py: Pydantic, d: Draft, v: Validated): Result<Persisted, Error> {
    if d.labels.None? || d.metadata.None? || d.extra.None? then Err(NotAMapping)
    else Ok(Persisted(d.name, d.kind, d.typ, d.driver, v.options, py.dumpJson(v.properties),
                      if v.secrets.None? then Dict(map[]) else py.dumpJson(v.secrets.value),
                      d.labels.value, d.metadata.value, d.extra.value))
  }

  /** The column values of an insert or update statement. */
  function Encode(py: Pydantic, provider: Provider, nonce: int, p: Persisted): Result<Columns, Error> {
    var options :- BindOptions(py, p.options);
    Ok(Columns(p.name, p.kind, p.typ, p.driver, options, p.properties, Some(provider.encrypt(nonce, p.secrets)),
               Dict(p.labels), Dict(p.metadata), Dict(p.extra)))
  }

  /** Validation, dumping and encoding of one draft. */
  function Columnise(env: Env, nonce: int, d: Draft): Result<Columns, Error> {
    var v :- Validate(env.py, env.types, d);
    var p :- ToPersisted(env.py, d, v);
    Encode(env.py, env.provider, nonce, p)
  }

  /** `_merge`. */
  function Merge(existing: Record, patch: Patch): Draft {
    Draft(Choose(patch.name, existing.name),
          existing.kind,
          existing.typ,
          Choose(patch.driver, existing.driver),
          Choose(patch.options, existing.options),
          Choose(patch.properties, Dict(existing.properties)),
          Choose(patch.secrets, Dict(existing.secrets)),
          Choose(patch.labels, Some(existing.labels)),
          Choose(patch.metadata, Some(existing.metadata)),
          Choose(patch.extra, Some(existing.extra)))
  }

  /** The repair guard, then merging and writing: an update after policy and ownership. */
  function Revise(env: Env, existing: Record, patch: Patch, nonce: int): Result<Columns, Error> {
    if existing.Unreadable() && SecretsField !in FieldsSet(patch) then Err(RepairRequired)
    else Columnise(env, nonce, Merge(existing, patch))
  }

  // ---------- the operations' decisions ----------

  /** `create` up to the unit of work: ownership, policy, validation. */
  function Admit(env: Env, actor: Actor, draft: Draft): Result<(Draft, Validated), Error> {
    var resolved := env.resolver.draft(actor, draft);
    if !env.policy.canCreate(actor, resolved) then Err(AccessDenied)
    else
      var v :- Validate(env.py, env.types, resolved);
      Ok((resolved, v))
  }

  /** The limit check against the rows the unit of work sees. */
  predicate UnderLimit(limit: Option<int>, t: Table) {
    limit.None? || |Active(t)| < limit.value
  }

  /** The insert of an admitted draft. */
  function NewRow(env: Env, t: Table, d: Draft, v: Validated, id: string, now: int, nonce: int): Result<Write, Error> {
    var p :- ToPersisted(env.py, d, v);
    var cols :- Encode(env.py, env.provider, nonce, p);
    if id in t then Err(DuplicateKey(id)) else Ok(Insert(id, Row(cols, now, now, None)))
  }

  function CreateDecision(env: Env, limit: Option<int>, t: Table, actor: Actor, draft: Draft, id: string, now: int,
                          nonce: int): Result<Write, Error>
  {
    var admitted :- Admit(env, actor, draft);
    if !UnderLimit(limit, t) then Err(LimitExceeded(limit.value))
    else NewRow(env, t, admitted.0, admitted.1, id, now, nonce)
  }

  function GetDecision(env: Env, t: Table, actor: Actor, id: string): Result<Record, Error> {
    if id !in t || t[id].deletedAt.Some? then Err(NotFound(id))
    else if !env.policy.canGet(actor, Read(env, t, id)) then Err(AccessDenied)
    else Ok(Read(env, t, id))
  }

  /** `update` once the existing record is in hand. */
  function UpdateColumns(env: Env, actor: Actor, existing: Record, patch: Patch, nonce: int): Result<Columns, Error> {
    var resolved := env.resolver.patch(actor, ForUpdate, existing, patch);
    if !env.policy.canUpdate(actor, existing, resolved) then Err(AccessDenied)
    else Revise(env, existing, resolved, nonce)
  }

  function Repairs(env: Env, actor: Actor, existing: Record, patch: Patch): bool {
    SecretsField in FieldsSet(env.resolver.patch(actor, ForUpdate, existing, patch))
  }

  function UpdateDecision(env: Env, t: Table, actor: Actor, id: string, patch: Patch, now: int,
                          nonce: int): Result<Write, Error>
  {
    var existing :- GetDecision(env, t, actor, id);
    var cols :- UpdateColumns(env, actor, existing, patch, nonce);
    Ok(Replace(id, cols, now, Repairs(env, actor, existing, patch)))
  }

  function DeleteDecision(env: Env, t: Table, actor: Actor, id: string, now: int): Result<Write, Error> {
    var existing :- GetDecision(env, t, actor, id);
    if !env.policy.canDelete(actor, existing) then Err(AccessDenied) else Ok(Tombstone(id, now))
  }

  /** `check_stored` up to the connector: what it would connect with. */
  function CheckDecision(env: Env, t: Table, actor: Actor, id: string, patch: Option<Patch>): Result<Validated, Error> {
    var existing :- GetDecision(env, t, actor, id);
    if patch.Some? then
      var resolved := env.resolver.patch(actor, ForCheck, existing, patch.value);
      if existing.Unreadable() && SecretsField !in FieldsSet(resolved) then Err(RepairRequired)
      else CheckDraft(env, Merge(existing, resolved))
    else if existing.Unreadable() then Err(RepairRequired)
    else CheckDraft(env, existing.AsDraft())
  }

  function CheckDraft(env: Env, d: Draft): Result<Validated, Error> {
    var v :- Validate(env.py, env.types, d);
    if !env.types[d.typ].hasConnector then Err(NoConnector) else Ok(v)
  }

  // ---------- effects on single rows ----------

  /** Statements never remove a row and never clear its deletion mark. */
  lemma ApplyKeepsTombstones(t: Table, w: Write)
    ensures forall id | id in t :: id in Apply(t, w)
    ensures forall id | id in t && t[id].deletedAt.Some? :: Apply(t, w)[id].deletedAt.Some?
  {
  }

  lemma {:induction false} ApplyAllKeepsTombstones(t: Table, ws: seq<Write>)
    ensures forall id | id in t :: id in ApplyAll(t, ws)
    ensures forall id | id in t && t[id].deletedAt.Some? :: ApplyAll(t, ws)[id].deletedAt.Some?
  {
    if ws != [] {
      ApplyAllKeepsTombstones(t, ws[..|ws| - 1]);
    }
  }

  /** Only an insert can add an active row, and at most one. */
  lemma ApplyCount(t: Table, w: Write)
    ensures |Active(Apply(t, w))| <= |Active(t)| + if w.Insert? then 1 else 0
  {
    var after := Active(Apply(t, w));
    if w.Insert? {
      Subset(after, Active(t) + {w.id});
    } else {
      Subset(after, Active(t));
    }
  }

  lemma {:induction false} Subset<T>(a: set<T>, b: set<T>)
    requires a <= b
    ensures |a| <= |b|
    decreases |a|
  {
    if x :| x in a {
      Subset(a - {x}, b - {x});
    }
  }

  /** Rows a statement does not name keep every column. */
  lemma ApplyFrame(t: Table, w: Write, id: string)
    requires w.id != id
    ensures id in Apply(t, w) <==> id in t
    ensures id in t ==> Apply(t, w)[id] == t[id]
  {
  }
}
