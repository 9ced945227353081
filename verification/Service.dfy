/** The service, its repository and its unit of work as objects over a shared database. */
module Service {
  import opened Values
  import opened Entities
  import opened Validation
  import opened Store
  import opened Operations

  /** The committed table, and how often anything was committed to it. */
  class Database {
    var committed: Table
    ghost var commits: nat

    constructor (rows: Table)
      ensures committed == rows && commits == 0
    {
      committed := rows;
      commits := 0;
    }
  }

  /** A database session: the statements executed since its transaction began. */
  class Session {
    const db: Database
    var pending: seq<Write>
    var active: bool

    constructor (db: Database)
      ensures this.db == db && pending == [] && !active
    {
      this.db := db;
      pending := [];
      active := false;
    }

    /** Committed rows with the session's own statements applied. */
    function View(): Table
      reads this, db
    {
      ApplyAll(db.committed, pending)
    }

    method Select() returns (rows: Table)
      modifies this
      ensures rows == View() == old(View()) && pending == old(pending) && active
    {
      active := true;
      rows := View();
    }

    method Execute(w: Write)
      modifies this
      ensures pending == old(pending) + [w] && active
      ensures View() == Apply(old(View()), w)
    {
      ApplyAllOne(db.committed, pending, w);
      active := true;
      pending := pending + [w];
    }

    method Commit()
      modifies this, db
      ensures db.committed == old(View()) && db.commits == old(db.commits) + 1
      ensures pending == [] && !active
    {
      db.committed := View();
      db.commits := db.commits + 1;
      pending := [];
      active := false;
    }

    /** Rolling back, and closing with a transaction open, both drop the statements. */
    method Discard()
      modifies this
      ensures pending == [] && !active
    {
      pending := [];
      active := false;
    }
  }

  /** `DefaultSQLModelConnectionRepository`. */
  class Repository {
    const session: Session
    const env: Env

    constructor (session: Session, env: Env)
      ensures this.session == session && this.env == env
    {
      this.session := session;
      this.env := env;
    }

    method Get(id: string) returns (r: Option<Record>)
      modifies session
      ensures session.pending == old(session.pending)
      ensures r == if id in old(session.View()) then Some(Read(env, old(session.View()), id)) else None
    {
      var rows := session.Select();
      if id !in rows {
        return None;
      }
      return Some(Read(env, rows, id));
    }

    method List(q: Query) returns (r: map<string, Record>)
      modifies session
      ensures session.pending == old(session.pending)
      ensures r == Listed(env, old(session.View()), q)
      ensures forall id :: id in r <==> Lists(env, old(session.View()), q, id)
      ensures forall id | id in r :: r[id] == Read(env, old(session.View()), id)
    {
      var rows := session.Select();
      ListedIff(env, rows, q);
      r := Listed(env, rows, q);
    }

    method Create(p: Persisted, id: string, now: int, nonce: int) returns (r: Result<Record, Error>)
      modifies session
      ensures var cols := Encode(env.py, env.provider, nonce, p);
              var taken := id in old(session.View());
              && (cols.Err? ==> r == Err(cols.error) && session.pending == old(session.pending))
              && (cols.Ok? && taken ==> r == Err(DuplicateKey(id)) && session.pending == old(session.pending))
              && (cols.Ok? && !taken ==>
                    && session.pending == old(session.pending) + [Insert(id, Row(cols.value, now, now, None))]
                    && session.View() == Apply(old(session.View()), Insert(id, Row(cols.value, now, now, None)))
                    && r == Ok(Read(env, session.View(), id)))
    {
      var cols := Encode(env.py, env.provider, nonce, p);
      if cols.Err? {
        return Err(cols.error);
      }
      var rows := session.Select();
      if id in rows {
        return Err(DuplicateKey(id));
      }
      session.Execute(Insert(id, Row(cols.value, now, now, None)));
      var created := session.Select();
      return Ok(Read(env, created, id));
    }

    method ReplaceRow(id: string, p: Persisted, now: int, nonce: int, repairs: bool)
      returns (r: Result<Option<Record>, Error>)
      modifies session
      ensures var cols := Encode(env.py, env.provider, nonce, p);
              var present := id in old(session.View());
              && (!present ==> r == Ok(None) && session.pending == old(session.pending))
              && (present && cols.Err? ==> r == Err(cols.error) && session.pending == old(session.pending))
              && (present && cols.Ok? ==>
                    && session.pending == old(session.pending) + [Replace(id, cols.value, now, repairs)]
                    && id in session.View() && r == Ok(Some(Read(env, session.View(), id))))
    {
      var rows := session.Select();
      if id !in rows {
        return Ok(None);
      }
      var cols := Encode(env.py, env.provider, nonce, p);
      if cols.Err? {
        return Err(cols.error);
      }
      session.Execute(Replace(id, cols.value, now, repairs));
      var updated := session.Select();
      return Ok(Some(Read(env, updated, id)));
    }

    method Delete(id: string, now: int) returns (r: Option<Record>)
      modifies session
      ensures var present := id in old(session.View());
              && (!present ==> r == None && session.pending == old(session.pending))
              && (present ==>
                    && session.pending == old(session.pending) + [Tombstone(id, now)]
                    && id in session.View() && r == Some(Read(env, session.View(), id)))
    {
      var rows := session.Select();
      if id !in rows {
        return None;
      }
      session.Execute(Tombstone(id, now));
      var deleted := session.Select();
      return Some(Read(env, deleted, id));
    }
  }

  /** `DefaultSQLModelConnectionUnitOfWork`. */
  class UnitOfWork {
    const session: Session
    const connections: Repository
    var isCommitted: bool

    constructor (db: Database, env: Env)
      ensures Over(db, env)
      ensures fresh(session) && session.pending == [] && !isCommitted
    {
      var s := new Session(db);
      var c := new Repository(s, env);
      session := s;
      connections := c;
      isCommitted := false;
    }

    ghost predicate Over(db: Database, env: Env) {
      session.db == db && connections.session == session && connections.env == env
    }

    method Commit()
      modifies this, session, session.db
      ensures session.db.committed == old(session.View()) && session.db.commits == old(session.db.commits) + 1
      ensures session.pending == [] && isCommitted
    {
      session.Commit();
      isCommitted := true;
    }

    method Rollback()
      modifies session
      ensures session.pending == [] && !session.active
      ensures session.View() == session.db.committed == old(session.db.committed)
    {
      session.Discard();
    }

    /** `__aexit__`: roll back when an exception left a transaction open, and close in any case. */
    method Exit(failed: bool)
      modifies session
      ensures session.pending == [] && !session.active
      ensures session.View() == session.db.committed == old(session.db.committed)
    {
      if failed && session.active {
        Rollback();
      }
      session.Discard();
    }
  }

  // ---------- what an operation leaves behind ----------

  /** A unit of work of the service's own: an error changes nothing and commits nothing; a success is
      one statement, committed once, and the record read back from the committed row. */
  ghost predicate OwnedOutcome(env: Env, before: Table, commitsBefore: nat, after: Table, commitsAfter: nat,
                               decision: Result<Write, Error>, r: Result<Record, Error>)
  {
    if decision.Err? then after == before && commitsAfter == commitsBefore && r == Err(decision.error)
    else
      && after == Apply(before, decision.value) && commitsAfter == commitsBefore + 1
      && decision.value.id in after && r == Ok(Read(env, after, decision.value.id))
  }

  /** The caller's unit of work: the same decision on the rows its session sees, executed but never
      committed by the service. */
  ghost predicate BorrowedOutcome(env: Env, pendingBefore: seq<Write>, pendingAfter: seq<Write>, view: Table,
                                  decision: Result<Write, Error>, r: Result<Record, Error>)
  {
    if decision.Err? then pendingAfter == pendingBefore && r == Err(decision.error)
    else
      && pendingAfter == pendingBefore + [decision.value]
      && decision.value.id in view && r == Ok(Read(env, view, decision.value.id))
  }

  class ConnectionService {
    const env: Env
    const maxConnections: Option<int>
    const db: Database

    constructor (env: Env, maxConnections: Option<int>, db: Database)
      ensures this.env == env && this.maxConnections == maxConnections && this.db == db
    {
      this.env := env;
      this.maxConnections := maxConnections;
      this.db := db;
    }

    ghost function Footprint(uow: UnitOfWork?): set<object> {
      if uow == null then {db} else {uow.session}
    }

    method CreateIn(uow: UnitOfWork, draft: Draft, validated: Validated, id: string, now: int, nonce: int)
      returns (r: Result<Record, Error>)
      requires uow.Over(db, env)
      modifies uow.session
      ensures var view := old(uow.session.View());
              var decision :=
                if UnderLimit(maxConnections, view) then NewRow(env, view, draft, validated, id, now, nonce)
                else Err(LimitExceeded(maxConnections.value));
              BorrowedOutcome(env, old(uow.session.pending), uow.session.pending, uow.session.View(), decision, r)
    {
      if maxConnections.Some? {
        var listed := uow.connections.List(ALL_ACTIVE);
        AllActiveListed(env, uow.session.View());
        if |listed| >= maxConnections.value {
          return Err(LimitExceeded(maxConnections.value));
        }
      }
      var persisted := ToPersisted(env.py, draft, validated);
      if persisted.Err? {
        return Err(persisted.error);
      }
      r := uow.connections.Create(persisted.value, id, now, nonce);
    }

    method Create(draft: Draft, actor: Actor, uow: UnitOfWork?, id: string, now: int, nonce: int)
      returns (r: Result<Record, Error>)
      requires uow != null ==> uow.Over(db, env)
      modifies Footprint(uow)
      ensures uow == null ==>
                OwnedOutcome(env, old(db.committed), old(db.commits), db.committed, db.commits,
                             CreateDecision(env, maxConnections, old(db.committed), actor, draft, id, now, nonce), r)
      ensures uow != null ==>
                BorrowedOutcome(env, old(uow.session.pending), uow.session.pending, uow.session.View(),
                                CreateDecision(env, maxConnections, old(uow.session.View()), actor, draft, id, now,
                                               nonce), r)
    {
      var admitted := Admit(env, actor, draft);
      if admitted.Err? {
        return Err(admitted.error);
      }
      if uow != null {
        r := CreateIn(uow, admitted.value.0, admitted.value.1, id, now, nonce);
        return;
      }
      var managed := new UnitOfWork(db, env);
      r := CreateIn(managed, admitted.value.0, admitted.value.1, id, now, nonce);
      if r.Ok? {
        ApplyAllOne(db.committed, [], managed.session.pending[0]);
        managed.Commit();
      }
      managed.Exit(r.Err?);
    }

    method Get(id: string, actor: Actor, uow: UnitOfWork?) returns (r: Result<Record, Error>)
      requires uow != null ==> uow.Over(db, env)
      modifies if uow == null then {} else {uow.session}
      ensures uow == null ==> r == GetDecision(env, db.committed, actor, id)
      ensures uow != null ==> uow.session.pending == old(uow.session.pending)
      ensures uow != null ==> r == GetDecision(env, uow.session.View(), actor, id)
    {
      var used := uow;
      if used == null {
        used := new UnitOfWork(db, env);
      }
      var record := used.connections.Get(id);
      if record.None? || record.value.deletedAt.Some? {
        r := Err(NotFound(id));
      } else if !env.policy.canGet(actor, record.value) {
        r := Err(AccessDenied);
      } else {
        r := Ok(record.value);
      }
      if uow == null {
        used.Exit(r.Err?);
      }
    }

    method UpdateIn(uow: UnitOfWork, id: string, patch: Patch, actor: Actor, now: int, nonce: int)
      returns (r: Result<Record, Error>)
      requires uow.Over(db, env)
      modifies uow.session
      ensures BorrowedOutcome(env, old(uow.session.pending), uow.session.pending, uow.session.View(),
                              UpdateDecision(env, old(uow.session.View()), actor, id, patch, now, nonce), r)
    {
      var existing := Get(id, actor, uow);
      if existing.Err? {
        return existing;
      }
      var resolved := env.resolver.patch(actor, ForUpdate, existing.value, patch);
      if !env.policy.canUpdate(actor, existing.value, resolved) {
        return Err(AccessDenied);
      }
      if existing.value.Unreadable() && SecretsField !in FieldsSet(resolved) {
        return Err(RepairRequired);
      }
      var merged := Merge(existing.value, resolved);
      var validated := Validate(env.py, env.types, merged);
      if validated.Err? {
        return Err(validated.error);
      }
      var persisted := ToPersisted(env.py, merged, validated.value);
      if persisted.Err? {
        return Err(persisted.error);
      }
      var updated := uow.connections.ReplaceRow(id, persisted.value, now, nonce, SecretsField in FieldsSet(resolved));
      if updated.Err? {
        return Err(updated.error);
      }
      if updated.value.None? {
        return Err(NotFound(id));
      }
      return Ok(updated.value.value);
    }

    method Update(id: string, patch: Patch, actor: Actor, uow: UnitOfWork?, now: int, nonce: int)
      returns (r: Result<Record, Error>)
      requires uow != null ==> uow.Over(db, env)
      modifies Footprint(uow)
      ensures uow == null ==>
                OwnedOutcome(env, old(db.committed), old(db.commits), db.committed, db.commits,
                             UpdateDecision(env, old(db.committed), actor, id, patch, now, nonce), r)
      ensures uow != null ==>
                BorrowedOutcome(env, old(uow.session.pending), uow.session.pending, uow.session.View(),
                                UpdateDecision(env, old(uow.session.View()), actor, id, patch, now, nonce), r)
    {
      if uow != null {
        r := UpdateIn(uow, id, patch, actor, now, nonce);
        return;
      }
      var managed := new UnitOfWork(db, env);
      r := UpdateIn(managed, id, patch, actor, now, nonce);
      if r.Ok? {
        ApplyAllOne(db.committed, [], managed.session.pending[0]);
        managed.Commit();
      }
      managed.Exit(r.Err?);
    }

    method DeleteIn(uow: UnitOfWork, id: string, actor: Actor, now: int) returns (r: Result<Record, Error>)
      requires uow.Over(db, env)
      modifies uow.session
      ensures BorrowedOutcome(env, old(uow.session.pending), uow.session.pending, uow.session.View(),
                              DeleteDecision(env, old(uow.session.View()), actor, id, now), r)
    {
      var existing := Get(id, actor, uow);
      if existing.Err? {
        return existing;
      }
      if !env.policy.canDelete(actor, existing.value) {
        return Err(AccessDenied);
      }
      var deleted := uow.connections.Delete(id, now);
      if deleted.None? {
        return Err(NotFound(id));
      }
      return Ok(deleted.value);
    }

    method Delete(id: string, actor: Actor, uow: UnitOfWork?, now: int) returns (r: Result<Record, Error>)
      requires uow != null ==> uow.Over(db, env)
      modifies Footprint(uow)
      ensures uow == null ==>
                OwnedOutcome(env, old(db.committed), old(db.commits), db.committed, db.commits,
                             DeleteDecision(env, old(db.committed), actor, id, now), r)
      ensures uow != null ==>
                BorrowedOutcome(env, old(uow.session.pending), uow.session.pending, uow.session.View(),
                                DeleteDecision(env, old(uow.session.View()), actor, id, now), r)
    {
      if uow != null {
        r := DeleteIn(uow, id, actor, now);
        return;
      }
      var managed := new UnitOfWork(db, env);
      r := DeleteIn(managed, id, actor, now);
      if r.Ok? {
        ApplyAllOne(db.committed, [], managed.session.pending[0]);
        managed.Commit();
      }
      managed.Exit(r.Err?);
    }

    method List(query: Query, actor: Actor, uow: UnitOfWork?) returns (r: map<string, Record>)
      requires uow != null ==> uow.Over(db, env)
      modifies if uow == null then {} else {uow.session}
      ensures uow == null ==> r == Listed(env, db.committed, env.policy.scope(actor, query))
      ensures uow != null ==> uow.session.pending == old(uow.session.pending)
      ensures uow != null ==> r == Listed(env, uow.session.View(), env.policy.scope(actor, query))
      ensures var rows := if uow == null then db.committed else uow.session.View();
              && (forall id :: id in r <==> Lists(env, rows, env.policy.scope(actor, query), id))
              && (forall id | id in r :: r[id] == Read(env, rows, id))
    {
      var scoped := env.policy.scope(actor, query);
      var used := uow;
      if used == null {
        used := new UnitOfWork(db, env);
      }
      r := used.connections.List(scoped);
      if uow == null {
        used.Exit(false);
      }
    }

    /** `check_stored` up to the connector call, which is not part of this model. */
    method CheckStored(id: string, actor: Actor, patch: Option<Patch>, uow: UnitOfWork?)
      returns (r: Result<Validated, Error>)
      requires uow != null ==> uow.Over(db, env)
      modifies if uow == null then {} else {uow.session}
      ensures uow == null ==> r == CheckDecision(env, db.committed, actor, id, patch)
      ensures uow != null ==> uow.session.pending == old(uow.session.pending)
      ensures uow != null ==> r == CheckDecision(env, uow.session.View(), actor, id, patch)
    {
      var used := uow;
      if used == null {
        used := new UnitOfWork(db, env);
      }
      r := CheckIn(used, id, actor, patch);
      if uow == null {
        used.Exit(r.Err?);
      }
    }

    method CheckIn(uow: UnitOfWork, id: string, actor: Actor, patch: Option<Patch>)
      returns (r: Result<Validated, Error>)
      requires uow.Over(db, env)
      modifies uow.session
      ensures uow.session.pending == old(uow.session.pending)
      ensures r == CheckDecision(env, uow.session.View(), actor, id, patch)
    {
      var existing := Get(id, actor, uow);
      if existing.Err? {
        return Err(existing.error);
      }
      var draft;
      if patch.Some? {
        var resolved := env.resolver.patch(actor, ForCheck, existing.value, patch.value);
        if existing.value.Unreadable() && SecretsField !in FieldsSet(resolved) {
          return Err(RepairRequired);
        }
        draft := Merge(existing.value, resolved);
      } else {
        if existing.value.Unreadable() {
          return Err(RepairRequired);
        }
        draft := existing.value.AsDraft();
      }
      r := CheckDraft(env, draft);
    }
  }

  /** `DBConnectionRuntime`: the settings in force and the service built on them. */
  class Runtime {
    const env: Env
    const db: Database
    var maxConnections: Option<int>
    var service: ConnectionService

    ghost predicate Valid()
      reads this
    {
      service.env == env && service.db == db && service.maxConnections == maxConnections
    }

    constructor (env: Env, db: Database, maxConnections: Option<int>)
      ensures Valid() && this.env == env && this.db == db && this.maxConnections == maxConnections
    {
      var s := new ConnectionService(env, maxConnections, db);
      this.env := env;
      this.db := db;
      this.maxConnections := maxConnections;
      this.service := s;
    }

    /** A patch that sets the limit, to a number or to none, replaces settings and service; the old
        service object keeps its own limit, and no row changes. */
    method UpdateSettings(patch: Field<Option<int>>)
      requires Valid()
      modifies this
      ensures Valid()
      ensures maxConnections == Choose(patch, old(maxConnections))
      ensures fresh(service)
    {
      maxConnections := if patch.Set? then patch.value else maxConnections;
      service := new ConnectionService(env, maxConnections, db);
    }
  }
}
