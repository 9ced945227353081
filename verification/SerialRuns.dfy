/** Runs in which operations follow one another: in units of work of their own, or all in one of the
    caller's. */
module SerialRuns {
  import opened Values
  import opened Entities
  import opened Store

  /** One call of the service, with the limit of the service object it is made on. */
  datatype Op =
    | CreateOp(actor: Actor, limit: Option<int>, draft: Draft, id: string, now: int, nonce: int)
    | UpdateOp(actor: Actor, id: string, patch: Patch, now: int, nonce: int)
    | DeleteOp(actor: Actor, id: string, now: int)
    | GetOp(actor: Actor, id: string)
    | ListOp(actor: Actor, query: Query)
    | CheckOp(actor: Actor, id: string, trial: Option<Patch>)

  datatype Answer =
    | Wrote(result: Result<Write, Error>)
    | Got(record: Result<Record, Error>)
    | Found(records: map<string, Record>)
    | Checked(validated: Result<Validated, Error>)

  /** What a call answers on the rows it sees. */
  function AnswerTo(env: Env, t: Table, op: Op): Answer {
    match op
    case CreateOp(actor, limit, draft, id, now, nonce) =>
      Wrote(CreateDecision(env, limit, t, actor, draft, id, now, nonce))
    case UpdateOp(actor, id, patch, now, nonce) => Wrote(UpdateDecision(env, t, actor, id, patch, now, nonce))
    case DeleteOp(actor, id, now) => Wrote(DeleteDecision(env, t, actor, id, now))
    case GetOp(actor, id) => Got(GetDecision(env, t, actor, id))
    case ListOp(actor, query) => Found(Listed(env, t, env.policy.scope(actor, query)))
    case CheckOp(actor, id, trial) => Checked(CheckDecision(env, t, actor, id, trial))
  }

  function Statement(env: Env, t: Table, op: Op): seq<Write> {
    var a := AnswerTo(env, t, op);
    if a.Wrote? && a.result.Ok? then [a.result.value] else []
  }

  // ---------- each operation in its own unit of work ----------

  function After(env: Env, t: Table, ops: seq<Op>): Table {
    if ops == [] then t
    else
      var before := After(env, t, ops[..|ops| - 1]);
      ApplyAll(before, Statement(env, before, ops[|ops| - 1]))
  }

  /** The answer to the i-th call. */
  function OwnAnswer(env: Env, t: Table, ops: seq<Op>, i: nat): Answer
    requires i < |ops|
  {
    AnswerTo(env, After(env, t, ops[..i]), ops[i])
  }

  // ---------- all operations in one unit of work of the caller's ----------

  /** The statements the session holds after the calls; an error leaves the session usable. */
  function Pending(env: Env, t: Table, ops: seq<Op>): seq<Write> {
    if ops == [] then []
    else
      var before := Pending(env, t, ops[..|ops| - 1]);
      before + Statement(env, ApplyAll(t, before), ops[|ops| - 1])
  }

  function BatchAnswer(env: Env, t: Table, ops: seq<Op>, i: nat): Answer
    requires i < |ops|
  {
    AnswerTo(env, ApplyAll(t, Pending(env, t, ops[..i])), ops[i])
  }

  /** Committing the batch gives the table that running every call by itself gives. */
  lemma {:induction false} BatchCommitsTheSame(env: Env, t: Table, ops: seq<Op>)
    ensures ApplyAll(t, Pending(env, t, ops)) == After(env, t, ops)
  {
    if ops != [] {
      var init := ops[..|ops| - 1];
      BatchCommitsTheSame(env, t, init);
      var s := Statement(env, After(env, t, init), ops[|ops| - 1]);
      if s == [] {
        assert Pending(env, t, ops) == Pending(env, t, init);
      } else {
        ApplyAllOne(t, Pending(env, t, init), s[0]);
        assert s == [s[0]] && s[..0] == [];
        assert ApplyAll(After(env, t, init), s) == Apply(After(env, t, init), s[0]);
      }
    }
  }

  /** ... and every call in the batch is answered as it would be alone. */
  lemma BatchAnswersTheSame(env: Env, t: Table, ops: seq<Op>, i: nat)
    requires i < |ops|
    ensures BatchAnswer(env, t, ops, i) == OwnAnswer(env, t, ops, i)
  {
    BatchCommitsTheSame(env, t, ops[..i]);
  }

  // ---------- rows a run cannot touch ----------

  /** No statement of the call, on a table where the row is as given, names the row. */
  ghost predicate Spares(env: Env, t: Table, op: Op, id: string) {
    forall w | w in Statement(env, t, op) :: w.id != id
  }

  lemma StatementFrame(env: Env, t: Table, op: Op, id: string)
    requires id in t && Spares(env, t, op, id)
    ensures id in ApplyAll(t, Statement(env, t, op)) && ApplyAll(t, Statement(env, t, op))[id] == t[id]
  {
    var s := Statement(env, t, op);
    if s != [] {
      assert s[0] in s && s[..0] == [];
      ApplyFrame(t, s[0], id);
    }
  }

  /** A deleted row keeps every column through every serial run. */
  lemma {:induction false} DeletedRowFrozen(env: Env, t: Table, ops: seq<Op>, id: string)
    requires id in t && t[id].deletedAt.Some?
    ensures id in After(env, t, ops) && After(env, t, ops)[id] == t[id]
  {
    if ops != [] {
      DeletedRowFrozen(env, t, ops[..|ops| - 1], id);
      var before := After(env, t, ops[..|ops| - 1]);
      assert Spares(env, before, ops[|ops| - 1], id);
      StatementFrame(env, before, ops[|ops| - 1], id);
    }
  }

  /** After a deletion every later get, update, delete or check of the id answers not-found, and no
      list shows it whose scoped query excludes deleted rows. */
  lemma DeletedRowGone(env: Env, t: Table, ops: seq<Op>, i: nat, id: string)
    requires id in t && t[id].deletedAt.Some?
    requires i < |ops|
    ensures match ops[i]
            case CreateOp(_, _, _, _, _, _) => true
            case UpdateOp(_, x, _, _, _) => x == id ==> OwnAnswer(env, t, ops, i) == Wrote(Err(NotFound(id)))
            case DeleteOp(_, x, _) => x == id ==> OwnAnswer(env, t, ops, i) == Wrote(Err(NotFound(id)))
            case GetOp(_, x) => x == id ==> OwnAnswer(env, t, ops, i) == Got(Err(NotFound(id)))
            case CheckOp(_, x, _) => x == id ==> OwnAnswer(env, t, ops, i) == Checked(Err(NotFound(id)))
            case ListOp(actor, q) =>
              !env.policy.scope(actor, q).includeDeleted ==> id !in OwnAnswer(env, t, ops, i).records
  {
    DeletedRowFrozen(env, t, ops[..i], id);
  }

  /** A successful delete is what makes a row deleted: from then on the two lemmas above apply. */
  lemma DeleteMarks(env: Env, t: Table, actor: Actor, id: string, now: int)
    requires DeleteDecision(env, t, actor, id, now).Ok?
    ensures var after := After(env, t, [DeleteOp(actor, id, now)]);
            && id in t && t[id].deletedAt.None?
            && after == t[id := Row(t[id].cols, t[id].createdAt, now, Some(now))]
  {
    var op := DeleteOp(actor, id, now);
    assert [op][..0] == [];
    assert After(env, t, []) == t;
    ApplyAllOne(t, [], Tombstone(id, now));
    assert Statement(env, t, op) == [] + [Tombstone(id, now)];
    assert After(env, t, [op]) == ApplyAll(t, Statement(env, t, op));
  }

  /** A row the policy hides from an actor is never changed by a run of that actor's operations. */
  lemma {:induction false} HiddenRowFrozen(env: Env, t: Table, ops: seq<Op>, actor: Actor, id: string)
    requires id in t && !env.policy.canGet(actor, Read(env, t, id))
    requires forall op | op in ops :: op.actor == actor
    ensures id in After(env, t, ops) && After(env, t, ops)[id] == t[id]
  {
    if ops != [] {
      var op := ops[|ops| - 1];
      assert op in ops;
      HiddenRowFrozen(env, t, ops[..|ops| - 1], actor, id);
      var before := After(env, t, ops[..|ops| - 1]);
      assert Read(env, before, id) == Read(env, t, id);
      assert Spares(env, before, op, id);
      StatementFrame(env, before, op, id);
    }
  }
}
