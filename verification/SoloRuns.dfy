/** The step relation against the service: a call whose steps run without interruption does exactly
    what the service's own decision says. */
module SoloRuns {
  import opened Values
  import opened Entities
  import opened Store
  import opened Interleaving

  /** One more step, if the run got that far. */
  function Then(env: Env, s: Option<State>, step: Step): Option<State> {
    if s.None? then None else Next(env, s.value, step)
  }

  /** What an owned call leaves behind when nothing runs in between: the decided write committed, or no
      way to finish. */
  function Outcome(s: State, decision: Result<Write, Error>): Option<State> {
    if decision.Ok? then Some(s.(rows := Apply(s.rows, decision.value))) else None
  }

  /** The state in which `tx` is the service's own, stands at `call` and has executed nothing. */
  function At(s: State, tx: nat, call: Call): State {
    s.(txs := s.txs[tx := Tx(true, call, [])])
  }

  predicate Executes(step: Step, tx: nat) {
    (step.DoInsert? || step.DoReplace? || step.DoMark?) && step.tx == tx
  }

  lemma SeenAt(s: State, tx: nat, call: Call)
    requires tx !in s.txs
    ensures Seen(At(s, tx, call), tx) == s.rows
  {
  }

  /** From the statement on: it is executed and committed, or the call cannot go on. */
  lemma FinishAt(env: Env, s: State, tx: nat, call: Call, step: Step)
    requires tx !in s.txs && Executes(step, tx)
    ensures var w := NextWrite(env, At(s, tx, call), step);
            Then(env, Next(env, At(s, tx, call), step), Commit(tx)) ==
              if w.Some? then Some(s.(rows := Apply(s.rows, w.value))) else None
  {
    var w := NextWrite(env, At(s, tx, call), step);
    if w.Some? {
      var done := Executed(At(s, tx, call), tx, w.value);
      assert Next(env, At(s, tx, call), step) == Some(done);
      assert [] + [w.value] == [w.value];
      ApplyAllOne(s.rows, [], w.value);
      assert done.txs - {tx} == s.txs;
      assert Without(done, tx) == s;
    }
  }

  lemma StatementOfUpdate(env: Env, s: State, tx: nat, actor: Actor, id: string, patch: Patch, now: int, nonce: int)
    requires tx !in s.txs && GetDecision(env, s.rows, actor, id).Ok?
    ensures var existing := GetDecision(env, s.rows, actor, id).value;
            var w := NextWrite(env, At(s, tx, Replacing(actor, id, patch, existing)), DoReplace(tx, now, nonce));
            var decision := UpdateDecision(env, s.rows, actor, id, patch, now, nonce);
            w == if decision.Ok? then Some(decision.value) else None
  {
    SeenAt(s, tx, Replacing(actor, id, patch, GetDecision(env, s.rows, actor, id).value));
  }

  /** Update, uninterrupted. */
  lemma SoloUpdate(env: Env, s: State, tx: nat, actor: Actor, id: string, patch: Patch, now: int, nonce: int)
    requires tx !in s.txs
    ensures var begun := Next(env, s, Begin(tx, true));
            var done := Then(env, Then(env, begun, StartUpdate(tx, actor, id, patch)), DoReplace(tx, now, nonce));
            Then(env, done, Commit(tx)) == Outcome(s, UpdateDecision(env, s.rows, actor, id, patch, now, nonce))
  {
    SeenAt(s, tx, Idle);
    var existing := GetDecision(env, s.rows, actor, id);
    if existing.Ok? {
      var call := Replacing(actor, id, patch, existing.value);
      assert s.txs[tx := Tx(true, Idle, [])][tx := Tx(true, call, [])] == s.txs[tx := Tx(true, call, [])];
      assert Next(env, At(s, tx, Idle), StartUpdate(tx, actor, id, patch)) == Some(At(s, tx, call));
      StatementOfUpdate(env, s, tx, actor, id, patch, now, nonce);
      FinishAt(env, s, tx, call, DoReplace(tx, now, nonce));
    }
  }

  /** Delete, uninterrupted. */
  lemma SoloDelete(env: Env, s: State, tx: nat, actor: Actor, id: string, now: int)
    requires tx !in s.txs
    ensures var begun := Next(env, s, Begin(tx, true));
            var done := Then(env, Then(env, begun, StartDelete(tx, actor, id)), DoMark(tx, now));
            Then(env, done, Commit(tx)) == Outcome(s, DeleteDecision(env, s.rows, actor, id, now))
  {
    SeenAt(s, tx, Idle);
    var existing := GetDecision(env, s.rows, actor, id);
    if existing.Ok? {
      var call := Marking(actor, id, existing.value);
      assert s.txs[tx := Tx(true, Idle, [])][tx := Tx(true, call, [])] == s.txs[tx := Tx(true, call, [])];
      assert Next(env, At(s, tx, Idle), StartDelete(tx, actor, id)) == Some(At(s, tx, call));
      SeenAt(s, tx, call);
      FinishAt(env, s, tx, call, DoMark(tx, now));
    }
  }

  lemma StatementOfCreate(env: Env, s: State, tx: nat, d: Draft, v: Validated, id: string, now: int, nonce: int)
    requires tx !in s.txs
    ensures var w := NextWrite(env, At(s, tx, Inserting(d, v)), DoInsert(tx, id, now, nonce));
            var decision := NewRow(env, s.rows, d, v, id, now, nonce);
            w == if decision.Ok? then Some(decision.value) else None
  {
    SeenAt(s, tx, Inserting(d, v));
  }

  lemma CheckSolo(env: Env, s: State, tx: nat, d: Draft, v: Validated, limit: Option<int>)
    requires tx !in s.txs
    ensures Next(env, At(s, tx, Checking(d, v, limit)), CheckLimit(tx)) ==
            if UnderLimit(limit, s.rows) then Some(At(s.(passed := s.passed + {limit}), tx, Inserting(d, v))) else None
  {
    var call := Checking(d, v, limit);
    SeenAt(s, tx, call);
    assert s.txs[tx := Tx(true, call, [])][tx := Tx(true, Inserting(d, v), [])] ==
           s.txs[tx := Tx(true, Inserting(d, v), [])];
  }

  lemma StartSolo(env: Env, s: State, tx: nat, actor: Actor, limit: Option<int>, draft: Draft)
    requires tx !in s.txs && limit in s.limits
    ensures var admitted := Admit(env, actor, draft);
            Next(env, At(s, tx, Idle), StartCreate(tx, actor, limit, draft)) ==
              if admitted.Ok? then Some(At(s, tx, Checking(admitted.value.0, admitted.value.1, limit))) else None
  {
    var admitted := Admit(env, actor, draft);
    if admitted.Ok? {
      var call := Checking(admitted.value.0, admitted.value.1, limit);
      assert s.txs[tx := Tx(true, Idle, [])][tx := Tx(true, call, [])] == s.txs[tx := Tx(true, call, [])];
    }
  }

  /** Create, uninterrupted: besides the row, the passed check is on record. */
  lemma SoloCreate(env: Env, s: State, tx: nat, actor: Actor, limit: Option<int>, draft: Draft, id: string, now: int,
                   nonce: int)
    requires tx !in s.txs && limit in s.limits
    ensures var started := Then(env, Next(env, s, Begin(tx, true)), StartCreate(tx, actor, limit, draft));
            var done := Then(env, Then(env, started, CheckLimit(tx)), DoInsert(tx, id, now, nonce));
            Then(env, done, Commit(tx)) ==
              Outcome(s.(passed := s.passed + {limit}),
                      CreateDecision(env, limit, s.rows, actor, draft, id, now, nonce))
  {
    assert Next(env, s, Begin(tx, true)) == Some(At(s, tx, Idle));
    StartSolo(env, s, tx, actor, limit, draft);
    var admitted := Admit(env, actor, draft);
    if admitted.Ok? {
      CheckSolo(env, s, tx, admitted.value.0, admitted.value.1, limit);
      var after := s.(passed := s.passed + {limit});
      StatementOfCreate(env, after, tx, admitted.value.0, admitted.value.1, id, now, nonce);
      FinishAt(env, after, tx, Inserting(admitted.value.0, admitted.value.1), DoInsert(tx, id, now, nonce));
    }
  }
}
