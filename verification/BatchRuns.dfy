/** A caller's unit of work by itself: whatever a list of operations does one after the other, the step
    relation does too, statement by statement and then with one commit. */
module BatchRuns {
  import opened Values
  import opened Entities
  import opened Store
  import opened SerialRuns
  import opened Interleaving

  /** The state after the steps, if every one of them is possible. */
  function Taking(env: Env, s: State, steps: seq<Step>): Option<State> {
    if steps == [] then Some(s)
    else
      var before := Taking(env, s, steps[..|steps| - 1]);
      if before.None? then None else Next(env, before.value, steps[|steps| - 1])
  }

  lemma TakingOne(env: Env, s: State, steps: seq<Step>, step: Step)
    requires Taking(env, s, steps).Some?
    ensures Taking(env, s, steps + [step]) == Next(env, Taking(env, s, steps).value, step)
  {
    assert (steps + [step])[..|steps|] == steps;
  }

  lemma TakingTwo(env: Env, s: State, steps: seq<Step>, a: Step, b: Step, middle: State)
    requires Taking(env, s, steps).Some? && Next(env, Taking(env, s, steps).value, a) == Some(middle)
    ensures Taking(env, s, steps + [a, b]) == Next(env, middle, b)
  {
    TakingOne(env, s, steps, a);
    TakingOne(env, s, steps + [a], b);
    assert steps + [a] + [b] == steps + [a, b];
  }

  /** The state in which the caller's transaction stands at the call with these statements. */
  function Standing(s: State, tx: nat, call: Call, pending: seq<Write>, passed: set<Option<int>>): State {
    s.(txs := s.txs[tx := Tx(false, call, pending)], passed := passed)
  }

  lemma StandingAt(s: State, tx: nat, from: Call, to: Call, pending: seq<Write>, more: seq<Write>,
                   passed: set<Option<int>>)
    ensures var here := Standing(s, tx, from, pending, passed);
            && Seen(here, tx) == ApplyAll(s.rows, pending)
            && here.(txs := here.txs[tx := Tx(false, to, more)]) == Standing(s, tx, to, more, passed)
  {
    assert s.txs[tx := Tx(false, from, pending)][tx := Tx(false, to, more)] == s.txs[tx := Tx(false, to, more)];
  }

  /** From past its reads, a call executes its statement and returns. */
  lemma Executes(env: Env, s: State, tx: nat, call: Call, pending: seq<Write>, passed: set<Option<int>>, step: Step,
                 w: Write)
    requires !step.UpdateSettings? && step.tx == tx
    requires NextWrite(env, Standing(s, tx, call, pending, passed), step) == Some(w)
    ensures Next(env, Standing(s, tx, call, pending, passed), step) ==
            Some(Standing(s, tx, Finished(w.Insert?), pending + [w], passed))
    ensures Next(env, Standing(s, tx, Finished(w.Insert?), pending + [w], passed), Return(tx)) ==
            Some(Standing(s, tx, Idle, pending + [w], passed))
  {
    StandingAt(s, tx, call, Finished(w.Insert?), pending, pending + [w], passed);
    StandingAt(s, tx, Finished(w.Insert?), Idle, pending + [w], pending + [w], passed);
  }

  lemma CreateSteps(env: Env, s: State, tx: nat, pending: seq<Write>, passed: set<Option<int>>, actor: Actor,
                    limit: Option<int>, draft: Draft, id: string, now: int, nonce: int)
    requires limit in s.limits
    requires CreateDecision(env, limit, ApplyAll(s.rows, pending), actor, draft, id, now, nonce).Ok?
    ensures var w := CreateDecision(env, limit, ApplyAll(s.rows, pending), actor, draft, id, now, nonce).value;
            var (d, v) := Admit(env, actor, draft).value;
            var checking := Standing(s, tx, Checking(d, v, limit), pending, passed);
            var inserting := Standing(s, tx, Inserting(d, v), pending, passed + {limit});
            && Next(env, Standing(s, tx, Idle, pending, passed), StartCreate(tx, actor, limit, draft)) == Some(checking)
            && Next(env, checking, CheckLimit(tx)) == Some(inserting)
            && NextWrite(env, inserting, DoInsert(tx, id, now, nonce)) == Some(w)
  {
    var (d, v) := Admit(env, actor, draft).value;
    StandingAt(s, tx, Idle, Checking(d, v, limit), pending, pending, passed);
    StandingAt(s, tx, Checking(d, v, limit), Inserting(d, v), pending, pending, passed);
    StandingAt(s, tx, Inserting(d, v), Idle, pending, pending, passed + {limit});
  }

  lemma UpdateSteps(env: Env, s: State, tx: nat, pending: seq<Write>, passed: set<Option<int>>, actor: Actor,
                    id: string, patch: Patch, now: int, nonce: int)
    requires UpdateDecision(env, ApplyAll(s.rows, pending), actor, id, patch, now, nonce).Ok?
    ensures var w := UpdateDecision(env, ApplyAll(s.rows, pending), actor, id, patch, now, nonce).value;
            var existing := GetDecision(env, ApplyAll(s.rows, pending), actor, id);
            && existing.Ok?
            && var replacing := Standing(s, tx, Replacing(actor, id, patch, existing.value), pending, passed);
            && Next(env, Standing(s, tx, Idle, pending, passed), StartUpdate(tx, actor, id, patch)) == Some(replacing)
            && NextWrite(env, replacing, DoReplace(tx, now, nonce)) == Some(w)
  {
    var existing := GetDecision(env, ApplyAll(s.rows, pending), actor, id).value;
    StandingAt(s, tx, Idle, Replacing(actor, id, patch, existing), pending, pending, passed);
    StandingAt(s, tx, Replacing(actor, id, patch, existing), Idle, pending, pending, passed);
  }

  lemma DeleteSteps(env: Env, s: State, tx: nat, pending: seq<Write>, passed: set<Option<int>>, actor: Actor,
                    id: string, now: int)
    requires DeleteDecision(env, ApplyAll(s.rows, pending), actor, id, now).Ok?
    ensures var w := DeleteDecision(env, ApplyAll(s.rows, pending), actor, id, now).value;
            var existing := GetDecision(env, ApplyAll(s.rows, pending), actor, id);
            && existing.Ok?
            && var marking := Standing(s, tx, Marking(actor, id, existing.value), pending, passed);
            && Next(env, Standing(s, tx, Idle, pending, passed), StartDelete(tx, actor, id)) == Some(marking)
            && NextWrite(env, marking, DoMark(tx, now)) == Some(w)
  {
    var existing := GetDecision(env, ApplyAll(s.rows, pending), actor, id).value;
    StandingAt(s, tx, Idle, Marking(actor, id, existing), pending, pending, passed);
    StandingAt(s, tx, Marking(actor, id, existing), Idle, pending, pending, passed);
  }

  /** The limit of a create is one of the settings'. */
  predicate LimitKnown(s: State, op: Op) {
    op.CreateOp? ==> op.limit in s.limits
  }

  /** An update or a deletion: the start that reads, the statement and the return. */
  lemma Changes(env: Env, s: State, tx: nat, steps: seq<Step>, pending: seq<Write>, passed: set<Option<int>>,
                call: Call, start: Step, step: Step, w: Write)
    returns (steps': seq<Step>)
    requires Taking(env, s, steps) == Some(Standing(s, tx, Idle, pending, passed))
    requires Next(env, Standing(s, tx, Idle, pending, passed), start) == Some(Standing(s, tx, call, pending, passed))
    requires !step.UpdateSettings? && step.tx == tx
    requires NextWrite(env, Standing(s, tx, call, pending, passed), step) == Some(w)
    ensures Taking(env, s, steps') == Some(Standing(s, tx, Idle, pending + [w], passed))
  {
    Executes(env, s, tx, call, pending, passed, step, w);
    TakingTwo(env, s, steps, start, step, Standing(s, tx, call, pending, passed));
    TakingOne(env, s, steps + [start, step], Return(tx));
    steps' := steps + [start, step] + [Return(tx)];
  }

  /** One operation: its steps leave the transaction idle again, with the operation's statement if it has one. */
  lemma OneOperation(env: Env, s: State, tx: nat, steps: seq<Step>, pending: seq<Write>, passed: set<Option<int>>,
                     op: Op)
    returns (steps': seq<Step>, passed': set<Option<int>>)
    requires LimitKnown(s, op)
    requires Taking(env, s, steps) == Some(Standing(s, tx, Idle, pending, passed))
    ensures Taking(env, s, steps') ==
            Some(Standing(s, tx, Idle, pending + Statement(env, ApplyAll(s.rows, pending), op), passed'))
  {
    var view := ApplyAll(s.rows, pending);
    var ws := Statement(env, view, op);
    steps', passed' := steps, passed;
    if ws == [] {
      assert pending + ws == pending;
      return;
    }
    match op
    case CreateOp(actor, limit, draft, id, now, nonce) =>
      CreateSteps(env, s, tx, pending, passed, actor, limit, draft, id, now, nonce);
      var (d, v) := Admit(env, actor, draft).value;
      passed' := passed + {limit};
      TakingTwo(env, s, steps, StartCreate(tx, actor, limit, draft), CheckLimit(tx),
                Standing(s, tx, Checking(d, v, limit), pending, passed));
      steps' := steps + [StartCreate(tx, actor, limit, draft), CheckLimit(tx)];
      Executes(env, s, tx, Inserting(d, v), pending, passed', DoInsert(tx, id, now, nonce), ws[0]);
      TakingTwo(env, s, steps', DoInsert(tx, id, now, nonce), Return(tx),
                Standing(s, tx, Finished(ws[0].Insert?), pending + [ws[0]], passed'));
      steps' := steps' + [DoInsert(tx, id, now, nonce), Return(tx)];
    case UpdateOp(actor, id, patch, now, nonce) =>
      UpdateSteps(env, s, tx, pending, passed, actor, id, patch, now, nonce);
      var call := Replacing(actor, id, patch, GetDecision(env, view, actor, id).value);
      steps' := Changes(env, s, tx, steps, pending, passed, call, StartUpdate(tx, actor, id, patch),
                        DoReplace(tx, now, nonce), ws[0]);
    case DeleteOp(actor, id, now) =>
      DeleteSteps(env, s, tx, pending, passed, actor, id, now);
      var call := Marking(actor, id, GetDecision(env, view, actor, id).value);
      steps' := Changes(env, s, tx, steps, pending, passed, call, StartDelete(tx, actor, id), DoMark(tx, now), ws[0]);
  }

  lemma {:induction false} AllOperations(env: Env, s: State, tx: nat, ops: seq<Op>)
    returns (steps: seq<Step>, passed: set<Option<int>>)
    requires tx !in s.txs && forall op | op in ops :: LimitKnown(s, op)
    ensures Taking(env, s, steps) == Some(Standing(s, tx, Idle, Pending(env, s.rows, ops), passed))
  {
    if ops == [] {
      steps, passed := [Begin(tx, false)], s.passed;
      assert steps[..0] == [];
    } else {
      var init := ops[..|ops| - 1];
      assert forall op | op in init :: op in ops;
      assert ops[|ops| - 1] in ops;
      steps, passed := AllOperations(env, s, tx, init);
      steps, passed := OneOperation(env, s, tx, steps, Pending(env, s.rows, init), passed, ops[|ops| - 1]);
    }
  }

  /** Any list of operations in one unit of work of the caller's is a sequence of steps from any state, which
      leaves the rows the operations leave one after the other, and every other transaction alone. */
  lemma BatchIsSteps(env: Env, s: State, tx: nat, ops: seq<Op>) returns (steps: seq<Step>)
    requires tx !in s.txs && forall op | op in ops :: LimitKnown(s, op)
    ensures var after := Taking(env, s, steps);
            && after.Some? && after.value.rows == After(env, s.rows, ops)
            && after.value.txs == s.txs && after.value.limits == s.limits
  {
    var before, passed := AllOperations(env, s, tx, ops);
    steps := before + [Commit(tx)];
    TakingOne(env, s, before, Commit(tx));
    BatchCommitsTheSame(env, s.rows, ops);
    StandingAt(s, tx, Idle, Idle, Pending(env, s.rows, ops), Pending(env, s.rows, ops), passed);
    assert s.txs[tx := Tx(false, Idle, Pending(env, s.rows, ops))] - {tx} == s.txs;
  }
}
