/** Exactly when a deleted row is frozen under interleaving: when no open transaction holds a statement
    that changes it or is about to make one that the service would accept. */
module FrozenRows {
  import opened Values
  import opened Entities
  import opened Store
  import opened Interleaving
  import opened LimitRuns
  import Races

  // ---------- statements on one row ----------

  /** What a statement makes of the row with the given id. */
  function Touch(row: Row, w: Write, id: string): Row {
    if w.id != id then row
    else match w
      case Insert(_, _) => row
      case Replace(_, cols, at, _) => Row(cols, row.createdAt, at, row.deletedAt)
      case Tombstone(_, at) => row.(updatedAt := at, deletedAt := Some(at))
  }

  function TouchAll(row: Row, ws: seq<Write>, id: string): Row {
    if ws == [] then row else Touch(TouchAll(row, ws[..|ws| - 1], id), ws[|ws| - 1], id)
  }

  lemma {:induction false} TouchAllIsApplyAll(t: Table, ws: seq<Write>, id: string)
    requires id in t
    ensures id in ApplyAll(t, ws) && ApplyAll(t, ws)[id] == TouchAll(t[id], ws, id)
  {
    if ws != [] {
      TouchAllIsApplyAll(t, ws[..|ws| - 1], id);
    }
  }

  lemma TouchAllOne(row: Row, ws: seq<Write>, w: Write, id: string)
    ensures TouchAll(row, ws + [w], id) == Touch(TouchAll(row, ws, id), w, id)
  {
    assert (ws + [w])[..|ws|] == ws;
  }

  // ---------- who can still change a deleted row ----------

  /** The call has read the row and is about to execute a statement on it that nothing stops. */
  predicate Poised(env: Env, call: Call, id: string) {
    || (call.Replacing? && call.id == id && UpdateColumns(env, call.actor, call.existing, call.patch, 0).Ok?)
    || (call.Marking? && call.id == id && env.policy.canDelete(call.actor, call.existing))
  }

  predicate Quiet(env: Env, tx: Tx, id: string, row: Row) {
    TouchAll(row, tx.pending, id) == row && !Poised(env, tx.call, id)
  }

  /** The row is deleted and every open transaction leaves it as it is. */
  ghost predicate Settled(env: Env, s: State, id: string, row: Row) {
    && id in s.rows && s.rows[id] == row && row.deletedAt.Some?
    && forall tx | tx in s.txs :: Quiet(env, s.txs[tx], id, row)
  }

  lemma NonceDoesNotDecide(env: Env, actor: Actor, existing: Record, patch: Patch, nonce: int)
    ensures UpdateColumns(env, actor, existing, patch, nonce).Ok? <==> UpdateColumns(env, actor, existing, patch, 0).Ok?
  {
  }

  lemma SettledView(env: Env, s: State, id: string, row: Row, tx: nat)
    requires Settled(env, s, id, row) && tx in s.txs
    ensures id in Seen(s, tx) && Seen(s, tx)[id] == row
  {
    TouchAllIsApplyAll(s.rows, s.txs[tx].pending, id);
  }

  /** Whatever statement comes next is on another row. */
  lemma SettledWrite(env: Env, s: State, step: Step, id: string, row: Row)
    requires Settled(env, s, id, row)
    requires NextWrite(env, s, step).Some?
    ensures NextWrite(env, s, step).value.id != id
  {
    SettledView(env, s, id, row, step.tx);
    var call := s.txs[step.tx].call;
    assert Quiet(env, s.txs[step.tx], id, row);
    if call.Replacing? && step.DoReplace? {
      NonceDoesNotDecide(env, call.actor, call.existing, call.patch, step.nonce);
    }
  }

  /** No call reaches the row anew: it is deleted in every transaction's view. */
  lemma SettledCall(env: Env, s: State, step: Step, id: string, row: Row, tx: nat)
    requires Settled(env, s, id, row)
    requires Next(env, s, step).Some? && tx in Next(env, s, step).value.txs
    ensures !Poised(env, Next(env, s, step).value.txs[tx].call, id)
  {
    if tx in s.txs {
      assert Quiet(env, s.txs[tx], id, row);
      SettledView(env, s, id, row, tx);
    }
  }

  lemma SettledStep(env: Env, s: State, step: Step, id: string, row: Row)
    requires Settled(env, s, id, row)
    requires Next(env, s, step).Some?
    ensures Settled(env, Next(env, s, step).value, id, row)
  {
    var s' := Next(env, s, step).value;
    RowsChangeOnCommit(env, s, step);
    if step.Commit? {
      SettledView(env, s, id, row, step.tx);
    }
    forall tx | tx in s'.txs ensures Quiet(env, s'.txs[tx], id, row) {
      SettledCall(env, s, step, id, row, tx);
      TxChange(env, s, step, tx);
      if tx in s.txs {
        assert Quiet(env, s.txs[tx], id, row);
        var w := NextWrite(env, s, step);
        if w.Some? {
          SettledWrite(env, s, step, id, row);
          TouchAllOne(row, s.txs[tx].pending, w.value, id);
        }
      }
    }
  }

  /** Once settled, a deleted row keeps every column through every continuation, whoever runs. */
  lemma {:induction false} SettledForGood(env: Env, states: seq<State>, steps: seq<Step>, i: nat, j: nat, id: string,
                                          row: Row)
    requires IsRun(env, states, steps) && i <= j < |states|
    requires Settled(env, states[i], id, row)
    ensures Settled(env, states[j], id, row)
    decreases j
  {
    if i < j {
      SettledForGood(env, states, steps, i, j - 1, id, row);
      assert Next(env, states[j - 1], steps[j - 1]) == Some(states[j - 1 + 1]);
      SettledStep(env, states[j - 1], steps[j - 1], id, row);
    }
  }

  lemma {:induction false} TouchesElsewhere(row: Row, ws: seq<Write>, id: string)
    requires forall w | w in ws :: w.id != id
    ensures TouchAll(row, ws, id) == row
  {
    if ws != [] {
      TouchesElsewhere(row, ws[..|ws| - 1], id);
      assert ws[|ws| - 1] in ws;
    }
  }

  /** In particular where no open transaction has anything to do with a deleted row. */
  lemma UntouchedForGood(env: Env, states: seq<State>, steps: seq<Step>, i: nat, j: nat, id: string)
    requires IsRun(env, states, steps) && i <= j < |states|
    requires id in states[i].rows && states[i].rows[id].deletedAt.Some?
    requires Untouched(states[i], id, states[i].rows[id])
    ensures id in states[j].rows && states[j].rows[id] == states[i].rows[id]
  {
    var row := states[i].rows[id];
    forall tx | tx in states[i].txs ensures Quiet(env, states[i].txs[tx], id, row) {
      TouchesElsewhere(row, states[i].txs[tx].pending, id);
    }
    SettledForGood(env, states, steps, i, j, id, row);
  }

  // ---------- and otherwise it can change ----------

  /** The run, and one that goes on from it. */
  ghost predicate Continues(env: Env, states: seq<State>, steps: seq<Step>, states': seq<State>, steps': seq<Step>) {
    IsRun(env, states, steps) && IsRun(env, states', steps') && states <= states' && steps <= steps'
  }

  /** A transaction that may commit does: its statements are applied. */
  lemma CommitNow(env: Env, states: seq<State>, steps: seq<Step>, tx: nat)
    returns (states': seq<State>, steps': seq<Step>)
    requires IsRun(env, states, steps) && tx in Last(states).txs
    requires if Last(states).txs[tx].owned then Last(states).txs[tx].call.Finished?
             else Last(states).txs[tx].call == Idle
    ensures Continues(env, states, steps, states', steps') && |steps'| == |steps| + 1
    ensures Last(states').rows == ApplyAll(Last(states).rows, Last(states).txs[tx].pending)
  {
    var s := Next(env, Last(states), Commit(tx)).value;
    Races.Then(env, states, steps, Commit(tx), s);
    states', steps' := states + [s], steps + [Commit(tx)];
  }

  /** Any transaction can commit what it has executed: the service's own once its call is finished, a
      caller's after leaving its call. */
  lemma Flush(env: Env, states: seq<State>, steps: seq<Step>, tx: nat) returns (states': seq<State>, steps': seq<Step>)
    requires IsRun(env, states, steps) && tx in Last(states).txs
    requires Last(states).txs[tx].owned ==> Last(states).txs[tx].call.Finished?
    ensures Continues(env, states, steps, states', steps') && |steps'| <= |steps| + 2
    ensures Last(states').rows == ApplyAll(Last(states).rows, Last(states).txs[tx].pending)
  {
    states', steps' := states, steps;
    var mine := Last(states).txs[tx];
    if !mine.owned && mine.call != Idle {
      var step := if mine.call.Finished? then Return(tx) else Raise(tx);
      var s := Enter(Last(states), tx, Idle);
      Races.Then(env, states', steps', step, s);
      states', steps' := states' + [s], steps' + [step];
    }
    states', steps' := CommitNow(env, states', steps', tx);
  }

  /** A poised transaction executes its statement, at any time of the clock. */
  lemma Strike(env: Env, states: seq<State>, steps: seq<Step>, tx: nat, id: string, now: int)
    returns (states': seq<State>, steps': seq<Step>, w: Write)
    requires IsRun(env, states, steps) && id in Last(states).rows
    requires tx in Last(states).txs && Poised(env, Last(states).txs[tx].call, id)
    ensures Continues(env, states, steps, states', steps')
    ensures |steps'| == |steps| + 1 && Last(states').rows == Last(states).rows
    ensures tx in Last(states').txs
    ensures Last(states').txs[tx] ==
            Last(states).txs[tx].(call := Finished(false), pending := Last(states).txs[tx].pending + [w])
    ensures var call := Last(states).txs[tx].call;
            if call.Marking? then w == Tombstone(id, now)
            else (w.Replace? && w.id == id && w.at == now
                  && Ok(w.cols) == UpdateColumns(env, call.actor, call.existing, call.patch, 0))
  {
    var s := Last(states);
    TouchAllIsApplyAll(s.rows, s.txs[tx].pending, id);
    var step := if s.txs[tx].call.Marking? then DoMark(tx, now) else DoReplace(tx, now, 0);
    w := NextWrite(env, s, step).value;
    Races.Then(env, states, steps, step, Executed(s, tx, w));
    states', steps' := states + [Executed(s, tx, w)], steps + [step];
  }

  /** A transaction that is not quiet about a row can go on to change it. */
  lemma DisturbedChanges(env: Env, states: seq<State>, steps: seq<Step>, tx: nat, id: string)
    returns (states': seq<State>, steps': seq<Step>)
    requires IsRun(env, states, steps) && id in Last(states).rows
    requires tx in Last(states).txs && !Quiet(env, Last(states).txs[tx], id, Last(states).rows[id])
    ensures Continues(env, states, steps, states', steps') && |steps'| <= |steps| + 3
    ensures id in Last(states').rows && Last(states').rows[id] != Last(states).rows[id]
  {
    var row, mine := Last(states).rows[id], Last(states).txs[tx];
    OneStatementHolds(env, states, steps, |states| - 1);
    TouchAllIsApplyAll(Last(states).rows, mine.pending, id);
    if TouchAll(row, mine.pending, id) != row {
      states', steps' := Flush(env, states, steps, tx);
    } else {
      var w;
      states', steps', w := Strike(env, states, steps, tx, id, row.updatedAt + 1);
      TouchAllOne(row, mine.pending, w, id);
      TouchAllIsApplyAll(Last(states').rows, mine.pending + [w], id);
      states', steps' := Flush(env, states', steps', tx);
    }
  }

  ghost predicate CanChange(env: Env, states: seq<State>, steps: seq<Step>, id: string)
    requires |states| > 0 && id in Last(states).rows
  {
    exists states', steps' ::
      Continues(env, states, steps, states', steps') && id in Last(states').rows
        && Last(states').rows[id] != Last(states).rows[id]
  }

  /** The exact condition: after any run, some continuation changes a deleted row if and only if some
      open transaction holds a statement that changes it or is poised to make one. */
  lemma FrozenExactly(env: Env, states: seq<State>, steps: seq<Step>, id: string)
    requires IsRun(env, states, steps) && id in Last(states).rows && Last(states).rows[id].deletedAt.Some?
    ensures !CanChange(env, states, steps, id) <==> Settled(env, Last(states), id, Last(states).rows[id])
  {
    var row := Last(states).rows[id];
    if Settled(env, Last(states), id, row) {
      forall states', steps' | Continues(env, states, steps, states', steps')
        ensures id in Last(states').rows && Last(states').rows[id] == row
      {
        assert states'[|states| - 1] == Last(states);
        SettledForGood(env, states', steps', |states| - 1, |states'| - 1, id, row);
      }
    } else {
      var tx :| tx in Last(states).txs && !Quiet(env, Last(states).txs[tx], id, row);
      var states', steps' := DisturbedChanges(env, states, steps, tx, id);
      assert Continues(env, states, steps, states', steps');
    }
  }

  lemma ApplyOne(t: Table, w: Write)
    ensures ApplyAll(t, [w]) == Apply(t, w)
  {
    ApplyAllOne(t, [], w);
    assert [] + [w] == [w];
  }

  /** A poised call of the service's own executes and commits, in two steps. */
  lemma StrikeAndCommit(env: Env, states: seq<State>, steps: seq<Step>, tx: nat, id: string, now: int)
    returns (states': seq<State>, steps': seq<Step>, w: Write)
    requires IsRun(env, states, steps) && id in Last(states).rows
    requires tx in Last(states).txs && Last(states).txs[tx].owned && Poised(env, Last(states).txs[tx].call, id)
    ensures Continues(env, states, steps, states', steps') && |steps'| == |steps| + 2
    ensures Last(states').rows == Apply(Last(states).rows, w)
    ensures var call := Last(states).txs[tx].call;
            if call.Marking? then w == Tombstone(id, now)
            else (w.Replace? && w.id == id && w.at == now
                  && Ok(w.cols) == UpdateColumns(env, call.actor, call.existing, call.patch, 0))
  {
    OneStatementHolds(env, states, steps, |states| - 1);
    states', steps', w := Strike(env, states, steps, tx, id, now);
    ApplyOne(Last(states).rows, w);
    states', steps' := CommitNow(env, states', steps', tx);
  }

  /** An update of the service's own that stands past its read rewrites a deleted row in two steps. */
  lemma LateUpdateRewrites(env: Env, states: seq<State>, steps: seq<Step>, tx: nat, id: string, now: int, cols: Columns)
    returns (states': seq<State>, steps': seq<Step>)
    requires IsRun(env, states, steps) && id in Last(states).rows
    requires tx in Last(states).txs && Last(states).txs[tx].owned
    requires var call := Last(states).txs[tx].call;
             call.Replacing? && call.id == id
               && UpdateColumns(env, call.actor, call.existing, call.patch, 0) == Ok(cols)
    ensures Continues(env, states, steps, states', steps') && |steps'| == |steps| + 2
    ensures var row := Last(states).rows[id];
            Last(states').rows == Last(states).rows[id := Row(cols, row.createdAt, now, row.deletedAt)]
  {
    var w;
    states', steps', w := StrikeAndCommit(env, states, steps, tx, id, now);
  }

  /** A deletion that stands past its read moves the deletion mark of a deleted row to a new time. */
  lemma LateDeleteMovesMark(env: Env, states: seq<State>, steps: seq<Step>, tx: nat, id: string, now: int)
    returns (states': seq<State>, steps': seq<Step>)
    requires IsRun(env, states, steps) && id in Last(states).rows
    requires tx in Last(states).txs && Last(states).txs[tx].owned
    requires var call := Last(states).txs[tx].call;
             call.Marking? && call.id == id && env.policy.canDelete(call.actor, call.existing)
    ensures Continues(env, states, steps, states', steps') && |steps'| == |steps| + 2
    ensures Last(states').rows ==
            Last(states).rows[id := Last(states).rows[id].(updatedAt := now, deletedAt := Some(now))]
  {
    var w;
    states', steps', w := StrikeAndCommit(env, states, steps, tx, id, now);
  }
}
