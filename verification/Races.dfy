/** Where serial guarantees stop: an update that read a row before another transaction deleted it. */
module Races {
  import opened Values
  import opened Entities
  import opened Store
  import opened Interleaving

  /** Serially a deleted row is frozen; interleaved it need not be. Whenever one actor may update a row and
      another may delete it, there is a run in which the deletion commits first and the update still
      rewrites the row's content. The row stays deleted. */
  lemma LateUpdateRewritesTombstone(env: Env, t: Table, id: string, updater: Actor, deleter: Actor, patch: Patch,
                                    cols: Columns, at: int, later: int, nonce: int)
    returns (states: seq<State>, steps: seq<Step>)
    requires GetDecision(env, t, updater, id).Ok? && GetDecision(env, t, deleter, id).Ok?
    requires UpdateColumns(env, updater, Read(env, t, id), patch, nonce) == Ok(cols)
    requires env.policy.canDelete(deleter, Read(env, t, id))
    ensures IsRun(env, states, steps) && |steps| == 8
    ensures states[0].rows == t && steps[5] == Commit(1) && steps[7] == Commit(0)
    ensures id in states[6].rows && states[6].rows[id].deletedAt == Some(at) && states[6].rows[id].cols == t[id].cols
    ensures states[8].rows == t[id := Row(cols, t[id].createdAt, later, Some(at))]
  {
    states, steps := BothBegun(env, t);
    states, steps := BothRead(env, states, steps, id, updater, deleter, patch);
    states, steps := DeleteCommits(env, states, steps, id, deleter, at);
    states, steps := UpdateCommits(env, states, steps, id, updater, patch, Read(env, t, id), cols, later, nonce);
  }

  /** A run extended by one step. */
  lemma Then(env: Env, states: seq<State>, steps: seq<Step>, step: Step, s: State)
    requires IsRun(env, states, steps)
    requires Next(env, Last(states), step) == Some(s)
    ensures IsRun(env, states + [s], steps + [step]) && Last(states + [s]) == s
  {
    var all, labels := states + [s], steps + [step];
    assert forall i | 0 <= i < |steps| :: Next(env, all[i], labels[i]) == Next(env, states[i], steps[i]);
  }

  ghost predicate Holds(s: State, tx: nat, call: Call) {
    tx in s.txs && s.txs[tx] == Tx(true, call, [])
  }

  lemma BothBegun(env: Env, t: Table) returns (states: seq<State>, steps: seq<Step>)
    ensures IsRun(env, states, steps) && |steps| == 2 && states[0].rows == t && Last(states).rows == t
    ensures Holds(Last(states), 0, Idle) && Holds(Last(states), 1, Idle)
  {
    var s0 := State(t, map[], {}, {});
    var s1 := Next(env, s0, Begin(0, true)).value;
    var s2 := Next(env, s1, Begin(1, true)).value;
    Then(env, [s0], [], Begin(0, true), s1);
    Then(env, [s0] + [s1], [] + [Begin(0, true)], Begin(1, true), s2);
    states := [s0] + [s1] + [s2];
    steps := [] + [Begin(0, true)] + [Begin(1, true)];
  }

  lemma BothRead(env: Env, states: seq<State>, steps: seq<Step>, id: string, updater: Actor, deleter: Actor,
                 patch: Patch)
    returns (states': seq<State>, steps': seq<Step>)
    requires IsRun(env, states, steps) && Holds(Last(states), 0, Idle) && Holds(Last(states), 1, Idle)
    requires GetDecision(env, Last(states).rows, updater, id).Ok?
             && GetDecision(env, Last(states).rows, deleter, id).Ok?
    ensures IsRun(env, states', steps') && |steps'| == |steps| + 2 && states <= states' && steps <= steps'
    ensures var t := Last(states).rows;
            && Last(states').rows == t
            && Holds(Last(states'), 0, Replacing(updater, id, patch, Read(env, t, id)))
            && Holds(Last(states'), 1, Marking(deleter, id, Read(env, t, id)))
  {
    var s := Last(states);
    assert Seen(s, 0) == s.rows;
    var s' := Next(env, s, StartUpdate(0, updater, id, patch)).value;
    assert Seen(s', 1) == s.rows;
    var s'' := Next(env, s', StartDelete(1, deleter, id)).value;
    Then(env, states, steps, StartUpdate(0, updater, id, patch), s');
    Then(env, states + [s'], steps + [StartUpdate(0, updater, id, patch)], StartDelete(1, deleter, id), s'');
    states' := states + [s'] + [s''];
    steps' := steps + [StartUpdate(0, updater, id, patch)] + [StartDelete(1, deleter, id)];
  }

  lemma ExecuteStep(env: Env, s: State, step: Step, w: Write) returns (s': State)
    requires NextWrite(env, s, step) == Some(w)
    requires s.txs[step.tx].owned && s.txs[step.tx].pending == []
    ensures Next(env, s, step) == Some(s') && s'.rows == s.rows
    ensures step.tx in s'.txs && s'.txs[step.tx] == Tx(true, Finished(w.Insert?), [] + [w])
    ensures forall tx | tx in s.txs && tx != step.tx :: tx in s'.txs && s'.txs[tx] == s.txs[tx]
  {
    s' := Executed(s, step.tx, w);
  }

  lemma CommitStep(env: Env, s: State, tx: nat, w: Write) returns (s': State)
    requires tx in s.txs && s.txs[tx] == Tx(true, Finished(w.Insert?), [] + [w])
    ensures Next(env, s, Commit(tx)) == Some(s') && s'.rows == Apply(s.rows, w)
    ensures forall other | other in s.txs && other != tx :: other in s'.txs && s'.txs[other] == s.txs[other]
  {
    ApplyAllOne(s.rows, [], w);
    s' := Next(env, s, Commit(tx)).value;
  }

  /** A transaction that executes its one statement and commits. */
  lemma ExecuteAndCommit(env: Env, states: seq<State>, steps: seq<Step>, step: Step, w: Write)
    returns (states': seq<State>, steps': seq<Step>)
    requires IsRun(env, states, steps)
    requires NextWrite(env, Last(states), step) == Some(w)
    requires Last(states).txs[step.tx].owned && Last(states).txs[step.tx].pending == []
    ensures IsRun(env, states', steps') && |steps'| == |steps| + 2 && states <= states' && steps <= steps'
    ensures steps'[|steps| + 1] == Commit(step.tx)
    ensures Last(states').rows == Apply(Last(states).rows, w)
    ensures forall tx | tx in Last(states).txs && tx != step.tx ::
              tx in Last(states').txs && Last(states').txs[tx] == Last(states).txs[tx]
  {
    var s' := ExecuteStep(env, Last(states), step, w);
    var s'' := CommitStep(env, s', step.tx, w);
    Then(env, states, steps, step, s');
    Then(env, states + [s'], steps + [step], Commit(step.tx), s'');
    states' := states + [s'] + [s''];
    steps' := steps + [step] + [Commit(step.tx)];
  }

  lemma DeleteCommits(env: Env, states: seq<State>, steps: seq<Step>, id: string, deleter: Actor, at: int)
    returns (states': seq<State>, steps': seq<Step>)
    requires IsRun(env, states, steps)
    requires id in Last(states).rows && Holds(Last(states), 1, Marking(deleter, id, Read(env, Last(states).rows, id)))
    requires env.policy.canDelete(deleter, Read(env, Last(states).rows, id))
    ensures IsRun(env, states', steps') && |steps'| == |steps| + 2 && states <= states' && steps <= steps'
    ensures steps'[|steps| + 1] == Commit(1)
    ensures Last(states').rows == Apply(Last(states).rows, Tombstone(id, at))
    ensures 0 in Last(states).txs ==> 0 in Last(states').txs && Last(states').txs[0] == Last(states).txs[0]
  {
    assert Seen(Last(states), 1) == Last(states).rows;
    states', steps' := ExecuteAndCommit(env, states, steps, DoMark(1, at), Tombstone(id, at));
  }

  lemma UpdateCommits(env: Env, states: seq<State>, steps: seq<Step>, id: string, updater: Actor, patch: Patch,
                      existing: Record, cols: Columns, later: int, nonce: int)
    returns (states': seq<State>, steps': seq<Step>)
    requires IsRun(env, states, steps)
    requires id in Last(states).rows && Holds(Last(states), 0, Replacing(updater, id, patch, existing))
    requires UpdateColumns(env, updater, existing, patch, nonce) == Ok(cols)
    ensures IsRun(env, states', steps') && |steps'| == |steps| + 2 && states <= states' && steps <= steps'
    ensures steps'[|steps| + 1] == Commit(0)
    ensures var row := Last(states).rows[id];
            Last(states').rows == Last(states).rows[id := Row(cols, row.createdAt, later, row.deletedAt)]
  {
    assert Seen(Last(states), 0) == Last(states).rows;
    var w := Replace(id, cols, later, Repairs(env, updater, existing, patch));
    assert NextWrite(env, Last(states), DoReplace(0, later, nonce)) == Some(w);
    states', steps' := ExecuteAndCommit(env, states, steps, DoReplace(0, later, nonce), w);
  }
}
