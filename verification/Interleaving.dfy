/** The store under concurrency: transactions interleave at every await, each seeing the committed
    rows and its own statements. */
module Interleaving {
  import opened Values
  import opened Entities
  import opened RecordMapper
  import opened Store

  /** Where a transaction is inside a service call. */
  datatype Call =
    | Idle
    | Checking(draft: Draft, validated: Validated, limit: Option<int>)   // create, before the count
    | Inserting(draft: Draft, validated: Validated)                      // create, past the check
    | Replacing(actor: Actor, id: string, patch: Patch, existing: Record)
    | Marking(actor: Actor, id: string, existing: Record)
    | Finished(created: bool)                                            // statement executed

  /** A unit of work: the service's own, for a single call, or a caller's, for any number of calls. */
  datatype Tx = Tx(owned: bool, call: Call, pending: seq<Write>)

  /** The committed rows, the open transactions, the limits of the service objects built so far, and
      the limits under which checks have passed. */
  datatype State = State(rows: Table, txs: map<nat, Tx>, limits: set<Option<int>>, passed: set<Option<int>>)

  datatype Step =
    | Begin(tx: nat, owned: bool)
    | StartCreate(tx: nat, actor: Actor, limit: Option<int>, draft: Draft)
    | CheckLimit(tx: nat)
    | DoInsert(tx: nat, id: string, now: int, nonce: int)
    | StartUpdate(tx: nat, actor: Actor, id: string, patch: Patch)
    | DoReplace(tx: nat, now: int, nonce: int)
    | StartDelete(tx: nat, actor: Actor, id: string)
    | DoMark(tx: nat, now: int)
    | Return(tx: nat)
    | Raise(tx: nat)
    | Commit(tx: nat)
    | Abandon(tx: nat)
    | UpdateSettings(limit: Option<int>)

  function Seen(s: State, tx: nat): Table
    requires tx in s.txs
  {
    ApplyAll(s.rows, s.txs[tx].pending)
  }

  function Enter(s: State, tx: nat, call: Call): State
    requires tx in s.txs
  {
    s.(txs := s.txs[tx := s.txs[tx].(call := call)])
  }

  function Executed(s: State, tx: nat, w: Write): State
    requires tx in s.txs
  {
    s.(txs := s.txs[tx := s.txs[tx].(call := Finished(w.Insert?), pending := s.txs[tx].pending + [w])])
  }

  function Without(s: State, tx: nat): State {
    s.(txs := s.txs - {tx})
  }

  /** The statement a call executes from where it stands; None when it has none or would raise. */
  function NextWrite(env: Env, s: State, step: Step): Option<Write> {
    if !(step.DoInsert? || step.DoReplace? || step.DoMark?) || step.tx !in s.txs then None
    else
      var view := Seen(s, step.tx);
      match (s.txs[step.tx].call, step)
      case (Inserting(d, v), DoInsert(_, id, now, nonce)) =>
        var w := NewRow(env, view, d, v, id, now, nonce);
        if w.Ok? then Some(w.value) else None
      case (Replacing(actor, id, patch, existing), DoReplace(_, now, nonce)) =>
        var cols := UpdateColumns(env, actor, existing, patch, nonce);
        if cols.Ok? && id in view then Some(Replace(id, cols.value, now, Repairs(env, actor, existing, patch)))
        else None
      case (Marking(actor, id, existing), DoMark(_, now)) =>
        if env.policy.canDelete(actor, existing) && id in view then Some(Tombstone(id, now)) else None
      case _ => None
  }

  /** The successor of a state under a labelled step; None when the step is not possible. */
  function Next(env: Env, s: State, step: Step): Option<State> {
    match step
    case Begin(tx, owned) =>
      if tx in s.txs then None else Some(s.(txs := s.txs[tx := Tx(owned, Idle, [])]))
    case StartCreate(tx, actor, limit, draft) =>
      if tx !in s.txs || s.txs[tx].call != Idle || limit !in s.limits then None
      else
        var admitted := Admit(env, actor, draft);
        if admitted.Err? then None else Some(Enter(s, tx, Checking(admitted.value.0, admitted.value.1, limit)))
    case CheckLimit(tx) =>
      if tx !in s.txs || !s.txs[tx].call.Checking? || !UnderLimit(s.txs[tx].call.limit, Seen(s, tx)) then None
      else
        var call := s.txs[tx].call;
        Some(Enter(s, tx, Inserting(call.draft, call.validated)).(passed := s.passed + {call.limit}))
    case StartUpdate(tx, actor, id, patch) =>
      if tx !in s.txs || s.txs[tx].call != Idle then None
      else
        var existing := GetDecision(env, Seen(s, tx), actor, id);
        if existing.Err? then None else Some(Enter(s, tx, Replacing(actor, id, patch, existing.value)))
    case StartDelete(tx, actor, id) =>
      if tx !in s.txs || s.txs[tx].call != Idle then None
      else
        var existing := GetDecision(env, Seen(s, tx), actor, id);
        if existing.Err? then None else Some(Enter(s, tx, Marking(actor, id, existing.value)))
    case DoInsert(tx, _, _, _) =>
      var w := NextWrite(env, s, step);
      if w.None? then None else Some(Executed(s, tx, w.value))
    case DoReplace(tx, _, _) =>
      var w := NextWrite(env, s, step);
      if w.None? then None else Some(Executed(s, tx, w.value))
    case DoMark(tx, _) =>
      var w := NextWrite(env, s, step);
      if w.None? then None else Some(Executed(s, tx, w.value))
    case Return(tx) =>
      if tx in s.txs && !s.txs[tx].owned && s.txs[tx].call.Finished? then Some(Enter(s, tx, Idle)) else None
    case Raise(tx) =>
      if tx !in s.txs then None
      else if s.txs[tx].owned then Some(Without(s, tx))
      else if s.txs[tx].call.Finished? then None
      else Some(Enter(s, tx, Idle))
    case Commit(tx) =>
      if tx in s.txs && (if s.txs[tx].owned then s.txs[tx].call.Finished? else s.txs[tx].call == Idle)
      then Some(Without(s, tx).(rows := Seen(s, tx)))
      else None
    case Abandon(tx) => if tx in s.txs then Some(Without(s, tx)) else None
    case UpdateSettings(limit) => Some(s.(limits := s.limits + {limit}))
  }

  /** A run: the states it goes through and the steps between them, from a store with no transaction
      open. */
  ghost predicate IsRun(env: Env, states: seq<State>, steps: seq<Step>) {
    && |states| == |steps| + 1
    && states[0].txs == map[] && states[0].passed == {}
    && forall i | 0 <= i < |steps| :: Next(env, states[i], steps[i]) == Some(states[i + 1])
  }

  ghost function Last(states: seq<State>): State
    requires |states| > 0
  {
    states[|states| - 1]
  }

  /** How a step acts on the committed rows: only a commit changes them. */
  lemma RowsChangeOnCommit(env: Env, s: State, step: Step)
    requires Next(env, s, step).Some?
    ensures Next(env, s, step).value.rows ==
            if step.Commit? then ApplyAll(s.rows, s.txs[step.tx].pending) else s.rows
  {
  }

  /** How a step acts on an open transaction: it may end it, run one statement in it, or only move its
      call along. */
  lemma TxChange(env: Env, s: State, step: Step, tx: nat)
    requires Next(env, s, step).Some?
    requires tx in Next(env, s, step).value.txs
    ensures var after := Next(env, s, step).value.txs[tx];
            if tx !in s.txs then after == Tx(after.owned, Idle, [])
            else
              && after.owned == s.txs[tx].owned
              && (after.pending == s.txs[tx].pending ||
                    (NextWrite(env, s, step).Some? && step.tx == tx &&
                     after.pending == s.txs[tx].pending + [NextWrite(env, s, step).value]))
  {
  }

  // ---------- tombstones ----------

  /** Under any interleaving no row disappears and no deletion mark is cleared. */
  lemma {:induction false} TombstonesPermanent(env: Env, states: seq<State>, steps: seq<Step>, i: nat, j: nat,
                                               id: string)
    requires IsRun(env, states, steps)
    requires i <= j < |states|
    requires id in states[i].rows
    ensures id in states[j].rows
    ensures states[i].rows[id].deletedAt.Some? ==> states[j].rows[id].deletedAt.Some?
    decreases j
  {
    if i < j {
      TombstonesPermanent(env, states, steps, i, j - 1, id);
      assert Next(env, states[j - 1], steps[j - 1]) == Some(states[j - 1 + 1]);
      RowsChangeOnCommit(env, states[j - 1], steps[j - 1]);
      if steps[j - 1].Commit? {
        ApplyAllKeepsTombstones(states[j - 1].rows, states[j - 1].txs[steps[j - 1].tx].pending);
      }
    }
  }

  // ---------- rows an actor cannot see ----------

  ghost predicate StepBy(step: Step, actor: Actor) {
    match step
    case StartCreate(_, a, _, _) => a == actor
    case StartUpdate(_, a, _, _) => a == actor
    case StartDelete(_, a, _) => a == actor
    case _ => true
  }

  /** No transaction holds a statement on the row or is about to make one. */
  ghost predicate Untouched(s: State, id: string, row: Row) {
    && id in s.rows && s.rows[id] == row
    && forall tx | tx in s.txs ::
         && (forall w | w in s.txs[tx].pending :: w.id != id)
         && (s.txs[tx].call.Replacing? || s.txs[tx].call.Marking? ==> s.txs[tx].call.id != id)
  }

  lemma {:induction false} ApplyAllFrame(t: Table, ws: seq<Write>, id: string)
    requires forall w | w in ws :: w.id != id
    ensures id in ApplyAll(t, ws) <==> id in t
    ensures id in t ==> ApplyAll(t, ws)[id] == t[id]
  {
    if ws != [] {
      ApplyAllFrame(t, ws[..|ws| - 1], id);
      ApplyFrame(ApplyAll(t, ws[..|ws| - 1]), ws[|ws| - 1], id);
    }
  }

  lemma RowStaysSeen(s: State, id: string, row: Row, tx: nat)
    requires Untouched(s, id, row) && tx in s.txs
    ensures id in Seen(s, tx) && Seen(s, tx)[id] == row
  {
    ApplyAllFrame(s.rows, s.txs[tx].pending, id);
  }

  lemma WritesElsewhere(env: Env, s: State, step: Step, id: string, row: Row)
    requires Untouched(s, id, row)
    requires NextWrite(env, s, step).Some?
    ensures NextWrite(env, s, step).value.id != id
  {
    RowStaysSeen(s, id, row, step.tx);
  }

  lemma CallsElsewhere(env: Env, s: State, step: Step, actor: Actor, id: string, row: Row, tx: nat)
    requires Untouched(s, id, row)
    requires !env.policy.canGet(actor, ToRecord(env.py, env.provider, id, row))
    requires StepBy(step, actor)
    requires Next(env, s, step).Some? && tx in Next(env, s, step).value.txs
    ensures var call := Next(env, s, step).value.txs[tx].call;
            call.Replacing? || call.Marking? ==> call.id != id
  {
    if tx in s.txs && (step.StartUpdate? || step.StartDelete?) {
      RowStaysSeen(s, id, row, step.tx);
    }
  }

  lemma UntouchedStep(env: Env, s: State, step: Step, actor: Actor, id: string, row: Row)
    requires Untouched(s, id, row)
    requires !env.policy.canGet(actor, ToRecord(env.py, env.provider, id, row))
    requires StepBy(step, actor)
    requires Next(env, s, step).Some?
    ensures Untouched(Next(env, s, step).value, id, row)
  {
    var s' := Next(env, s, step).value;
    RowsChangeOnCommit(env, s, step);
    if step.Commit? {
      ApplyAllFrame(s.rows, s.txs[step.tx].pending, id);
    }
    forall tx | tx in s'.txs
      ensures forall w | w in s'.txs[tx].pending :: w.id != id
      ensures s'.txs[tx].call.Replacing? || s'.txs[tx].call.Marking? ==> s'.txs[tx].call.id != id
    {
      TxChange(env, s, step, tx);
      CallsElsewhere(env, s, step, actor, id, row, tx);
      if NextWrite(env, s, step).Some? {
        WritesElsewhere(env, s, step, id, row);
      }
    }
  }

  /** Under any interleaving of one actor's calls, a row the policy hides from that actor keeps every
      column. */
  lemma {:induction false} HiddenRowUntouched(env: Env, states: seq<State>, steps: seq<Step>, n: nat, actor: Actor,
                                              id: string)
    requires IsRun(env, states, steps) && n < |states|
    requires forall i | 0 <= i < |steps| :: StepBy(steps[i], actor)
    requires id in states[0].rows
    requires !env.policy.canGet(actor, Read(env, states[0].rows, id))
    ensures Untouched(states[n], id, states[0].rows[id])
  {
    if n > 0 {
      HiddenRowUntouched(env, states, steps, n - 1, actor, id);
      assert Next(env, states[n - 1], steps[n - 1]) == Some(states[n - 1 + 1]);
      UntouchedStep(env, states[n - 1], steps[n - 1], actor, id, states[0].rows[id]);
    }
  }
}
